// The swarm joiner's piece picker: rarest first, endgame duplication, retries up to a ceiling.

module Pickers {
  import opened Bytes

  /** File index and chunk index. */
  datatype Task = Task(file: nat, chunk: nat)

  const MAX_FAILS: nat := 6

  datatype Picker = Picker(pending: set<Task>, inflight: map<Task, nat>, done: set<Task>, fails: map<Task, nat>,
      total: nat)

  function NewPicker(tasks: set<Task>): Picker {
    Picker(tasks, map[], {}, map[], |tasks|)
  }

  function CountOf(m: map<Task, nat>, t: Task): nat {
    if t in m then m[t] else 0
  }

  predicate AllDone(p: Picker) {
    |p.done| >= p.total
  }

  function Rarity(r: map<Task, nat>, t: Task): nat {
    CountOf(r, t)
  }

  /** A rarest pending task, or with none pending any task in flight; nothing once all are done. */
  predicate MayPick(p: Picker, rarity: map<Task, nat>, t: Task) {
    && !AllDone(p)
    && if p.pending != {} then t in p.pending && forall u :: u in p.pending ==> Rarity(rarity, t) <= Rarity(rarity, u)
       else t in p.inflight
  }

  /** A worker may be given a pending task exactly when no other pending task is announced by fewer peers; one
      nobody announces counts as announced by none. With none pending it may be given any task in flight, and
      once all are done nothing. */
  lemma RarestFirst(p: Picker, rarity: map<Task, nat>, t: Task)
    ensures |p.done| >= p.total ==> !MayPick(p, rarity, t)
    ensures |p.done| < p.total && p.pending == {} ==> (MayPick(p, rarity, t) <==> t in p.inflight)
    ensures |p.done| < p.total && p.pending != {} ==>
              (MayPick(p, rarity, t) <==>
              t in p.pending
              && forall u :: u in p.pending && t in rarity && rarity[t] > 0 ==> u in rarity && rarity[t] <= rarity[u])
  {
    if MayPick(p, rarity, t) && p.pending != {} {
      forall u | u in p.pending && t in rarity && rarity[t] > 0
        ensures u in rarity && rarity[t] <= rarity[u]
      {
        assert Rarity(rarity, t) <= Rarity(rarity, u);
      }
    }
  }

  predicate Refuses(p: Picker) {
    AllDone(p) || (p.pending == {} && p.inflight == map[])
  }

  function Picked(p: Picker, t: Task): Picker {
    p.(pending := p.pending - {t}, inflight := p.inflight[t := CountOf(p.inflight, t) + 1])
  }

  /** One worker lets go of t. */
  function Released(m: map<Task, nat>, t: Task): map<Task, nat> {
    if CountOf(m, t) > 1 then m[t := m[t] - 1] else if CountOf(m, t) == 1 then m - {t} else m
  }

  /** The new state and whether this was the first completion of t. */
  function Completed(p: Picker, t: Task): (Picker, bool) {
    var q := p.(inflight := Released(p.inflight, t));
    if t in p.done then (q, false)
    else (q.(done := p.done + {t}, pending := p.pending - {t}, fails := p.fails - {t}), true)
  }

  /** The new state and whether t has now failed too often. */
  function FailedTask(p: Picker, t: Task): (Picker, bool) {
    var q := p.(inflight := Released(p.inflight, t));
    if t in p.done then (q, false)
    else
      var n := CountOf(p.fails, t) + 1;
      if n >= MAX_FAILS then (q.(fails := p.fails[t := n]), true)
      else (q.(fails := p.fails[t := n], pending := p.pending + {t}), false)
  }

  // ---------------------------------------------------------------------------------------
  // Whole runs, whoever the workers are

  /** `held` is what workers are fetching; `firsts`, `retried` and `fatal` are what the picker has
      answered so far, and `counted` the failures it has counted. */
  datatype Run = Run(p: Picker, tasks: set<Task>, held: multiset<Task>, firsts: multiset<Task>,
                     retried: multiset<Task>, counted: multiset<Task>, fatal: set<Task>)

  datatype Event = Pick(rarity: map<Task, nat>, t: Task) | Complete(t: Task) | Fail(t: Task)

  predicate Possible(r: Run, ev: Event) {
    match ev
    case Pick(rarity, t) => MayPick(r.p, rarity, t)
    case Complete(t) => t in r.held
    case Fail(t) => t in r.held
  }

  function NewRun(tasks: set<Task>): Run {
    Run(NewPicker(tasks), tasks, multiset{}, multiset{}, multiset{}, multiset{}, {})
  }

  function After(r: Run, ev: Event): Run {
    match ev
    case Pick(_, t) => r.(p := Picked(r.p, t), held := r.held + multiset{t})
    case Complete(t) =>
      var (p, first) := Completed(r.p, t);
      r.(p := p, held := r.held - multiset{t}, firsts := if first then r.firsts + multiset{t} else r.firsts)
    case Fail(t) =>
      var (p, fatal) := FailedTask(r.p, t);
      r.(p := p, held := r.held - multiset{t},
         retried := if !fatal && t !in r.p.done then r.retried + multiset{t} else r.retried,
         counted := if t !in r.p.done then r.counted + multiset{t} else r.counted,
         fatal := if fatal then r.fatal + {t} else r.fatal)
  }

  /** Where one task stands. */
  predicate TaskSound(r: Run, t: Task) {
    && (t in r.p.done ==> t !in r.p.pending)
    && CountOf(r.p.inflight, t) == r.held[t]
    && (t in r.p.inflight ==> r.p.inflight[t] > 0)
    && (t in r.tasks ==> t in r.p.done || t in r.p.pending || t in r.p.inflight || t in r.fatal)
    && (t in r.p.done || t in r.p.pending || t in r.p.inflight || t in r.fatal ==> t in r.tasks)
    && TaskCounted(r, t)
  }

  /** What has been answered about one task. */
  predicate TaskCounted(r: Run, t: Task) {
    && r.firsts[t] == (if t in r.p.done then 1 else 0)
    && r.retried[t] < MAX_FAILS
    && (t !in r.p.done ==> r.counted[t] == CountOf(r.p.fails, t))
    && (t in r.p.done ==> t !in r.p.fails)
    && (t in r.fatal <==> r.counted[t] >= MAX_FAILS)
    && (t !in r.fatal ==> r.retried[t] == r.counted[t])
    && (t in r.counted || t in r.retried ==> t in r.tasks)
  }

  ghost predicate RunSound(r: Run) {
    r.p.total == |r.tasks| && forall t: Task :: TaskSound(r, t)
  }

  lemma PickStays(r: Run, rarity: map<Task, nat>, u: Task, t: Task)
    requires Possible(r, Pick(rarity, u)) && TaskSound(r, t) && TaskSound(r, u)
    ensures TaskSound(After(r, Pick(rarity, u)), t)
  {
    var later := After(r, Pick(rarity, u));
    assert TaskCounted(later, t);
  }

  lemma CompleteStays(r: Run, u: Task, t: Task)
    requires Possible(r, Complete(u)) && TaskSound(r, t) && TaskSound(r, u)
    ensures TaskSound(After(r, Complete(u)), t)
  {
    var later := After(r, Complete(u));
    assert TaskCounted(later, t);
  }

  lemma FailStays(r: Run, u: Task, t: Task)
    requires Possible(r, Fail(u)) && TaskSound(r, t) && TaskSound(r, u)
    ensures TaskSound(After(r, Fail(u)), t)
  {
    var later := After(r, Fail(u));
    assert TaskCounted(later, t);
  }

  lemma TaskStays(r: Run, ev: Event, t: Task)
    requires Possible(r, ev) && TaskSound(r, t) && TaskSound(r, ev.t)
    ensures TaskSound(After(r, ev), t)
  {
    hide TaskSound, After, Possible;
    match ev
    case Pick(rarity, u) => PickStays(r, rarity, u, t);
    case Complete(u) => CompleteStays(r, u, t);
    case Fail(u) => FailStays(r, u, t);
  }

  lemma NewRunSound(tasks: set<Task>)
    ensures RunSound(NewRun(tasks))
  {
  }

  function RunFrom(r: Run, evs: seq<Event>): Option<Run>
    decreases |evs|
  {
    if evs == [] then Some(r)
    else if Possible(r, evs[0]) then RunFrom(After(r, evs[0]), evs[1..])
    else None
  }

  lemma StepSound(r: Run, ev: Event)
    requires RunSound(r) && Possible(r, ev)
    ensures RunSound(After(r, ev))
  {
    forall t: Task
      ensures TaskSound(After(r, ev), t)
    {
      assert TaskSound(r, t) && TaskSound(r, ev.t);
      TaskStays(r, ev, t);
    }
  }

  /** Over every run: each task is done, pending, in flight or was reported fatal; done and pending are
      disjoint; inflight counts the workers holding a task; a task completes for the first time once. */
  lemma {:induction false} RunsStaySound(r: Run, evs: seq<Event>)
    requires RunSound(r) && RunFrom(r, evs).Some?
    ensures RunSound(RunFrom(r, evs).value) && RunFrom(r, evs).value.tasks == r.tasks
    decreases |evs|
  {
    if evs != [] {
      StepSound(r, evs[0]);
      RunsStaySound(After(r, evs[0]), evs[1..]);
    }
  }

  lemma SubsetSize(a: set<Task>, b: set<Task>)
    requires a <= b
    ensures |a| <= |b| && (|a| == |b| ==> a == b)
  {
    if a != b {
      var t :| t in b && t !in a;
      SubsetSize(a, b - {t});
    }
  }

  /** All tasks are done exactly when the count says so. */
  lemma AllDoneMeansAll(r: Run)
    requires RunSound(r)
    ensures AllDone(r.p) <==> r.p.done == r.tasks
  {
    forall t | t in r.p.done
      ensures t in r.tasks
    {
      assert TaskSound(r, t);
    }
    SubsetSize(r.p.done, r.tasks);
  }

  /** The picker turns a worker away before the end only after a fatal report; every unfinished task
      then has one. */
  lemma RefusalMeansFatal(r: Run)
    requires RunSound(r) && Refuses(r.p) && !AllDone(r.p)
    ensures r.fatal != {} && forall t :: t in r.tasks && t !in r.p.done ==> t in r.fatal
  {
    AllDoneMeansAll(r);
    forall t | t in r.tasks && t !in r.p.done
      ensures t in r.fatal
    {
      assert TaskSound(r, t);
    }
    forall t | t in r.p.done
      ensures t in r.tasks
    {
      assert TaskSound(r, t);
    }
    var t :| t in r.tasks && t !in r.p.done;
  }

  lemma {:induction false} Bounded(ms: multiset<Task>, tasks: set<Task>, k: nat)
    requires forall t :: t in ms ==> t in tasks && ms[t] <= k
    ensures |ms| <= |tasks| * k
    decreases |tasks|
  {
    if tasks == {} {
      assert ms == multiset{};
    } else {
      var t :| t in tasks;
      Bounded(ms[t := 0], tasks - {t}, k);
      assert |ms| == |ms[t := 0]| + ms[t];
      assert |tasks| * k == |tasks - {t}| * k + k;
    }
  }

  /** First completions and retries together never exceed tasks times the ceiling. */
  lemma WorkIsBounded(r: Run)
    requires RunSound(r)
    ensures |r.firsts| + |r.retried| <= |r.tasks| * MAX_FAILS
  {
    forall t | t in r.firsts
      ensures t in r.tasks && r.firsts[t] <= 1
    {
      assert TaskSound(r, t);
    }
    forall t | t in r.retried
      ensures t in r.tasks && r.retried[t] <= MAX_FAILS - 1
    {
      assert TaskSound(r, t);
    }
    Bounded(r.firsts, r.tasks, 1);
    Bounded(r.retried, r.tasks, MAX_FAILS - 1);
  }

  // ---------------------------------------------------------------------------------------
  // Counted failures: the ceiling holds until something is reported about a fatal task

  /** First completions and counted failures of one task stay within the ceiling. */
  predicate WithinCeiling(r: Run, t: Task) {
    r.firsts[t] + r.counted[t] <= MAX_FAILS
  }

  predicate Reports(ev: Event, t: Task) {
    !ev.Pick? && ev.t == t
  }

  /** One report keeps a task within the ceiling exactly when the task has not been reported fatal. */
  lemma ReportKeepsCeiling(r: Run, ev: Event, t: Task)
    requires RunSound(r) && Possible(r, ev) && Reports(ev, t) && WithinCeiling(r, t)
    ensures WithinCeiling(After(r, ev), t) <==> t !in r.fatal
  {
    assert TaskSound(r, t);
  }

  /** At some point of the run t was reported after it had been reported fatal. */
  predicate ReportedAfterFatal(r: Run, evs: seq<Event>, t: Task)
    requires RunFrom(r, evs).Some?
    decreases |evs|
  {
    evs != [] && ((Reports(evs[0], t) && t in r.fatal) || ReportedAfterFatal(After(r, evs[0]), evs[1..], t))
  }

  lemma PassedStaysPassed(r: Run, ev: Event, t: Task)
    requires Possible(r, ev) && !WithinCeiling(r, t)
    ensures !WithinCeiling(After(r, ev), t)
  {
  }

  lemma {:induction false} PassedForGood(r: Run, evs: seq<Event>, t: Task)
    requires RunFrom(r, evs).Some? && !WithinCeiling(r, t)
    ensures !WithinCeiling(RunFrom(r, evs).value, t)
    decreases |evs|
  {
    hide WithinCeiling, After, Possible;
    if evs != [] {
      PassedStaysPassed(r, evs[0], t);
      PassedForGood(After(r, evs[0]), evs[1..], t);
    }
  }

  /** Over every run: a task is within the ceiling exactly when nothing about it was reported after a
      fatal report of it. */
  lemma {:induction false} CeilingHoldsIff(r: Run, evs: seq<Event>, t: Task)
    requires RunSound(r) && RunFrom(r, evs).Some? && WithinCeiling(r, t)
    ensures WithinCeiling(RunFrom(r, evs).value, t) <==> !ReportedAfterFatal(r, evs, t)
    decreases |evs|
  {
    hide WithinCeiling, After, Possible, RunSound;
    if evs != [] {
      var later := After(r, evs[0]);
      StepSound(r, evs[0]);
      if Reports(evs[0], t) {
        ReportKeepsCeiling(r, evs[0], t);
      } else {
        OthersKeepCeiling(r, evs[0], t);
      }
      if WithinCeiling(later, t) {
        CeilingHoldsIff(later, evs[1..], t);
      } else {
        PassedForGood(later, evs[1..], t);
      }
    }
  }

  lemma OthersKeepCeiling(r: Run, ev: Event, t: Task)
    requires Possible(r, ev) && !Reports(ev, t)
    ensures WithinCeiling(After(r, ev), t) <==> WithinCeiling(r, t)
  {
  }

  /** So with no report after a fatal one, first completions and counted failures of all tasks together
      never exceed tasks times the ceiling. */
  lemma FailuresAreBounded(tasks: set<Task>, evs: seq<Event>)
    requires RunFrom(NewRun(tasks), evs).Some?
    requires forall t :: t in tasks ==> !ReportedAfterFatal(NewRun(tasks), evs, t)
    ensures var r := RunFrom(NewRun(tasks), evs).value; |r.firsts| + |r.counted| <= |tasks| * MAX_FAILS
  {
    hide RunFrom, ReportedAfterFatal;
    var start := NewRun(tasks);
    NewRunSound(tasks);
    RunsStaySound(start, evs);
    var r := RunFrom(start, evs).value;
    var both := r.firsts + r.counted;
    forall t | t in both
      ensures t in tasks && both[t] <= MAX_FAILS
    {
      assert TaskSound(r, t);
      CeilingHoldsIff(start, evs, t);
    }
    Bounded(both, tasks, MAX_FAILS);
  }

  lemma TwoSteps(r: Run, a: Event, b: Event, evs: seq<Event>)
    requires Possible(r, a) && Possible(After(r, a), b)
    ensures RunFrom(r, [a, b] + evs) == RunFrom(After(After(r, a), b), evs)
  {
    var all := [a, b] + evs;
    assert all[1..] == [b] + evs && all[1..][1..] == evs;
  }

  lemma {:induction false} RunJoins(r: Run, a: seq<Event>, b: seq<Event>)
    requires RunFrom(r, a).Some?
    ensures RunFrom(r, a + b) == RunFrom(RunFrom(r, a).value, b)
    decreases |a|
  {
    if a == [] {
      assert a + b == b;
    } else {
      assert (a + b)[1..] == a[1..] + b;
      RunJoins(After(r, a[0]), a[1..], b);
    }
  }

  /** The only task has failed n times and is pending again, while one worker goes on fetching it. */
  function Racing(t: Task, n: nat): Run {
    Run(Picker({t}, map[t := 1], {}, map[t := n], 1), {t}, multiset{t}, multiset{},
        multiset{}[t := n], multiset{}[t := n], {})
  }

  /** Both workers fetch the only task, which has failed n times. */
  function Shared(t: Task, n: nat): Run {
    Run(Picker({}, map[t := 2], {}, if n == 0 then map[] else map[t := n], 1), {t}, multiset{t, t}, multiset{},
        multiset{}[t := n], multiset{}[t := n], {})
  }

  lemma RacePicks(t: Task, n: nat)
    requires 0 < n < MAX_FAILS
    ensures Possible(Racing(t, n), Pick(map[], t)) && After(Racing(t, n), Pick(map[], t)) == Shared(t, n)
  {
    var r := Racing(t, n);
    assert Picked(r.p, t) == Shared(t, n).p;
    assert r.held + multiset{t} == multiset{t, t};
  }

  lemma RaceFails(t: Task, n: nat)
    requires n < MAX_FAILS - 1
    ensures Possible(Shared(t, n), Fail(t)) && After(Shared(t, n), Fail(t)) == Racing(t, n + 1)
  {
    var r := Shared(t, n);
    assert Released(r.p.inflight, t) == map[t := 1] && r.p.fails[t := n + 1] == map[t := n + 1];
    assert r.p.pending + {t} == {t};
    assert FailedTask(r.p, t) == (Racing(t, n + 1).p, false);
    assert multiset{t, t} - multiset{t} == multiset{t};
    assert r.counted + multiset{t} == multiset{}[t := n + 1];
  }

  lemma RaceBegins(t: Task)
    ensures var picks := [Pick(map[], t), Pick(map[], t)];
            RunFrom(NewRun({t}), picks) == Some(Shared(t, 0))
  {
    var r0 := NewRun({t});
    assert MayPick(r0.p, map[], t);
    assert Picked(r0.p, t) == Picker({}, map[t := 1], {}, map[], 1);
    var r1 := After(r0, Pick(map[], t));
    assert r1 == Run(Picker({}, map[t := 1], {}, map[], 1), {t}, multiset{t}, multiset{}, multiset{}, multiset{}, {});
    assert MayPick(r1.p, map[], t);
    assert Picked(r1.p, t) == Shared(t, 0).p;
    assert multiset{t} + multiset{t} == multiset{t, t};
    var r2 := After(r1, Pick(map[], t));
    assert r2 == Shared(t, 0);
    TwoSteps(r0, Pick(map[], t), Pick(map[], t), []);
    assert [Pick(map[], t), Pick(map[], t)] + [] == [Pick(map[], t), Pick(map[], t)];
  }

  lemma {:induction false} RaceLasts(t: Task, n: nat) returns (evs: seq<Event>)
    requires n < MAX_FAILS
    ensures RunFrom(NewRun({t}), evs) == Some(Shared(t, n))
  {
    hide RunFrom, Racing, Shared, After, Possible;
    if n == 0 {
      RaceBegins(t);
      evs := [Pick(map[], t), Pick(map[], t)];
    } else {
      var before := RaceLasts(t, n - 1);
      var more := [Fail(t), Pick(map[], t)];
      RaceFails(t, n - 1);
      RacePicks(t, n);
      TwoSteps(Shared(t, n - 1), Fail(t), Pick(map[], t), []);
      NoSteps(Shared(t, n));
      assert more + [] == more;
      RunJoins(NewRun({t}), before, more);
      evs := before + more;
    }
  }

  lemma NoSteps(r: Run)
    ensures RunFrom(r, []) == Some(r)
  {
  }

  /** The sixth failure is fatal, and the other worker still fetches the task. */
  function Doomed(t: Task): Run {
    Run(Picker({}, map[t := 1], {}, map[t := MAX_FAILS], 1), {t}, multiset{t}, multiset{},
        multiset{}[t := MAX_FAILS - 1], multiset{}[t := MAX_FAILS], {t})
  }

  lemma RaceIsFatal(t: Task)
    ensures var r := Shared(t, MAX_FAILS - 1); Possible(r, Fail(t)) && After(r, Fail(t)) == Doomed(t)
  {
    var r := Shared(t, MAX_FAILS - 1);
    assert Released(r.p.inflight, t) == map[t := 1] && r.p.fails[t := MAX_FAILS] == map[t := MAX_FAILS];
    assert FailedTask(r.p, t) == (Doomed(t).p, true);
    assert multiset{t, t} - multiset{t} == multiset{t};
    assert r.counted + multiset{t} == multiset{}[t := MAX_FAILS];
  }

  lemma RaceEnds(t: Task)
    ensures Possible(Doomed(t), Complete(t))
    ensures var end := After(Doomed(t), Complete(t));
            end.firsts == multiset{t} && end.counted == multiset{}[t := MAX_FAILS]
  {
    assert Completed(Doomed(t).p, t).1;
  }

  /** And the ceiling is passed: two workers fetch the only task, one of them sees it fail six times over,
      the sixth time fatally, and then the other completes it. */
  lemma FailuresPassTheCeiling(t: Task)
    ensures exists evs: seq<Event> ::
              var end := RunFrom(NewRun({t}), evs);
              end.Some? && |end.value.firsts| + |end.value.counted| == |{t}| * MAX_FAILS + 1
  {
    hide RunFrom, Shared, Doomed, After, Possible;
    var r := Shared(t, MAX_FAILS - 1);
    var evs := RaceLasts(t, MAX_FAILS - 1);
    var last := [Fail(t), Complete(t)];
    RaceIsFatal(t);
    RaceEnds(t);
    TwoSteps(r, Fail(t), Complete(t), []);
    NoSteps(After(Doomed(t), Complete(t)));
    assert last + [] == last;
    RunJoins(NewRun({t}), evs, last);
    var end := RunFrom(NewRun({t}), evs + last);
    assert |end.value.firsts| + |end.value.counted| == |{t}| * MAX_FAILS + 1;
  }

  // ---------------------------------------------------------------------------------------
  // The picker itself

  class LivePicker {
    var pending: set<Task>
    var inflight: map<Task, nat>
    var done: set<Task>
    var fails: map<Task, nat>
    const total: nat

    function View(): Picker
      reads this
    {
      Picker(pending, inflight, done, fails, total)
    }

    constructor (tasks: seq<Task>)
      requires forall i, j :: 0 <= i < j < |tasks| ==> tasks[i] != tasks[j]
      ensures View() == NewPicker(set t | t in tasks)
    {
      total := |tasks|;
      inflight, done, fails := map[], {}, map[];
      pending := {};
      new;
      var i := 0;
      while i < |tasks|
        invariant i <= |tasks| && pending == (set t | t in tasks[..i]) && |pending| == i
        invariant inflight == map[] && done == {} && fails == map[]
      {
        assert tasks[..i + 1] == tasks[..i] + [tasks[i]];
        assert tasks[i] !in tasks[..i];
        pending := pending + {tasks[i]};
        i := i + 1;
      }
      assert tasks[..i] == tasks;
    }

    /** The map is walked in no particular order. */
    method Pick(rarity: map<Task, nat>) returns (t: Task, ok: bool, endgame: bool)
      modifies this`pending, this`inflight
      ensures !ok ==> Refuses(old(View())) && View() == old(View())
      ensures ok ==> MayPick(old(View()), rarity, t) && View() == Picked(old(View()), t)
      ensures ok ==> (endgame <==> old(pending) == {})
    {
      t, ok, endgame := Task(0, 0), false, false;
      if |done| >= total {
        return;
      }
      if pending != {} {
        var rest, bestR, has := pending, 0, false;
        while rest != {}
          invariant rest <= pending && (has <==> rest != pending)
          invariant has ==> t in pending && bestR == Rarity(rarity, t)
          invariant has ==> forall u :: u in pending && u !in rest ==> bestR <= Rarity(rarity, u)
          decreases rest
        {
          var u :| u in rest;
          var r := Rarity(rarity, u);
          if !has || r < bestR {
            t, bestR, has := u, r, true;
          }
          rest := rest - {u};
        }
        pending := pending - {t};
        inflight := inflight[t := CountOf(inflight, t) + 1];
        return t, true, false;
      }
      if inflight.Keys != {} {
        var u :| u in inflight.Keys;
        inflight := inflight[u := inflight[u] + 1];
        return u, true, true;
      }
    }

    method Release(t: Task)
      modifies this`inflight
      ensures inflight == Released(old(inflight), t)
    {
      if t in inflight && inflight[t] > 0 {
        inflight := inflight[t := inflight[t] - 1];
        if inflight[t] <= 0 {
          inflight := inflight - {t};
        }
      }
    }

    method Complete(t: Task) returns (first: bool)
      modifies this`pending, this`inflight, this`done, this`fails
      ensures (View(), first) == Completed(old(View()), t)
    {
      Release(t);
      if t in done {
        return false;
      }
      done := done + {t};
      pending := pending - {t};
      fails := fails - {t};
      return true;
    }

    method Fail(t: Task) returns (fatal: bool)
      modifies this`pending, this`inflight, this`fails
      ensures (View(), fatal) == FailedTask(old(View()), t)
    {
      Release(t);
      if t in done {
        return false;
      }
      fails := fails[t := CountOf(fails, t) + 1];
      if fails[t] >= MAX_FAILS {
        return true;
      }
      pending := pending + {t};
      return false;
    }
  }
}
