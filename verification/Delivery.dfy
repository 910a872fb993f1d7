// From opening a file to settling it: bounded runs, at most four sends a chunk, none of a spared one.

module Delivery {
  import opened Bytes
  import opened Bitmaps
  import opened Ledgers
  import opened Sidecars
  import opened Protocol
  import opened CommitSafety
  import opened Liveness
  import opened Progress
  import opened Sessions
  import Grid

  lemma HasBitCounts(l: Ledger)
    ensures HasBit(l) <==> Count(l.have) > 0
  {
    CountNone(l.have);
  }

  lemma SourceIsNotEmpty(w: Origin, id: Identity)
    requires Usable(w, id)
    ensures |SourceOf(w, id).chunks| > 0
  {
    Grid.CountBounds(Grid.CanonicalLayout(id.size));
  }

  lemma NewSessionPhases(o: Source, sparse: bool, contents: seq<Data>, r: Receiver, start: Start)
    requires r.led.Shaped(|o.chunks|) && (r.awaitClaims ==> HasBit(r.led))
    requires !r.resolved && !r.errored && r.fd == Live && r.retries == map[]
    ensures var c := NewSession(o, sparse, contents, r, start);
            SettlingSound(c) && PhaseSound(c) && Clean(c)
  {
    hide ClaimHashes, Count;
    HasBitCounts(r.led);
  }

  lemma NewSessionAccounts(o: Source, sparse: bool, contents: seq<Data>, r: Receiver, start: Start, i: nat)
    requires r.led.Shaped(|o.chunks|) && i < |o.chunks| && WellShaped(NewSession(o, sparse, contents, r, start))
    ensures Accounted(NewSession(o, sparse, contents, r, start), i)
  {
    hide ClaimHashes;
  }

  lemma NewSessionLively(o: Source, sparse: bool, contents: seq<Data>, r: Receiver, start: Start)
    requires r.led.Shaped(|o.chunks|) && |o.chunks| > 0
    requires Safe(NewSession(o, sparse, contents, r, start))
    requires r.fd == Live && !r.finalQueued && !r.resolved && !r.errored && r.arrived == {} && r.retries == map[]
    requires r.awaitClaims ==> HasBit(r.led)
    requires start.Delta? ==> r.adopted && (HasBit(r.led) ==> r.awaitClaims && !r.claimsResolved)
    ensures Lively(NewSession(o, sparse, contents, r, start)) && Clean(NewSession(o, sparse, contents, r, start))
  {
    var c := NewSession(o, sparse, contents, r, start);
    NewSessionPhases(o, sparse, contents, r, start);
    assert start.Delta? ==> !Gate(r) by {
      if start.Delta? && r.led.Complete() {
        assert r.led.have[0];
      }
    }
    hide SettlingSound, PhaseSound, ClaimHashes, Accounted, Clean;
    forall i | 0 <= i < |o.chunks|
      ensures Accounted(c, i)
    {
      NewSessionAccounts(o, sparse, contents, r, start, i);
    }
  }

  /** Whatever sessions came before, a file that is opened starts out sound, lively and clean. */
  lemma OpenedIsLively(w: Origin, history: seq<Event>, ev: Event)
    requires After(w, history).Some? && ev.Begin? && Possible(w, After(w, history).value, ev)
    ensures var run := Next(w, After(w, history).value, ev).live.value;
            Lively(run.c) && Clean(run.c) && run.c.o == SourceOf(w, ev.id) && Budgets(run.c)
  {
    var world := After(w, history).value;
    HistorySound(w, history);
    BeginSound(w, world, ev);
    SourceIsNotEmpty(w, ev.id);
    NewSessionLively(SourceOf(w, ev.id), ev.sparse, ev.contents,
                     Opened(w, world.disk, ev.id, ev.start, ev.contents, ev.bad), ev.start);
  }

  // ---------------------------------------------------------------------------------------
  // How often a chunk is sent

  function TasksFor(ts: seq<Token>, i: nat): nat {
    if ts == [] then 0 else (if ts[0] == Task(i) then 1 else 0) + TasksFor(ts[1..], i)
  }

  lemma {:induction false} TasksReplace(ts: seq<Token>, k: nat, t: Token, i: nat)
    requires k < |ts|
    ensures TasksFor(ts[k := t], i)
        == TasksFor(ts, i) - (if ts[k] == Task(i) then 1 else 0) + (if t == Task(i) then 1 else 0)
  {
    if k == 0 {
      assert ts[0 := t][1..] == ts[1..];
    } else {
      assert ts[k := t][1..] == ts[1..][k - 1 := t];
      TasksReplace(ts[1..], k - 1, t, i);
    }
  }

  lemma {:induction false} TasksRemove(ts: seq<Token>, k: nat, i: nat)
    requires k < |ts|
    ensures TasksFor(Remove(ts, k), i) == TasksFor(ts, i) - if ts[k] == Task(i) then 1 else 0
  {
    if k == 0 {
      assert Remove(ts, 0) == ts[1..];
    } else {
      assert Remove(ts, k)[0] == ts[0] && Remove(ts, k)[1..] == Remove(ts[1..], k - 1);
      TasksRemove(ts[1..], k - 1, i);
    }
  }

  lemma {:induction false} TasksAppend(ts: seq<Token>, t: Token, i: nat)
    ensures TasksFor(ts + [t], i) == TasksFor(ts, i) + if t == Task(i) then 1 else 0
  {
    if ts == [] {
      assert ts + [t] == [t];
    } else {
      assert (ts + [t])[1..] == ts[1..] + [t];
      TasksAppend(ts[1..], t, i);
    }
  }

  /** How many more times chunk i can go out: the tasks queued for it, the scheduler's one, and the
      retries the sender still grants. */
  function SendBudget(c: Session, i: nat): nat {
    TasksFor(c.tokens, i) + (if c.s.next > i then 0 else 1)
    + (if Tries(c.s.retries, i) > MAX_TRIES then 0 else MAX_TRIES - Tries(c.s.retries, i))
  }

  ghost predicate Budgets(c: Session) {
    forall i :: SendBudget(c, i) <= MAX_TRIES + 1
  }

  /** This step puts chunk i on a stream. */
  predicate Sends(c: Session, st: Step, i: nat) {
    st.Send? && st.k < |c.tokens| && c.tokens[st.k] == Task(i) && !c.s.errored && !c.s.resolved
  }

  lemma MoveKeepsBudget(c: Session, k: nat, t: Token, i: nat)
    requires k < |c.tokens| && !t.Task?
    ensures var spent := if c.tokens[k] == Task(i) then 1 else 0;
            && SendBudget(c.(tokens := c.tokens[k := t]), i) + spent == SendBudget(c, i)
            && SendBudget(c.(tokens := Remove(c.tokens, k)), i) + spent == SendBudget(c, i)
  {
    TasksReplace(c.tokens, k, t, i);
    TasksRemove(c.tokens, k, i);
  }

  lemma SameBudget(c: Session, d: Session, i: nat)
    requires d.tokens == c.tokens && d.s.next == c.s.next && d.s.retries == c.s.retries
    ensures SendBudget(d, i) == SendBudget(c, i)
  {
  }

  lemma MovingSpendsBudget(c: Session, st: Step, i: nat)
    requires WellShaped(c) && Enabled(c, st)
    requires st.Send? || st.Snapshot? || st.Write? || st.Mark?
    ensures SendBudget(Apply(c, st), i) + (if Sends(c, st, i) then 1 else 0) <= SendBudget(c, i)
  {
    var k := st.k;
    var t := c.tokens[k];
    match st
    case Send(_) =>
      var zero := c.sparse && AllZero(c.o.chunks[t.idx]);
      MoveKeepsBudget(c, k, Frame(t.idx, zero, if zero then [] else c.o.chunks[t.idx]), i);
    case Snapshot(_) => MoveKeepsBudget(c, k, Snapped(t.idx, t.zero, t.data), i);
    case Write(_) => MoveKeepsBudget(c, k, Written(t.idx, t.zero, t.data), i);
    case Mark(_) => MoveKeepsBudget(c, k, Marked(t.idx), i);
  }

  lemma RemovingSpendsBudget(c: Session, st: Step, i: nat)
    requires WellShaped(c) && Enabled(c, st)
    requires st.SendFailure? || st.Reject? || st.TornWrite? || st.Check?
    ensures SendBudget(Apply(c, st), i) <= SendBudget(c, i)
  {
    var k := st.k;
    MoveKeepsBudget(c, k, Marked(0), i);
    var d := Apply(c, st);
    assert d.tokens == Remove(c.tokens, k);
    assert d.s.next == c.s.next && d.s.retries == c.s.retries;
    SameBudget(c.(tokens := Remove(c.tokens, k)), d, i);
  }

  lemma ReplySpendsBudget(c: Session, i: nat)
    requires WellShaped(c) && Enabled(c, TakeReply)
    ensures SendBudget(Apply(c, TakeReply), i) <= SendBudget(c, i)
  {
    if c.toS[0].ChunkRetry? {
      TasksAppend(c.tokens, Task(c.toS[0].idx), i);
    }
  }

  lemma ScheduleSpendsBudget(c: Session, i: nat)
    requires WellShaped(c) && Enabled(c, Schedule)
    ensures SendBudget(Apply(c, Schedule), i) <= SendBudget(c, i)
  {
    TasksAppend(c.tokens, Task(c.s.next), i);
  }

  lemma StepSpendsBudget(c: Session, st: Step, i: nat)
    requires WellShaped(c) && Enabled(c, st)
    ensures SendBudget(Apply(c, st), i) + (if Sends(c, st, i) then 1 else 0) <= SendBudget(c, i)
  {
    match st
    case Schedule => ScheduleSpendsBudget(c, i);
    case TakeReply => ReplySpendsBudget(c, i);
    case Send(_) => MovingSpendsBudget(c, st, i);
    case Snapshot(_) => MovingSpendsBudget(c, st, i);
    case Write(_) => MovingSpendsBudget(c, st, i);
    case Mark(_) => MovingSpendsBudget(c, st, i);
    case SendFailure(_) => RemovingSpendsBudget(c, st, i);
    case Reject(_) => RemovingSpendsBudget(c, st, i);
    case TornWrite(_, _) => RemovingSpendsBudget(c, st, i);
    case Check(_) => RemovingSpendsBudget(c, st, i);
    case _ => SameBudget(c, Apply(c, st), i);
  }

  ghost function TimesSent(c: Session, steps: seq<Step>, i: nat): nat
    requires RunFrom(c, steps).Some?
    decreases |steps|
  {
    if steps == [] then 0
    else (if Sends(c, steps[0], i) then 1 else 0) + TimesSent(Apply(c, steps[0]), steps[1..], i)
  }

  lemma {:induction false} RunSpendsBudget(c: Session, steps: seq<Step>, i: nat)
    requires RunFrom(c, steps).Some?
    ensures TimesSent(c, steps, i) <= SendBudget(c, i)
    decreases |steps|
  {
    if steps != [] {
      StepSpendsBudget(c, steps[0], i);
      RunSpendsBudget(Apply(c, steps[0]), steps[1..], i);
    }
  }

  // ---------------------------------------------------------------------------------------
  // Spared chunks

  ghost predicate NoToken(ts: seq<Token>, i: nat) {
    forall k :: 0 <= k < |ts| ==> ts[k].idx != i
  }

  ghost predicate NotAsked(toS: seq<ToSender>, i: nat) {
    forall k :: 0 <= k < |toS| ==> toS[k] != ChunkRetry(i)
  }

  /** Chunk i is spared by the sender's final bitmap, and nothing about it is on its way. */
  ghost predicate Quiet(c: Session, i: nat) {
    && c.s.have.Some? && c.s.claim.None? && i < |c.s.have.value| && c.s.have.value[i]
    && NoToken(c.tokens, i) && NotAsked(c.toS, i)
  }

  lemma QuietAtToken(c: Session, st: Step, i: nat)
    requires WellShaped(c) && Enabled(c, st) && Quiet(c, i)
    requires st.Send? || st.SendFailure? || st.Snapshot? || st.Reject? || st.Write? || st.TornWrite? || st.Mark?
        || st.Check?
    ensures Quiet(Apply(c, st), i) && !Sends(c, st, i)
  {
    var k := st.k;
    RemoveMembers(c.tokens, k);
    var d := Apply(c, st);
    assert c.tokens[k].idx != i;
    assert NoToken(Remove(c.tokens, k), i);
    assert d.s.have == c.s.have && d.s.claim == c.s.claim;
    if st.Reject? || st.TornWrite? {
      assert d.tokens == Remove(c.tokens, k);
      var outcome := RetryOrFail(c.r, c.tokens[k].idx).1;
      assert d.toS == c.toS + Answer(outcome, c.tokens[k].idx);
    }
  }

  lemma QuietAtSchedule(c: Session, i: nat)
    requires WellShaped(c) && Enabled(c, Schedule) && Quiet(c, i)
    ensures Quiet(DoSchedule(c), i)
  {
    var d := DoSchedule(c);
    assert d.tokens == c.tokens || (d.tokens == c.tokens + [Task(c.s.next)] && c.s.next != i);
  }

  lemma QuietAtReceiver(c: Session, st: Step, i: nat)
    requires WellShaped(c) && Enabled(c, st) && Quiet(c, i)
    requires st.Prepare? || st.TakeVerdict? || st.CtrlCheck? || st.StartFinalize? || st.EndFinalize?
    ensures Quiet(Apply(c, st), i) && !Sends(c, st, i)
  {
    var d := Apply(c, st);
    assert d.s == c.s && d.tokens == c.tokens;
    if st.EndFinalize? {
      assert d.toS == c.toS || d.toS == c.toS + [FileResult(st.outcome == Published)];
    } else {
      assert d.toS == c.toS;
    }
  }

  lemma QuietAtReply(c: Session, i: nat)
    requires WellShaped(c) && Enabled(c, TakeReply) && Quiet(c, i)
    ensures Quiet(Apply(c, TakeReply), i)
  {
    assert NotAsked(c.toS[1..], i) && c.toS[0] != ChunkRetry(i);
  }

  lemma QuietStays(c: Session, st: Step, i: nat)
    requires WellShaped(c) && Enabled(c, st) && Quiet(c, i)
    ensures Quiet(Apply(c, st), i) && !Sends(c, st, i)
  {
    match st
    case OpenGate => assert NotAsked(c.toS[1..], i);
    case Verify(_, _) =>
    case Schedule => QuietAtSchedule(c, i);
    case TakeReply => QuietAtReply(c, i);
    case Prepare => QuietAtReceiver(c, st, i);
    case TakeVerdict => QuietAtReceiver(c, st, i);
    case CtrlCheck => QuietAtReceiver(c, st, i);
    case StartFinalize => QuietAtReceiver(c, st, i);
    case EndFinalize(_) => QuietAtReceiver(c, st, i);
    case _ => QuietAtToken(c, st, i);
  }

  /** Nothing travels before the sender's bitmap is final; afterwards its set bits stay quiet. */
  ghost predicate Sparing(c: Session) {
    if c.s.backlog == NotYet then
      c.tokens == [] && forall k :: 0 <= k < |c.toS| ==> !c.toS[k].ChunkRetry?
    else
      c.s.have.Some? && c.s.claim.None? && forall i :: 0 <= i < |c.s.have.value| && c.s.have.value[i] ==> Quiet(c, i)
  }

  lemma SparingKept(c: Session, st: Step)
    requires WellShaped(c) && PhaseSound(c) && Enabled(c, st) && Sparing(c)
    ensures Sparing(Apply(c, st))
    ensures c.s.backlog != NotYet ==> Apply(c, st).s.backlog != NotYet && Apply(c, st).s.have == c.s.have
  {
    var d := Apply(c, st);
    if c.s.backlog == NotYet {
      BeforeTheGate(c, st);
    } else {
      FinalBitmap(c, st);
      forall i | 0 <= i < |d.s.have.value| && d.s.have.value[i]
        ensures Quiet(d, i)
      {
        QuietStays(c, st, i);
      }
    }
  }

  predicate Settled(s: Sender, have: Option<seq<bool>>) {
    s.have == have && s.claim.None? && s.backlog != NotYet
  }

  lemma FinalAtToken(c: Session, st: Step)
    requires WellShaped(c) && Enabled(c, st) && (st.Send? || st.SendFailure? || st.Snapshot? || st.Reject?)
    requires Settled(c.s, c.s.have)
    ensures Settled(Apply(c, st).s, c.s.have)
  {
  }

  lemma FinalAtPart(c: Session, st: Step)
    requires WellShaped(c) && Enabled(c, st) && (st.Write? || st.TornWrite? || st.Mark? || st.Check?)
    requires Settled(c.s, c.s.have)
    ensures Settled(Apply(c, st).s, c.s.have)
  {
  }

  lemma FinalAtSender(c: Session, st: Step)
    requires WellShaped(c) && Enabled(c, st) && (st.OpenGate? || st.Schedule? || st.TakeReply?)
    requires c.s.have.Some? && Settled(c.s, c.s.have)
    ensures Settled(Apply(c, st).s, c.s.have)
  {
  }

  lemma FinalBitmap(c: Session, st: Step)
    requires WellShaped(c) && Enabled(c, st) && c.s.have.Some? && Settled(c.s, c.s.have)
    ensures Settled(Apply(c, st).s, c.s.have)
  {
    match st
    case Send(_) => FinalAtToken(c, st);
    case SendFailure(_) => FinalAtToken(c, st);
    case Snapshot(_) => FinalAtToken(c, st);
    case Reject(_) => FinalAtToken(c, st);
    case Write(_) => FinalAtPart(c, st);
    case TornWrite(_, _) => FinalAtPart(c, st);
    case Mark(_) => FinalAtPart(c, st);
    case Check(_) => FinalAtPart(c, st);
    case OpenGate => FinalAtSender(c, st);
    case Schedule => FinalAtSender(c, st);
    case TakeReply => FinalAtSender(c, st);
    case _ =>
  }

  lemma BeforeTheGate(c: Session, st: Step)
    requires WellShaped(c) && PhaseSound(c) && Enabled(c, st) && Sparing(c) && c.s.backlog == NotYet
    ensures Sparing(Apply(c, st))
  {
    var d := Apply(c, st);
    assert d.tokens == [];
    match st
    case OpenGate => assert d.toS == c.toS[1..];
    case TakeReply => assert c.toS[0].FileResult? && d.toS == c.toS[1..] && d.s.backlog == NotYet;
    case Prepare =>
    case Verify(_, _) =>
    case TakeVerdict => assert d.s == c.s && d.toS == c.toS;
    case CtrlCheck =>
    case StartFinalize =>
    case EndFinalize(_) => assert d.s == c.s;
  }

  /** What the sender's final bitmap spares is never sent, in any run. */
  lemma {:induction false} SparedNeverSent(c: Session, steps: seq<Step>, i: nat)
    requires Lively(c) && Sparing(c) && RunFrom(c, steps).Some?
    requires var end := RunFrom(c, steps).value;
             end.s.backlog != NotYet && end.s.have.Some? && i < |end.s.have.value| && end.s.have.value[i]
    ensures TimesSent(c, steps, i) == 0
    ensures c.s.backlog != NotYet ==> c.s.have == RunFrom(c, steps).value.s.have
    decreases |steps|
  {
    if steps != [] {
      StepKeepsLively(c, steps[0]);
      SparingKept(c, steps[0]);
      SparedNeverSent(Apply(c, steps[0]), steps[1..], i);
      if c.s.backlog != NotYet {
        QuietStays(c, steps[0], i);
      }
    }
  }

  // ---------------------------------------------------------------------------------------
  // What is spared

  /** No check of claim i in this run failed to read the source. */
  ghost predicate Readable(steps: seq<Step>, i: nat) {
    forall k :: 0 <= k < |steps| && steps[k].Verify? ==> steps[k].canOpen && i !in steps[k].bad
  }

  lemma {:induction false} FinalStays(c: Session, steps: seq<Step>)
    requires RunFrom(c, steps).Some? && c.s.have.Some? && Settled(c.s, c.s.have)
    ensures RunFrom(c, steps).value.s.have == c.s.have
    ensures forall k :: 0 <= k < |steps| ==> !steps[k].Verify?
    decreases |steps|
  {
    hide Apply, WellShaped;
    if steps != [] {
      FinalBitmap(c, steps[0]);
      FinalStays(Apply(c, steps[0]), steps[1..]);
      forall k | 0 <= k < |steps|
        ensures !steps[k].Verify?
      {
        assert k > 0 ==> steps[k] == steps[1..][k - 1];
      }
    }
  }

  lemma ClaimStays(c: Session, st: Step)
    requires WellShaped(c) && Enabled(c, st) && c.tokens == []
    ensures Apply(c, st).claim == c.claim && Apply(c, st).r.adopted == c.r.adopted && Apply(c, st).o == c.o
  {
    hide WritePart, Ledger.Complete, Ledger.Put, Restrict, Kept, Gate, Remove, Answer, Payload, MarkOf;
    hide CommitFile, ApplyClaimResult, FailReceiver, Publish, RetryOrFail, SameSizes, SenderShaped;
    if st.TakeVerdict? {
      VerdictKeepsAdopted(c.r, if c.toR[0].ClaimResult? then c.toR[0].verified else []);
    } else if st.EndFinalize? {
      PublishKeepsAdopted(c.r, st.outcome);
    }
  }

  lemma VerdictKeepsAdopted(r: Receiver, verified: seq<bool>)
    requires |r.led.have| == |r.led.marks|
    ensures CommitFile(r).0.adopted == r.adopted && ApplyClaimResult(r, verified).0.adopted == r.adopted
  {
    hide Restrict, Kept;
  }

  lemma PublishKeepsAdopted(r: Receiver, outcome: PublishOutcome)
    requires r.fd == Detached
    ensures Publish(r, outcome).adopted == r.adopted
  {
    FailKeepsAdopted(r.(fd := Closed));
    FailKeepsAdopted(r.(fd := Closed, fullyWritten := true));
    hide FailReceiver, SameClaims;
  }

  lemma FailKeepsAdopted(r: Receiver)
    ensures FailReceiver(r).adopted == r.adopted
  {
  }

  /** The bitmap the sender ends up with is exactly what was sent to it, less the claims it could not uphold. */
  lemma {:induction false} FinalIsExact(c: Session, steps: seq<Step>, i: nat)
    requires Lively(c) && Sparing(c) && c.s.backlog == NotYet && RunFrom(c, steps).Some? && i < |c.o.chunks|
    requires RunFrom(c, steps).value.s.backlog != NotYet
    ensures var end := RunFrom(c, steps).value;
            && end.s.have.Some? && i < |end.s.have.value|
            && (end.s.have.value[i] <==>
                  c.claim.have[i] && (c.r.adopted ==> c.claim.marks[i] == SourceHash(c.o, i) && Readable(steps, i)))
    decreases |steps|
  {
    var st := steps[0];
    var d := Apply(c, st);
    StepKeepsLively(c, st);
    SparingKept(c, st);
    ClaimStays(c, st);
    VerifyEnds(c, st);
    hide Apply, Enabled, WellShaped, Safe, SettlingSound, PhaseSound, NothingLost, GateWatched, SourceHash;
    if d.s.backlog == NotYet {
      FinalIsExact(d, steps[1..], i);
      assert Readable(steps, i) <==> Readable(steps[1..], i);
    } else {
      GateIsExact(c, st, i);
      FinalStays(d, steps[1..]);
      assert st.Verify? ==> (Readable(steps, i) <==> st.canOpen && i !in st.bad);
    }
  }

  lemma VerifyEnds(c: Session, st: Step)
    requires WellShaped(c) && Enabled(c, st)
    ensures st.Verify? ==> Apply(c, st).s.backlog != NotYet
  {
    hide SurvivingBits;
    if st.Verify? {
      assert Apply(c, st) == DoVerify(c, st.canOpen, st.bad);
    }
  }

  lemma GateIsExact(c: Session, st: Step, i: nat)
    requires Lively(c) && Sparing(c) && c.s.backlog == NotYet && Enabled(c, st) && i < |c.o.chunks|
    requires Apply(c, st).s.backlog != NotYet
    ensures var d := Apply(c, st);
            && d.s.have.Some? && |d.s.have.value| == |c.o.chunks| && (st.Verify? || !c.r.adopted || !c.claim.have[i])
            && (d.s.have.value[i] <==>
                  c.claim.have[i]
                  && (c.r.adopted ==>
                        c.claim.marks[i] == SourceHash(c.o, i) && st.Verify? && st.canOpen && i !in st.bad))
  {
    if st.Verify? {
      VerdictIsExact(c, st.canOpen, st.bad);
    } else if c.r.adopted && c.claim.have[i] {
      CountNone(c.claim.have);
    }
  }

  /** Over every run of a session a chunk the receiver told it has never goes out, provided that the source upholds
      the claim where it is one. */
  lemma HadIsSpared(c: Session, steps: seq<Step>, i: nat)
    requires Lively(c) && Sparing(c) && c.s.backlog == NotYet && RunFrom(c, steps).Some? && i < |c.o.chunks|
    requires RunFrom(c, steps).value.s.backlog != NotYet
    requires c.claim.have[i] && (c.r.adopted ==> c.claim.marks[i] == SourceHash(c.o, i) && Readable(steps, i))
    ensures TimesSent(c, steps, i) == 0
  {
    FinalIsExact(c, steps, i);
    SparedNeverSent(c, steps, i);
  }

  // ---------------------------------------------------------------------------------------
  // After the end

  predicate Over(s: Sender) {
    s.errored || s.resolved
  }

  /** How many tasks wait for a worker. */
  function TasksWaiting(ts: seq<Token>): nat {
    if ts == [] then 0 else (if ts[0].Task? then 1 else 0) + TasksWaiting(ts[1..])
  }

  lemma {:induction false} TasksDrop(ts: seq<Token>, k: nat, t: Token)
    requires k < |ts|
    ensures var task := if ts[k].Task? then 1 else 0;
            && TasksWaiting(Remove(ts, k)) + task == TasksWaiting(ts)
            && (!t.Task? ==> TasksWaiting(ts[k := t]) + task == TasksWaiting(ts))
  {
    if k > 0 {
      TasksDrop(ts[1..], k - 1, t);
      assert Remove(ts, k)[1..] == Remove(ts[1..], k - 1) && ts[k := t][1..] == ts[1..][k - 1 := t];
    } else {
      assert Remove(ts, k) == ts[1..] && ts[k := t][1..] == ts[1..];
    }
  }

  lemma TokenStepDrops(c: Session, st: Step)
    requires WellShaped(c) && Enabled(c, st) && Over(c.s)
    requires st.Send? || st.SendFailure? || st.Snapshot? || st.Reject? || st.Write? || st.TornWrite? || st.Mark?
        || st.Check?
    ensures Over(Apply(c, st).s) && TasksWaiting(Apply(c, st).tokens) <= TasksWaiting(c.tokens)
    ensures st.Send? ==> TasksWaiting(Apply(c, st).tokens) < TasksWaiting(c.tokens)
  {
    hide Ledger.Put, WritePart, Gate, TasksWaiting, Remove;
    var d := Apply(c, st);
    var t := if st.k < |d.tokens| && d.tokens != Remove(c.tokens, st.k) then d.tokens[st.k] else Marked(0);
    TasksDrop(c.tokens, st.k, t);
  }

  lemma OtherStepDrops(c: Session, st: Step)
    requires WellShaped(c) && Enabled(c, st) && Over(c.s)
    requires st.Prepare? || st.OpenGate? || st.Verify? || st.Schedule? || st.TakeVerdict? || st.CtrlCheck?
        || st.TakeReply? || st.StartFinalize? || st.EndFinalize?
    ensures Over(Apply(c, st).s) && Apply(c, st).tokens == c.tokens
  {
    hide SurvivingBits, Gate, CommitFile, ApplyClaimResult, FailReceiver, Publish;
  }

  /** A file that is over at the sender gets no more tasks and no chunk of it goes out: what was queued for it is
      dropped by the workers, one by one. */
  lemma {:induction false} NothingAfterTheEnd(c: Session, steps: seq<Step>, i: nat)
    requires RunFrom(c, steps).Some? && Over(c.s)
    ensures TimesSent(c, steps, i) == 0 && Over(RunFrom(c, steps).value.s)
    ensures TasksWaiting(RunFrom(c, steps).value.tokens) <= TasksWaiting(c.tokens)
    decreases |steps|
  {
    hide Apply, Enabled, WellShaped, TasksWaiting;
    if steps != [] {
      match steps[0] {
        case Send(_) => TokenStepDrops(c, steps[0]);
        case SendFailure(_) => TokenStepDrops(c, steps[0]);
        case Snapshot(_) => TokenStepDrops(c, steps[0]);
        case Reject(_) => TokenStepDrops(c, steps[0]);
        case Write(_) => TokenStepDrops(c, steps[0]);
        case TornWrite(_, _) => TokenStepDrops(c, steps[0]);
        case Mark(_) => TokenStepDrops(c, steps[0]);
        case Check(_) => TokenStepDrops(c, steps[0]);
        case _ => OtherStepDrops(c, steps[0]);
      }
      NothingAfterTheEnd(Apply(c, steps[0]), steps[1..], i);
    }
  }
}
