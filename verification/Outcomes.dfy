// What each side is told about a file: the outcome the sender hears, and how many errors it takes to fail.

module Outcomes {
  import opened Bytes
  import opened Bitmaps
  import opened Ledgers
  import opened Sidecars
  import opened Protocol
  import opened CommitSafety
  import opened Liveness
  import opened Progress
  import opened Delivery
  import opened Sessions

  // ---------------------------------------------------------------------------------------
  // The receiver's report

  /** A result on its way says what happened: the source is in place, or the receiver failed the file. */
  ghost predicate ResultTrue(c: Session, m: ToSender) {
    m.FileResult? ==> if m.ok then c.published == Some(c.o.chunks) else c.r.errored
  }

  ghost predicate ResultsTrue(c: Session) {
    forall k :: 0 <= k < |c.toS| ==> ResultTrue(c, c.toS[k])
  }

  /** A sender that counts the file as delivered is right, and a receiver that has settled it has told. */
  ghost predicate Told(c: Session) {
    && (c.s.resolved && !c.s.errored ==> c.published == Some(c.o.chunks))
    && (c.r.resolved ==> c.s.resolved || ResultIn(c.toS))
  }

  ghost predicate Truthful(c: Session) {
    ResultsTrue(c) && Told(c)
  }

  lemma PostKeepsTruth(c: Session, d: Session, ms: seq<ToSender>)
    requires ResultsTrue(c) && d.toS == c.toS + ms && d.o == c.o
    requires c.r.errored ==> d.r.errored
    requires c.published == Some(c.o.chunks) ==> d.published == c.published
    requires forall k :: 0 <= k < |ms| ==> ResultTrue(d, ms[k])
    ensures ResultsTrue(d)
    ensures ResultIn(c.toS) ==> ResultIn(d.toS)
    ensures (exists k :: 0 <= k < |ms| && ms[k].FileResult?) ==> ResultIn(d.toS)
  {
    forall k | 0 <= k < |d.toS|
      ensures ResultTrue(d, d.toS[k])
    {
      if k < |c.toS| {
        assert ResultTrue(c, c.toS[k]) && d.toS[k] == c.toS[k];
      } else {
        assert d.toS[k] == ms[k - |c.toS|];
      }
    }
    if ResultIn(c.toS) {
      var k :| 0 <= k < |c.toS| && c.toS[k].FileResult?;
      assert d.toS[k].FileResult?;
    }
    if k :| 0 <= k < |ms| && ms[k].FileResult? {
      assert d.toS[|c.toS| + k].FileResult?;
    }
  }

  lemma TakenKeepsTruth(c: Session, d: Session)
    requires ResultsTrue(c) && c.toS != [] && d.toS == c.toS[1..] && d.o == c.o && d.r == c.r
        && d.published == c.published
    ensures ResultsTrue(d) && ResultTrue(c, c.toS[0])
    ensures ResultIn(c.toS) && !c.toS[0].FileResult? ==> ResultIn(d.toS)
  {
    forall k | 0 <= k < |d.toS|
      ensures ResultTrue(d, d.toS[k])
    {
      assert d.toS[k] == c.toS[k + 1] && ResultTrue(c, c.toS[k + 1]);
    }
    if ResultIn(c.toS) && !c.toS[0].FileResult? {
      var k :| 0 <= k < |c.toS| && c.toS[k].FileResult?;
      assert d.toS[k - 1].FileResult?;
    }
  }

  lemma ErrorKeepsTruth(c: Session, k: nat)
    requires SettlingSound(c) && Truthful(c) && k < |c.tokens|
    ensures Truthful(DoReject(c, k))
  {
    var i := c.tokens[k].idx;
    var said := Answer(RetryOrFail(c.r, i).1, i);
    assert RetryOrFail(c.r, i).1 == Failed ==> said[0].FileResult?;
    PostKeepsTruth(c, DoReject(c, k), said);
  }

  lemma ReplyKeepsTruth(c: Session)
    requires WellShaped(c) && Truthful(c) && Enabled(c, TakeReply)
    ensures Truthful(Apply(c, TakeReply))
  {
    TakenKeepsTruth(c, Apply(c, TakeReply));
  }

  lemma EndKeepsTruth(c: Session, outcome: PublishOutcome)
    requires Safe(c) && SettlingSound(c) && Truthful(c) && Enabled(c, EndFinalize(outcome))
    ensures Truthful(DoEndFinalize(c, outcome))
  {
    assert c.part == c.o.chunks;
    var d := DoEndFinalize(c, outcome);
    var told := outcome == Published || d.r.errored != c.r.errored;
    var said := if told then [FileResult(outcome == Published)] else [];
    assert told ==> said[0].FileResult?;
    PostKeepsTruth(c, d, said);
  }

  lemma OtherKeepsTruth(c: Session, st: Step)
    requires WellShaped(c) && Enabled(c, st) && Truthful(c)
    requires !st.Reject? && !st.TornWrite? && !st.TakeReply? && !st.EndFinalize? && !st.OpenGate? && !st.TakeVerdict?
    ensures Truthful(Apply(c, st))
  {
    PostKeepsTruth(c, Apply(c, st), []);
  }

  lemma VerdictFacts(c: Session)
    requires WellShaped(c) && Enabled(c, TakeVerdict)
    ensures var d := Apply(c, TakeVerdict);
            && d.toS == c.toS && d.s == c.s && d.o == c.o && d.published == c.published
            && (c.r.errored ==> d.r.errored)
            && (d.r.resolved ==> c.r.resolved || c.toR[0].SenderError?)
            && (d.r.errored ==> c.r.errored || c.toR[0].SenderError?)
            && d.toR == c.toR[1..] && d.r.retries == c.r.retries && d.r.finalQueued == c.r.finalQueued
  {
    hide CommitFile, ApplyClaimResult, FailReceiver;
    if c.toR[0].Commit? {
      CommitKeeps(c.r);
    } else if c.toR[0].ClaimResult? {
      ClaimKeeps(c.r, c.toR[0].verified);
    } else {
      FailKeeps(c.r);
    }
  }

  lemma CommitKeeps(r: Receiver)
    ensures var q := CommitFile(r).0;
            && q.retries == r.retries && q.errored == r.errored && q.resolved == r.resolved
            && q.finalQueued == r.finalQueued
  {
  }

  lemma ClaimKeeps(r: Receiver, verified: seq<bool>)
    requires |r.led.have| == |r.led.marks|
    ensures var q := ApplyClaimResult(r, verified).0;
            && q.retries == r.retries && q.errored == r.errored && q.resolved == r.resolved
            && q.finalQueued == r.finalQueued
  {
    hide Restrict, Kept;
  }

  lemma FailKeeps(r: Receiver)
    ensures var q := FailReceiver(r);
            q.retries == r.retries && (r.errored ==> q.errored) && q.finalQueued == r.finalQueued
  {
  }

  lemma VerdictKeepsTruth(c: Session)
    requires WellShaped(c) && Enabled(c, TakeVerdict) && SettlingSound(c) && Truthful(c)
    ensures Truthful(Apply(c, TakeVerdict))
  {
    assert c.toR[0].SenderError? ==> ErrorIn(c.toR);
    VerdictFacts(c);
    hide Apply, WellShaped;
    PostKeepsTruth(c, Apply(c, TakeVerdict), []);
  }

  lemma StepKeepsTruth(c: Session, st: Step)
    requires Lively(c) && Enabled(c, st) && Truthful(c)
    ensures Truthful(Apply(c, st))
  {
    hide Truthful, PhaseSound, NothingLost, GateWatched, SettlingSound;
    match st
    case Reject(k) => ErrorKeepsTruth(c, k);
    case TornWrite(k, n) => TornKeepsTruth(c, k, n);
    case TakeReply => ReplyKeepsTruth(c);
    case EndFinalize(outcome) => EndKeepsTruth(c, outcome);
    case OpenGate => GateKeepsTruth(c);
    case TakeVerdict => VerdictKeepsTruth(c);
    case _ => OtherKeepsTruth(c, st);
  }

  lemma GateKeepsTruth(c: Session)
    requires WellShaped(c) && Enabled(c, OpenGate) && Truthful(c)
    ensures Truthful(Apply(c, OpenGate))
  {
    TakenKeepsTruth(c, Apply(c, OpenGate));
  }

  lemma TornKeepsTruth(c: Session, k: nat, n: nat)
    requires Safe(c) && Enabled(c, TornWrite(k, n)) && SettlingSound(c) && Truthful(c)
    ensures Truthful(Apply(c, TornWrite(k, n)))
  {
    var torn := c.(part := WritePart(c, k, n));
    PostKeepsTruth(c, torn, []);
    ErrorKeepsTruth(torn, k);
  }

  lemma {:induction false} RunKeepsTruth(c: Session, steps: seq<Step>)
    requires Lively(c) && Truthful(c) && RunFrom(c, steps).Some?
    ensures Truthful(RunFrom(c, steps).value)
    decreases |steps|
  {
    hide Lively, Truthful, WellShaped;
    if steps != [] {
      StepKeepsLively(c, steps[0]);
      StepKeepsTruth(c, steps[0]);
      RunKeepsTruth(Apply(c, steps[0]), steps[1..]);
    }
  }

  /** Over every run of an opened file: each result on its way to the sender is true, success only with the
      source in place and failure only when the receiver has failed the file; a sender that counts the file as
      delivered is right; and when nothing more can happen the sender has been told. */
  lemma SenderIsToldTheTruth(w: Origin, history: seq<Event>, ev: Event, steps: seq<Step>)
    requires Sessions.After(w, history).Some? && ev.Begin? && Possible(w, Sessions.After(w, history).value, ev)
    requires RunFrom(Next(w, Sessions.After(w, history).value, ev).live.value.c, steps).Some?
    ensures var end := RunFrom(Next(w, Sessions.After(w, history).value, ev).live.value.c, steps).value;
            var source := SourceOf(w, ev.id).chunks;
            && (forall k :: 0 <= k < |end.toS| && end.toS[k].FileResult? ==>
                  if end.toS[k].ok then end.published == Some(source) else end.r.errored)
            && (end.s.resolved && !end.s.errored ==> end.published == Some(source))
            && (Quiescent(end) ==> end.s.resolved)
  {
    var c := Next(w, Sessions.After(w, history).value, ev).live.value.c;
    OpenedIsLively(w, history, ev);
    assert Truthful(c);
    RunsAreFinite(c, steps);
    RunKeepsTruth(c, steps);
    var end := RunFrom(c, steps).value;
    forall k | 0 <= k < |end.toS| && end.toS[k].FileResult?
      ensures if end.toS[k].ok then end.published == Some(end.o.chunks) else end.r.errored
    {
      assert ResultTrue(end, end.toS[k]);
    }
    if Quiescent(end) {
      QuiescentIsIdle(end);
      QuiescentIsSettled(end);
    }
  }

  /** The life of one opened file, after any history of earlier sessions: every run is bounded by a
      number known at the start, no chunk goes out more than four times, no spared chunk goes out at
      all, and a run that can go no further has settled the file on both sides, with the source in place
      unless a failure was reported; a sender that counts it as delivered is right; a fault-free run has
      the source in place and the sender knows. */
  lemma OpenedFilesAreDelivered(w: Origin, history: seq<Event>, ev: Event, steps: seq<Step>, i: nat)
    requires Sessions.After(w, history).Some? && ev.Begin? && Possible(w, Sessions.After(w, history).value, ev)
    requires RunFrom(Next(w, Sessions.After(w, history).value, ev).live.value.c, steps).Some?
    ensures var c := Next(w, Sessions.After(w, history).value, ev).live.value.c;
            var end := RunFrom(c, steps).value;
            && |steps| <= Measure(c)
            && TimesSent(c, steps, i) <= MAX_TRIES + 1
            && (end.s.backlog != NotYet && end.s.have.Some? && i < |end.s.have.value| && end.s.have.value[i] ==>
                  TimesSent(c, steps, i) == 0)
            && (Quiescent(end) ==> end.r.resolved && end.s.resolved)
            && (end.s.resolved && !end.s.errored ==> end.published == Some(SourceOf(w, ev.id).chunks))
            && (Quiescent(end) && !end.r.errored ==> end.published == Some(SourceOf(w, ev.id).chunks))
            && (Quiescent(end) && (forall k :: 0 <= k < |steps| ==> !Faulty(steps[k])) ==>
                  end.published == Some(SourceOf(w, ev.id).chunks) && !end.r.errored && !end.s.errored)
  {
    var c := Next(w, Sessions.After(w, history).value, ev).live.value.c;
    var end := RunFrom(c, steps).value;
    OpenedIsLively(w, history, ev);
    SenderIsToldTheTruth(w, history, ev, steps);
    hide Lively, Next, Possible, Quiescent;
    RunsAreFinite(c, steps);
    RunSpendsBudget(c, steps, i);
    if end.s.backlog != NotYet && end.s.have.Some? && i < |end.s.have.value| && end.s.have.value[i] {
      SparedNeverSent(c, steps, i);
    }
    if Quiescent(end) {
      MaximalRunsSettle(c, steps);
      if forall k :: 0 <= k < |steps| ==> !Faulty(steps[k]) {
        FaultFreeRunsDeliver(c, steps);
        CleanRun(c, steps);
      }
    }
  }

  // ---------------------------------------------------------------------------------------
  // How many errors it takes to fail

  function AsksFor(toS: seq<ToSender>, i: nat): nat {
    if toS == [] then 0 else (if toS[0] == ChunkRetry(i) then 1 else 0) + AsksFor(toS[1..], i)
  }

  lemma {:induction false} AsksJoin(a: seq<ToSender>, b: seq<ToSender>, i: nat)
    ensures AsksFor(a + b, i) == AsksFor(a, i) + AsksFor(b, i)
  {
    if a == [] {
      assert a + b == b;
    } else {
      assert (a + b)[1..] == a[1..] + b;
      AsksJoin(a[1..], b, i);
    }
  }

  lemma NothingAsked(i: nat)
    ensures AsksFor([], i) == 0 && forall m: ToSender :: AsksFor([m], i) == if m == ChunkRetry(i) then 1 else 0
  {
    forall m: ToSender
      ensures AsksFor([m], i) == if m == ChunkRetry(i) then 1 else 0
    {
      assert [m][1..] == [];
    }
  }

  /** Nobody has failed the file or is about to say so. */
  ghost predicate Unfailed(c: Session) {
    !c.r.errored && !c.s.errored && CleanToReceiver(c.toR) && forall k :: 0 <= k < |c.toS| && c.toS[k].FileResult? ==>
        c.toS[k].ok
  }

  /** The retries the sender has granted and those on their way are retries the receiver has counted. */
  predicate RetriesMatch(s: Sender, toS: seq<ToSender>, r: Receiver, i: nat) {
    Tries(s.retries, i) + AsksFor(toS, i) <= Tries(r.retries, i)
  }

  ghost predicate Mild(c: Session) {
    Unfailed(c) && forall i: nat :: RetriesMatch(c.s, c.toS, c.r, i)
  }

  /** Chunk i comes back with an error in this step. */
  predicate Rejects(c: Session, st: Step, i: nat) {
    (st.Reject? || st.TornWrite?) && st.k < |c.tokens| && c.tokens[st.k].idx == i
  }

  ghost function TimesRejected(c: Session, steps: seq<Step>, i: nat): nat
    requires RunFrom(c, steps).Some?
    decreases |steps|
  {
    if steps == [] then 0
    else (if Rejects(c, steps[0], i) then 1 else 0) + TimesRejected(Apply(c, steps[0]), steps[1..], i)
  }

  /** A failure that no retry mends: the source cannot be read, or the part cannot be put into place. */
  predicate Final(st: Step) {
    st.SendFailure? || (st.EndFinalize? && st.outcome != Published)
  }

  lemma ErrorStaysMild(c: Session, k: nat)
    requires WellShaped(c) && Mild(c) && k < |c.tokens| && Tries(c.r.retries, c.tokens[k].idx) < MAX_TRIES
    ensures Mild(DoReject(c, k))
    ensures forall i: nat :: Tries(DoReject(c, k).r.retries, i)
              <= Tries(c.r.retries, i) + if c.tokens[k].idx == i then 1 else 0
  {
    hide WellShaped;
    var i := c.tokens[k].idx;
    var d := DoReject(c, k);
    var said := Answer(RetryOrFail(c.r, i).1, i);
    assert Unfailed(d) by {
      assert said == [] || said == [ChunkRetry(i)];
    }
    forall j: nat
      ensures RetriesMatch(d.s, d.toS, d.r, j)
    {
      assert RetriesMatch(c.s, c.toS, c.r, j);
      AsksJoin(c.toS, said, j);
      NothingAsked(j);
    }
  }

  lemma TornStaysMild(c: Session, k: nat, n: nat)
    requires WellShaped(c) && Mild(c) && Enabled(c, TornWrite(k, n)) && Tries(c.r.retries, c.tokens[k].idx) < MAX_TRIES
    ensures Mild(DoTornWrite(c, k, n))
    ensures forall i: nat :: Tries(DoTornWrite(c, k, n).r.retries, i)
              <= Tries(c.r.retries, i) + if c.tokens[k].idx == i then 1 else 0
  {
    hide DoReject;
    var torn := c.(part := WritePart(c, k, n));
    assert Mild(torn) by {
      assert forall i: nat :: RetriesMatch(c.s, c.toS, c.r, i);
    }
    ErrorStaysMild(torn, k);
  }

  lemma GrantedRetry(s: Sender, i: nat)
    requires !s.errored && Tries(s.retries, i) < MAX_TRIES
    ensures var (t, outcome) := RetryChunk(s, i);
            && !t.errored && outcome != Failed
            && forall j: nat :: Tries(t.retries, j) <= Tries(s.retries, j) + if i == j then 1 else 0
  {
  }

  lemma ReplyStaysMild(c: Session)
    requires WellShaped(c) && Mild(c) && Enabled(c, TakeReply) && forall i: nat :: Tries(c.r.retries, i) <= MAX_TRIES
    ensures Mild(Apply(c, TakeReply)) && Apply(c, TakeReply).r == c.r
  {
    hide WellShaped;
    var d, m, rest := Apply(c, TakeReply), c.toS[0], c.toS[1..];
    assert c.toS == [m] + rest;
    forall j: nat
      ensures Tries(c.s.retries, j) + (if m == ChunkRetry(j) then 1 else 0) + AsksFor(rest, j) <= Tries(c.r.retries, j)
    {
      assert RetriesMatch(c.s, c.toS, c.r, j);
      AsksJoin([m], rest, j);
      NothingAsked(j);
    }
    if m.ChunkRetry? {
      GrantedRetry(c.s, m.idx);
    }
    assert forall k :: 0 <= k < |rest| ==> rest[k] == c.toS[k + 1];
  }

  lemma OtherStaysMild(c: Session, st: Step)
    requires WellShaped(c) && Enabled(c, st) && Mild(c) && !Final(st)
    requires !st.Reject? && !st.TornWrite? && !st.TakeReply? && !st.OpenGate? && !st.EndFinalize?
    ensures Mild(Apply(c, st)) && Apply(c, st).r.retries == c.r.retries
  {
    OtherFacts(c, st);
    hide Apply, WellShaped;
    var d := Apply(c, st);
    forall j: nat
      ensures RetriesMatch(d.s, d.toS, d.r, j)
    {
      assert RetriesMatch(c.s, c.toS, c.r, j);
    }
  }

  lemma VerdictUnfailed(c: Session, st: Step)
    requires WellShaped(c) && Enabled(c, st) && Unfailed(c) && !Final(st)
    requires st.TakeVerdict?
    ensures var d := Apply(c, st);
            d.toS == c.toS && d.s.retries == c.s.retries && d.r.retries == c.r.retries && Unfailed(d)
  {
    VerdictFacts(c);
    assert CleanToReceiver(c.toR[1..]);
    hide Apply, WellShaped;
  }

  lemma SenderUnfailed(c: Session, st: Step)
    requires WellShaped(c) && Enabled(c, st) && Unfailed(c) && !Final(st)
    requires st.Verify? || st.Schedule?
    ensures var d := Apply(c, st);
            d.toS == c.toS && d.s.retries == c.s.retries && d.r.retries == c.r.retries && Unfailed(d)
  {
    if st.Verify? {
      assert !AnswerClaim(c.o.path, c.s, st.canOpen, c.o.Reads(st.bad)).1.SenderError?;
    }
  }

  lemma TokenUnfailed(c: Session, st: Step)
    requires WellShaped(c) && Enabled(c, st) && Unfailed(c) && !Final(st)
    requires st.Send? || st.Snapshot? || st.Write? || st.Mark?
    ensures var d := Apply(c, st);
            d.toS == c.toS && d.s.retries == c.s.retries && d.r.retries == c.r.retries && Unfailed(d)
  {
  }

  lemma FinalizerUnfailed(c: Session, st: Step)
    requires WellShaped(c) && Enabled(c, st) && Unfailed(c) && !Final(st)
    requires st.Prepare? || st.Check? || st.CtrlCheck? || st.StartFinalize?
    ensures var d := Apply(c, st);
            d.toS == c.toS && d.s.retries == c.s.retries && d.r.retries == c.r.retries && Unfailed(d)
  {
    hide Gate;
  }

  lemma OtherFacts(c: Session, st: Step)
    requires WellShaped(c) && Enabled(c, st) && Unfailed(c) && !Final(st)
    requires !st.Reject? && !st.TornWrite? && !st.TakeReply? && !st.OpenGate? && !st.EndFinalize?
    ensures var d := Apply(c, st);
            d.toS == c.toS && d.s.retries == c.s.retries && d.r.retries == c.r.retries && Unfailed(d)
  {
    hide Apply, WellShaped, Unfailed, Enabled;
    match st
    case TakeVerdict => VerdictUnfailed(c, st);
    case Verify(_, _) => SenderUnfailed(c, st);
    case Schedule => SenderUnfailed(c, st);
    case Send(_) => TokenUnfailed(c, st);
    case Snapshot(_) => TokenUnfailed(c, st);
    case Write(_) => TokenUnfailed(c, st);
    case Mark(_) => TokenUnfailed(c, st);
    case _ => FinalizerUnfailed(c, st);
  }

  lemma GateStaysMild(c: Session)
    requires WellShaped(c) && Mild(c) && Enabled(c, OpenGate)
    ensures Mild(Apply(c, OpenGate)) && Apply(c, OpenGate).r == c.r
  {
    var d := Apply(c, OpenGate);
    assert c.toS == [c.toS[0]] + d.toS;
    forall j: nat
      ensures RetriesMatch(d.s, d.toS, d.r, j)
    {
      assert RetriesMatch(c.s, c.toS, c.r, j);
      AsksJoin([c.toS[0]], d.toS, j);
    }
  }

  lemma EndStaysMild(c: Session)
    requires WellShaped(c) && Mild(c) && Enabled(c, EndFinalize(Published))
    ensures Mild(DoEndFinalize(c, Published)) && DoEndFinalize(c, Published).r.retries == c.r.retries
  {
    var d := DoEndFinalize(c, Published);
    forall j: nat
      ensures RetriesMatch(d.s, d.toS, d.r, j)
    {
      assert RetriesMatch(c.s, c.toS, c.r, j);
      AsksJoin(c.toS, [FileResult(true)], j);
      NothingAsked(j);
    }
  }

  lemma StepStaysMild(c: Session, st: Step)
    requires WellShaped(c) && Enabled(c, st) && Mild(c) && !Final(st)
    requires forall i: nat :: Tries(c.r.retries, i) + (if Rejects(c, st, i) then 1 else 0) <= MAX_TRIES
    ensures Mild(Apply(c, st))
    ensures forall i: nat :: Tries(Apply(c, st).r.retries, i)
              <= Tries(c.r.retries, i) + if Rejects(c, st, i) then 1 else 0
  {
    hide Mild, WellShaped;
    match st
    case Reject(k) => assert Rejects(c, st, c.tokens[k].idx); ErrorStaysMild(c, k);
    case TornWrite(k, n) => assert Rejects(c, st, c.tokens[k].idx); TornStaysMild(c, k, n);
    case TakeReply => ReplyStaysMild(c);
    case OpenGate => GateStaysMild(c);
    case EndFinalize(_) => EndStaysMild(c);
    case _ => OtherStaysMild(c, st);
  }

  lemma {:induction false} RunStaysMild(c: Session, steps: seq<Step>)
    requires Mild(c) && RunFrom(c, steps).Some? && forall k :: 0 <= k < |steps| ==> !Final(steps[k])
    requires forall i: nat :: Tries(c.r.retries, i) + TimesRejected(c, steps, i) <= MAX_TRIES
    ensures Mild(RunFrom(c, steps).value)
    decreases |steps|
  {
    hide Mild, WellShaped, Apply, Enabled;
    if steps != [] {
      StepStaysMild(c, steps[0]);
      RunStaysMild(Apply(c, steps[0]), steps[1..]);
    }
  }

  /** Three errors of every chunk are mended: a run of an opened file in which no chunk comes back more often, the
      source can be read and the part can be put into place, and which can go no further, has the source in place
      and both sides know. */
  lemma ThreeErrorsAreMended(w: Origin, history: seq<Event>, ev: Event, steps: seq<Step>)
    requires Sessions.After(w, history).Some? && ev.Begin? && Possible(w, Sessions.After(w, history).value, ev)
    requires RunFrom(Next(w, Sessions.After(w, history).value, ev).live.value.c, steps).Some?
    requires var c := Next(w, Sessions.After(w, history).value, ev).live.value.c;
             && Quiescent(RunFrom(c, steps).value)
             && (forall k :: 0 <= k < |steps| ==> !Final(steps[k]))
             && forall i: nat :: TimesRejected(c, steps, i) <= MAX_TRIES
    ensures var end := RunFrom(Next(w, Sessions.After(w, history).value, ev).live.value.c, steps).value;
            && end.published == Some(SourceOf(w, ev.id).chunks)
            && end.r.resolved && !end.r.errored && end.s.resolved && !end.s.errored
  {
    var c := Next(w, Sessions.After(w, history).value, ev).live.value.c;
    OpenedIsMild(w, history, ev);
    OpenedIsLively(w, history, ev);
    hide Lively, Next, Possible, Quiescent;
    RunStaysMild(c, steps);
    MaximalRunsSettle(c, steps);
    SenderIsToldTheTruth(w, history, ev, steps);
  }

  lemma OpenedIsMild(w: Origin, history: seq<Event>, ev: Event)
    requires Sessions.After(w, history).Some? && ev.Begin? && Possible(w, Sessions.After(w, history).value, ev)
    ensures var c := Next(w, Sessions.After(w, history).value, ev).live.value.c;
            Mild(c) && forall i: nat :: Tries(c.r.retries, i) == 0
  {
    var c := Next(w, Sessions.After(w, history).value, ev).live.value.c;
    forall i: nat
      ensures RetriesMatch(c.s, c.toS, c.r, i)
    {
      NothingAsked(i);
    }
  }

  // ---------------------------------------------------------------------------------------
  // Queueing for the finalizer

  /** How often a check of the gate queued the file. */
  ghost function GateQueued(c: Session, steps: seq<Step>): nat
    decreases |steps|
  {
    if steps == [] || !WellShaped(c) || !Enabled(c, steps[0]) then 0
    else
      var d := Apply(c, steps[0]);
      (if (steps[0].Check? || steps[0].CtrlCheck?) && d.queue > c.queue then 1 else 0) + GateQueued(d, steps[1..])
  }

  lemma CheckQueuesOnce(c: Session, st: Step)
    requires WellShaped(c) && Enabled(c, st) && (st.Check? || st.CtrlCheck?)
    ensures var d := Apply(c, st);
            && d.r.finalQueued == (c.r.finalQueued || Gate(c.r))
            && d.queue == c.queue + if Gate(c.r) && !c.r.finalQueued then 1 else 0
  {
    hide Gate, WellShaped;
  }

  lemma RejectQueuesNone(c: Session, k: nat)
    requires k < |c.tokens|
    ensures DoReject(c, k).r.finalQueued == c.r.finalQueued
  {
    hide RetryOrFail, Answer, Remove;
  }

  lemma PublishQueuesNone(r: Receiver, outcome: PublishOutcome)
    requires r.fd == Detached
    ensures Publish(r, outcome).finalQueued == r.finalQueued
  {
    FailKeeps(r.(fd := Closed));
    FailKeeps(r.(fd := Closed, fullyWritten := true));
    hide FailReceiver, SameClaims;
  }

  lemma ReceiverStepQueuesNone(c: Session, st: Step)
    requires WellShaped(c) && Enabled(c, st)
    requires st.Reject? || st.TornWrite? || st.Mark? || st.TakeVerdict? || st.EndFinalize?
    ensures Apply(c, st).r.finalQueued == c.r.finalQueued
  {
    hide DoReject, CommitFile, ApplyClaimResult, FailReceiver, Publish, WritePart, Ledger.Put;
    match st {
      case Reject(k) => RejectQueuesNone(c, k);
      case TornWrite(k, n) => RejectQueuesNone(c.(part := WritePart(c, k, n)), k);
      case TakeVerdict => VerdictFacts(c);
      case EndFinalize(outcome) => PublishQueuesNone(c.r, outcome);
      case Mark(_) =>
    }
  }

  lemma OtherStepQueuesNone(c: Session, st: Step)
    requires WellShaped(c) && Enabled(c, st)
    requires !st.Reject? && !st.TornWrite? && !st.Mark? && !st.TakeVerdict? && !st.EndFinalize?
    requires !st.Check? && !st.CtrlCheck?
    ensures Apply(c, st).r.finalQueued == c.r.finalQueued
  {
    hide WritePart;
  }

  /** Over any run the gate queues the file at most once, and exactly when the run finds it open for the
      first time. */
  lemma {:induction false} GateQueuesOnce(c: Session, steps: seq<Step>)
    requires RunFrom(c, steps).Some?
    ensures var d := RunFrom(c, steps).value;
            && (c.r.finalQueued ==> d.r.finalQueued)
            && GateQueued(c, steps) == if d.r.finalQueued && !c.r.finalQueued then 1 else 0
    decreases |steps|
  {
    hide Apply, Enabled, WellShaped;
    if steps != [] {
      match steps[0] {
        case Check(_) => CheckQueuesOnce(c, steps[0]);
        case CtrlCheck => CheckQueuesOnce(c, steps[0]);
        case Reject(_) => ReceiverStepQueuesNone(c, steps[0]);
        case TornWrite(_, _) => ReceiverStepQueuesNone(c, steps[0]);
        case Mark(_) => ReceiverStepQueuesNone(c, steps[0]);
        case TakeVerdict => ReceiverStepQueuesNone(c, steps[0]);
        case EndFinalize(_) => ReceiverStepQueuesNone(c, steps[0]);
        case _ => OtherStepQueuesNone(c, steps[0]);
      }
      GateQueuesOnce(Apply(c, steps[0]), steps[1..]);
    }
  }

  // ---------------------------------------------------------------------------------------
  // What a verdict cannot take back

  predicate Finished(r: Receiver) {
    r.resolved || r.errored
  }

  /** A file that is settled, or adopted nothing, hears a verdict without any effect. */
  lemma SettledHearsNothing(c: Session)
    requires WellShaped(c) && Enabled(c, TakeVerdict)
    requires Finished(c.r) || (c.toR[0].ClaimResult? && !c.r.adopted)
    ensures Apply(c, TakeVerdict) == c.(toR := c.toR[1..])
  {
    hide Ledger.Complete, Restrict, Kept;
  }

  /** Chunk i is there for good: it came over the wire, or the file is settled. */
  predicate Held(r: Receiver, i: nat) {
    i < |r.led.have| && r.led.have[i] && (r.adopted ==> i in r.arrived || Finished(r))
  }

  lemma VerdictKeepsHeld(r: Receiver, verified: seq<bool>, i: nat)
    requires |r.led.have| == |r.led.marks| && Held(r, i)
    ensures Held(ApplyClaimResult(r, verified).0, i)
  {
    if !Finished(r) && r.adopted {
      assert Kept(r, verified)[i];
    }
  }

  lemma GateKeepsHeld(r: Receiver, i: nat)
    requires Held(r, i)
    ensures Held(CommitFile(r).0, i) && Held(MaybeComplete(r).0, i) && Held(Detach(r), i)
  {
    hide Gate, Ledger.Complete;
  }

  lemma ErrorKeepsHeld(r: Receiver, i: nat, j: nat)
    requires Held(r, i)
    ensures Held(FailReceiver(r), i) && Held(RetryOrFail(r, j).0, i)
  {
    hide Tries;
  }

  lemma MarkKeepsHeld(r: Receiver, i: nat, j: nat, mark: Mark)
    requires Held(r, i) && j < |r.led.have| == |r.led.marks|
    ensures Held(MarkChunk(r, j, mark), i)
  {
  }

  lemma PublishKeepsHeld(r: Receiver, i: nat, outcome: PublishOutcome)
    requires Held(r, i) && r.fd == Detached
    ensures Held(Publish(r, outcome), i)
  {
  }

  /** The receiver's record after a step is the old one, or what one of its operations makes of it. */
  lemma StepKeepsHeld(c: Session, st: Step, i: nat)
    requires WellShaped(c) && Enabled(c, st) && Held(c.r, i)
    ensures Held(Apply(c, st).r, i)
  {
    hide Held, WritePart, MaybeComplete, CommitFile, ApplyClaimResult, FailReceiver, Publish, RetryOrFail, MarkChunk;
    hide Detach, SameSizes, SenderShaped, MessagesInRange, Remove, Answer, SameClaims;
    match st {
      case Reject(k) => ErrorKeepsHeld(c.r, i, c.tokens[k].idx);
      case TornWrite(k, _) => ErrorKeepsHeld(c.r, i, c.tokens[k].idx);
      case Mark(k) => MarkKeepsHeld(c.r, i, c.tokens[k].idx, MarkOf(c.o.path, c.tokens[k]));
      case TakeVerdict =>
        GateKeepsHeld(c.r, i);
        ErrorKeepsHeld(c.r, i, 0);
        if c.toR[0].ClaimResult? {
          VerdictKeepsHeld(c.r, c.toR[0].verified, i);
        }
      case EndFinalize(outcome) => PublishKeepsHeld(c.r, i, outcome);
      case _ => GateKeepsHeld(c.r, i);
    }
    hide WellShaped;
  }

  /** Over any run a chunk received is never given up: only bits adopted from an older part, and only while
      the file is open, can be withdrawn. */
  lemma {:induction false} ReceivedIsKept(c: Session, steps: seq<Step>, i: nat)
    requires RunFrom(c, steps).Some? && Held(c.r, i)
    ensures Held(RunFrom(c, steps).value.r, i)
    decreases |steps|
  {
    hide Apply, Enabled, WellShaped, Held;
    if steps != [] {
      StepKeepsHeld(c, steps[0], i);
      ReceivedIsKept(Apply(c, steps[0]), steps[1..], i);
    }
  }

  // ---------------------------------------------------------------------------------------
  // The part's descriptor

  /** A settled file's part is closed, or is being put into place. */
  predicate LetGo(r: Receiver) {
    Finished(r) ==> r.fd != Live
  }

  lemma GateLetsGo(r: Receiver)
    requires LetGo(r)
    ensures LetGo(CommitFile(r).0) && LetGo(MaybeComplete(r).0) && LetGo(Detach(r))
  {
    hide Gate, Ledger.Complete;
  }

  lemma ErrorLetsGo(r: Receiver, j: nat)
    requires LetGo(r)
    ensures LetGo(FailReceiver(r)) && LetGo(RetryOrFail(r, j).0)
  {
    hide Tries;
  }

  lemma LedgerLetsGo(r: Receiver, j: nat, mark: Mark, verified: seq<bool>)
    requires LetGo(r) && |r.led.have| == |r.led.marks|
    ensures j < |r.led.have| ==> LetGo(MarkChunk(r, j, mark))
    ensures LetGo(ApplyClaimResult(r, verified).0)
  {
    hide Kept, Restrict;
  }

  lemma PublishLetsGo(r: Receiver, outcome: PublishOutcome)
    requires r.fd == Detached
    ensures Publish(r, outcome).fd == Closed
  {
    hide FailReceiver, SameClaims;
  }

  lemma StepLetsGo(c: Session, st: Step)
    requires WellShaped(c) && Enabled(c, st) && LetGo(c.r)
    ensures LetGo(Apply(c, st).r)
  {
    match st {
      case Reject(k) => ErrorLetsGo(c.r, c.tokens[k].idx);
      case TornWrite(k, _) => ErrorLetsGo(c.r, c.tokens[k].idx);
      case Mark(k) => LedgerLetsGo(c.r, c.tokens[k].idx, MarkOf(c.o.path, c.tokens[k]), []);
      case TakeVerdict =>
        GateLetsGo(c.r);
        ErrorLetsGo(c.r, 0);
        if c.toR[0].ClaimResult? {
          LedgerLetsGo(c.r, 0, Missing, c.toR[0].verified);
        }
      case EndFinalize(outcome) => PublishLetsGo(c.r, outcome);
      case _ => GateLetsGo(c.r);
    }
    hide WritePart, MaybeComplete, CommitFile, ApplyClaimResult, FailReceiver, Publish, RetryOrFail, MarkChunk;
    hide WellShaped, Detach;
  }

  lemma {:induction false} RunLetsGo(c: Session, steps: seq<Step>)
    requires RunFrom(c, steps).Some? && LetGo(c.r)
    ensures LetGo(RunFrom(c, steps).value.r)
    decreases |steps|
  {
    hide Apply, Enabled, WellShaped, LetGo;
    if steps != [] {
      StepLetsGo(c, steps[0]);
      RunLetsGo(Apply(c, steps[0]), steps[1..]);
    }
  }

  /** Over every run of an opened file no settled file keeps its part open, and when nothing more can happen
      the part is closed, whether the file was published or failed. */
  lemma NothingStaysOpen(w: Origin, history: seq<Event>, ev: Event, steps: seq<Step>)
    requires Sessions.After(w, history).Some? && ev.Begin? && Possible(w, Sessions.After(w, history).value, ev)
    requires RunFrom(Next(w, Sessions.After(w, history).value, ev).live.value.c, steps).Some?
    ensures var end := RunFrom(Next(w, Sessions.After(w, history).value, ev).live.value.c, steps).value;
            && (Finished(end.r) ==> end.r.fd != Live)
            && (Quiescent(end) ==> end.r.fd == Closed)
  {
    var c := Next(w, Sessions.After(w, history).value, ev).live.value.c;
    var end := RunFrom(c, steps).value;
    assert LetGo(c.r);
    OpenedIsLively(w, history, ev);
    hide Lively, Next, Possible, Quiescent;
    RunLetsGo(c, steps);
    if Quiescent(end) {
      MaximalRunsSettle(c, steps);
      if end.r.fd == Detached {
        DetachedCanMove(end);
      }
    }
  }

  lemma DetachedCanMove(c: Session)
    requires c.r.fd == Detached
    ensures !Quiescent(c)
  {
    assert Enabled(c, EndFinalize(Published));
  }

  // ---------------------------------------------------------------------------------------
  // The sender's outcome

  /** What a step says to the receiver. */
  ghost function Says(c: Session, st: Step): seq<ToReceiver>
    requires WellShaped(c) && Enabled(c, st)
  {
    var d := Apply(c, st);
    if |c.toR| <= |d.toR| then d.toR[|c.toR|..] else []
  }

  predicate Heard(c: Session, st: Step) {
    st.TakeReply? && c.toS != [] && c.toS[0].FileResult?
  }

  /** A step takes the head of a channel or adds to its end; a sender's outcome stands; and a failure is told
      exactly when the sender fails the file itself. */
  ghost predicate Outspoken(c: Session, st: Step, d: Session)
    requires WellShaped(c) && Enabled(c, st) && d == Apply(c, st)
  {
    && (if st.OpenGate? || st.TakeReply? then d.toS == c.toS[1..] else c.toS <= d.toS)
    && (if st.TakeVerdict? then d.toR == c.toR[1..] else c.toR <= d.toR && |Says(c, st)| <= 1)
    && (d.s.errored ==> d.s.resolved)
    && (c.s.resolved ==> d.s.resolved && d.s.errored == c.s.errored)
    && (Says(c, st) == [SenderError] <==> !c.s.resolved && d.s.errored && !Heard(c, st))
  }

  lemma SenderSpeaks(c: Session, st: Step)
    requires WellShaped(c) && Enabled(c, st) && (c.s.errored ==> c.s.resolved)
    requires st.OpenGate? || st.Verify? || st.Schedule? || st.Send? || st.SendFailure? || st.TakeReply?
    ensures Outspoken(c, st, Apply(c, st))
  {
    hide SurvivingBits, SameSizes, TokensInRange;
  }

  lemma VerdictSilent(c: Session)
    requires WellShaped(c) && Enabled(c, TakeVerdict) && (c.s.errored ==> c.s.resolved)
    ensures Outspoken(c, TakeVerdict, Apply(c, TakeVerdict))
  {
    hide ApplyClaimResult, CommitFile, FailReceiver;
  }

  lemma ReceiverSilent(c: Session, st: Step)
    requires WellShaped(c) && Enabled(c, st) && (c.s.errored ==> c.s.resolved)
    requires !st.OpenGate? && !st.Verify? && !st.Schedule? && !st.Send? && !st.SendFailure? && !st.TakeReply?
    requires !st.TakeVerdict?
    ensures Outspoken(c, st, Apply(c, st))
  {
    hide RetryOrFail, Publish, WritePart, Gate, Remove, Answer, MarkChunk, MarkOf, SameSizes, SenderShaped;
    assert Apply(c, st).s == c.s && Apply(c, st).toR == c.toR;
  }

  lemma StepSpeaks(c: Session, st: Step)
    requires WellShaped(c) && Enabled(c, st) && (c.s.errored ==> c.s.resolved)
    ensures Outspoken(c, st, Apply(c, st))
  {
    hide Apply, Enabled, WellShaped, Outspoken;
    if st.OpenGate? || st.Verify? || st.Schedule? || st.Send? || st.SendFailure? || st.TakeReply? {
      SenderSpeaks(c, st);
    } else if st.TakeVerdict? {
      VerdictSilent(c);
    } else {
      ReceiverSilent(c, st);
    }
  }

  /** How often the receiver is told that the sender failed the file. */
  ghost function ErrorsSaid(c: Session, steps: seq<Step>): nat
    decreases |steps|
  {
    if steps == [] || !WellShaped(c) || !Enabled(c, steps[0]) then 0
    else (if Says(c, steps[0]) == [SenderError] then 1 else 0) + ErrorsSaid(Apply(c, steps[0]), steps[1..])
  }

  /** Over every run the sender's first outcome stands and is counted once: it tells the receiver of a failure once
      at most, only if the file ends failed, and never after an outcome. */
  lemma {:induction false} OutcomeStands(c: Session, steps: seq<Step>)
    requires RunFrom(c, steps).Some? && (c.s.errored ==> c.s.resolved)
    ensures var end := RunFrom(c, steps).value;
            && (c.s.resolved ==> end.s.resolved && end.s.errored == c.s.errored && ErrorsSaid(c, steps) == 0)
            && ErrorsSaid(c, steps) <= 1
            && (ErrorsSaid(c, steps) == 1 ==> end.s.resolved && end.s.errored)
    decreases |steps|
  {
    hide Apply, Enabled, WellShaped;
    if steps != [] {
      var st := steps[0];
      StepSpeaks(c, st);
      OutcomeStands(Apply(c, st), steps[1..]);
    }
  }
}
