// Every run of a session is finite: each step spends some of a measure fixed by the session's size.

module Progress {
  import opened Bytes
  import opened Bitmaps
  import opened Ledgers
  import opened Protocol
  import opened CommitSafety
  import opened Liveness

  function TokenWeight(t: Token): nat {
    match t
    case Task(_) => 9
    case Frame(_, _, _) => 8
    case Snapped(_, _, _) => 7
    case Written(_, _, _) => 6
    case Marked(_) => 5
  }

  function TokensWeight(ts: seq<Token>): nat {
    if ts == [] then 0 else TokenWeight(ts[0]) + TokensWeight(ts[1..])
  }

  function ToSWeight(ms: seq<ToSender>): nat {
    if ms == [] then 0 else
      (match ms[0] case HaveBitmap(_, _) => 9 case ChunkRetry(_) => 10 case FileResult(_) => 3) + ToSWeight(ms[1..])
  }

  function ToRWeight(ms: seq<ToReceiver>): nat {
    if ms == [] then 0 else
      (match ms[0] case Commit => 5 case ClaimResult(_) => 6 case SenderError => 3) + ToRWeight(ms[1..])
  }

  /** The retries the receiver can still ask for, over the first n chunks. */
  function Credit(m: map<nat, nat>, n: nat): nat {
    if n == 0 then 0
    else Credit(m, n - 1) + if Tries(m, n - 1) > MAX_TRIES then 0 else MAX_TRIES + 1 - Tries(m, n - 1)
  }

  /** The chunks the scheduler has not looked at, the claims to check and the place in the backlog. */
  function SenderWeight(s: Sender, n: nat): nat {
    10 * (if s.next <= n then n - s.next else 0)
    + (if s.claim.Some? then 8 else 0)
    + (match s.backlog case NotYet => 2 case Listed => 1 case Gone => 0)
  }

  function FdWeight(fd: Fd): nat {
    if fd == Closed then 0 else 6
  }

  function FlagsWeight(queue: nat, ctrlCheck: bool, prepared: bool): nat {
    4 * queue + (if ctrlCheck then 5 else 0) + (if prepared then 0 else 5)
  }

  /** Strictly smaller after every step. */
  function Measure(c: Session): nat {
    4 * Credit(c.r.retries, |c.o.chunks|) + FdWeight(c.r.fd)
    + SenderWeight(c.s, |c.o.chunks|)
    + TokensWeight(c.tokens) + ToSWeight(c.toS) + ToRWeight(c.toR)
    + FlagsWeight(c.queue, c.ctrlCheck, c.prepared)
  }

  lemma {:induction false} TokensWeightReplace(ts: seq<Token>, k: nat, t: Token)
    requires k < |ts|
    ensures TokensWeight(ts[k := t]) == TokensWeight(ts) - TokenWeight(ts[k]) + TokenWeight(t)
  {
    if k == 0 {
      assert ts[0 := t][1..] == ts[1..];
    } else {
      assert ts[k := t][1..] == ts[1..][k - 1 := t];
      TokensWeightReplace(ts[1..], k - 1, t);
    }
  }

  lemma {:induction false} TokensWeightRemove(ts: seq<Token>, k: nat)
    requires k < |ts|
    ensures TokensWeight(Remove(ts, k)) == TokensWeight(ts) - TokenWeight(ts[k])
  {
    if k == 0 {
      assert Remove(ts, 0) == ts[1..];
    } else {
      assert Remove(ts, k)[0] == ts[0] && Remove(ts, k)[1..] == Remove(ts[1..], k - 1);
      TokensWeightRemove(ts[1..], k - 1);
    }
  }

  lemma {:induction false} TokensWeightAppend(ts: seq<Token>, t: Token)
    ensures TokensWeight(ts + [t]) == TokensWeight(ts) + TokenWeight(t)
  {
    if ts == [] {
      assert ts + [t] == [t];
    } else {
      assert (ts + [t])[1..] == ts[1..] + [t];
      TokensWeightAppend(ts[1..], t);
    }
  }

  lemma {:induction false} ToSWeightAppend(ms: seq<ToSender>, m: ToSender)
    ensures ToSWeight(ms + [m]) == ToSWeight(ms) + ToSWeight([m])
  {
    if ms == [] {
      assert ms + [m] == [m];
    } else {
      assert (ms + [m])[1..] == ms[1..] + [m];
      ToSWeightAppend(ms[1..], m);
    }
  }

  lemma {:induction false} ToRWeightAppend(ms: seq<ToReceiver>, m: ToReceiver)
    ensures ToRWeight(ms + [m]) == ToRWeight(ms) + ToRWeight([m])
  {
    if ms == [] {
      assert ms + [m] == [m];
    } else {
      assert (ms + [m])[1..] == ms[1..] + [m];
      ToRWeightAppend(ms[1..], m);
    }
  }

  lemma {:induction false} CreditSpent(m: map<nat, nat>, i: nat, n: nat)
    requires Tries(m, i) <= MAX_TRIES
    ensures Credit(m[i := Tries(m, i) + 1], n) == Credit(m, n) - if i < n then 1 else 0
  {
    if n > 0 {
      CreditSpent(m, i, n - 1);
    }
  }

  // ---------------------------------------------------------------------------------------
  // Each step spends some

  lemma PrepareSpends(c: Session)
    requires !c.prepared
    ensures Measure(DoPrepare(c)) < Measure(c)
  {
  }

  lemma MaybeCompleteSpends(r: Receiver, queue: nat)
    ensures var (q, b) := MaybeComplete(r);
            q.retries == r.retries && q.fd == r.fd && Plus(queue, b) <= queue + 1
  {
  }

  lemma CtrlCheckSpends(c: Session)
    requires c.ctrlCheck
    ensures Measure(DoCtrlCheck(c)) < Measure(c)
  {
    MaybeCompleteSpends(c.r, c.queue);
  }

  lemma CheckSpends(c: Session, k: nat)
    requires k < |c.tokens| && c.tokens[k].Marked?
    ensures Measure(DoCheck(c, k)) < Measure(c)
  {
    MaybeCompleteSpends(c.r, c.queue);
    TokensWeightRemove(c.tokens, k);
  }

  lemma VerdictSpends(c: Session)
    requires WellShaped(c) && c.toR != [] && !c.ctrlCheck
    ensures Measure(Apply(c, TakeVerdict)) < Measure(c)
  {
    var w := ToRWeight(c.toR[1..]);
    match c.toR[0]
    case Commit =>
      var (r, q) := CommitFile(c.r);
      assert r.retries == c.r.retries && r.fd == c.r.fd;
    case ClaimResult(v) =>
      var (r, check) := ApplyClaimResult(c.r, v);
      assert r.retries == c.r.retries && r.fd == c.r.fd;
    case SenderError =>
      var r := FailReceiver(c.r);
      assert r.retries == c.r.retries && FdWeight(r.fd) <= FdWeight(c.r.fd);
  }

  lemma StartFinalizeSpends(c: Session)
    requires c.queue > 0
    ensures Measure(DoStartFinalize(c)) < Measure(c)
  {
    assert Detach(c.r).retries == c.r.retries && FdWeight(Detach(c.r).fd) == FdWeight(c.r.fd);
  }

  lemma EndFinalizeSpends(c: Session, outcome: PublishOutcome)
    requires c.r.fd == Detached
    ensures Measure(DoEndFinalize(c, outcome)) < Measure(c)
  {
    ToSWeightAppend(c.toS, FileResult(outcome == Published));
    assert Publish(c.r, outcome).retries == c.r.retries && Publish(c.r, outcome).fd == Closed;
  }

  lemma OpenGateSpends(c: Session)
    requires c.toS != [] && c.toS[0].HaveBitmap? && (c.s.have.None? ==> c.s.backlog == NotYet && c.s.claim.None?)
    ensures Measure(DoOpenGate(c)) < Measure(c)
  {
    var s := GateOpen(c.s, c.toS[0].bits, c.toS[0].hashes);
    assert SenderWeight(s, |c.o.chunks|) <= SenderWeight(c.s, |c.o.chunks|) + 8;
  }

  lemma VerifySpends(c: Session, canOpen: bool, bad: set<nat>)
    requires c.s.have.Some? && c.s.claim.Some? && |c.s.have.value| == |c.o.chunks| && c.s.backlog == NotYet
    ensures Measure(DoVerify(c, canOpen, bad)) < Measure(c)
  {
    var (s, verdict) := AnswerClaim(c.o.path, c.s, canOpen, c.o.Reads(bad));
    ToRWeightAppend(c.toR, verdict);
    assert ToRWeight([verdict]) <= 6;
    assert s.next == c.s.next && s.claim.None? && s.backlog != NotYet;
  }

  lemma ScheduleSpends(c: Session)
    requires c.s.backlog == Listed && c.s.have.Some? && |c.s.have.value| == |c.o.chunks|
    ensures Measure(DoSchedule(c)) < Measure(c)
  {
    TokensWeightAppend(c.tokens, Task(c.s.next));
    var (s, task) := ScheduleOne(c.s);
    assert SenderWeight(s, |c.o.chunks|) == SenderWeight(c.s, |c.o.chunks|) - if s.backlog == Gone then 1 else 10;
    assert task.Some? ==> task.value == c.s.next && s.backlog == Listed;
  }

  lemma FileResultSpends(c: Session)
    requires c.toS != [] && c.toS[0].FileResult?
    ensures Measure(DoFileResult(c)) < Measure(c)
  {
    var s := TakeFileResult(c.s, c.toS[0].ok);
    assert SenderWeight(s, |c.o.chunks|) == SenderWeight(c.s, |c.o.chunks|);
  }

  lemma RetrySpends(c: Session)
    requires c.toS != [] && c.toS[0].ChunkRetry?
    ensures Measure(DoRetry(c)) < Measure(c)
  {
    var i := c.toS[0].idx;
    TokensWeightAppend(c.tokens, Task(i));
    ToRWeightAppend(c.toR, SenderError);
    var (s, outcome) := RetryChunk(c.s, i);
    assert SenderWeight(s, |c.o.chunks|) == SenderWeight(c.s, |c.o.chunks|);
  }

  lemma MoveSpends(c: Session, k: nat, t: Token)
    requires k < |c.tokens| && TokenWeight(t) < TokenWeight(c.tokens[k])
    ensures Measure(c.(tokens := c.tokens[k := t])) < Measure(c)
    ensures Measure(c.(tokens := Remove(c.tokens, k))) < Measure(c)
  {
    TokensWeightReplace(c.tokens, k, t);
    TokensWeightRemove(c.tokens, k);
  }

  lemma SendSpends(c: Session, k: nat)
    requires k < |c.tokens| && c.tokens[k].Task? && c.tokens[k].idx < |c.o.chunks|
    ensures Measure(DoSend(c, k)) < Measure(c)
  {
    var i := c.tokens[k].idx;
    var zero := c.sparse && AllZero(c.o.chunks[i]);
    MoveSpends(c, k, Frame(i, zero, if zero then [] else c.o.chunks[i]));
  }

  lemma SendFailureSpends(c: Session, k: nat)
    requires k < |c.tokens| && c.tokens[k].Task?
    ensures Measure(DoSendFailure(c, k)) < Measure(c)
  {
    TokensWeightRemove(c.tokens, k);
    ToRWeightAppend(c.toR, SenderError);
    assert SenderWeight(FailSender(c.s), |c.o.chunks|) == SenderWeight(c.s, |c.o.chunks|);
  }

  lemma SnapshotSpends(c: Session, k: nat)
    requires k < |c.tokens| && c.tokens[k].Frame? && c.tokens[k].idx < |c.r.led.have|
    ensures Measure(DoSnapshot(c, k)) < Measure(c)
  {
    var t := c.tokens[k];
    MoveSpends(c, k, Snapped(t.idx, t.zero, t.data));
  }

  lemma WriteSpends(c: Session, k: nat)
    requires Fitting(c, k)
    ensures Measure(DoWrite(c, k)) < Measure(c)
  {
    var t := c.tokens[k];
    MoveSpends(c, k, Written(t.idx, t.zero, t.data));
  }

  lemma MarkSpends(c: Session, k: nat)
    requires k < |c.tokens| && c.tokens[k].Written? && c.tokens[k].idx < |c.r.led.have| == |c.r.led.marks|
    ensures Measure(DoMark(c, k)) < Measure(c)
  {
    MoveSpends(c, k, Marked(c.tokens[k].idx));
  }

  /** A chunk asked for again costs the receiver one of its retries for it. */
  lemma RetryOrFailSpends(r: Receiver, i: nat, n: nat)
    requires !r.resolved ==> Tries(r.retries, i) <= MAX_TRIES
    requires i < n
    ensures var (q, outcome) := RetryOrFail(r, i);
            && FdWeight(q.fd) <= FdWeight(r.fd)
            && Credit(q.retries, n) + (if outcome == Ignored then 0 else 1) == Credit(r.retries, n)
  {
    if !r.errored && !r.resolved {
      CreditSpent(r.retries, i, n);
    }
  }

  lemma RejectSpends(c: Session, k: nat)
    requires k < |c.tokens| && (c.tokens[k].Frame? || c.tokens[k].Snapped?) && c.tokens[k].idx < |c.o.chunks|
    requires !c.r.resolved ==> Tries(c.r.retries, c.tokens[k].idx) <= MAX_TRIES
    ensures Measure(DoReject(c, k)) < Measure(c)
  {
    var i := c.tokens[k].idx;
    TokensWeightRemove(c.tokens, k);
    ToSWeightAppend(c.toS, ChunkRetry(i));
    ToSWeightAppend(c.toS, FileResult(false));
    RetryOrFailSpends(c.r, i, |c.o.chunks|);
    assert c.toS + [] == c.toS;
  }

  lemma StepSpends(c: Session, st: Step)
    requires Lively(c) && Enabled(c, st)
    ensures Measure(Apply(c, st)) < Measure(c)
  {
    match st
    case Prepare => PrepareSpends(c);
    case OpenGate => OpenGateSpends(c);
    case Verify(canOpen, bad) => VerifySpends(c, canOpen, bad);
    case Schedule => ScheduleSpends(c);
    case Send(k) => SendSpends(c, k);
    case SendFailure(k) => SendFailureSpends(c, k);
    case Snapshot(k) => SnapshotSpends(c, k);
    case Reject(k) => RejectSpends(c, k);
    case Write(k) => WriteSpends(c, k);
    case TornWrite(k, n) => RejectSpends(c.(part := WritePart(c, k, n)), k);
    case Mark(k) => MarkSpends(c, k);
    case Check(k) => CheckSpends(c, k);
    case TakeVerdict => VerdictSpends(c);
    case CtrlCheck => CtrlCheckSpends(c);
    case TakeReply =>
      if c.toS[0].FileResult? {
        FileResultSpends(c);
      } else {
        RetrySpends(c);
      }
    case StartFinalize => StartFinalizeSpends(c);
    case EndFinalize(outcome) => EndFinalizeSpends(c, outcome);
  }

  // ---------------------------------------------------------------------------------------
  // Whole runs

  ghost function RunFrom(c: Session, steps: seq<Step>): Option<Session>
    decreases |steps|
  {
    if steps == [] then Some(c)
    else if WellShaped(c) && Enabled(c, steps[0]) then RunFrom(Apply(c, steps[0]), steps[1..])
    else None
  }

  /** A run has no more steps than the measure it starts with, and ends in a state as sound. */
  lemma {:induction false} RunsAreFinite(c: Session, steps: seq<Step>)
    requires Lively(c) && RunFrom(c, steps).Some?
    ensures Lively(RunFrom(c, steps).value)
    ensures RunFrom(c, steps).value.o == c.o
    ensures |steps| + Measure(RunFrom(c, steps).value) <= Measure(c)
    decreases |steps|
  {
    if steps != [] {
      StepKeepsLively(c, steps[0]);
      StepSpends(c, steps[0]);
      StepKeepsSource(c, steps[0]);
      RunsAreFinite(Apply(c, steps[0]), steps[1..]);
    }
  }

  /** No stuck file: a run that can go no further has settled the file; and if it settled without
      an error the source's chunks are in place. */
  lemma MaximalRunsSettle(c: Session, steps: seq<Step>)
    requires Lively(c) && RunFrom(c, steps).Some? && Quiescent(RunFrom(c, steps).value)
    ensures var end := RunFrom(c, steps).value;
            && end.r.resolved
            && (!end.r.errored ==> end.published == Some(c.o.chunks))
  {
    RunsAreFinite(c, steps);
    QuiescentIsSettled(RunFrom(c, steps).value);
  }

  // ---------------------------------------------------------------------------------------
  // Errors are earned

  /** A step in which something goes wrong. */
  predicate Faulty(st: Step) {
    st.SendFailure? || st.Reject? || st.TornWrite? || (st.EndFinalize? && st.outcome != Published)
  }

  /** No side has failed the file, and no retry or failure is on its way. */
  ghost predicate Clean(c: Session) {
    !c.r.errored && !c.s.errored && CleanToSender(c.toS) && CleanToReceiver(c.toR)
  }

  ghost predicate CleanToSender(toS: seq<ToSender>) {
    forall k :: 0 <= k < |toS| ==> !toS[k].ChunkRetry? && (toS[k].FileResult? ==> toS[k].ok)
  }

  ghost predicate CleanToReceiver(toR: seq<ToReceiver>) {
    forall k :: 0 <= k < |toR| ==> !toR[k].SenderError?
  }

  lemma CleanChunkStep(c: Session, st: Step)
    requires WellShaped(c) && Enabled(c, st) && Clean(c)
    requires st.Send? || st.Snapshot? || st.Write? || st.Mark? || st.Check?
    ensures Clean(Apply(c, st))
  {
    match st
    case Send(k) => assert DoSend(c, k).s == c.s;
    case Snapshot(k) => assert DoSnapshot(c, k).r == c.r;
    case Write(k) => assert DoWrite(c, k).r == c.r;
    case Mark(k) => assert !DoMark(c, k).r.errored;
    case Check(k) => assert !DoCheck(c, k).r.errored;
  }

  lemma CleanVerdict(c: Session)
    requires WellShaped(c) && Enabled(c, TakeVerdict) && Clean(c)
    ensures Clean(Apply(c, TakeVerdict))
  {
    assert CleanToReceiver(c.toR[1..]);
    if c.toR[0].Commit? {
      assert !CommitFile(c.r).0.errored;
    } else {
      assert !ApplyClaimResult(c.r, c.toR[0].verified).0.errored;
    }
  }

  lemma CleanReply(c: Session)
    requires WellShaped(c) && Enabled(c, TakeReply) && Clean(c)
    ensures Clean(Apply(c, TakeReply))
  {
    assert CleanToSender(c.toS[1..]);
  }

  lemma CleanStep(c: Session, st: Step)
    requires WellShaped(c) && Enabled(c, st) && Clean(c) && !Faulty(st)
    ensures Clean(Apply(c, st))
  {
    match st
    case TakeVerdict => CleanVerdict(c);
    case TakeReply => CleanReply(c);
    case Prepare =>
    case OpenGate =>
    case Verify(canOpen, bad) =>
      assert !AnswerClaim(c.o.path, c.s, canOpen, c.o.Reads(bad)).1.SenderError?;
    case Schedule =>
    case CtrlCheck =>
    case StartFinalize =>
    case EndFinalize(_) => assert DoEndFinalize(c, Published).toS == c.toS + [FileResult(true)];
    case _ => CleanChunkStep(c, st);
  }

  lemma {:induction false} CleanRun(c: Session, steps: seq<Step>)
    requires Lively(c) && Clean(c) && RunFrom(c, steps).Some?
    requires forall k :: 0 <= k < |steps| ==> !Faulty(steps[k])
    ensures Clean(RunFrom(c, steps).value)
    decreases |steps|
  {
    if steps != [] {
      StepKeepsLively(c, steps[0]);
      CleanStep(c, steps[0]);
      CleanRun(Apply(c, steps[0]), steps[1..]);
    }
  }

  /** A fault-free run that can go no further has put the source in place. */
  lemma FaultFreeRunsDeliver(c: Session, steps: seq<Step>)
    requires Lively(c) && Clean(c) && RunFrom(c, steps).Some? && Quiescent(RunFrom(c, steps).value)
    requires forall k :: 0 <= k < |steps| ==> !Faulty(steps[k])
    ensures RunFrom(c, steps).value.published == Some(c.o.chunks)
  {
    CleanRun(c, steps);
    MaximalRunsSettle(c, steps);
  }
}
