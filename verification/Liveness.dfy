// No stuck file: when nothing more can happen the file is settled, and without a failure the source is in place.

module Liveness {
  import opened Bytes
  import opened Bitmaps
  import opened Ledgers
  import opened Protocol
  import opened CommitSafety

  // ---------------------------------------------------------------------------------------
  // What is still to come

  /** The chunk is on its way: a task, a frame, or a handler that has not marked it yet. */
  ghost predicate Travelling(tokens: seq<Token>, i: nat) {
    exists k :: 0 <= k < |tokens| && tokens[k].idx == i && !tokens[k].Marked?
  }

  ghost predicate Asked(toS: seq<ToSender>, i: nat) {
    exists k :: 0 <= k < |toS| && toS[k] == ChunkRetry(i)
  }

  ghost predicate CheckDue(tokens: seq<Token>) {
    exists k :: 0 <= k < |tokens| && tokens[k].Marked?
  }

  ghost predicate VerdictIn(toR: seq<ToReceiver>) {
    exists k :: 0 <= k < |toR| && !toR[k].SenderError?
  }

  ghost predicate ErrorIn(toR: seq<ToReceiver>) {
    exists k :: 0 <= k < |toR| && toR[k].SenderError?
  }

  ghost predicate ResultIn(toS: seq<ToSender>) {
    exists k :: 0 <= k < |toS| && toS[k].FileResult?
  }

  /** Neither side has settled the file and the part is still being filled. */
  predicate Active(c: Session) {
    !c.r.resolved && !c.s.resolved && c.r.fd == Live
  }

  predicate Got(r: Receiver, i: nat)
    requires i < |r.led.have|
  {
    if r.adopted then i in r.arrived else r.led.have[i]
  }

  ghost predicate Outstanding(c: Session, i: nat) {
    (c.s.backlog == Listed && c.s.next <= i) || Travelling(c.tokens, i) || Asked(c.toS, i)
  }

  /** The bits the sender will not send: its own bitmap, or the claim while that is under way. */
  function Spared(c: Session): seq<bool> {
    if c.s.have.Some? then c.s.have.value else c.claim.have
  }

  // ---------------------------------------------------------------------------------------
  // The invariant

  /** Who has settled what, and who has been told. */
  ghost predicate SettlingSound(c: Session) {
    && (c.r.errored ==> c.r.resolved)
    && (c.s.errored ==> c.s.resolved)
    && (c.r.fd == Closed ==> c.r.resolved)
    && (c.s.resolved ==> c.r.resolved || ErrorIn(c.toR))
    && (ErrorIn(c.toR) ==> c.s.resolved)
    && (ResultIn(c.toS) ==> c.r.resolved)
    && (c.r.resolved && !c.r.errored ==> c.published.Some?)
    && (!c.r.resolved ==> forall i :: Tries(c.r.retries, i) <= MAX_TRIES)
  }

  /** The phases of the sender's record. */
  ghost predicate PhaseSound(c: Session) {
    && (c.s.have.None? ==> c.toS != [] && c.toS[0].HaveBitmap?)
    && (forall k :: 0 <= k < |c.toS| && c.toS[k].HaveBitmap? ==> k == 0 && c.s.have.None?)
    && (c.s.backlog == NotYet <==> c.s.have.None? || c.s.claim.Some?)
    && (c.s.backlog == NotYet ==> c.s.next == 0)
    && (c.s.backlog == Gone ==> c.s.resolved || (c.s.have.Some? && c.s.next == |c.s.have.value|))
    && (c.r.awaitClaims ==> Count(c.claim.have) > 0)
    && (c.s.backlog == NotYet ==> !VerdictIn(c.toR))
    && (forall k :: 0 <= k < |c.toR| && c.toR[k].ClaimResult? ==> c.s.have == Some(c.toR[k].verified))
  }

  /** Chunk i is spared by the sender and had by the receiver, or has arrived, or is still to come. */
  ghost predicate Accounted(c: Session, i: nat)
    requires WellShaped(c) && i < |c.o.chunks|
  {
    && (Spared(c)[i] ==> c.r.led.have[i])
    && (c.s.backlog != NotYet && !Spared(c)[i] ==> Got(c.r, i) || Outstanding(c, i))
  }

  /** While the file is active, what the sender spares the receiver has, and everything else has
      arrived or is still to come. */
  ghost predicate NothingLost(c: Session)
    requires WellShaped(c)
  {
    Active(c) ==>
      && (forall i :: 0 <= i < |c.o.chunks| ==> Accounted(c, i))
      && (c.r.awaitClaims && !c.r.claimsResolved ==> c.s.backlog == NotYet || VerdictIn(c.toR))
  }

  /** An open gate has been noticed, or somebody is about to look. */
  ghost predicate GateWatched(c: Session) {
    && (c.r.finalQueued ==> c.queue > 0 || c.r.fd != Live || c.r.resolved)
    && (Gate(c.r) && c.r.fd == Live && !c.r.resolved && c.queue == 0 ==>
          CheckDue(c.tokens) || c.ctrlCheck || !c.prepared)
  }

  ghost predicate Lively(c: Session) {
    Safe(c) && SettlingSound(c) && PhaseSound(c) && NothingLost(c) && GateWatched(c)
  }

  // ---------------------------------------------------------------------------------------
  // Quiescence

  ghost predicate Quiescent(c: Session) {
    forall st :: !Enabled(c, st)
  }

  /** Nothing queued, in flight or owed. */
  predicate Idle(c: Session) {
    && c.tokens == [] && c.toS == [] && c.toR == [] && !c.ctrlCheck && c.prepared && c.queue == 0
    && c.s.claim.None? && c.s.backlog != Listed && c.r.fd != Detached
  }

  /** Every chunk on its way can take its next step. */
  lemma TokenCanMove(c: Session) returns (st: Step)
    requires Safe(c) && c.tokens != []
    ensures Enabled(c, st)
  {
    var t := c.tokens[0];
    assert HonestToken(c.o, c.part, t);
    match t
    case Task(_) => st := Send(0);
    case Frame(_, _, _) => st := Snapshot(0);
    case Snapped(_, _, _) =>
      assert Fitting(c, 0);
      st := if Writes(c.r, t) && c.r.fd == Closed then TornWrite(0, 0) else Write(0);
    case Written(_, _, _) => st := Mark(0);
    case Marked(_) => st := Check(0);
  }

  lemma BusyCanMove(c: Session) returns (st: Step)
    requires Safe(c) && !Idle(c)
    ensures Enabled(c, st)
  {
    if c.tokens != [] {
      st := TokenCanMove(c);
    } else {
      st := if c.ctrlCheck then CtrlCheck
      else if !c.prepared then Prepare
      else if c.toR != [] then TakeVerdict
      else if c.toS != [] then (if c.toS[0].HaveBitmap? then OpenGate else TakeReply)
      else if c.s.claim.Some? then Verify(true, {})
      else if c.s.backlog == Listed then Schedule
      else if c.r.fd == Detached then EndFinalize(Published)
      else StartFinalize;
    }
  }

  lemma QuiescentIsIdle(c: Session)
    requires Safe(c) && Quiescent(c)
    ensures Idle(c)
  {
    if !Idle(c) {
      var st := BusyCanMove(c);
    }
  }

  /** When nothing more can happen the file is settled, and without an error the source is in place. */
  lemma QuiescentIsSettled(c: Session)
    requires Lively(c) && Quiescent(c)
    ensures c.r.resolved
    ensures !c.r.errored ==> c.published == Some(c.o.chunks)
  {
    QuiescentIsIdle(c);
    if !c.r.resolved {
      forall i | 0 <= i < |c.o.chunks|
        ensures c.r.led.have[i]
      {
        assert BitSound(c.o, c.r.led, TrustOf(c.r), c.claim, i) && Accounted(c, i);
      }
      assert Gate(c.r);
    }
  }

  // ---------------------------------------------------------------------------------------
  // Sequences

  lemma AfterRemove(ts: seq<Token>, k: nat)
    requires k < |ts|
    ensures forall i :: Travelling(ts, i) && i != ts[k].idx ==> Travelling(Remove(ts, k), i)
    ensures ts[k].Marked? ==> forall i :: Travelling(ts, i) ==> Travelling(Remove(ts, k), i)
    ensures CheckDue(ts) && !ts[k].Marked? ==> CheckDue(Remove(ts, k))
  {
    var r := Remove(ts, k);
    assert forall j :: 0 <= j < |ts| && j != k ==> ts[j] == r[if j < k then j else j - 1];
  }

  lemma AfterReplace(ts: seq<Token>, k: nat, t: Token)
    requires k < |ts| && t.idx == ts[k].idx && !ts[k].Marked?
    ensures forall i :: Travelling(ts, i) && (i != t.idx || !t.Marked?) ==> Travelling(ts[k := t], i)
    ensures CheckDue(ts) || t.Marked? ==> CheckDue(ts[k := t])
  {
    var r := ts[k := t];
    assert r[k] == t;
    assert forall j :: 0 <= j < |ts| && j != k ==> ts[j] == r[j];
  }

  lemma AfterAppend(ts: seq<Token>, t: Token)
    ensures forall i :: Travelling(ts, i) ==> Travelling(ts + [t], i)
    ensures !t.Marked? ==> Travelling(ts + [t], t.idx)
    ensures CheckDue(ts) ==> CheckDue(ts + [t])
  {
    var r := ts + [t];
    assert r[|ts|] == t;
    assert forall j :: 0 <= j < |ts| ==> ts[j] == r[j];
  }

  lemma AfterPost(toS: seq<ToSender>, m: ToSender)
    ensures forall i :: Asked(toS, i) || m == ChunkRetry(i) ==> Asked(toS + [m], i)
    ensures ResultIn(toS + [m]) <==> ResultIn(toS) || m.FileResult?
    ensures forall k :: 0 <= k < |toS| ==> (toS + [m])[k] == toS[k]
  {
    var r := toS + [m];
    assert r[|toS|] == m;
    assert forall j :: 0 <= j < |toS| ==> toS[j] == r[j];
  }

  lemma AfterPostR(toR: seq<ToReceiver>, m: ToReceiver)
    ensures VerdictIn(toR + [m]) <==> VerdictIn(toR) || !m.SenderError?
    ensures ErrorIn(toR + [m]) <==> ErrorIn(toR) || m.SenderError?
    ensures forall k :: 0 <= k < |toR| ==> (toR + [m])[k] == toR[k]
  {
    var r := toR + [m];
    assert r[|toR|] == m;
    assert forall j :: 0 <= j < |toR| ==> toR[j] == r[j];
  }

  // ---------------------------------------------------------------------------------------
  // Every step keeps it

  ghost predicate Steady(c: Session) {
    WellShaped(c) && SettlingSound(c) && PhaseSound(c) && NothingLost(c) && GateWatched(c)
  }

  lemma PrepareSteady(c: Session)
    requires Lively(c)
    ensures Steady(DoPrepare(c))
  {
    var d := DoPrepare(c);
    if Active(d) {
      forall i | 0 <= i < |c.o.chunks|
        ensures Accounted(d, i)
      {
        assert Accounted(c, i);
      }
    }
  }

  lemma CtrlCheckSteady(c: Session)
    requires Lively(c)
    ensures Steady(DoCtrlCheck(c))
  {
    var d := DoCtrlCheck(c);
    if Active(d) {
      forall i | 0 <= i < |c.o.chunks|
        ensures Accounted(d, i)
      {
        assert Accounted(c, i);
      }
    }
  }

  lemma CommitSteady(c: Session)
    requires Lively(c) && c.toR != [] && c.toR[0].Commit? && !c.ctrlCheck
    ensures Steady(DoCommit(c))
  {
    var d := DoCommit(c);
    if Active(d) {
      forall i | 0 <= i < |c.o.chunks|
        ensures Accounted(d, i)
      {
        assert Accounted(c, i);
      }
    }
  }

  lemma ClaimResultSteady(c: Session)
    requires Lively(c) && c.toR != [] && c.toR[0].ClaimResult? && !c.ctrlCheck
    ensures Steady(DoClaimResult(c))
  {
    var d := DoClaimResult(c);
    if Active(d) {
      forall i | 0 <= i < |c.o.chunks|
        ensures Accounted(d, i)
      {
        assert Accounted(c, i);
      }
    }
  }

  lemma SenderErrorSteady(c: Session)
    requires Lively(c) && c.toR != [] && c.toR[0].SenderError? && !c.ctrlCheck
    ensures Steady(DoSenderError(c))
  {
  }

  lemma StartFinalizeSteady(c: Session)
    requires Lively(c) && c.queue > 0
    ensures Steady(DoStartFinalize(c))
  {
  }

  lemma EndFinalizeSteady(c: Session, outcome: PublishOutcome)
    requires Lively(c) && c.r.fd == Detached
    ensures Steady(DoEndFinalize(c, outcome))
  {
    AfterPost(c.toS, FileResult(outcome == Published));
  }

  lemma OpenGateSteady(c: Session)
    requires Lively(c) && c.toS != [] && c.toS[0].HaveBitmap?
    ensures Steady(DoOpenGate(c))
  {
    var d := DoOpenGate(c);
    if Active(d) {
      forall i | 0 <= i < |c.o.chunks|
        ensures Accounted(d, i)
      {
        assert Accounted(c, i);
      }
    }
  }

  lemma VerifySteady(c: Session, canOpen: bool, bad: set<nat>)
    requires Lively(c) && c.s.claim.Some?
    ensures Steady(DoVerify(c, canOpen, bad))
  {
    AfterPostR(c.toR, AnswerClaim(c.o.path, c.s, canOpen, c.o.Reads(bad)).1);
    var d := DoVerify(c, canOpen, bad);
    if Active(d) {
      forall i | 0 <= i < |c.o.chunks|
        ensures Accounted(d, i)
      {
        assert Accounted(c, i);
      }
    }
  }

  lemma ScheduleSteady(c: Session)
    requires Lively(c) && c.s.backlog == Listed
    ensures Steady(DoSchedule(c))
  {
    AfterAppend(c.tokens, Task(c.s.next));
    var d := DoSchedule(c);
    if Active(d) {
      forall i | 0 <= i < |c.o.chunks|
        ensures Accounted(d, i)
      {
        assert Accounted(c, i);
      }
    }
  }

  lemma FileResultSteady(c: Session)
    requires Lively(c) && c.toS != [] && c.toS[0].FileResult?
    ensures Steady(DoFileResult(c))
  {
  }

  lemma RetrySteady(c: Session)
    requires Lively(c) && c.toS != [] && c.toS[0].ChunkRetry?
    ensures Steady(DoRetry(c))
  {
    var d := DoRetry(c);
    if c.s.errored || c.s.resolved {
      assert d == c.(toS := c.toS[1..]);
    } else if RetryChunk(c.s, c.toS[0].idx).1 == Failed {
      AfterPostR(c.toR, SenderError);
    } else {
      RetriedSteady(c);
    }
  }

  lemma RetriedSteady(c: Session)
    requires Lively(c) && c.toS != [] && c.toS[0].ChunkRetry? && !c.s.resolved
    requires RetryChunk(c.s, c.toS[0].idx).1 == Retry
    ensures Steady(DoRetry(c))
  {
    AfterAppend(c.tokens, Task(c.toS[0].idx));
    var d := DoRetry(c);
    assert d == c.(toS := c.toS[1..], s := d.s, tokens := c.tokens + [Task(c.toS[0].idx)]);
    forall i | Active(d) && 0 <= i < |c.o.chunks|
      ensures Accounted(d, i)
    {
      assert Accounted(c, i);
    }
  }

  /** A chunk that moves to its next stage stays accounted for. */
  lemma MovedSteady(c: Session, k: nat, t: Token)
    requires Lively(c) && k < |c.tokens| && !c.tokens[k].Marked? && !t.Marked? && t.idx == c.tokens[k].idx
    ensures Steady(c.(tokens := c.tokens[k := t]))
  {
    AfterReplace(c.tokens, k, t);
    var d := c.(tokens := c.tokens[k := t]);
    forall i | Active(d) && 0 <= i < |c.o.chunks|
      ensures Accounted(d, i)
    {
      assert Accounted(c, i);
    }
  }

  /** A chunk that is dropped was not needed. */
  lemma DroppedSteady(c: Session, k: nat)
    requires Lively(c) && k < |c.tokens| && !c.tokens[k].Marked?
    requires Active(c) ==> Got(c.r, c.tokens[k].idx)
    ensures Steady(c.(tokens := Remove(c.tokens, k)))
  {
    RemoveMembers(c.tokens, k);
    AfterRemove(c.tokens, k);
    var d := c.(tokens := Remove(c.tokens, k));
    forall i | Active(d) && 0 <= i < |c.o.chunks|
      ensures Accounted(d, i)
    {
      assert Accounted(c, i);
    }
  }

  lemma SendSteady(c: Session, k: nat)
    requires Lively(c) && k < |c.tokens| && c.tokens[k].Task?
    ensures Steady(DoSend(c, k))
  {
    var i := c.tokens[k].idx;
    if c.s.errored || c.s.resolved {
      DroppedSteady(c, k);
    } else {
      var zero := c.sparse && AllZero(c.o.chunks[i]);
      MovedSteady(c, k, Frame(i, zero, if zero then [] else c.o.chunks[i]));
    }
  }

  lemma SendFailureSteady(c: Session, k: nat)
    requires Lively(c) && k < |c.tokens| && c.tokens[k].Task?
    ensures Steady(DoSendFailure(c, k))
  {
    RemoveMembers(c.tokens, k);
    AfterRemove(c.tokens, k);
    AfterPostR(c.toR, SenderError);
  }

  lemma SnapshotSteady(c: Session, k: nat)
    requires Lively(c) && k < |c.tokens| && c.tokens[k].Frame?
    ensures Steady(DoSnapshot(c, k))
  {
    var t := c.tokens[k];
    if Drops(c.r, t.idx) {
      DroppedSteady(c, k);
    } else {
      MovedSteady(c, k, Snapped(t.idx, t.zero, t.data));
    }
  }

  /** The chunk is asked for again, or the file is failed, or it was settled already. */
  lemma RejectSteady(c: Session, k: nat)
    requires Lively(c) && k < |c.tokens| && (c.tokens[k].Frame? || c.tokens[k].Snapped?)
    ensures Steady(DoReject(c, k))
  {
    var i := c.tokens[k].idx;
    if c.r.errored || c.r.resolved {
      DroppedSteady(c, k);
      assert DoReject(c, k) == c.(tokens := Remove(c.tokens, k)) by {
        assert c.toS + Answer(Ignored, i) == c.toS;
      }
    } else {
      TriedSettling(c, i);
      AskedPhases(c, k);
      AskedAccounted(c, k);
    }
  }

  lemma TriedSettling(c: Session, i: nat)
    requires SettlingSound(c) && !c.r.errored && !c.r.resolved
    ensures var (r, outcome) := RetryOrFail(c.r, i);
            SettlingSound(c.(r := r, toS := c.toS + Answer(outcome, i)))
  {
    AfterPost(c.toS, ChunkRetry(i));
    AfterPost(c.toS, FileResult(false));
    var (r, outcome) := RetryOrFail(c.r, i);
    assert outcome == Failed ==> r.errored && r.resolved;
    forall j | outcome == Retry
      ensures Tries(r.retries, j) <= MAX_TRIES
    {
      assert Tries(c.r.retries, j) <= MAX_TRIES;
    }
  }

  lemma AskedPhases(c: Session, k: nat)
    requires Lively(c) && k < |c.tokens| && (c.tokens[k].Frame? || c.tokens[k].Snapped?)
    ensures var d := DoReject(c, k); PhaseSound(d) && GateWatched(d) && TokensInRange(d.tokens, |c.o.chunks|)
  {
    RemoveMembers(c.tokens, k);
    AfterRemove(c.tokens, k);
  }

  lemma AskedAccounted(c: Session, k: nat)
    requires Lively(c) && k < |c.tokens| && (c.tokens[k].Frame? || c.tokens[k].Snapped?)
    requires !c.r.errored && !c.r.resolved
    ensures var d := DoReject(c, k); WellShaped(d) && NothingLost(d)
  {
    var d := DoReject(c, k);
    var m := ChunkRetry(c.tokens[k].idx);
    RejectSafe(c, k);
    AfterRemove(c.tokens, k);
    AfterPost(c.toS, m);
    if Active(d) {
      assert d.toS == c.toS + [m];
      forall i | 0 <= i < |c.o.chunks|
        ensures Accounted(d, i)
      {
        assert Accounted(c, i);
      }
    }
  }

  lemma WriteSteady(c: Session, k: nat)
    requires Lively(c) && Fitting(c, k)
    ensures Steady(DoWrite(c, k))
  {
    var t := c.tokens[k];
    AfterReplace(c.tokens, k, Written(t.idx, t.zero, t.data));
    var d := DoWrite(c, k);
    if Active(d) {
      forall i | 0 <= i < |c.o.chunks|
        ensures Accounted(d, i)
      {
        assert Accounted(c, i);
      }
    }
  }

  lemma MarkSteady(c: Session, k: nat)
    requires Lively(c) && k < |c.tokens| && c.tokens[k].Written?
    ensures Steady(DoMark(c, k))
  {
    AfterReplace(c.tokens, k, Marked(c.tokens[k].idx));
    var d := DoMark(c, k);
    if Active(d) {
      forall i | 0 <= i < |c.o.chunks|
        ensures Accounted(d, i)
      {
        assert Accounted(c, i);
      }
    }
  }

  lemma CheckSteady(c: Session, k: nat)
    requires Lively(c) && k < |c.tokens| && c.tokens[k].Marked?
    ensures Steady(DoCheck(c, k))
  {
    AfterRemove(c.tokens, k);
    var d := DoCheck(c, k);
    if Active(d) {
      forall i | 0 <= i < |c.o.chunks|
        ensures Accounted(d, i)
      {
        assert Accounted(c, i);
      }
    }
  }

  lemma TornIsLively(c: Session, k: nat, n: nat)
    requires Lively(c) && Fitting(c, k) && n <= |c.o.chunks[c.tokens[k].idx]|
    ensures Lively(c.(part := WritePart(c, k, n)))
  {
    WritingKeepsParts(c, k, n);
    var torn := c.(part := WritePart(c, k, n));
    forall i | Active(torn) && 0 <= i < |c.o.chunks|
      ensures Accounted(torn, i)
    {
      assert Accounted(c, i);
    }
  }

  lemma TornWriteSteady(c: Session, k: nat, n: nat)
    requires Lively(c) && Fitting(c, k) && n <= |c.o.chunks[c.tokens[k].idx]|
    ensures Steady(DoTornWrite(c, k, n))
  {
    TornIsLively(c, k, n);
    RejectSteady(c.(part := WritePart(c, k, n)), k);
  }

  lemma StepKeepsLively(c: Session, st: Step)
    requires Lively(c) && Enabled(c, st)
    ensures Lively(Apply(c, st))
  {
    StepKeepsSafe(c, st);
    StepSteady(c, st);
  }

  lemma StepSteady(c: Session, st: Step)
    requires Lively(c) && Enabled(c, st)
    ensures Steady(Apply(c, st))
  {
    match st
    case Prepare => PrepareSteady(c);
    case OpenGate => OpenGateSteady(c);
    case Verify(canOpen, bad) => VerifySteady(c, canOpen, bad);
    case Schedule => ScheduleSteady(c);
    case Send(k) => SendSteady(c, k);
    case SendFailure(k) => SendFailureSteady(c, k);
    case Snapshot(k) => SnapshotSteady(c, k);
    case Reject(k) => RejectSteady(c, k);
    case Write(k) => WriteSteady(c, k);
    case TornWrite(k, n) => TornWriteSteady(c, k, n);
    case Mark(k) => MarkSteady(c, k);
    case Check(k) => CheckSteady(c, k);
    case TakeVerdict =>
      if c.toR[0].Commit? {
        CommitSteady(c);
      } else if c.toR[0].ClaimResult? {
        ClaimResultSteady(c);
      } else {
        SenderErrorSteady(c);
      }
    case CtrlCheck => CtrlCheckSteady(c);
    case TakeReply =>
      if c.toS[0].FileResult? {
        FileResultSteady(c);
      } else {
        RetrySteady(c);
      }
    case StartFinalize => StartFinalizeSteady(c);
    case EndFinalize(outcome) => EndFinalizeSteady(c, outcome);
  }
}
