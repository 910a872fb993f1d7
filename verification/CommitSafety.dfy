// Commit safety: whenever the completion gate opens, the part holds exactly the source's chunks.

module CommitSafety {
  import opened Bytes
  import opened Bitmaps
  import opened Ledgers
  import opened Protocol

  // ---------------------------------------------------------------------------------------
  // The invariant

  /** The mark the source itself has for chunk i. */
  function SourceHash(o: Source, i: nat): Mark
    requires i < |o.chunks|
  {
    Hex(Sha(o.path, i, o.chunks[i]))
  }

  predicate SourceMark(o: Source, mark: Mark, i: nat)
    requires i < |o.chunks|
  {
    mark == SourceHash(o, i) || (mark == Hole && AllZero(o.chunks[i]))
  }

  /** Whatever a mark claims about the source is true of the part, even for marks nobody verified;
      and a chunk that may stay a hole in a fresh part is one. */
  predicate ChunkSound(o: Source, part: seq<Data>, mark: Mark, mayStale: bool, i: nat)
    requires i < |o.chunks| == |part|
  {
    && (mark == SourceHash(o, i) ==> part[i] == o.chunks[i])
    && (mark == Hole ==> AllZero(o.chunks[i]) && part[i] == o.chunks[i])
    && (!mayStale && AllZero(o.chunks[i]) ==> part[i] == o.chunks[i])
  }

  ghost predicate PartSound(o: Source, part: seq<Data>, marks: seq<Mark>, mayStale: bool) {
    && |part| == |marks| == |o.chunks|
    && forall i :: 0 <= i < |o.chunks| ==> ChunkSound(o, part, marks[i], mayStale, i)
  }

  predicate HonestBody(o: Source, i: nat, zero: bool, data: Data)
    requires i < |o.chunks|
  {
    if zero then AllZero(o.chunks[i]) else data == o.chunks[i]
  }

  /** Frames carry the source's bytes, and a chunk past its write is already in the part. */
  predicate HonestToken(o: Source, part: seq<Data>, t: Token) {
    t.idx < |o.chunks| == |part| &&
    match t
    case Task(_) => true
    case Marked(_) => true
    case Frame(i, zero, data) => HonestBody(o, i, zero, data)
    case Snapped(i, zero, data) => HonestBody(o, i, zero, data)
    case Written(i, zero, data) => HonestBody(o, i, zero, data) && part[i] == o.chunks[i]
  }

  ghost predicate HonestTokens(o: Source, part: seq<Data>, tokens: seq<Token>) {
    forall k :: 0 <= k < |tokens| ==> HonestToken(o, part, tokens[k])
  }

  /** The parts of the receiver's record the claims are about. */
  datatype Trust = Trust(adopted: bool, awaitClaims: bool, claimsResolved: bool, arrived: set<nat>)

  function TrustOf(r: Receiver): Trust {
    Trust(r.adopted, r.awaitClaims, r.claimsResolved, r.arrived)
  }

  predicate Settled(t: Trust, i: nat) {
    !t.adopted || t.claimsResolved || i in t.arrived
  }

  /** A have-bit that no longer waits for the sender's verdict stands for a hash of the source; one
      that does is still the claim that was sent. */
  predicate BitSound(o: Source, led: Ledger, t: Trust, claim: Ledger, i: nat)
    requires i < |o.chunks| && led.Shaped(|o.chunks|) && claim.Shaped(|o.chunks|)
  {
    && (i in t.arrived ==> led.have[i])
    && (led.have[i] && Settled(t, i) ==> SourceMark(o, led.marks[i], i))
    && (led.have[i] && !Settled(t, i) ==> claim.have[i] && led.marks[i] == claim.marks[i])
  }

  ghost predicate BitsSound(o: Source, led: Ledger, t: Trust, claim: Ledger) {
    && led.Shaped(|o.chunks|) && claim.Shaped(|o.chunks|)
    && led.Synced()
    && (forall i :: 0 <= i < |o.chunks| ==> BitSound(o, led, t, claim, i))
  }

  /** What an adopted file claims: digests for every bit, and a verdict awaited if there is a bit. */
  ghost predicate ClaimSound(t: Trust, claim: Ledger) {
    && |claim.have| == |claim.marks|
    && (t.awaitClaims ==> t.adopted)
    && (t.adopted ==> forall i :: 0 <= i < |claim.have| && claim.have[i] ==> t.awaitClaims && claim.marks[i].Hex?)
  }

  /** Every bit in `bits` was claimed under the source's own digest. */
  ghost predicate Confirmed(o: Source, claim: Ledger, bits: seq<bool>) {
    && |bits| == |o.chunks| && claim.Shaped(|o.chunks|)
    && forall i :: 0 <= i < |bits| && bits[i] ==> claim.have[i] && claim.marks[i] == SourceHash(o, i)
  }

  ghost predicate VerdictSound(o: Source, adopted: bool, claim: Ledger, m: ToReceiver) {
    match m
    case Commit => adopted && Confirmed(o, claim, claim.have)
    case ClaimResult(v) => adopted && Confirmed(o, claim, v)
    case SenderError => true
  }

  ghost predicate VerdictsSound(o: Source, adopted: bool, claim: Ledger, toR: seq<ToReceiver>) {
    forall k :: 0 <= k < |toR| ==> VerdictSound(o, adopted, claim, toR[k])
  }

  ghost predicate BitmapSound(adopted: bool, claim: Ledger, m: ToSender) {
    m.HaveBitmap? ==>
      && |claim.have| == |claim.marks|
      && m.bits == claim.have && m.hashes == if adopted then ClaimHashes(claim) else []
  }

  ghost predicate BitmapsSound(adopted: bool, claim: Ledger, toS: seq<ToSender>) {
    forall k :: 0 <= k < |toS| ==> BitmapSound(adopted, claim, toS[k])
  }

  ghost predicate CheckSound(adopted: bool, claim: Ledger, have: Option<seq<bool>>, pending: Option<seq<Digest>>) {
    pending.Some? ==>
      && |claim.have| == |claim.marks|
      && adopted && have == Some(claim.have) && pending.value == ClaimHashes(claim)
  }

  predicate EndsSound(o: Source, part: seq<Data>, r: Receiver, queue: nat, published: Option<seq<Data>>) {
    && (queue > 0 || r.finalQueued || r.fd == Detached ==> part == o.chunks)
    && (published.Some? ==> published.value == o.chunks)
    && (r.fullyWritten ==> r.fd == Closed)
  }

  ghost predicate Safe(c: Session) {
    && WellShaped(c)
    && PartSound(c.o, c.part, c.r.led.marks, c.r.mayStale)
    && HonestTokens(c.o, c.part, c.tokens)
    && BitsSound(c.o, c.r.led, TrustOf(c.r), c.claim)
    && ClaimSound(TrustOf(c.r), c.claim)
    && VerdictsSound(c.o, c.r.adopted, c.claim, c.toR)
    && BitmapsSound(c.r.adopted, c.claim, c.toS)
    && CheckSound(c.r.adopted, c.claim, c.s.have, c.s.claim)
    && EndsSound(c.o, c.part, c.r, c.queue, c.published)
  }

  /** The heart of commit safety: an open gate means a finished part. */
  lemma GateMeansSource(c: Session)
    requires Safe(c) && Gate(c.r)
    ensures c.part == c.o.chunks
  {
    forall i | 0 <= i < |c.o.chunks|
      ensures c.part[i] == c.o.chunks[i]
    {
      assert ChunkSound(c.o, c.part, c.r.led.marks[i], c.r.mayStale, i);
      assert BitSound(c.o, c.r.led, TrustOf(c.r), c.claim, i);
    }
  }

  lemma CommitMeansSource(c: Session)
    requires Safe(c) && c.toR != [] && c.toR[0].Commit? && c.r.led.Complete()
    ensures c.part == c.o.chunks
  {
    assert VerdictSound(c.o, c.r.adopted, c.claim, c.toR[0]);
    forall i | 0 <= i < |c.o.chunks|
      ensures c.part[i] == c.o.chunks[i]
    {
      assert ChunkSound(c.o, c.part, c.r.led.marks[i], c.r.mayStale, i);
      assert BitSound(c.o, c.r.led, TrustOf(c.r), c.claim, i);
    }
  }

  // ---------------------------------------------------------------------------------------
  // Sequences

  lemma RemoveMembers(ts: seq<Token>, k: nat)
    requires k < |ts|
    ensures |Remove(ts, k)| == |ts| - 1
    ensures forall j :: 0 <= j < |ts| - 1 ==> Remove(ts, k)[j] == if j < k then ts[j] else ts[j + 1]
  {
  }

  // ---------------------------------------------------------------------------------------
  // The receiver's control steps

  lemma PrepareSafe(c: Session)
    requires Safe(c)
    ensures Safe(DoPrepare(c))
  {
    if Gate(c.r) {
      GateMeansSource(c);
    }
  }

  lemma CtrlCheckSafe(c: Session)
    requires Safe(c)
    ensures Safe(DoCtrlCheck(c))
  {
    if Gate(c.r) {
      GateMeansSource(c);
    }
  }

  /** A sender that confirmed every claim settles every have-bit. */
  lemma CommitSettles(o: Source, led: Ledger, t: Trust, claim: Ledger)
    requires BitsSound(o, led, t, claim) && Confirmed(o, claim, claim.have)
    ensures BitsSound(o, led, t.(claimsResolved := true), claim)
  {
    forall i | 0 <= i < |o.chunks|
      ensures BitSound(o, led, t.(claimsResolved := true), claim, i)
    {
      assert BitSound(o, led, t, claim, i);
    }
  }

  lemma CommitSafe(c: Session)
    requires Safe(c) && c.toR != [] && c.toR[0].Commit?
    ensures Safe(DoCommit(c))
  {
    if !c.r.resolved && !c.r.errored {
      CommitSettles(c.o, c.r.led, TrustOf(c.r), c.claim);
      CommitQueues(c);
    }
  }

  lemma CommitQueues(c: Session)
    requires Safe(c) && c.toR != [] && c.toR[0].Commit?
    ensures var d := DoCommit(c); EndsSound(d.o, d.part, d.r, d.queue, d.published)
  {
    if c.r.led.Complete() {
      CommitMeansSource(c);
    }
  }

  lemma ClaimResultSafe(c: Session)
    requires Safe(c) && c.toR != [] && c.toR[0].ClaimResult?
    ensures Safe(DoClaimResult(c))
  {
    var d := DoClaimResult(c);
    forall i | 0 <= i < |c.o.chunks|
      ensures BitSound(c.o, d.r.led, TrustOf(d.r), c.claim, i)
      ensures ChunkSound(c.o, c.part, d.r.led.marks[i], c.r.mayStale, i)
    {
      assert BitSound(c.o, c.r.led, TrustOf(c.r), c.claim, i);
      assert ChunkSound(c.o, c.part, c.r.led.marks[i], c.r.mayStale, i);
    }
  }

  lemma SenderErrorSafe(c: Session)
    requires Safe(c) && c.toR != []
    ensures Safe(DoSenderError(c))
  {
  }

  lemma StartFinalizeSafe(c: Session)
    requires Safe(c) && c.queue > 0
    ensures Safe(DoStartFinalize(c))
  {
  }

  lemma EndFinalizeSafe(c: Session, outcome: PublishOutcome)
    requires Safe(c) && c.r.fd == Detached
    ensures Safe(DoEndFinalize(c, outcome))
  {
  }

  // ---------------------------------------------------------------------------------------
  // The sender's steps

  lemma OpenGateSafe(c: Session)
    requires Safe(c) && c.toS != [] && c.toS[0].HaveBitmap?
    ensures Safe(DoOpenGate(c))
  {
  }

  /** The sender's check of claim i comes out well: the source can be read and hashes to what was claimed. */
  predicate Upheld(o: Source, claim: Ledger, canOpen: bool, bad: set<nat>, i: nat)
    requires i < |o.chunks| && claim.Shaped(|o.chunks|)
  {
    claim.have[i] && canOpen && i !in bad && claim.marks[i] == SourceHash(o, i)
  }

  /** The sender's answer to an honest claim leaves set exactly what the source upholds, and the count shows
      whether that is all of it. */
  lemma AnswerConfirms(o: Source, claim: Ledger, canOpen: bool, bad: set<nat>)
    requires claim.Shaped(|o.chunks|)
    requires forall i :: 0 <= i < |claim.have| && claim.have[i] ==> claim.marks[i].Hex?
    ensures var bits := SurvivingBits(o.path, claim.have, ClaimHashes(claim), canOpen, o.Reads(bad));
            && Confirmed(o, claim, bits)
            && (forall i :: 0 <= i < |bits| ==> (bits[i] <==> Upheld(o, claim, canOpen, bad, i)))
            && (Count(claim.have) == Count(bits) <==> bits == claim.have)
  {
    var bits := SurvivingBits(o.path, claim.have, ClaimHashes(claim), canOpen, o.Reads(bad));
    forall i: nat | i < |bits|
      ensures bits[i] <==> Upheld(o, claim, canOpen, bad, i)
    {
      HonestClaimsVerifyByMark(o.path, claim, o.Reads(bad), i);
    }
    SubsetOfEqualCount(bits, claim.have);
  }

  /** A subset of the bits with the same count is all of them. */
  lemma {:induction false} SubsetOfEqualCount(a: seq<bool>, b: seq<bool>)
    requires |a| == |b| && forall i :: 0 <= i < |a| && a[i] ==> b[i]
    ensures Count(a) <= Count(b)
    ensures Count(a) == Count(b) ==> a == b
  {
    if a != [] {
      var n := |a| - 1;
      SubsetOfEqualCount(a[..n], b[..n]);
      assert a == a[..n] + [a[n]] && b == b[..n] + [b[n]];
    }
  }

  lemma VerifySafe(c: Session, canOpen: bool, bad: set<nat>)
    requires Safe(c) && c.s.claim.Some?
    ensures Safe(DoVerify(c, canOpen, bad))
  {
    AnswerConfirms(c.o, c.claim, canOpen, bad);
    var d := DoVerify(c, canOpen, bad);
    assert d.toR == c.toR + [AnswerClaim(c.o.path, c.s, canOpen, c.o.Reads(bad)).1];
    assert VerdictSound(c.o, c.r.adopted, c.claim, d.toR[|c.toR|]);
  }

  /** The verdict: commit exactly when every claim is upheld, and otherwise the ones that are. */
  lemma VerdictIsExact(c: Session, canOpen: bool, bad: set<nat>)
    requires Safe(c) && Enabled(c, Verify(canOpen, bad))
    ensures var d := Apply(c, Verify(canOpen, bad));
            && d.s.have.Some? && d.s.claim.None? && |d.s.have.value| == |c.o.chunks|
            && (forall i :: 0 <= i < |c.o.chunks| ==>
                  (d.s.have.value[i] <==> Upheld(c.o, c.claim, canOpen, bad, i)))
            && d.toR == c.toR + [if forall i :: 0 <= i < |c.o.chunks| && c.claim.have[i] ==>
                                      Upheld(c.o, c.claim, canOpen, bad, i)
                                 then Commit else ClaimResult(d.s.have.value)]
  {
    hide SurvivingBits, ClaimHashes;
    AnswerConfirms(c.o, c.claim, canOpen, bad);
    var bits := SurvivingBits(c.o.path, c.claim.have, ClaimHashes(c.claim), canOpen, c.o.Reads(bad));
    if forall i :: 0 <= i < |c.o.chunks| && c.claim.have[i] ==> Upheld(c.o, c.claim, canOpen, bad, i) {
      assert bits == c.claim.have;
    }
  }

  lemma ScheduleSafe(c: Session)
    requires Safe(c) && c.s.backlog == Listed
    ensures Safe(DoSchedule(c))
  {
  }

  lemma FileResultSafe(c: Session)
    requires Safe(c) && c.toS != [] && c.toS[0].FileResult?
    ensures Safe(DoFileResult(c))
  {
  }

  lemma RetrySafe(c: Session)
    requires Safe(c) && c.toS != [] && c.toS[0].ChunkRetry?
    ensures Safe(DoRetry(c))
  {
  }

  lemma SendSafe(c: Session, k: nat)
    requires Safe(c) && k < |c.tokens| && c.tokens[k].Task?
    ensures Safe(DoSend(c, k))
  {
    var i := c.tokens[k].idx;
    if c.s.errored || c.s.resolved {
    } else {
      var zero := c.sparse && AllZero(c.o.chunks[i]);
    }
  }

  lemma SendFailureSafe(c: Session, k: nat)
    requires Safe(c) && k < |c.tokens|
    ensures Safe(DoSendFailure(c, k))
  {
  }

  // ---------------------------------------------------------------------------------------
  // Absorbing chunks

  lemma SnapshotSafe(c: Session, k: nat)
    requires Safe(c) && k < |c.tokens| && c.tokens[k].Frame?
    ensures Safe(DoSnapshot(c, k))
  {
    var t := c.tokens[k];
    assert HonestToken(c.o, c.part, t);
    if Drops(c.r, t.idx) {
    } else {
    }
  }

  lemma RejectSafe(c: Session, k: nat)
    requires Safe(c) && k < |c.tokens|
    ensures Safe(DoReject(c, k))
  {
    AnswerSound(c.r.adopted, c.claim, c.toS, RetryOrFail(c.r, c.tokens[k].idx).1, c.tokens[k].idx, |c.o.chunks|);
  }

  lemma AnswerSound(adopted: bool, claim: Ledger, toS: seq<ToSender>, outcome: RetryOutcome, i: nat, n: nat)
    requires BitmapsSound(adopted, claim, toS) && MessagesInRange(toS, n) && i < n
    ensures BitmapsSound(adopted, claim, toS + Answer(outcome, i)) && MessagesInRange(toS + Answer(outcome, i), n)
  {
  }

  /** Writing the source's bytes, whole or torn, never takes a chunk away from the source. */
  lemma WritingKeepsParts(c: Session, k: nat, n: nat)
    requires Safe(c) && Fitting(c, k) && n <= |c.o.chunks[c.tokens[k].idx]|
    ensures var part := WritePart(c, k, n);
            && SameSizes(part, c.o.chunks)
            && PartSound(c.o, part, c.r.led.marks, c.r.mayStale)
            && HonestTokens(c.o, part, c.tokens)
            && EndsSound(c.o, part, c.r, c.queue, c.published)
            && (n == |c.o.chunks[c.tokens[k].idx]| ==> part[c.tokens[k].idx] == c.o.chunks[c.tokens[k].idx])
  {
    var t := c.tokens[k];
    var i := t.idx;
    var size := |c.o.chunks[i]|;
    assert HonestToken(c.o, c.part, t);
    if t.zero {
      ZerosUnique(Zeros(size), c.o.chunks[i]);
    }
    assert Payload(t, size) == c.o.chunks[i];
    var part := WritePart(c, k, n);
    assert part[i] == Torn(c.o.chunks[i], c.part[i], n);
    assert n == size ==> part[i] == c.o.chunks[i];
    forall j | 0 <= j < |part|
      ensures c.part[j] == c.o.chunks[j] ==> part[j] == c.o.chunks[j]
      ensures ChunkSound(c.o, part, c.r.led.marks[j], c.r.mayStale, j)
    {
      assert ChunkSound(c.o, c.part, c.r.led.marks[j], c.r.mayStale, j);
    }
    forall j | 0 <= j < |c.tokens|
      ensures HonestToken(c.o, part, c.tokens[j])
    {
      assert HonestToken(c.o, c.part, c.tokens[j]);
    }
  }

  lemma WriteSafe(c: Session, k: nat)
    requires Safe(c) && Fitting(c, k)
    ensures Safe(DoWrite(c, k))
  {
    var t := c.tokens[k];
    WritingKeepsParts(c, k, |c.o.chunks[t.idx]|);
    assert HonestToken(c.o, c.part, t);
    assert ChunkSound(c.o, c.part, c.r.led.marks[t.idx], c.r.mayStale, t.idx);
  }

  lemma TornWriteSafe(c: Session, k: nat, n: nat)
    requires Safe(c) && Fitting(c, k) && n <= |c.o.chunks[c.tokens[k].idx]|
    ensures Safe(DoTornWrite(c, k, n))
  {
    WritingKeepsParts(c, k, n);
    RejectSafe(c.(part := WritePart(c, k, n)), k);
  }

  lemma MarkSafe(c: Session, k: nat)
    requires Safe(c) && k < |c.tokens| && c.tokens[k].Written?
    ensures Safe(DoMark(c, k))
  {
    var d := DoMark(c, k);
    assert HonestToken(c.o, c.part, c.tokens[k]);
    forall i | 0 <= i < |c.o.chunks|
      ensures BitSound(c.o, d.r.led, TrustOf(d.r), c.claim, i)
      ensures ChunkSound(c.o, c.part, d.r.led.marks[i], c.r.mayStale, i)
    {
      assert BitSound(c.o, c.r.led, TrustOf(c.r), c.claim, i);
      assert ChunkSound(c.o, c.part, c.r.led.marks[i], c.r.mayStale, i);
    }
  }

  lemma CheckSafe(c: Session, k: nat)
    requires Safe(c) && k < |c.tokens|
    ensures Safe(DoCheck(c, k))
  {
    if Gate(c.r) {
      GateMeansSource(c);
    }
  }

  // ---------------------------------------------------------------------------------------
  // Whole runs

  lemma StepKeepsSafe(c: Session, st: Step)
    requires Safe(c) && Enabled(c, st)
    ensures Safe(Apply(c, st))
  {
    match st
    case Prepare => PrepareSafe(c);
    case OpenGate => OpenGateSafe(c);
    case Verify(canOpen, bad) => VerifySafe(c, canOpen, bad);
    case Schedule => ScheduleSafe(c);
    case Send(k) => SendSafe(c, k);
    case SendFailure(k) => SendFailureSafe(c, k);
    case Snapshot(k) => SnapshotSafe(c, k);
    case Reject(k) => RejectSafe(c, k);
    case Write(k) => WriteSafe(c, k);
    case TornWrite(k, n) => TornWriteSafe(c, k, n);
    case Mark(k) => MarkSafe(c, k);
    case Check(k) => CheckSafe(c, k);
    case TakeVerdict =>
      if c.toR[0].Commit? {
        CommitSafe(c);
      } else if c.toR[0].ClaimResult? {
        ClaimResultSafe(c);
      } else {
        SenderErrorSafe(c);
      }
    case CtrlCheck => CtrlCheckSafe(c);
    case TakeReply =>
      if c.toS[0].FileResult? {
        FileResultSafe(c);
      } else {
        RetrySafe(c);
      }
    case StartFinalize => StartFinalizeSafe(c);
    case EndFinalize(outcome) => EndFinalizeSafe(c, outcome);
  }

  lemma StepKeepsSource(c: Session, st: Step)
    requires WellShaped(c) && Enabled(c, st)
    ensures Apply(c, st).o == c.o
  {
  }
}
