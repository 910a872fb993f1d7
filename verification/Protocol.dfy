// One file's transfer as a step system: two records, two ordered control channels, unordered chunk frames.

module Protocol {
  import opened Bytes
  import opened Bitmaps
  import opened Ledgers

  const MAX_TRIES: nat := 3

  // ---------------------------------------------------------------------------------------
  // The receiver's record of a file

  /** The part's descriptor: usable by stream handlers, taken by the finalizer, or closed. */
  datatype Fd = Live | Detached | Closed

  datatype Receiver = Receiver(
    led: Ledger,
    adopted: bool,
    awaitClaims: bool,
    claimsResolved: bool,
    arrived: set<nat>,
    mayStale: bool,
    dirty: bool,
    fd: Fd,
    finalQueued: bool,
    resolved: bool,
    errored: bool,
    retries: map<nat, nat>,
    fullyWritten: bool)

  function Tries(m: map<nat, nat>, i: nat): nat {
    if i in m then m[i] else 0
  }

  /** The completion gate. */
  predicate Gate(r: Receiver) {
    r.led.Complete() && (!r.awaitClaims || r.claimsResolved)
  }

  /** absorbChunk drops the chunk: the file is settled, its part is gone, or this is a duplicate. */
  predicate Drops(r: Receiver, idx: nat)
    requires idx < |r.led.have|
  {
    r.errored || r.resolved || r.fd != Live || (r.led.have[idx] && !r.adopted)
  }

  function MarkChunk(r: Receiver, idx: nat, mark: Mark): Receiver
    requires idx < |r.led.have| == |r.led.marks|
  {
    r.(led := r.led.Put(idx, mark), dirty := true,
       arrived := if r.adopted then r.arrived + {idx} else r.arrived)
  }

  /** maybeComplete: the new record, and whether the file is queued for the finalizer. */
  function MaybeComplete(r: Receiver): (Receiver, bool) {
    if Gate(r) && !r.finalQueued then (r.(finalQueued := true), true) else (r, false)
  }

  function CommitFile(r: Receiver): (Receiver, bool) {
    if r.resolved || r.errored then (r, false)
    else (r.(claimsResolved := true), r.led.Complete())
  }

  function Kept(r: Receiver, verified: seq<bool>): (k: seq<bool>)
    ensures |k| == |r.led.have|
  {
    seq(|r.led.have|, i requires 0 <= i => (i < |verified| && verified[i]) || i in r.arrived)
  }

  /** claimResult up to its own maybeComplete call, and whether that call is made. */
  function ApplyClaimResult(r: Receiver, verified: seq<bool>): (Receiver, bool)
    requires |r.led.have| == |r.led.marks|
  {
    if r.errored || r.resolved || !r.adopted then (r, false)
    else
      var led := Restrict(r.led, Kept(r, verified));
      (r.(led := led, dirty := r.dirty || led.have != r.led.have, claimsResolved := true), true)
  }

  /** Two records that agree on the ledger and on everything its claims rest on. */
  predicate SameClaims(a: Receiver, b: Receiver) {
    && a.led == b.led && a.adopted == b.adopted && a.awaitClaims == b.awaitClaims
    && a.claimsResolved == b.claimsResolved && a.arrived == b.arrived && a.mayStale == b.mayStale
    && a.finalQueued == b.finalQueued && a.fullyWritten == b.fullyWritten
  }

  /** failFile on the receiver: settle the file as failed and close the part. */
  function FailReceiver(r: Receiver): (q: Receiver)
    ensures SameClaims(q, r) && (q.fd == r.fd || (r.fd == Live && q.fd == Closed))
  {
    if r.errored || r.resolved then r
    else r.(errored := true, resolved := true, fd := if r.fd == Live then Closed else r.fd)
  }

  datatype RetryOutcome = Ignored | Retry | Failed

  function RetryOrFail(r: Receiver, idx: nat): (q: (Receiver, RetryOutcome))
    ensures SameClaims(q.0, r) && (q.0.fd == r.fd || (r.fd == Live && q.0.fd == Closed))
  {
    if r.errored || r.resolved then (r, Ignored)
    else
      var n := Tries(r.retries, idx) + 1;
      var counted := r.(retries := r.retries[idx := n]);
      if n > MAX_TRIES then (FailReceiver(counted), Failed) else (counted, Retry)
  }

  /** The record after an absorb error of each of these chunks in turn. */
  function RetryAll(r: Receiver, idxs: seq<nat>): Receiver {
    if idxs == [] then r else RetryOrFail(RetryAll(r, idxs[..|idxs| - 1]), idxs[|idxs| - 1]).0
  }

  predicate Exhausted(idxs: seq<nat>) {
    exists i :: i in idxs && multiset(idxs)[i] > MAX_TRIES
  }

  lemma ExhaustedGrows(idxs: seq<nat>, i: nat)
    ensures Exhausted(idxs + [i]) <==> Exhausted(idxs) || multiset(idxs)[i] >= MAX_TRIES
  {
    var more: seq<nat> := idxs + [i];
    assert multiset(more) == multiset(idxs) + multiset{i};
    if Exhausted(idxs) {
      var j :| j in idxs && multiset(idxs)[j] > MAX_TRIES;
      assert j in more && multiset(more)[j] > MAX_TRIES;
    } else if multiset(idxs)[i] >= MAX_TRIES {
      assert i in more && multiset(more)[i] > MAX_TRIES;
    }
  }

  /** An open file fails exactly when some chunk has come back more than three times; until then every error
      is answered with a request for the chunk, and afterwards with nothing. */
  lemma {:induction false} RetriesExhausted(r: Receiver, idxs: seq<nat>, next: nat)
    requires !r.errored && !r.resolved && r.retries == map[]
    ensures var q := RetryAll(r, idxs);
            && (q.errored <==> Exhausted(idxs)) && q.resolved == q.errored
            && (!q.errored ==> forall i: nat :: Tries(q.retries, i) == multiset(idxs)[i])
            && RetryOrFail(q, next).1 == (if Exhausted(idxs) then Ignored
                                          else if multiset(idxs)[next] >= MAX_TRIES then Failed else Retry)
  {
    hide Exhausted;
    if idxs == [] {
      assert !Exhausted(idxs) by {
        NothingExhausted();
      }
    } else {
      var before: seq<nat>, last: nat := idxs[..|idxs| - 1], idxs[|idxs| - 1];
      assert idxs == before + [last];
      RetriesExhausted(r, before, last);
      ExhaustedGrows(before, last);
      assert multiset(idxs) == multiset(before) + multiset{last};
    }
  }

  lemma NothingExhausted()
    ensures !Exhausted([])
  {
  }

  /** flushAllSidecars for this file: the ledger that is saved, if any. */
  function Flush(r: Receiver): (Receiver, Option<Ledger>)
    requires |r.led.have| == |r.led.marks|
  {
    if r.dirty && r.fd == Live then
      var led := if r.adopted && !r.claimsResolved then Restrict(r.led, Kept(r, [])) else r.led;
      (r.(led := led, dirty := false), Some(led))
    else (r, None)
  }

  function Detach(r: Receiver): Receiver {
    if r.errored || r.resolved || r.fd != Live then r else r.(fd := Detached)
  }

  datatype PublishOutcome = Published | CloseFailed | RenameFailed

  /** The finalizer's work on a detached part; a published file resolves even when an error was
      recorded meanwhile. */
  function Publish(r: Receiver, outcome: PublishOutcome): Receiver
    requires r.fd == Detached
  {
    var closed := r.(fd := Closed);
    match outcome
    case CloseFailed => FailReceiver(closed)
    case RenameFailed => FailReceiver(closed.(fullyWritten := true))
    case Published => closed.(fullyWritten := true, dirty := false, resolved := true)
  }

  // ---------------------------------------------------------------------------------------
  // The sender's record of a file

  datatype Backlog = NotYet | Listed | Gone

  /** `have` is None until the bitmap lands; `claim` holds the digests while they are being checked. */
  datatype Sender = Sender(
    have: Option<seq<bool>>,
    claim: Option<seq<Digest>>,
    backlog: Backlog,
    next: nat,
    retries: map<nat, nat>,
    errored: bool,
    resolved: bool)

  function EnlistIf(s: Sender): Sender {
    s.(backlog := if s.errored || s.resolved then Gone else Listed)
  }

  /** gateOpen up to the verification of an untrusted claim. */
  function GateOpen(s: Sender, bits: seq<bool>, hashes: seq<Digest>): Sender {
    if s.have.Some? then s
    else if hashes == [] then EnlistIf(s.(have := Some(bits)))
    else s.(have := Some(bits), claim := Some(hashes))
  }

  function AllClear(n: nat): (b: seq<bool>)
    ensures |b| == n && forall i :: 0 <= i < n ==> !b[i]
  {
    seq(n, _ => false)
  }

  /** verifyClaims; without an open source every claimed bit is cleared. */
  function SurvivingBits(path: string, bits: seq<bool>, hashes: seq<Digest>, canOpen: bool,
      seen: seq<Read>): (r: seq<bool>)
    requires |bits| == |seen|
    ensures |r| == |bits|
  {
    if canOpen then VerifiedBits(path, bits, hashes, seen) else AllClear(|bits|)
  }

  datatype ToReceiver = Commit | ClaimResult(verified: seq<bool>) | SenderError

  /** The end of gateOpen: the verdict sent, and the file listed for the scheduler. */
  function AnswerClaim(path: string, s: Sender, canOpen: bool, seen: seq<Read>): (Sender, ToReceiver)
    requires s.have.Some? && s.claim.Some? && |s.have.value| == |seen|
  {
    var bits := SurvivingBits(path, s.have.value, s.claim.value, canOpen, seen);
    var cleared := Count(s.have.value) - Count(bits);
    (EnlistIf(s.(have := Some(bits), claim := None)), if cleared == 0 then Commit else ClaimResult(bits))
  }

  /** One look of the scheduler at the head of its backlog: the task it queues, if any. */
  function ScheduleOne(s: Sender): (Sender, Option<nat>)
    requires s.backlog == Listed && s.have.Some?
  {
    if s.errored || s.resolved || s.next >= |s.have.value| then (s.(backlog := Gone), None)
    else if s.have.value[s.next] then (s.(next := s.next + 1), None)
    else (s.(next := s.next + 1), Some(s.next))
  }

  function FailSender(s: Sender): Sender {
    if s.errored || s.resolved then s else s.(errored := true, resolved := true)
  }

  /** retryChunk: whether the chunk is queued again. */
  function RetryChunk(s: Sender, idx: nat): (Sender, RetryOutcome) {
    if s.errored || s.resolved then (s, Ignored)
    else
      var n := Tries(s.retries, idx) + 1;
      var counted := s.(retries := s.retries[idx := n]);
      if n > MAX_TRIES then (FailSender(counted), Failed) else (counted, Retry)
  }

  function TakeFileResult(s: Sender, ok: bool): Sender {
    if s.resolved then s else s.(resolved := true, errored := s.errored || !ok)
  }

  // ---------------------------------------------------------------------------------------
  // The session

  datatype ToSender = HaveBitmap(bits: seq<bool>, hashes: seq<Digest>) | ChunkRetry(idx: nat) | FileResult(ok: bool)

  /** A chunk on its way: queued at the sender, on a stream, and the three stages of absorbing it,
      then the handler's closing call of maybeComplete. */
  datatype Token =
    | Task(idx: nat)
    | Frame(idx: nat, zero: bool, data: Data)
    | Snapped(idx: nat, zero: bool, data: Data)
    | Written(idx: nat, zero: bool, data: Data)
    | Marked(idx: nat)

  /** What the sender reads: the path and the chunks of an immutable source. */
  datatype Source = Source(path: string, chunks: seq<Data>) {
    function Reads(bad: set<nat>): (seen: seq<Read>)
      ensures |seen| == |chunks|
    {
      seq(|chunks|, i requires 0 <= i < |chunks| => if i in bad then Unreadable else Got(chunks[i]))
    }
  }

  /** `claim` remembers the ledger the bitmap was built from; `published` what was renamed into place. */
  datatype Session = Session(
    o: Source,
    sparse: bool,
    part: seq<Data>,
    r: Receiver,
    s: Sender,
    toS: seq<ToSender>,
    toR: seq<ToReceiver>,
    tokens: seq<Token>,
    queue: nat,
    prepared: bool,
    ctrlCheck: bool,
    claim: Ledger,
    published: Option<seq<Data>>)

  ghost predicate SameSizes(part: seq<Data>, src: seq<Data>) {
    |part| == |src| && forall i :: 0 <= i < |src| ==> |part[i]| == |src[i]|
  }

  ghost predicate TokensInRange(ts: seq<Token>, n: nat) {
    forall k :: 0 <= k < |ts| ==> ts[k].idx < n
  }

  ghost predicate MessageInRange(m: ToSender, n: nat) {
    match m
    case HaveBitmap(bits, _) => |bits| == n
    case ChunkRetry(i) => i < n
    case FileResult(_) => true
  }

  ghost predicate MessagesInRange(ms: seq<ToSender>, n: nat) {
    forall k :: 0 <= k < |ms| ==> MessageInRange(ms[k], n)
  }

  ghost predicate ReceiverShaped(r: Receiver, n: nat) {
    r.led.Shaped(n) && forall i :: i in r.arrived ==> i < n
  }

  ghost predicate SenderShaped(s: Sender, n: nat) {
    && (s.have.Some? ==> |s.have.value| == n)
    && (s.claim.Some? ==> s.have.Some?)
    && (s.backlog == Listed ==> s.have.Some? && s.claim.None?)
    && s.next <= n
  }

  /** Lengths agree and indexes are in range; kept by every step. */
  ghost predicate WellShaped(c: Session) {
    var n := |c.o.chunks|;
    && SameSizes(c.part, c.o.chunks)
    && ReceiverShaped(c.r, n)
    && c.claim.Shaped(n)
    && SenderShaped(c.s, n)
    && TokensInRange(c.tokens, n)
    && MessagesInRange(c.toS, n)
  }

  // ---------------------------------------------------------------------------------------
  // The steps

  datatype Step =
    | Prepare                                     // the check that ends prepareRegular
    | OpenGate                                    // the sender takes the bitmap
    | Verify(canOpen: bool, bad: set<nat>)        // the sender checks claims and answers
    | Schedule
    | Send(k: nat)
    | SendFailure(k: nat)
    | Snapshot(k: nat)
    | Reject(k: nat)                              // checksum, length or decompression error
    | Write(k: nat)
    | TornWrite(k: nat, n: nat)                   // write error after n bytes
    | Mark(k: nat)
    | Check(k: nat)                               // the handler's maybeComplete
    | TakeVerdict                                 // the receiver's control reader
    | CtrlCheck                                   // claimResult's maybeComplete
    | TakeReply                                   // the sender's control reader
    | StartFinalize
    | EndFinalize(outcome: PublishOutcome)

  function Remove(ts: seq<Token>, k: nat): (r: seq<Token>)
    requires k < |ts|
  {
    ts[..k] + ts[k + 1..]
  }

  /** Does absorbing this chunk touch the part? A zero chunk leaves a hole in a fresh part. */
  predicate Writes(r: Receiver, t: Token)
    requires t.Snapped?
  {
    !t.zero || r.mayStale
  }

  function Payload(t: Token, size: nat): (d: Data)
    requires t.Snapped?
  {
    if t.zero then Zeros(size) else t.data
  }

  function MarkOf(path: string, t: Token): Mark
    requires t.Written?
  {
    if t.zero then Hole else Hex(Sha(path, t.idx, t.data))
  }

  function Plus(queue: nat, q: bool): nat {
    queue + if q then 1 else 0
  }

  function DoPrepare(c: Session): Session {
    c.(prepared := true, queue := Plus(c.queue, Gate(c.r)))
  }

  function DoOpenGate(c: Session): Session
    requires c.toS != [] && c.toS[0].HaveBitmap?
  {
    c.(toS := c.toS[1..], s := GateOpen(c.s, c.toS[0].bits, c.toS[0].hashes))
  }

  function DoVerify(c: Session, canOpen: bool, bad: set<nat>): Session
    requires c.s.have.Some? && c.s.claim.Some? && |c.s.have.value| == |c.o.chunks|
  {
    var (s, verdict) := AnswerClaim(c.o.path, c.s, canOpen, c.o.Reads(bad));
    c.(s := s, toR := c.toR + [verdict])
  }

  function DoSchedule(c: Session): Session
    requires c.s.backlog == Listed && c.s.have.Some?
  {
    var (s, task) := ScheduleOne(c.s);
    c.(s := s, tokens := if task.Some? then c.tokens + [Task(task.value)] else c.tokens)
  }

  function DoSend(c: Session, k: nat): Session
    requires k < |c.tokens| && c.tokens[k].Task? && c.tokens[k].idx < |c.o.chunks|
  {
    var i := c.tokens[k].idx;
    if c.s.errored || c.s.resolved then c.(tokens := Remove(c.tokens, k))
    else
      var zero := c.sparse && AllZero(c.o.chunks[i]);
      c.(tokens := c.tokens[k := Frame(i, zero, if zero then [] else c.o.chunks[i])])
  }

  function DoSendFailure(c: Session, k: nat): Session
    requires k < |c.tokens|
  {
    c.(tokens := Remove(c.tokens, k),
       s := FailSender(c.s),
       toR := if c.s.errored || c.s.resolved then c.toR else c.toR + [SenderError])
  }

  function DoSnapshot(c: Session, k: nat): Session
    requires k < |c.tokens| && c.tokens[k].Frame? && c.tokens[k].idx < |c.r.led.have|
  {
    var t := c.tokens[k];
    if Drops(c.r, t.idx) then c.(tokens := Remove(c.tokens, k))
    else c.(tokens := c.tokens[k := Snapped(t.idx, t.zero, t.data)])
  }

  function Answer(outcome: RetryOutcome, i: nat): seq<ToSender> {
    match outcome
    case Ignored => []
    case Retry => [ChunkRetry(i)]
    case Failed => [FileResult(false)]
  }

  /** The receiver handles an absorb error on token k: the chunk is asked for again, or the file fails. */
  function DoReject(c: Session, k: nat): Session
    requires k < |c.tokens|
  {
    var i := c.tokens[k].idx;
    var (r, outcome) := RetryOrFail(c.r, i);
    c.(r := r, tokens := Remove(c.tokens, k), toS := c.toS + Answer(outcome, i))
  }

  /** Token k can be written: its chunk is in range and its payload has the chunk's length. */
  ghost predicate Fitting(c: Session, k: nat) {
    && k < |c.tokens| && c.tokens[k].Snapped?
    && c.tokens[k].idx < |c.o.chunks| == |c.part|
    && var size := |c.o.chunks[c.tokens[k].idx]|;
       |c.part[c.tokens[k].idx]| == size == |Payload(c.tokens[k], size)|
  }

  ghost function WritePart(c: Session, k: nat, n: nat): seq<Data>
    requires Fitting(c, k) && n <= |c.o.chunks[c.tokens[k].idx]|
  {
    var i := c.tokens[k].idx;
    c.part[i := Torn(Payload(c.tokens[k], |c.o.chunks[i]|), c.part[i], n)]
  }

  ghost function DoWrite(c: Session, k: nat): Session
    requires Fitting(c, k)
  {
    var t := c.tokens[k];
    c.(part := if Writes(c.r, t) then WritePart(c, k, |c.o.chunks[t.idx]|) else c.part,
       tokens := c.tokens[k := Written(t.idx, t.zero, t.data)])
  }

  ghost function DoTornWrite(c: Session, k: nat, n: nat): Session
    requires Fitting(c, k) && n <= |c.o.chunks[c.tokens[k].idx]|
  {
    DoReject(c.(part := WritePart(c, k, n)), k)
  }

  function DoMark(c: Session, k: nat): Session
    requires k < |c.tokens| && c.tokens[k].Written? && c.tokens[k].idx < |c.r.led.have| == |c.r.led.marks|
  {
    var t := c.tokens[k];
    c.(r := MarkChunk(c.r, t.idx, MarkOf(c.o.path, t)), tokens := c.tokens[k := Marked(t.idx)])
  }

  function DoCheck(c: Session, k: nat): Session
    requires k < |c.tokens|
  {
    var (r, q) := MaybeComplete(c.r);
    c.(r := r, queue := Plus(c.queue, q), tokens := Remove(c.tokens, k))
  }

  function DoCommit(c: Session): Session
    requires c.toR != []
  {
    var (r, q) := CommitFile(c.r);
    c.(toR := c.toR[1..], r := r, queue := Plus(c.queue, q))
  }

  function DoClaimResult(c: Session): Session
    requires c.toR != [] && c.toR[0].ClaimResult? && |c.r.led.have| == |c.r.led.marks|
  {
    var (r, check) := ApplyClaimResult(c.r, c.toR[0].verified);
    c.(toR := c.toR[1..], r := r, ctrlCheck := check)
  }

  function DoSenderError(c: Session): Session
    requires c.toR != []
  {
    c.(toR := c.toR[1..], r := FailReceiver(c.r))
  }

  function DoCtrlCheck(c: Session): Session {
    var (r, q) := MaybeComplete(c.r);
    c.(r := r, queue := Plus(c.queue, q), ctrlCheck := false)
  }

  function DoFileResult(c: Session): Session
    requires c.toS != [] && c.toS[0].FileResult?
  {
    c.(toS := c.toS[1..], s := TakeFileResult(c.s, c.toS[0].ok))
  }

  function DoRetry(c: Session): Session
    requires c.toS != [] && c.toS[0].ChunkRetry?
  {
    var i := c.toS[0].idx;
    var (s, outcome) := RetryChunk(c.s, i);
    c.(toS := c.toS[1..], s := s,
       tokens := if outcome == Retry then c.tokens + [Task(i)] else c.tokens,
       toR := if outcome == Failed then c.toR + [SenderError] else c.toR)
  }

  function DoStartFinalize(c: Session): Session
    requires c.queue > 0
  {
    c.(queue := c.queue - 1, r := Detach(c.r))
  }

  function DoEndFinalize(c: Session, outcome: PublishOutcome): Session
    requires c.r.fd == Detached
  {
    var r := Publish(c.r, outcome);
    var told := outcome == Published || r.errored != c.r.errored;
    c.(r := r,
       published := if outcome == Published then Some(c.part) else c.published,
       toS := if told then c.toS + [FileResult(outcome == Published)] else c.toS)
  }

  ghost predicate Enabled(c: Session, st: Step) {
    match st
    case Prepare => !c.prepared
    case OpenGate => c.toS != [] && c.toS[0].HaveBitmap?
    case Verify(_, _) => c.s.claim.Some?
    case Schedule => c.s.backlog == Listed
    case Send(k) => k < |c.tokens| && c.tokens[k].Task?
    case SendFailure(k) => k < |c.tokens| && c.tokens[k].Task?
    case Snapshot(k) => k < |c.tokens| && c.tokens[k].Frame?
    case Reject(k) => k < |c.tokens| && (c.tokens[k].Frame? || c.tokens[k].Snapped?)
    case Write(k) => Fitting(c, k) && (Writes(c.r, c.tokens[k]) ==> c.r.fd != Closed)
    case TornWrite(k, n) =>
      && Fitting(c, k) && Writes(c.r, c.tokens[k])
      && n <= |c.o.chunks[c.tokens[k].idx]| && (c.r.fd == Closed ==> n == 0)
    case Mark(k) => k < |c.tokens| && c.tokens[k].Written?
    case Check(k) => k < |c.tokens| && c.tokens[k].Marked?
    case TakeVerdict => c.toR != [] && !c.ctrlCheck
    case CtrlCheck => c.ctrlCheck
    case TakeReply => c.toS != [] && !c.toS[0].HaveBitmap?
    case StartFinalize => c.queue > 0 && c.r.fd != Detached
    case EndFinalize(_) => c.r.fd == Detached
  }

  ghost function Apply(c: Session, st: Step): Session
    requires WellShaped(c) && Enabled(c, st)
  {
    match st
    case Prepare => DoPrepare(c)
    case OpenGate => DoOpenGate(c)
    case Verify(canOpen, bad) => DoVerify(c, canOpen, bad)
    case Schedule => DoSchedule(c)
    case Send(k) => DoSend(c, k)
    case SendFailure(k) => DoSendFailure(c, k)
    case Snapshot(k) => DoSnapshot(c, k)
    case Reject(k) => DoReject(c, k)
    case Write(k) => DoWrite(c, k)
    case TornWrite(k, n) => DoTornWrite(c, k, n)
    case Mark(k) => DoMark(c, k)
    case Check(k) => DoCheck(c, k)
    case TakeVerdict =>
      if c.toR[0].Commit? then DoCommit(c)
      else if c.toR[0].ClaimResult? then DoClaimResult(c) else DoSenderError(c)
    case CtrlCheck => DoCtrlCheck(c)
    case TakeReply => if c.toS[0].FileResult? then DoFileResult(c) else DoRetry(c)
    case StartFinalize => DoStartFinalize(c)
    case EndFinalize(outcome) => DoEndFinalize(c, outcome)
  }
}
