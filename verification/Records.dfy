// The end-to-end record layer: length-framed AEAD records whose nonces carry a counter.

module Records {
  import opened Bytes
  import opened Modulus
  import opened Wire

  const MAX_RECORD: nat := 0x20_0000
  const NONCE: nat := 12
  const OVERHEAD: nat := 16

  /** What sealing nonce, header and plaintext under one direction's key puts on the wire. */
  type Cipher = (Data, Data, Data) -> Data

  datatype Keys = Keys(prefix: Data, seal: Cipher)

  /** One sealing a direction's key has performed: its counter and plaintext fix nonce and header. */
  datatype Sealed = Sealed(ctr: nat, plain: Data)

  ghost predicate GoodKeys(k: Keys) {
    && |k.prefix| == 4
    && forall n: Data, h: Data, p: Data :: |k.seal(n, h, p)| == |p| + OVERHEAD
  }

  function NonceFor(k: Keys, ctr: nat): Data {
    k.prefix + BigEndian(ctr, 8)
  }

  function HeaderFor(plain: Data): Data {
    BigEndian(NONCE + |plain| + OVERHEAD, 4)
  }

  function Box(k: Keys, e: Sealed): Data {
    k.seal(NonceFor(k, e.ctr), HeaderFor(e.plain), e.plain)
  }

  function Frame(k: Keys, e: Sealed): Data {
    HeaderFor(e.plain) + NonceFor(k, e.ctr) + Box(k, e)
  }

  function Frames(k: Keys, es: seq<Sealed>): Data {
    if es == [] then [] else Frame(k, es[0]) + Frames(k, es[1..])
  }

  predicate Opens(k: Keys, e: Sealed, nonce: Data, hdr: Data, box: Data) {
    NonceFor(k, e.ctr) == nonce && HeaderFor(e.plain) == hdr && Box(k, e) == box
  }

  /** Opening with an ideal cipher (section 2.8 of RFC 8439): it succeeds only on a box this key has
      sealed under that nonce and header. */
  function Open(k: Keys, log: seq<Sealed>, nonce: Data, hdr: Data, box: Data): (r: Option<Sealed>)
    ensures r.Some? ==> r.value in log && Opens(k, r.value, nonce, hdr, box)
  {
    if log == [] then None
    else if Opens(k, log[0], nonce, hdr, box) then Some(log[0])
    else Open(k, log[1..], nonce, hdr, box)
  }

  lemma {:induction false} OpenFinds(k: Keys, log: seq<Sealed>, e: Sealed, nonce: Data, hdr: Data, box: Data)
    requires e in log && Opens(k, e, nonce, hdr, box)
    ensures Open(k, log, nonce, hdr, box).Some?
  {
    if !Opens(k, log[0], nonce, hdr, box) {
      OpenFinds(k, log[1..], e, nonce, hdr, box);
    }
  }

  function Plains(log: seq<Sealed>): Data {
    if log == [] then [] else log[0].plain + Plains(log[1..])
  }

  lemma {:induction false} PlainsJoin(a: seq<Sealed>, b: seq<Sealed>)
    ensures Plains(a + b) == Plains(a) + Plains(b)
  {
    if a == [] {
      assert a + b == b;
    } else {
      assert (a + b)[1..] == a[1..] + b;
      PlainsJoin(a[1..], b);
    }
  }

  lemma {:induction false} FramesJoin(k: Keys, a: seq<Sealed>, b: seq<Sealed>)
    ensures Frames(k, a + b) == Frames(k, a) + Frames(k, b)
  {
    if a == [] {
      assert a + b == b;
    } else {
      assert (a + b)[1..] == a[1..] + b;
      FramesJoin(k, a[1..], b);
      Associate(Frame(k, a[0]), Frames(k, a[1..]), Frames(k, b));
    }
  }

  // ---------------------------------------------------------------------------------------
  // Writing

  /** `ctr` is a 64-bit counter; `sent` are the records the connection took. */
  datatype Writer = Writer(ctr: nat, log: seq<Sealed>, sent: seq<Sealed>)

  function SealNext(w: Writer, plain: Data, taken: bool): Writer {
    var e := Sealed((w.ctr + 1) % TWO64, plain);
    Writer(e.ctr, w.log + [e], if taken then w.sent + [e] else w.sent)
  }

  function Chunk(p: Data): Data {
    if |p| > MAX_RECORD then p[..MAX_RECORD] else p
  }

  /** Write's loop: one record per 2 MiB of p until the connection fails, after `accepts` records. */
  function WriteAll(w: Writer, p: Data, accepts: nat): (Writer, nat)
    decreases |p|
  {
    if p == [] then (w, 0)
    else if accepts == 0 then (SealNext(w, Chunk(p), false), 0)
    else
      var (t, n) := WriteAll(SealNext(w, Chunk(p), true), p[|Chunk(p)|..], accepts - 1);
      (t, |Chunk(p)| + n)
  }

  /** The record with index i carries counter i + 1, wrapped, and a non-empty plaintext of at most 2 MiB. */
  predicate RecordAt(log: seq<Sealed>, i: nat)
    requires i < |log|
  {
    log[i].ctr == (i + 1) % TWO64 && 0 < |log[i].plain| <= MAX_RECORD
  }

  ghost predicate WriterSound(w: Writer) {
    w.ctr == |w.log| % TWO64 && forall i :: 0 <= i < |w.log| ==> RecordAt(w.log, i)
  }

  lemma SealNextSound(w: Writer, plain: Data, taken: bool)
    requires WriterSound(w) && 0 < |plain| <= MAX_RECORD
    ensures WriterSound(SealNext(w, plain, taken))
  {
    var t := SealNext(w, plain, taken);
    forall i | 0 <= i < |t.log|
      ensures RecordAt(t.log, i)
    {
      if i < |w.log| {
        assert RecordAt(w.log, i);
      }
    }
  }

  lemma {:induction false} WriteAllSound(w: Writer, p: Data, accepts: nat)
    requires WriterSound(w)
    ensures WriterSound(WriteAll(w, p, accepts).0)
    decreases |p|
  {
    if p != [] {
      SealNextSound(w, Chunk(p), accepts > 0);
      if accepts > 0 {
        WriteAllSound(SealNext(w, Chunk(p), true), p[|Chunk(p)|..], accepts - 1);
      }
    }
  }

  /** What was sealed beyond the n bytes reported: the record on which the connection failed. */
  function Lost(p: Data, n: nat): Data
    requires n <= |p|
  {
    if n < |p| then Chunk(p[n..]) else []
  }

  lemma TakeFurther(base: Data, p: Data, c: nat, n: nat, rest: Data)
    requires c + n <= |p|
    ensures base + p[..c] + p[c..][..n] + rest == base + p[..c + n] + rest
    ensures p[c..][n..] == p[c + n..]
  {
    assert p[..c + n] == p[..c] + p[c..][..n];
  }

  lemma OneMorePlain(log: seq<Sealed>, e: Sealed)
    ensures Plains(log + [e]) == Plains(log) + e.plain
  {
    PlainsJoin(log, [e]);
    assert Plains([e]) == e.plain + Plains([]);
  }

  ghost predicate Wrote(w: Writer, t: Writer, p: Data, n: nat) {
    n <= |p| && Plains(t.log) == Plains(w.log) + p[..n] + Lost(p, n)
  }

  lemma WroteMore(w: Writer, u: Writer, t: Writer, p: Data, c: nat, n: nat)
    requires c <= |p| && Plains(u.log) == Plains(w.log) + p[..c] && Wrote(u, t, p[c..], n)
    ensures Wrote(w, t, p, c + n)
  {
    TakeFurther(Plains(w.log), p, c, n, Lost(p[c..], n));
  }

  lemma WroteLost(w: Writer, t: Writer, p: Data)
    requires Plains(t.log) == Plains(w.log) + if p == [] then [] else Chunk(p)
    ensures Wrote(w, t, p, 0)
  {
    assert p[0..] == p && p[..0] == [];
    assert Plains(w.log) + [] == Plains(w.log);
  }

  /** Write seals exactly the bytes it was given, in order; when the connection fails, the bytes it
      reports written and the one record that failed. */
  lemma {:induction false} WriteAllPlains(w: Writer, p: Data, accepts: nat)
    ensures Wrote(w, WriteAll(w, p, accepts).0, p, WriteAll(w, p, accepts).1)
    decreases |p|
  {
    if p == [] {
      WroteLost(w, w, p);
    } else {
      var c := Chunk(p);
      var u := SealNext(w, c, accepts > 0);
      OneMorePlain(w.log, Sealed((w.ctr + 1) % TWO64, c));
      if accepts == 0 {
        WroteLost(w, u, p);
      } else {
        WriteAllPlains(u, p[|c|..], accepts - 1);
        var (t, n) := WriteAll(u, p[|c|..], accepts - 1);
        WroteMore(w, u, t, p, |c|, n);
      }
    }
  }

  /** The connection took the records sealed since w, all of them or all but a last failed one. */
  ghost predicate SentSince(w: Writer, t: Writer, failed: bool) {
    w.log <= t.log && w.sent <= t.sent && (failed ==> |w.log| < |t.log|)
    && t.log[|w.log|..] == t.sent[|w.sent|..] + if failed then [t.log[|t.log| - 1]] else []
  }

  lemma SentOneMore(w: Writer, t: Writer, plain: Data, failed: bool)
    requires SentSince(SealNext(w, plain, true), t, failed)
    ensures SentSince(w, t, failed)
  {
    var u := SealNext(w, plain, true);
    var e := u.log[|w.log|];
    assert t.log[|w.log|..] == [e] + t.log[|u.log|..];
    assert t.sent[|w.sent|..] == [e] + t.sent[|u.sent|..];
  }

  /** The connection takes the sealed records; Write reports less than p only when it failed on the last. */
  lemma {:induction false} WriteAllSends(w: Writer, p: Data, accepts: nat)
    ensures WriteAll(w, p, accepts).1 <= |p|
    ensures SentSince(w, WriteAll(w, p, accepts).0, WriteAll(w, p, accepts).1 < |p|)
    decreases |p|
  {
    if p != [] && accepts > 0 {
      var c := Chunk(p);
      var u := SealNext(w, c, true);
      WriteAllSends(u, p[|c|..], accepts - 1);
      var (t, n) := WriteAll(u, p[|c|..], accepts - 1);
      SentOneMore(w, t, c, n < |p[|c|..]|);
    }
  }

  /** No nonce is used twice until the counter wraps: two records share one exactly when their indexes
      differ by a multiple of 2^64. */
  lemma NonceReuse(k: Keys, w: Writer, i: nat, j: nat)
    requires |k.prefix| == 4 && WriterSound(w) && i < |w.log| && j < |w.log|
    ensures NonceFor(k, w.log[i].ctr) == NonceFor(k, w.log[j].ctr) <==> (i - j) % TWO64 == 0
  {
    assert RecordAt(w.log, i) && RecordAt(w.log, j);
    NonceCounter(k, w.log[i].ctr);
    NonceCounter(k, w.log[j].ctr);
    SameResidue(i, j, TWO64);
  }

  function Counter(nonce: Data): nat
    requires |nonce| == NONCE
  {
    BigValue(nonce[4..])
  }

  lemma NonceCounter(k: Keys, ctr: nat)
    requires |k.prefix| == 4 && ctr < TWO64
    ensures |NonceFor(k, ctr)| == NONCE && NonceFor(k, ctr)[..4] == k.prefix && Counter(NonceFor(k, ctr)) == ctr
  {
    Spans();
    var low := BigEndian(ctr, 8);
    BigRoundTrip(ctr, 8);
    assert NonceFor(k, ctr)[4..] == low;
  }

  // ---------------------------------------------------------------------------------------
  // Reading

  /** `net` is what the network has handed over and nobody has consumed; it may be anything. */
  datatype Reader = Reader(ctr: nat, rbuf: Data, net: Data)

  datatype Outcome = Opened(e: Sealed) | Refused | Short

  /** Read and check the next record: plausible length, own direction, a counter not seen, then the
      cipher. Only an opened record moves the window. */
  function TakeRecord(k: Keys, log: seq<Sealed>, r: Reader): (Reader, Outcome) {
    if |r.net| < 4 then (r.(net := []), Short)
    else
      var hdr, net := r.net[..4], r.net[4..];
      var length := BigValue(hdr);
      if length < NONCE + OVERHEAD || length > MAX_RECORD + NONCE + OVERHEAD then (r.(net := net), Refused)
      else if |net| < length then (r.(net := []), Short)
      else CheckRecord(k, log, r.(net := net[length..]), hdr, net[..NONCE], net[NONCE..length])
  }

  function CheckRecord(k: Keys, log: seq<Sealed>, r: Reader, hdr: Data, nonce: Data, box: Data): (Reader, Outcome)
    requires |nonce| == NONCE
  {
    if nonce[..4] != k.prefix || Counter(nonce) == 0 || Counter(nonce) <= r.ctr then (r, Refused)
    else
      match Open(k, log, nonce, hdr, box)
      case None => (r, Refused)
      case Some(e) => (r.(ctr := Counter(nonce)), Opened(e))
  }

  datatype ReadResult = Got(data: Data) | Failed

  function Serve(r: Reader, plain: Data, max: nat): (Reader, ReadResult) {
    (r.(rbuf := plain[Min(max, |plain|)..]), Got(plain[..Min(max, |plain|)]))
  }

  function Finish(t: Reader, o: Outcome, max: nat): (Reader, ReadResult) {
    if o.Opened? then Serve(t, o.e.plain, max) else (t, Failed)
  }

  /** Buffered plaintext first; otherwise one record, of which what does not fit is buffered. */
  function ReadStep(k: Keys, log: seq<Sealed>, r: Reader, max: nat): (Reader, ReadResult) {
    if r.rbuf != [] then Serve(r, r.rbuf, max)
    else
      var (t, o) := TakeRecord(k, log, r);
      Finish(t, o, max)
  }

  /** A counter names one record. */
  lemma CounterNames(w: Writer, e: Sealed)
    requires WriterSound(w) && |w.log| < TWO64 && e in w.log
    ensures 0 < e.ctr <= |w.log| && e == w.log[e.ctr - 1]
  {
    var i :| 0 <= i < |w.log| && w.log[i] == e;
    assert RecordAt(w.log, i);
  }

  lemma OpenedIsSealed(k: Keys, w: Writer, r: Reader, hdr: Data, nonce: Data, box: Data)
    requires |k.prefix| == 4 && WriterSound(w) && |w.log| < TWO64 && |nonce| == NONCE
    requires CheckRecord(k, w.log, r, hdr, nonce, box).1.Opened?
    ensures var (t, o) := CheckRecord(k, w.log, r, hdr, nonce, box);
            r.ctr < t.ctr <= |w.log| && o.e == w.log[t.ctr - 1] && t == r.(ctr := t.ctr)
  {
    var e := Open(k, w.log, nonce, hdr, box).value;
    CounterNames(w, e);
    NonceCounter(k, e.ctr);
  }

  /** So does whatever comes out of the network: the record read next is the one its counter names. */
  lemma TakenIsSealed(k: Keys, w: Writer, r: Reader)
    requires |k.prefix| == 4 && WriterSound(w) && |w.log| < TWO64
    requires TakeRecord(k, w.log, r).1.Opened?
    ensures var (t, o) := TakeRecord(k, w.log, r);
            r.ctr < t.ctr <= |w.log| && o.e == w.log[t.ctr - 1] && t.rbuf == r.rbuf
  {
    var hdr, net := r.net[..4], r.net[4..];
    var length := BigValue(hdr);
    OpenedIsSealed(k, w, r.(net := net[length..]), hdr, net[..NONCE], net[NONCE..length]);
  }

  // ---------------------------------------------------------------------------------------
  // One direction of a connection, over whole runs

  /** `taken` lists the indexes of the records the reader accepted. */
  datatype Link = Link(w: Writer, r: Reader, taken: seq<nat>, delivered: Data)

  datatype Event =
    | Write(p: Data, accepts: nat)
    | Arrive(d: Data)                // the network hands over any bytes at all
    | Read(max: nat)

  function NewLink(): Link {
    Link(Writer(0, [], []), Reader(0, [], []), [], [])
  }

  function AfterRead(l: Link, r: Reader, got: ReadResult): Link {
    Link(l.w, r,
         if r.ctr > l.r.ctr then l.taken + [r.ctr - 1] else l.taken,
         if got.Got? then l.delivered + got.data else l.delivered)
  }

  function After(k: Keys, l: Link, ev: Event): Link {
    match ev
    case Write(p, accepts) => l.(w := WriteAll(l.w, p, accepts).0)
    case Arrive(d) => l.(r := l.r.(net := l.r.net + d))
    case Read(max) =>
      var (r, got) := ReadStep(k, l.w.log, l.r, max);
      AfterRead(l, r, got)
  }

  function Run(k: Keys, l: Link, evs: seq<Event>): Link
    decreases |evs|
  {
    if evs == [] then l else Run(k, After(k, l, evs[0]), evs[1..])
  }

  predicate Within(at: seq<nat>, n: nat) {
    forall j :: 0 <= j < |at| ==> at[j] < n
  }

  /** The plaintexts of the records with these indexes, in this order. */
  function PlainsAt(log: seq<Sealed>, at: seq<nat>): Data
    requires Within(at, |log|)
  {
    if at == [] then [] else PlainsAt(log, at[..|at| - 1]) + log[at[|at| - 1]].plain
  }

  predicate Increasing(at: seq<nat>) {
    forall i, j :: 0 <= i < j < |at| ==> at[i] < at[j]
  }

  /** The accepted records, in the order they were sealed and none twice; the window stands at the last. */
  ghost predicate Picked(log: seq<Sealed>, taken: seq<nat>, ctr: nat) {
    Within(taken, |log|) && Increasing(taken) && ctr == (if taken == [] then 0 else taken[|taken| - 1] + 1)
  }

  /** Everything handed to the application is the plaintext of those records. */
  ghost predicate Fed(log: seq<Sealed>, taken: seq<nat>, delivered: Data, rbuf: Data)
    requires Within(taken, |log|)
  {
    delivered + rbuf == PlainsAt(log, taken)
  }

  ghost predicate InOrder(l: Link) {
    Picked(l.w.log, l.taken, l.r.ctr) && Fed(l.w.log, l.taken, l.delivered, l.r.rbuf)
  }

  /** Until the 64-bit counter is used up. */
  ghost predicate LinkSound(l: Link) {
    WriterSound(l.w) && (|l.w.log| < TWO64 ==> InOrder(l))
  }

  lemma {:induction false} PlainsAtStays(a: seq<Sealed>, b: seq<Sealed>, at: seq<nat>)
    requires a <= b && Within(at, |a|)
    ensures Within(at, |b|) && PlainsAt(a, at) == PlainsAt(b, at)
  {
    if at != [] {
      PlainsAtStays(a, b, at[..|at| - 1]);
    }
  }

  lemma WriteStays(k: Keys, l: Link, p: Data, accepts: nat)
    requires LinkSound(l)
    ensures LinkSound(After(k, l, Write(p, accepts)))
  {
    WriteAllSound(l.w, p, accepts);
    WriteAllSends(l.w, p, accepts);
    var t := WriteAll(l.w, p, accepts).0;
    if |t.log| < TWO64 {
      PlainsAtStays(l.w.log, t.log, l.taken);
    }
  }

  lemma SplitPlain(base: Data, plain: Data, n: nat)
    requires n <= |plain|
    ensures (base + plain[..n]) + plain[n..] == base + plain
  {
    assert plain == plain[..n] + plain[n..];
  }

  lemma ServeFeeds(log: seq<Sealed>, taken: seq<nat>, delivered: Data, rbuf: Data, n: nat)
    requires Within(taken, |log|) && Fed(log, taken, delivered, rbuf) && n <= |rbuf|
    ensures Fed(log, taken, delivered + rbuf[..n], rbuf[n..])
  {
    SplitPlain(delivered, rbuf, n);
  }

  lemma PickOneMore(log: seq<Sealed>, taken: seq<nat>, ctr: nat, i: nat)
    requires Picked(log, taken, ctr) && ctr <= i < |log|
    ensures Picked(log, taken + [i], i + 1)
  {
  }

  lemma FeedOneMore(log: seq<Sealed>, taken: seq<nat>, delivered: Data, i: nat)
    requires Within(taken, |log|) && i < |log| && Fed(log, taken, delivered, [])
    ensures Within(taken + [i], |log|) && Fed(log, taken + [i], delivered, log[i].plain)
  {
    assert (taken + [i])[..|taken|] == taken;
    assert delivered + [] == delivered;
  }

  lemma ServeStays(l: Link, max: nat)
    requires InOrder(l)
    ensures var (r, got) := Serve(l.r, l.r.rbuf, max);
            InOrder(AfterRead(l, r, got))
  {
    ServeFeeds(l.w.log, l.taken, l.delivered, l.r.rbuf, Min(max, |l.r.rbuf|));
  }

  lemma AcceptFeeds(log: seq<Sealed>, taken: seq<nat>, ctr: nat, delivered: Data, i: nat, n: nat)
    requires Picked(log, taken, ctr) && Fed(log, taken, delivered, []) && ctr <= i < |log| && n <= |log[i].plain|
    ensures Picked(log, taken + [i], i + 1)
    ensures Fed(log, taken + [i], delivered + log[i].plain[..n], log[i].plain[n..])
  {
    PickOneMore(log, taken, ctr, i);
    FeedOneMore(log, taken, delivered, i);
    ServeFeeds(log, taken + [i], delivered, log[i].plain, n);
  }

  lemma FinishStays(l: Link, t: Reader, o: Outcome, max: nat)
    requires InOrder(l) && l.r.rbuf == [] && t.rbuf == []
    requires if o.Opened? then l.r.ctr < t.ctr <= |l.w.log| && o.e == l.w.log[t.ctr - 1] else t.ctr == l.r.ctr
    ensures var (r, got) := Finish(t, o, max);
            InOrder(AfterRead(l, r, got))
  {
    if o.Opened? {
      var n := Min(max, |o.e.plain|);
      var m := AfterRead(l, Finish(t, o, max).0, Finish(t, o, max).1);
      assert m.taken == l.taken + [t.ctr - 1] && m.delivered == l.delivered + o.e.plain[..n]
          && m.r.rbuf == o.e.plain[n..];
      AcceptFeeds(l.w.log, l.taken, l.r.ctr, l.delivered, t.ctr - 1, n);
    }
  }

  lemma ReadStays(k: Keys, l: Link, max: nat)
    requires GoodKeys(k) && LinkSound(l) && |l.w.log| < TWO64
    ensures InOrder(After(k, l, Read(max)))
  {
    if l.r.rbuf != [] {
      ServeStays(l, max);
    } else {
      var (t, o) := TakeRecord(k, l.w.log, l.r);
      if o.Opened? {
        TakenIsSealed(k, l.w, l.r);
      }
      FinishStays(l, t, o, max);
    }
  }

  /** Whatever the network does, the reader is given an in-order, repeat-free selection of the sealed
      records, never a byte of anything else. */
  lemma {:induction false} OnlySealedBytes(k: Keys, l: Link, evs: seq<Event>)
    requires GoodKeys(k) && LinkSound(l)
    ensures var end := Run(k, l, evs);
            && LinkSound(end) && l.w.log <= end.w.log
            && (|end.w.log| < TWO64 ==> InOrder(end) && end.delivered <= PlainsAt(end.w.log, end.taken))
    decreases |evs|
  {
    if evs != [] {
      match evs[0] {
        case Write(p, accepts) => WriteStays(k, l, p, accepts); WriteAllSends(l.w, p, accepts);
        case Arrive(_) =>
        case Read(max) => if |l.w.log| < TWO64 { ReadStays(k, l, max); }
      }
      OnlySealedBytes(k, After(k, l, evs[0]), evs[1..]);
    }
  }

  // ---------------------------------------------------------------------------------------
  // An honest channel

  lemma FrameParts(k: Keys, e: Sealed, rest: Data)
    requires GoodKeys(k)
    ensures |HeaderFor(e.plain)| == 4 && |NonceFor(k, e.ctr)| == NONCE && |Box(k, e)| == |e.plain| + OVERHEAD
    ensures var net := Frame(k, e) + rest;
            && |Frame(k, e)| == 4 + NONCE + |e.plain| + OVERHEAD
            && net[..4] == HeaderFor(e.plain) && net[4..][..NONCE] == NonceFor(k, e.ctr)
            && net[4..][NONCE..NONCE + |e.plain| + OVERHEAD] == Box(k, e)
            && net[4..][NONCE + |e.plain| + OVERHEAD..] == rest
  {
    JoinedParts(HeaderFor(e.plain), NonceFor(k, e.ctr), Box(k, e), rest);
  }

  lemma JoinedParts(a: Data, b: Data, c: Data, rest: Data)
    ensures var net := a + b + c + rest;
            && net[..|a|] == a && net[|a|..][..|b|] == b && net[|a|..][|b|..|b| + |c|] == c
            && net[|a|..][|b| + |c|..] == rest
  {
  }

  lemma HeaderValue(plain: Data)
    requires |plain| <= MAX_RECORD
    ensures |HeaderFor(plain)| == 4 && BigValue(HeaderFor(plain)) == NONCE + |plain| + OVERHEAD
  {
    Spans();
    BigRoundTrip(NONCE + |plain| + OVERHEAD, 4);
  }

  /** A sealed record that arrives whole and is newer than the window is opened as itself. */
  lemma SealedRecordOpens(k: Keys, w: Writer, r: Reader, i: nat, rest: Data)
    requires GoodKeys(k) && WriterSound(w) && |w.log| < TWO64 && r.ctr <= i < |w.log|
    requires r.net == Frame(k, w.log[i]) + rest
    ensures TakeRecord(k, w.log, r) == (Reader(i + 1, r.rbuf, rest), Opened(w.log[i]))
  {
    var e := w.log[i];
    assert RecordAt(w.log, i);
    FrameParts(k, e, rest);
    HeaderValue(e.plain);
    HonestCheck(k, w, r.(net := rest), i);
  }

  lemma OpensAsItself(k: Keys, w: Writer, e: Sealed)
    requires |k.prefix| == 4 && WriterSound(w) && |w.log| < TWO64 && e in w.log
    ensures Open(k, w.log, NonceFor(k, e.ctr), HeaderFor(e.plain), Box(k, e)) == Some(e)
  {
    OpenFinds(k, w.log, e, NonceFor(k, e.ctr), HeaderFor(e.plain), Box(k, e));
    var f := Open(k, w.log, NonceFor(k, e.ctr), HeaderFor(e.plain), Box(k, e)).value;
    CounterNames(w, e);
    CounterNames(w, f);
    NonceCounter(k, e.ctr);
    NonceCounter(k, f.ctr);
  }

  lemma HonestCheck(k: Keys, w: Writer, r: Reader, i: nat)
    requires |k.prefix| == 4 && WriterSound(w) && |w.log| < TWO64 && r.ctr <= i < |w.log|
    requires |NonceFor(k, w.log[i].ctr)| == NONCE
    ensures var e := w.log[i];
            CheckRecord(k, w.log, r, HeaderFor(e.plain), NonceFor(k, e.ctr), Box(k, e))
            == (r.(ctr := i + 1), Opened(e))
  {
    hide NonceFor, HeaderFor, Box, Open, Counter;
    var e := w.log[i];
    assert RecordAt(w.log, i);
    NonceCounter(k, e.ctr);
    OpensAsItself(k, w, e);
  }

  /** The reader opens a record exactly when what comes next is a sealed record newer than its window,
      and it then stands right behind it. */
  lemma OpensIff(k: Keys, w: Writer, r: Reader)
    requires GoodKeys(k) && WriterSound(w) && |w.log| < TWO64
    ensures TakeRecord(k, w.log, r).1.Opened?
            <==> exists i :: r.ctr <= i < |w.log| && Frame(k, w.log[i]) <= r.net
    ensures forall i :: r.ctr <= i < |w.log| && Frame(k, w.log[i]) <= r.net ==>
              TakeRecord(k, w.log, r)
              == (Reader(i + 1, r.rbuf, r.net[|Frame(k, w.log[i])|..]), Opened(w.log[i]))
  {
    hide Frame, TakeRecord;
    forall i | r.ctr <= i < |w.log| && Frame(k, w.log[i]) <= r.net
      ensures TakeRecord(k, w.log, r)
              == (Reader(i + 1, r.rbuf, r.net[|Frame(k, w.log[i])|..]), Opened(w.log[i]))
    {
      var rest := r.net[|Frame(k, w.log[i])|..];
      assert r.net == Frame(k, w.log[i]) + rest;
      SealedRecordOpens(k, w, r, i, rest);
    }
    if TakeRecord(k, w.log, r).1.Opened? {
      OpenedIsNext(k, w, r);
    }
  }

  lemma OpenedIsNext(k: Keys, w: Writer, r: Reader)
    requires GoodKeys(k) && WriterSound(w) && |w.log| < TWO64 && TakeRecord(k, w.log, r).1.Opened?
    ensures exists i :: r.ctr <= i < |w.log| && Frame(k, w.log[i]) <= r.net
  {
    hide NonceFor, HeaderFor, Box, Counter, WriterSound;
    TakenIsSealed(k, w, r);
    var (t, o) := TakeRecord(k, w.log, r);
    var hdr, net := r.net[..4], r.net[4..];
    var length := BigValue(hdr);
    assert Opens(k, o.e, net[..NONCE], hdr, net[NONCE..length]);
    assert r.net == hdr + net[..NONCE] + net[NONCE..length] + net[length..];
    assert Frame(k, w.log[t.ctr - 1]) <= r.net;
  }

  ghost predicate Plausible(length: nat) {
    NONCE + OVERHEAD <= length <= NONCE + MAX_RECORD + OVERHEAD
  }

  /** Anything else costs only itself: an implausible length its header, a forged or repeated record that
      record; and a record the stream breaks off in is never half used. */
  lemma OthersAreSteppedOver(k: Keys, w: Writer, r: Reader, hdr: Data, body: Data, rest: Data)
    requires GoodKeys(k) && WriterSound(w) && |w.log| < TWO64 && |hdr| == 4 && BigValue(hdr) == |body|
    requires forall i :: r.ctr <= i < |w.log| ==> Frame(k, w.log[i]) != hdr + body
    ensures r.net == hdr + rest && !Plausible(|body|) ==> TakeRecord(k, w.log, r) == (r.(net := rest), Refused)
    ensures r.net == hdr + body + rest && Plausible(|body|) ==>
              TakeRecord(k, w.log, r) == (r.(net := rest), Refused)
    ensures r.net < hdr + body && (|r.net| < 4 || Plausible(|body|)) ==>
              TakeRecord(k, w.log, r) == (r.(net := []), Short)
  {
    hide Frame, CheckRecord, WriterSound, Counter;
    if r.net == hdr + rest && !Plausible(|body|) {
      assert r.net[..4] == hdr && r.net[4..] == rest;
    }
    if r.net == hdr + body + rest && Plausible(|body|) {
      assert r.net[..4] == hdr && r.net[4..] == body + rest && (body + rest)[|body|..] == rest;
      OthersAreRefused(k, w, r, hdr, body, rest);
    }
    if r.net < hdr + body && |r.net| >= 4 {
      assert r.net[..4] == (hdr + body)[..4] == hdr;
    }
  }

  lemma OthersAreRefused(k: Keys, w: Writer, r: Reader, hdr: Data, body: Data, rest: Data)
    requires GoodKeys(k) && WriterSound(w) && |w.log| < TWO64 && |hdr| == 4 && BigValue(hdr) == |body|
    requires Plausible(|body|) && r.net == hdr + body + rest
    requires forall i :: r.ctr <= i < |w.log| ==> Frame(k, w.log[i]) != hdr + body
    ensures !TakeRecord(k, w.log, r).1.Opened?
    ensures TakeRecord(k, w.log, r) == (r.(net := rest), Refused)
  {
    hide Frame, WriterSound, Counter, Open;
    assert r.net[..4] == hdr && r.net[4..] == body + rest && (body + rest)[|body|..] == rest;
    if TakeRecord(k, w.log, r).1.Opened? {
      OpenedIsNext(k, w, r);
      var i :| r.ctr <= i < |w.log| && Frame(k, w.log[i]) <= r.net;
      SameLengthFrame(k, w, i, hdr, body, rest);
    }
  }

  lemma SameLengthFrame(k: Keys, w: Writer, i: nat, hdr: Data, body: Data, rest: Data)
    requires GoodKeys(k) && WriterSound(w) && i < |w.log| && |hdr| == 4 && BigValue(hdr) == |body|
    requires Frame(k, w.log[i]) <= hdr + body + rest
    ensures Frame(k, w.log[i]) == hdr + body
  {
    assert RecordAt(w.log, i);
    hide Frame, WriterSound;
    var e := w.log[i];
    FrameParts(k, e, []);
    HeaderValue(e.plain);
    assert Frame(k, e) + [] == Frame(k, e);
    assert Frame(k, e)[..4] == hdr;
    assert |Frame(k, e)| == |hdr + body|;
  }

  datatype HonestEvent = Send(p: Data) | Recv(max: nat)

  /** Receiving blocks until there is something. */
  predicate Ready(l: Link, ev: HonestEvent) {
    ev.Recv? ==> l.r.rbuf != [] || l.r.net != []
  }

  /** The network hands over exactly what the connection was given. */
  function HonestAfter(k: Keys, l: Link, ev: HonestEvent): Link {
    match ev
    case Send(p) =>
      var m := After(k, l, Write(p, |p|));
      if |l.w.sent| <= |m.w.sent| then After(k, m, Arrive(Frames(k, m.w.sent[|l.w.sent|..]))) else m
    case Recv(max) => After(k, l, Read(max))
  }

  ghost predicate Lossless(k: Keys, l: Link) {
    && WriterSound(l.w)
    && (|l.w.log| < TWO64 ==>
          && l.r.ctr <= |l.w.log|
          && l.r.net == Frames(k, l.w.log[l.r.ctr..])
          && l.delivered + l.r.rbuf == Plains(l.w.log[..l.r.ctr]))
  }

  lemma RoomyWriteIsWhole(w: Writer, p: Data, accepts: nat)
    requires accepts >= |p|
    ensures WriteAll(w, p, accepts).1 == |p|
    decreases |p|
  {
    if p != [] {
      RoomyWriteIsWhole(SealNext(w, Chunk(p), true), p[|Chunk(p)|..], accepts - 1);
    }
  }

  lemma FramesWaiting(k: Keys, a: seq<Sealed>, b: seq<Sealed>, i: nat)
    requires a <= b && i <= |a|
    ensures Frames(k, a[i..]) + Frames(k, b[|a|..]) == Frames(k, b[i..]) && a[..i] == b[..i]
  {
    FramesJoin(k, a[i..], b[|a|..]);
    assert b[i..] == a[i..] + b[|a|..];
  }

  lemma SendStays(k: Keys, l: Link, p: Data)
    requires Lossless(k, l)
    ensures Lossless(k, HonestAfter(k, l, Send(p)))
    ensures Plains(HonestAfter(k, l, Send(p)).w.log) == Plains(l.w.log) + p
    ensures l.w.log <= HonestAfter(k, l, Send(p)).w.log
  {
    var t := WriteAll(l.w, p, |p|).0;
    WriteAllSound(l.w, p, |p|);
    RoomyWriteIsWhole(l.w, p, |p|);
    WriteAllSends(l.w, p, |p|);
    WriteAllPlains(l.w, p, |p|);
    assert Plains(l.w.log) + p[..|p|] + [] == Plains(l.w.log) + p;
    if |t.log| < TWO64 {
      assert t.log[|l.w.log|..] == t.sent[|l.w.sent|..];
      FramesWaiting(k, l.w.log, t.log, l.r.ctr);
    }
  }

  lemma PlainsTo(log: seq<Sealed>, i: nat)
    requires i < |log|
    ensures Plains(log[..i + 1]) == Plains(log[..i]) + log[i].plain
  {
    OneMorePlain(log[..i], log[i]);
    assert log[..i + 1] == log[..i] + [log[i]];
  }

  lemma FinishLossless(log: seq<Sealed>, l: Link, rest: Data, max: nat)
    requires log == l.w.log && l.r.ctr < |log| && l.r.rbuf == [] && l.delivered == Plains(log[..l.r.ctr])
    ensures var (r, got) := Finish(Reader(l.r.ctr + 1, [], rest), Opened(log[l.r.ctr]), max);
            var m := AfterRead(l, r, got);
            m.w == l.w && m.r.ctr == l.r.ctr + 1 && m.r.net == rest
            && m.delivered + m.r.rbuf == Plains(log[..l.r.ctr + 1])
  {
    PlainsTo(log, l.r.ctr);
    SplitPlain(l.delivered, log[l.r.ctr].plain, Min(max, |log[l.r.ctr].plain|));
  }

  lemma RecvBuffered(k: Keys, l: Link, max: nat)
    requires l.r.rbuf != []
    ensures var m := HonestAfter(k, l, Recv(max));
            && m.w == l.w && m.r.ctr == l.r.ctr && m.r.net == l.r.net
            && m.delivered + m.r.rbuf == l.delivered + l.r.rbuf
            && (max > 0 ==> |l.delivered| < |m.delivered|)
  {
    SplitPlain(l.delivered, l.r.rbuf, Min(max, |l.r.rbuf|));
  }

  lemma RecvRecord(k: Keys, l: Link, max: nat)
    requires GoodKeys(k) && Lossless(k, l) && |l.w.log| < TWO64 && l.r.rbuf == [] && l.r.net != []
    ensures var m := HonestAfter(k, l, Recv(max));
            && m.w == l.w && m.r.ctr == l.r.ctr + 1 <= |l.w.log| && m.r.net == Frames(k, l.w.log[m.r.ctr..])
            && m.delivered + m.r.rbuf == Plains(l.w.log[..m.r.ctr])
            && (max > 0 ==> |l.delivered| < |m.delivered|)
  {
    var i := l.r.ctr;
    assert l.w.log[i..] != [];
    assert RecordAt(l.w.log, i);
    assert l.w.log[i..][1..] == l.w.log[i + 1..];
    SealedRecordOpens(k, l.w, l.r, i, Frames(k, l.w.log[i + 1..]));
    assert l.delivered + [] == l.delivered;
    FinishLossless(l.w.log, l, Frames(k, l.w.log[i + 1..]), max);
  }

  /** A reader with data waiting gets some of it. */
  lemma RecvStays(k: Keys, l: Link, max: nat)
    requires GoodKeys(k) && Lossless(k, l) && |l.w.log| < TWO64 && Ready(l, Recv(max))
    ensures Lossless(k, HonestAfter(k, l, Recv(max)))
    ensures max > 0 ==> |l.delivered| < |HonestAfter(k, l, Recv(max)).delivered|
    ensures HonestAfter(k, l, Recv(max)).w == l.w
  {
    if l.r.rbuf != [] {
      RecvBuffered(k, l, max);
    } else {
      RecvRecord(k, l, max);
    }
  }

  function HonestRun(k: Keys, l: Link, evs: seq<HonestEvent>): Option<Link>
    decreases |evs|
  {
    if evs == [] then Some(l)
    else if Ready(l, evs[0]) then HonestRun(k, HonestAfter(k, l, evs[0]), evs[1..])
    else None
  }

  function AllSent(evs: seq<HonestEvent>): Data {
    if evs == [] then [] else (if evs[0].Send? then evs[0].p else []) + AllSent(evs[1..])
  }

  lemma HonestLogGrows(k: Keys, l: Link, evs: seq<HonestEvent>)
    requires HonestRun(k, l, evs).Some?
    ensures l.w.log <= HonestRun(k, l, evs).value.w.log
    decreases |evs|
  {
    if evs != [] {
      if evs[0].Send? {
        WriteAllSends(l.w, evs[0].p, |evs[0].p|);
      }
      HonestLogGrows(k, HonestAfter(k, l, evs[0]), evs[1..]);
    }
  }

  lemma {:induction false} HonestRunLossless(k: Keys, l: Link, evs: seq<HonestEvent>)
    requires GoodKeys(k) && Lossless(k, l) && HonestRun(k, l, evs).Some?
    requires |HonestRun(k, l, evs).value.w.log| < TWO64
    ensures Lossless(k, HonestRun(k, l, evs).value)
    ensures Plains(HonestRun(k, l, evs).value.w.log) == Plains(l.w.log) + AllSent(evs)
    decreases |evs|
  {
    if evs == [] {
      assert Plains(l.w.log) + [] == Plains(l.w.log);
    } else {
      var m := HonestAfter(k, l, evs[0]);
      HonestLogGrows(k, l, evs);
      HonestLogGrows(k, m, evs[1..]);
      if evs[0].Send? {
        SendStays(k, l, evs[0].p);
        Associate(Plains(l.w.log), evs[0].p, AllSent(evs[1..]));
      } else {
        RecvStays(k, l, evs[0].max);
        assert [] + AllSent(evs[1..]) == AllSent(evs[1..]);
      }
      HonestRunLossless(k, m, evs[1..]);
    }
  }

  lemma PlainsPrefix(log: seq<Sealed>, i: nat)
    requires i <= |log|
    ensures Plains(log[..i]) <= Plains(log)
    ensures i == |log| ==> Plains(log[..i]) == Plains(log)
  {
    PlainsJoin(log[..i], log[i..]);
    assert log == log[..i] + log[i..];
    assert i == |log| ==> log[..i] == log;
  }

  /** Over an honest channel any write sizes and any read sizes give back a prefix of what was written,
      and all of it once nothing is waiting. */
  lemma HonestChannel(k: Keys, evs: seq<HonestEvent>)
    requires GoodKeys(k) && HonestRun(k, NewLink(), evs).Some?
    requires |HonestRun(k, NewLink(), evs).value.w.log| < TWO64
    ensures var end := HonestRun(k, NewLink(), evs).value;
            && end.delivered <= AllSent(evs)
            && (end.r.net == [] && end.r.rbuf == [] ==> end.delivered == AllSent(evs))
  {
    var l := NewLink();
    assert l.w.log[l.r.ctr..] == [] && l.w.log[..l.r.ctr] == [];
    HonestRunLossless(k, l, evs);
    var end := HonestRun(k, l, evs).value;
    assert [] + AllSent(evs) == AllSent(evs);
    PlainsPrefix(end.w.log, end.r.ctr);
    assert end.delivered <= end.delivered + end.r.rbuf;
    if end.r.net == [] && end.r.rbuf == [] {
      assert end.delivered + [] == end.delivered;
    }
  }

  // ---------------------------------------------------------------------------------------
  // The connection

  class RecordConn {
    const out: Keys
    const inward: Keys
    var sendCtr: nat
    var recvCtr: nat
    var rbuf: Data
    var wire: Data                   // what the connection below took
    var net: Data                    // what it has to read
    ghost var sealed: seq<Sealed>
    ghost var sent: seq<Sealed>

    ghost function Out(): Writer
      reads this
    {
      Writer(sendCtr, sealed, sent)
    }

    function In(): Reader
      reads this
    {
      Reader(recvCtr, rbuf, net)
    }

    ghost predicate Valid()
      reads this
    {
      sendCtr < TWO64 && recvCtr < TWO64 && wire == Frames(out, sent)
    }

    constructor (out: Keys, inward: Keys)
      ensures Valid() && Out() == Writer(0, [], []) && In() == Reader(0, [], [])
      ensures this.out == out && this.inward == inward
    {
      this.out, this.inward := out, inward;
      sendCtr, recvCtr, rbuf, wire, net, sealed, sent := 0, 0, [], [], [], [], [];
    }

    /** Seals one record and offers it to the connection, which takes it or fails. */
    method SealRecord(chunk: Data, takes: bool)
      requires Valid()
      modifies this`sendCtr, this`wire, this`sealed, this`sent
      ensures Valid() && Out() == SealNext(old(Out()), chunk, takes)
    {
      sendCtr := (sendCtr + 1) % TWO64;
      sealed := sealed + [Sealed(sendCtr, chunk)];
      if takes {
        FramesJoin(out, sent, [Sealed(sendCtr, chunk)]);
        wire := wire + Frame(out, Sealed(sendCtr, chunk));
        sent := sent + [Sealed(sendCtr, chunk)];
      }
    }

    /** Seals p record by record; `accepts` is how many records the connection takes before it fails. */
    method Write(p: Data, accepts: nat) returns (written: nat, failed: bool)
      requires Valid()
      modifies this`sendCtr, this`wire, this`sealed, this`sent
      ensures Valid()
      ensures (Out(), written) == WriteAll(old(Out()), p, accepts)
      ensures failed <==> written < |p|
    {
      var rest, left := p, accepts;
      written := 0;
      while rest != []
        invariant Valid() && written + |rest| == |p|
        invariant (WriteAll(Out(), rest, left).0, written + WriteAll(Out(), rest, left).1)
            == WriteAll(old(Out()), p, accepts)
        decreases |rest|
      {
        var n := |rest|;
        if n > MAX_RECORD {
          n := MAX_RECORD;
        }
        assert rest[..n] == Chunk(rest);
        SealRecord(rest[..n], left > 0);
        if left == 0 {
          return written, true;
        }
        left := left - 1;
        written := written + n;
        rest := rest[n..];
      }
      failed := false;
    }

    /** The network hands over more bytes. */
    method Arrive(d: Data)
      requires Valid()
      modifies this`net
      ensures Valid() && In() == old(In()).(net := old(net) + d)
    {
      net := net + d;
    }

    /** io.ReadFull: n bytes, or everything there was and an error. */
    method ReadFull(n: nat) returns (d: Data, ok: bool)
      modifies this`net
      ensures ok <==> n <= |old(net)|
      ensures ok ==> d == old(net)[..n] && net == old(net)[n..]
      ensures !ok ==> net == []
    {
      if |net| < n {
        d, ok := net, false;
        net := [];
      } else {
        d, ok := net[..n], true;
        net := net[n..];
      }
    }

    /** `peer` is what the peer's key has sealed so far: all an ideal cipher opens. */
    method NextRecord(peer: seq<Sealed>) returns (o: Outcome)
      requires Valid()
      modifies this`recvCtr, this`net
      ensures Valid() && (In(), o) == TakeRecord(inward, peer, old(In()))
    {
      var hdr, ok := ReadFull(4);
      if !ok {
        return Short;
      }
      var length := BigValue(hdr);
      if length < NONCE + OVERHEAD || length > MAX_RECORD + NONCE + OVERHEAD {
        return Refused;
      }
      var frame, whole := ReadFull(length);
      if !whole {
        return Short;
      }
      var nonce, box := frame[..NONCE], frame[NONCE..];
      assert nonce == old(net)[4..][..NONCE] && box == old(net)[4..][NONCE..length];
      if nonce[..4] != inward.prefix {
        return Refused;
      }
      var ctr := Counter(nonce);
      if ctr == 0 || ctr <= recvCtr {
        return Refused;
      }
      var plain := Open(inward, peer, nonce, hdr, box);
      if plain.None? {
        return Refused;
      }
      CounterFits(nonce);
      recvCtr := ctr;
      return Opened(plain.value);
    }

    method Read(max: nat, peer: seq<Sealed>) returns (got: ReadResult)
      requires Valid()
      modifies this`recvCtr, this`rbuf, this`net
      ensures Valid() && (In(), got) == ReadStep(inward, peer, old(In()), max)
    {
      if rbuf != [] {
        var n := Min(max, |rbuf|);
        got := Got(rbuf[..n]);
        rbuf := rbuf[n..];
        return;
      }
      var o := NextRecord(peer);
      if !o.Opened? {
        return Failed;
      }
      var plain := o.e.plain;
      var n := Min(max, |plain|);
      got := Got(plain[..n]);
      if n < |plain| {
        rbuf := plain[n..];
      } else {
        assert plain[n..] == [];
      }
    }
  }

  lemma CounterFits(nonce: Data)
    requires |nonce| == NONCE
    ensures Counter(nonce) < TWO64
  {
    Spans();
    BigCanonical(nonce[4..]);
  }

}
