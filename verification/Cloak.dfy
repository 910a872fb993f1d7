// WebSocket framing of a byte stream (sections 5.2 and 5.3 of RFC 6455), masked from the client.

module Cloak {
  import opened Bytes
  import opened Wire

  const MAX_FRAME: nat := 0x10_0000
  const MAX_PAYLOAD: nat := 17 * 0x10_0000

  type Mask = m: Data | |m| == 4 witness Zeros(4)

  // ---------------------------------------------------------------------------------------
  // Masking

  /** Exclusive or of the low n bits. */
  function XorBits(a: nat, b: nat, n: nat): nat {
    if n == 0 then 0 else (if a % 2 == b % 2 then 0 else 1) + 2 * XorBits(a / 2, b / 2, n - 1)
  }

  lemma {:induction false} XorTwice(a: nat, b: nat, n: nat)
    requires a < Pow2(n)
    ensures XorBits(a, b, n) < Pow2(n) && XorBits(XorBits(a, b, n), b, n) == a
  {
    if n > 0 {
      XorTwice(a / 2, b / 2, n - 1);
      var x := XorBits(a, b, n);
      assert x / 2 == XorBits(a / 2, b / 2, n - 1) && x % 2 == (if a % 2 == b % 2 then 0 else 1);
    }
  }

  lemma {:induction false} XorFits(a: nat, b: nat, n: nat)
    ensures XorBits(a, b, n) < Pow2(n)
  {
    if n > 0 {
      XorFits(a / 2, b / 2, n - 1);
    }
  }

  function Pow2(n: nat): nat {
    if n == 0 then 1 else 2 * Pow2(n - 1)
  }

  function BitOf(a: nat, i: nat): nat
    decreases i
  {
    if i == 0 then a % 2 else BitOf(a / 2, i - 1)
  }

  /** Bit by bit, one where the two differ. */
  lemma {:induction false} XorByBits(a: nat, b: nat, n: nat, i: nat)
    requires i < n
    ensures BitOf(XorBits(a, b, n), i) == if BitOf(a, i) == BitOf(b, i) then 0 else 1
    decreases n
  {
    var x := XorBits(a, b, n);
    assert x / 2 == XorBits(a / 2, b / 2, n - 1) && x % 2 == if a % 2 == b % 2 then 0 else 1;
    if i > 0 {
      XorByBits(a / 2, b / 2, n - 1, i - 1);
    }
  }

  /** Each masked byte differs from the plain one in exactly the bits set in the mask byte of its position. */
  lemma MaskedByBits(p: Data, mask: Mask, k: nat, i: nat)
    requires k < |p| && i < 8
    ensures BitOf(Masked(p, mask)[k] as nat, i) == (BitOf(p[k] as nat, i) + BitOf(mask[k % 4] as nat, i)) % 2
  {
    XorByBits(p[k] as nat, mask[k % 4] as nat, 8, i);
    BitIsBit(p[k] as nat, i);
    BitIsBit(mask[k % 4] as nat, i);
  }

  /** Its bits are all there is to a byte. */
  lemma {:induction false} BitsDecide(a: nat, b: nat, n: nat)
    requires a < Pow2(n) && b < Pow2(n) && forall i | 0 <= i < n :: BitOf(a, i) == BitOf(b, i)
    ensures a == b
  {
    if n > 0 {
      assert BitOf(a, 0) == BitOf(b, 0);
      forall i | 0 <= i < n - 1
        ensures BitOf(a / 2, i) == BitOf(b / 2, i)
      {
        assert BitOf(a, i + 1) == BitOf(b, i + 1);
      }
      BitsDecide(a / 2, b / 2, n - 1);
    }
  }

  lemma {:induction false} BitIsBit(a: nat, i: nat)
    ensures BitOf(a, i) <= 1
    decreases i
  {
    if i > 0 {
      BitIsBit(a / 2, i - 1);
    }
  }

  function Xor(a: byte, b: byte): byte {
    XorFits(a as nat, b as nat, 8);
    XorBits(a as nat, b as nat, 8) as byte
  }

  lemma XorUndone(a: byte, b: byte)
    ensures Xor(Xor(a, b), b) == a
  {
    XorTwice(a as nat, b as nat, 8);
  }

  /** Each byte against the mask byte its position names. */
  function Masked(p: Data, mask: Mask): (r: Data)
    ensures |r| == |p| && forall i :: 0 <= i < |p| ==> r[i] == Xor(p[i], mask[i % 4])
  {
    seq(|p|, i requires 0 <= i < |p| => Xor(p[i], mask[i % 4]))
  }

  lemma MaskUndone(p: Data, mask: Mask)
    ensures Masked(Masked(p, mask), mask) == p
  {
    hide Xor;
    forall i | 0 <= i < |p|
      ensures Masked(Masked(p, mask), mask)[i] == p[i]
    {
      XorUndone(p[i], mask[i % 4]);
    }
  }

  // ---------------------------------------------------------------------------------------
  // Frames

  /** The mask of a frame: servers send none. */
  type Key = Option<Mask>

  /** The second byte and the extended length. */
  function LengthBytes(n: nat, masked: bool): Data
    requires n < TWO64
  {
    var top := if masked then 128 else 0;
    if n < 126 then [(top + n) as byte]
    else if n <= 0xFFFF then [(top + 126) as byte] + BigEndian(n, 2)
    else [(top + 127) as byte] + BigEndian(n, 8)
  }

  function KeyBytes(key: Key): Data {
    if key.Some? then key.value else []
  }

  function Body(p: Data, key: Key): Data {
    if key.Some? then Masked(p, key.value) else p
  }

  /** One final frame; opcode 2 is binary, 9 and 10 are ping and pong. */
  function FrameBytes(opcode: nat, p: Data, key: Key): Data
    requires opcode < 16 && |p| < TWO64
  {
    [(128 + opcode) as byte] + (LengthBytes(|p|, key.Some?) + (KeyBytes(key) + Body(p, key)))
  }

  datatype Length = Length(n: nat, rest: Data) | ShortLength

  function ReadLength(low: nat, b: Data): Length {
    if low == 126 then if |b| < 2 then ShortLength else Length(BigValue(b[..2]), b[2..])
    else if low == 127 then if |b| < 8 then ShortLength else Length(BigValue(b[..8]), b[8..])
    else Length(low, b)
  }

  datatype Taken = Payload(data: Data, rest: Data) | Skipped(rest: Data) | Closing(rest: Data) | Broken

  function ReadBody(opcode: nat, masked: bool, n: nat, b: Data): Taken {
    if n > MAX_PAYLOAD || (masked && |b| < 4) then Broken
    else
      var key: Data := if masked then b[..4] else [];
      var rest := if masked then b[4..] else b;
      if opcode == 8 then Closing(rest)
      else if |rest| < n then Broken
      else if opcode == 9 || opcode == 10 then Skipped(rest[n..])
      else Payload(if masked then Masked(rest[..n], key) else rest[..n], rest[n..])
  }

  /** The next frame: no fragments, and from a client no unmasked data. */
  function TakeFrame(server: bool, b: Data): Taken {
    if |b| < 2 then Broken
    else
      var fin, opcode := b[0] >= 128, b[0] as nat % 16;
      var masked, low := b[1] >= 128, b[1] as nat % 128;
      if server && !masked && opcode < 8 then Broken
      else if opcode == 0 || (!fin && opcode < 8) then Broken
      else
        match ReadLength(low, b[2..])
        case ShortLength => Broken
        case Length(n, rest) => ReadBody(opcode, masked, n, rest)
  }

  // ---------------------------------------------------------------------------------------
  // What a reader makes of any bytes

  /** A frame as anyone may write it (section 5.2 of RFC 6455): the length in one, three or nine bytes,
      the shortest form or not. */
  datatype Wrapped = Wrapped(final: bool, opcode: nat, reserved: nat, form: nat, p: Data, key: Key)

  predicate Encodable(f: Wrapped) {
    && f.opcode < 16 && f.reserved < 8
    && (f.form == 1 ==> |f.p| < 126) && (f.form == 3 ==> |f.p| < 0x1_0000) && (f.form == 9 ==> |f.p| < TWO64)
    && f.form in {1, 3, 9}
  }

  function First(f: Wrapped): byte
    requires Encodable(f)
  {
    ((if f.final then 128 else 0) + 16 * f.reserved + f.opcode) as byte
  }

  function LengthForm(form: nat, n: nat, masked: bool): Data
    requires form in {1, 3, 9} && (form == 1 ==> n < 126)
  {
    var top := if masked then 128 else 0;
    if form == 1 then [(top + n) as byte]
    else if form == 3 then [(top + 126) as byte] + BigEndian(n, 2)
    else [(top + 127) as byte] + BigEndian(n, 8)
  }

  function Head(f: Wrapped): Data
    requires Encodable(f)
  {
    [First(f)] + (LengthForm(f.form, |f.p|, f.key.Some?) + KeyBytes(f.key))
  }

  function Unwrapped(f: Wrapped): Data
    requires Encodable(f)
  {
    Head(f) + Body(f.p, f.key)
  }

  /** A frame the reader serves, drains or stops at: not too long, and if it carries data neither a
      fragment nor sent unmasked to a server. */
  predicate Welcome(server: bool, f: Wrapped) {
    && Encodable(f) && |f.p| <= MAX_PAYLOAD && f.opcode != 0
    && (f.opcode < 8 ==> f.final && (server ==> f.key.Some?))
  }

  /** What is in the bytes b from some point on. */
  ghost predicate Starts(f: Wrapped, b: Data, rest: Data) {
    Encodable(f) && b == Unwrapped(f) + rest
  }

  lemma FormReadsBack(form: nat, n: nat, masked: bool, rest: Data)
    requires form in {1, 3, 9} && (form == 1 ==> n < 126) && (form == 3 ==> n < 0x1_0000) && n < TWO64
    ensures var l := LengthForm(form, n, masked);
            && l != [] && (l[0] >= 128 <==> masked)
            && ReadLength(l[0] as nat % 128, l[1..] + rest) == Length(n, rest)
  {
    Spans();
    var l := LengthForm(form, n, masked);
    if form > 1 {
      BigRoundTrip(n, form - 1);
      assert l[1..] == BigEndian(n, form - 1);
      assert (l[1..] + rest)[..form - 1] == BigEndian(n, form - 1) && (l[1..] + rest)[form - 1..] == rest;
    } else {
      assert l[1..] + rest == rest;
    }
  }

  lemma BodyReadsBack(opcode: nat, p: Data, key: Key, rest: Data)
    requires |p| <= MAX_PAYLOAD
    ensures ReadBody(opcode, key.Some?, |p|, KeyBytes(key) + (Body(p, key) + rest))
            == if opcode == 8 then Closing(Body(p, key) + rest)
               else if opcode == 9 || opcode == 10 then Skipped(rest)
               else Payload(p, rest)
  {
    hide Masked;
    var after := Body(p, key) + rest;
    var b := KeyBytes(key) + after;
    if key.Some? {
      assert b[..4] == key.value && b[4..] == after;
      MaskUndone(p, key.value);
    } else {
      assert b == after;
    }
    assert after[..|p|] == Body(p, key) && after[|p|..] == rest;
  }

  lemma HeadSplits(f: Wrapped, tail: Data)
    requires Encodable(f)
    ensures var l, b := LengthForm(f.form, |f.p|, f.key.Some?), Head(f) + tail;
            l != [] && |b| >= 2 && b[0] == First(f) && b[1] == l[0] && b[2..] == l[1..] + (KeyBytes(f.key) + tail)
  {
    hide KeyBytes;
    var l := LengthForm(f.form, |f.p|, f.key.Some?);
    assert l != [];
  }

  lemma FirstByte(f: Wrapped)
    requires Encodable(f)
    ensures (First(f) >= 128 <==> f.final) && First(f) as nat % 16 == f.opcode
  {
  }

  /** A welcome frame, whatever its length form, is served, drained or the end, leaving what follows. */
  lemma WelcomeIsTaken(server: bool, f: Wrapped, rest: Data)
    requires Welcome(server, f)
    ensures TakeFrame(server, Unwrapped(f) + rest)
            == if f.opcode == 8 then Closing(Body(f.p, f.key) + rest)
               else if f.opcode == 9 || f.opcode == 10 then Skipped(rest)
               else Payload(f.p, rest)
  {
    hide LengthForm, ReadLength, ReadBody, Body, KeyBytes, First;
    var tail := Body(f.p, f.key) + rest;
    Associate(Head(f), Body(f.p, f.key), rest);
    HeadSplits(f, tail);
    FirstByte(f);
    FormReadsBack(f.form, |f.p|, f.key.Some?, KeyBytes(f.key) + tail);
    BodyReadsBack(f.opcode, f.p, f.key, rest);
  }

  lemma LengthReadOnce(low: nat, masked: bool, b: Data)
    requires low < 128 && ReadLength(low, b).Length?
    ensures var form := if low == 126 then 3 else if low == 127 then 9 else 1;
            var l := ReadLength(low, b);
            && l.n < TWO64 && (form == 1 ==> l.n < 126) && (form == 3 ==> l.n < 0x1_0000)
            && LengthForm(form, l.n, masked) + l.rest == [((if masked then 128 else 0) + low) as byte] + b
  {
    Spans();
    var w := if low == 126 then 2 else if low == 127 then 8 else 0;
    BigCanonical(b[..w]);
    assert b == b[..w] + b[w..];
  }

  lemma ByteParts(b: byte, unit: nat)
    requires unit == 128 || unit == 16
    ensures unit == 128 ==> b == ((if b >= 128 then 128 else 0) + b as nat % 128) as byte
    ensures unit == 16 ==> b == ((if b >= 128 then 128 else 0) + 16 * (b as nat / 16 % 8) + b as nat % 16) as byte
  {
  }

  /** The first bytes of b are the head of f. */
  lemma HeadRead(b: Data, f: Wrapped, low: nat, after: Data)
    requires |b| >= 2 && Encodable(f) && First(f) == b[0]
    requires low == b[1] as nat % 128 && (f.key.Some? <==> b[1] >= 128)
    requires f.form == (if low == 126 then 3 else if low == 127 then 9 else 1)
    requires ReadLength(low, b[2..]) == Length(|f.p|, KeyBytes(f.key) + after)
    ensures b == Head(f) + after
  {
    hide First, KeyBytes, ReadLength, LengthForm;
    ByteParts(b[1], 128);
    LengthReadOnce(low, f.key.Some?, b[2..]);
    var l := LengthForm(f.form, |f.p|, f.key.Some?);
    assert [b[1]] + b[2..] == b[1..] && [b[0]] + b[1..] == b;
    Associate(l, KeyBytes(f.key), after);
    Associate([b[0]], l + KeyBytes(f.key), after);
  }

  /** The frame at the start of b; a close frame is read no further than its head. */
  function FrameAt(b: Data, n: nat, rest: Data, closing: bool): Wrapped
    requires |b| >= 2 && (b[1] >= 128 ==> |rest| >= 4)
    requires closing || n <= |if b[1] >= 128 then rest[4..] else rest|
  {
    var masked, low := b[1] >= 128, b[1] as nat % 128;
    var after := if masked then rest[4..] else rest;
    var body := if closing then Zeros(n) else after[..n];
    Wrapped(b[0] >= 128, b[0] as nat % 16, b[0] as nat / 16 % 8,
            if low == 126 then 3 else if low == 127 then 9 else 1,
            if masked then Masked(body, rest[..4]) else body,
            if masked then Some(rest[..4]) else None)
  }

  lemma FrameAtReads(b: Data, n: nat, rest: Data, closing: bool)
    requires |b| >= 2 && (b[1] >= 128 ==> |rest| >= 4)
    requires closing || n <= |if b[1] >= 128 then rest[4..] else rest|
    requires ReadLength(b[1] as nat % 128, b[2..]) == Length(n, rest)
    ensures var f, after := FrameAt(b, n, rest, closing), if b[1] >= 128 then rest[4..] else rest;
            && Encodable(f) && |f.p| == n && b == Head(f) + after
            && (!closing ==> b == Unwrapped(f) + after[n..])
  {
    hide ReadLength, Masked, LengthForm;
    var f, after := FrameAt(b, n, rest, closing), if b[1] >= 128 then rest[4..] else rest;
    LengthReadOnce(b[1] as nat % 128, b[1] >= 128, b[2..]);
    ByteParts(b[0], 16);
    assert rest == KeyBytes(f.key) + after;
    assert Encodable(f) && First(f) == b[0];
    hide First, Head;
    HeadRead(b, f, b[1] as nat % 128, after);
    if !closing {
      assert Body(f.p, f.key) == after[..n] by {
        if b[1] >= 128 {
          MaskUndone(after[..n], rest[..4]);
        }
      }
      assert after == after[..n] + after[n..];
      Associate(Head(f), after[..n], after[n..]);
    }
  }

  /** Whatever is not refused was a welcome frame, or the head of one that closes. */
  lemma TakenIsWelcome(server: bool, b: Data)
    requires !TakeFrame(server, b).Broken?
    ensures exists f ::
              Welcome(server, f)
              && if TakeFrame(server, b).Closing? then f.opcode == 8 && b == Head(f) + TakeFrame(server, b).rest
                 else Starts(f, b, TakeFrame(server, b).rest)
  {
    hide ReadLength, Masked, Unwrapped, Head;
    var t := TakeFrame(server, b);
    var l := ReadLength(b[1] as nat % 128, b[2..]);
    FrameAtReads(b, l.n, l.rest, t.Closing?);
    var f := FrameAt(b, l.n, l.rest, t.Closing?);
    assert Welcome(server, f);
    assert !t.Closing? ==> Starts(f, b, t.rest);
  }

  predicate PingPong(f: Wrapped) {
    f.opcode == 9 || f.opcode == 10
  }

  /** Bytes are served exactly when they are the payload of a whole welcome data frame, under its mask. */
  lemma ServedIff(server: bool, b: Data, p: Data, rest: Data)
    ensures TakeFrame(server, b) == Payload(p, rest)
            <==> exists f :: Welcome(server, f) && f.opcode != 8 && !PingPong(f) && f.p == p && Starts(f, b, rest)
  {
    hide TakeFrame, Unwrapped, Head;
    forall f | Welcome(server, f) && f.opcode != 8 && !PingPong(f) && f.p == p && Starts(f, b, rest)
      ensures TakeFrame(server, b) == Payload(p, rest)
    {
      WelcomeIsTaken(server, f, rest);
    }
    if TakeFrame(server, b) == Payload(p, rest) {
      TakenIsWelcome(server, b);
      var f :| Welcome(server, f) && Starts(f, b, rest);
      WelcomeIsTaken(server, f, rest);
    }
  }

  /** A frame is drained exactly when it is a whole ping or pong, masked or not, final or not. */
  lemma DrainedIff(server: bool, b: Data, rest: Data)
    ensures TakeFrame(server, b) == Skipped(rest)
            <==> exists f :: Welcome(server, f) && PingPong(f) && Starts(f, b, rest)
  {
    hide TakeFrame, Unwrapped, Head;
    forall f | Welcome(server, f) && PingPong(f) && Starts(f, b, rest)
      ensures TakeFrame(server, b) == Skipped(rest)
    {
      WelcomeIsTaken(server, f, rest);
    }
    if TakeFrame(server, b) == Skipped(rest) {
      TakenIsWelcome(server, b);
      var f :| Welcome(server, f) && Starts(f, b, rest);
      WelcomeIsTaken(server, f, rest);
    }
  }

  /** The stream ends exactly at the head of a close frame, whose payload is left unread. */
  lemma ClosedIff(server: bool, b: Data, rest: Data)
    ensures TakeFrame(server, b) == Closing(rest)
            <==> exists f :: Welcome(server, f) && f.opcode == 8 && b == Head(f) + rest
  {
    hide LengthForm, KeyBytes;
    forall f | Welcome(server, f) && f.opcode == 8 && b == Head(f) + rest
      ensures TakeFrame(server, b) == Closing(rest)
    {
      hide ReadLength, First;
      HeadSplits(f, rest);
      FirstByte(f);
      FormReadsBack(f.form, |f.p|, f.key.Some?, KeyBytes(f.key) + rest);
      KeySplits(f.key, rest);
    }
    if TakeFrame(server, b) == Closing(rest) {
      hide TakeFrame, Head;
      TakenIsWelcome(server, b);
    }
  }

  lemma KeySplits(key: Key, rest: Data)
    ensures key.Some? ==> |KeyBytes(key) + rest| >= 4 && (KeyBytes(key) + rest)[4..] == rest
    ensures key.None? ==> KeyBytes(key) + rest == rest
  {
  }

  /** A writer's frame is one the reader welcomes. */
  lemma FrameIsWelcome(opcode: nat, p: Data, key: Key)
    requires opcode < 16 && |p| < TWO64
    ensures var form := if |p| < 126 then 1 else if |p| <= 0xFFFF then 3 else 9;
            Encodable(Wrapped(true, opcode, 0, form, p, key))
            && FrameBytes(opcode, p, key) == Unwrapped(Wrapped(true, opcode, 0, form, p, key))
  {
    hide Body, KeyBytes;
    var l := LengthBytes(|p|, key.Some?);
    Associate(l, KeyBytes(key), Body(p, key));
    Associate([(128 + opcode) as byte], l + KeyBytes(key), Body(p, key));
  }

  /** A frame of either side reads back on the other, in all three length forms, leaving what follows. */
  lemma FrameReadsBack(server: bool, opcode: nat, p: Data, key: Key, rest: Data)
    requires opcode in {2, 9, 10} && |p| <= MAX_PAYLOAD && (server ==> key.Some?)
    ensures TakeFrame(server, FrameBytes(opcode, p, key) + rest)
            == if opcode == 2 then Payload(p, rest) else Skipped(rest)
  {
    hide TakeFrame, FrameBytes, Unwrapped;
    FrameIsWelcome(opcode, p, key);
    var form := if |p| < 126 then 1 else if |p| <= 0xFFFF then 3 else 9;
    WelcomeIsTaken(server, Wrapped(true, opcode, 0, form, p, key), rest);
  }

  // ---------------------------------------------------------------------------------------
  // The stream

  /** What crosses the wire in one direction: data frames, and pings or pongs anyone slips in. */
  datatype Item = Item(opcode: nat, p: Data, key: Key)

  predicate Honest(server: bool, i: Item) {
    i.opcode in {2, 9, 10} && |i.p| <= MAX_PAYLOAD && (server ==> i.key.Some?)
  }

  predicate AllHonest(server: bool, items: seq<Item>) {
    forall k :: 0 <= k < |items| ==> Honest(server, items[k])
  }

  function Wired(server: bool, items: seq<Item>): Data
    requires AllHonest(server, items)
  {
    if items == [] then [] else FrameBytes(items[0].opcode, items[0].p, items[0].key) + Wired(server, items[1..])
  }

  function Carried(items: seq<Item>): Data {
    if items == [] then [] else (if items[0].opcode == 2 then items[0].p else []) + Carried(items[1..])
  }

  /** Write: one frame per MiB, each under the next of the masks drawn. */
  function Cut(p: Data, keys: seq<Key>): seq<Item>
    decreases |p|
  {
    if p == [] || keys == [] then []
    else
      var n := if |p| > MAX_FRAME then MAX_FRAME else |p|;
      [Item(2, p[..n], keys[0])] + Cut(p[n..], keys[1..])
  }

  predicate EnoughKeys(server: bool, p: Data, keys: seq<Key>) {
    |keys| * MAX_FRAME >= |p| && forall k :: 0 <= k < |keys| ==> server ==> keys[k].Some?
  }

  lemma {:induction false} CutCarries(server: bool, p: Data, keys: seq<Key>)
    requires EnoughKeys(server, p, keys)
    ensures AllHonest(server, Cut(p, keys)) && Carried(Cut(p, keys)) == p
    decreases |p|
  {
    if p != [] {
      var n := if |p| > MAX_FRAME then MAX_FRAME else |p|;
      assert |keys| > 0;
      assert |keys[1..]| * MAX_FRAME == |keys| * MAX_FRAME - MAX_FRAME;
      CutCarries(server, p[n..], keys[1..]);
      var items := Cut(p, keys);
      assert items[1..] == Cut(p[n..], keys[1..]);
      assert p == p[..n] + p[n..];
    }
  }

  datatype Reader = Reader(pending: Data, net: Data)

  datatype Got = Got(data: Data) | Eof | Error

  function Serve(d: Data, rest: Data, max: nat): (Reader, Got) {
    (Reader(d[Min(max, |d|)..], rest), Got(d[..Min(max, |d|)]))
  }

  lemma SkipShrinks(server: bool, b: Data)
    ensures TakeFrame(server, b).Skipped? ==> |TakeFrame(server, b).rest| < |b|
  {
  }

  /** Read: pending bytes first, else frames until one carries data. */
  function ReadStep(server: bool, r: Reader, max: nat): (Reader, Got)
    decreases |r.net|
  {
    if r.pending != [] then Serve(r.pending, r.net, max)
    else
      match TakeFrame(server, r.net)
      case Payload(data, rest) => Serve(data, rest, max)
      case Skipped(rest) =>
        SkipShrinks(server, r.net);
        ReadStep(server, Reader([], rest), max)
      case Closing(rest) => (Reader([], rest), Eof)
      case Broken => (r, Error)
  }

  /** `items` is what is on the wire and not read yet. */
  datatype Link = Link(r: Reader, items: seq<Item>, written: Data, delivered: Data)

  datatype Event =
    | Write(p: Data, keys: seq<Key>)
    | Control(i: Item)              // a ping or pong
    | Read(max: nat)

  predicate HasData(items: seq<Item>) {
    exists k :: 0 <= k < |items| && items[k].opcode == 2
  }

  predicate Ready(server: bool, l: Link, ev: Event) {
    match ev
    case Write(p, keys) => EnoughKeys(server, p, keys)
    case Control(i) => Honest(server, i) && i.opcode != 2
    case Read(_) => l.r.pending != [] || HasData(l.items)
  }

  /** The items left once the first data frame is taken. */
  function Later(items: seq<Item>): seq<Item>
    requires HasData(items)
  {
    if items[0].opcode == 2 then items[1..]
    else
      assert HasData(items[1..]) by {
        var k :| 0 <= k < |items| && items[k].opcode == 2;
        assert items[1..][k - 1].opcode == 2;
      }
      Later(items[1..])
  }

  function After(server: bool, l: Link, ev: Event): Link
    requires Ready(server, l, ev)
  {
    match ev
    case Write(p, keys) =>
      CutCarries(server, p, keys);
      l.(r := l.r.(net := l.r.net + Wired(server, Cut(p, keys))), items := l.items + Cut(p, keys),
          written := l.written + p)
    case Control(i) =>
      l.(r := l.r.(net := l.r.net + FrameBytes(i.opcode, i.p, i.key)), items := l.items + [i])
    case Read(max) =>
      var (r, got) := ReadStep(server, l.r, max);
      l.(r := r, items := if l.r.pending != [] then l.items else Later(l.items),
         delivered := if got.Got? then l.delivered + got.data else l.delivered)
  }

  /** What was written is what was delivered, then what is pending, then what the wire still carries. */
  predicate Sound(server: bool, l: Link) {
    && AllHonest(server, l.items) && l.r.net == Wired(server, l.items)
    && l.written == l.delivered + l.r.pending + Carried(l.items)
  }

  lemma {:induction false} ItemsJoin(server: bool, a: seq<Item>, b: seq<Item>)
    requires AllHonest(server, a) && AllHonest(server, b)
    ensures AllHonest(server, a + b)
    ensures Wired(server, a + b) == Wired(server, a) + Wired(server, b)
    ensures Carried(a + b) == Carried(a) + Carried(b)
  {
    hide FrameBytes;
    if a == [] {
      assert a + b == b;
    } else {
      assert (a + b)[1..] == a[1..] + b;
      ItemsJoin(server, a[1..], b);
      Associate(FrameBytes(a[0].opcode, a[0].p, a[0].key), Wired(server, a[1..]), Wired(server, b));
      Associate(if a[0].opcode == 2 then a[0].p else [], Carried(a[1..]), Carried(b));
    }
  }

  /** A read with data on the wire takes the first data frame, past any control frames. */
  lemma {:induction false} ReadTakesData(server: bool, items: seq<Item>, max: nat)
    requires AllHonest(server, items) && HasData(items)
    ensures AllHonest(server, Later(items))
    ensures exists p :: Carried(items) == p + Carried(Later(items))
              && ReadStep(server, Reader([], Wired(server, items)), max) == Serve(p, Wired(server, Later(items)), max)
    decreases |items|
  {
    hide FrameBytes, TakeFrame;
    var i, rest := items[0], Wired(server, items[1..]);
    FrameReadsBack(server, i.opcode, i.p, i.key, rest);
    if i.opcode == 2 {
      assert Carried(items) == i.p + Carried(Later(items));
    } else {
      assert HasData(items[1..]) by {
        var k :| 0 <= k < |items| && items[k].opcode == 2;
        assert items[1..][k - 1].opcode == 2;
      }
      ReadTakesData(server, items[1..], max);
      var p :| Carried(items[1..]) == p + Carried(Later(items[1..]))
        && ReadStep(server, Reader([], rest), max) == Serve(p, Wired(server, Later(items[1..])), max);
      assert Carried(items) == p + Carried(Later(items)) by {
        assert [] + Carried(items[1..]) == Carried(items[1..]);
      }
    }
  }

  lemma ServeSplits(base: Data, d: Data, n: nat, later: Data)
    requires n <= |d|
    ensures base + d[..n] + d[n..] + later == base + d + later
    ensures base + [] + (d + later) == base + d + later
  {
    assert d == d[..n] + d[n..];
  }

  lemma WriteStays(server: bool, l: Link, p: Data, keys: seq<Key>)
    requires Sound(server, l) && Ready(server, l, Write(p, keys))
    ensures Sound(server, After(server, l, Write(p, keys)))
  {
    hide Wired, Carried, Cut;
    CutCarries(server, p, keys);
    ItemsJoin(server, l.items, Cut(p, keys));
    Associate(l.delivered + l.r.pending, Carried(l.items), p);
  }

  lemma ControlStays(server: bool, l: Link, i: Item)
    requires Sound(server, l) && Ready(server, l, Control(i))
    ensures Sound(server, After(server, l, Control(i)))
  {
    hide FrameBytes;
    ItemsJoin(server, l.items, [i]);
    assert FrameBytes(i.opcode, i.p, i.key) + [] == FrameBytes(i.opcode, i.p, i.key);
    assert Carried([i]) == [] + Carried([]);
    Associate(l.delivered + l.r.pending, Carried(l.items), []);
    assert Carried(l.items) + [] == Carried(l.items);
  }

  lemma ReadStays(server: bool, l: Link, max: nat)
    requires Sound(server, l) && Ready(server, l, Read(max))
    ensures Sound(server, After(server, l, Read(max)))
  {
    hide Wired, Carried, TakeFrame, Later;
    if l.r.pending != [] {
      ServeSplits(l.delivered, l.r.pending, Min(max, |l.r.pending|), Carried(l.items));
    } else {
      ReadTakesData(server, l.items, max);
      var later := Later(l.items);
      var p :| Carried(l.items) == p + Carried(later)
        && ReadStep(server, Reader([], Wired(server, l.items)), max) == Serve(p, Wired(server, later), max);
      assert l.r == Reader([], Wired(server, l.items));
      ServeSplits(l.delivered, p, Min(max, |p|), Carried(later));
    }
  }

  /** A read waits for data: until there is some it does not happen. */
  function Next(server: bool, l: Link, ev: Event): Link {
    if Ready(server, l, ev) then After(server, l, ev) else l
  }

  function Run(server: bool, l: Link, evs: seq<Event>): Link
    decreases |evs|
  {
    if evs == [] then l else Run(server, Next(server, l, evs[0]), evs[1..])
  }

  /** What a write hands in, masks permitting. */
  function GivenBy(server: bool, ev: Event): Data {
    if ev.Write? && EnoughKeys(server, ev.p, ev.keys) then ev.p else []
  }

  function Given(server: bool, evs: seq<Event>): Data {
    if evs == [] then [] else GivenBy(server, evs[0]) + Given(server, evs[1..])
  }

  lemma NextStays(server: bool, l: Link, ev: Event)
    requires Sound(server, l)
    ensures Sound(server, Next(server, l, ev)) && Next(server, l, ev).written == l.written + GivenBy(server, ev)
  {
    hide Sound, ReadStep, Cut, EnoughKeys;
    if Ready(server, l, ev) {
      match ev {
        case Write(p, keys) => WriteStays(server, l, p, keys);
        case Control(i) => ControlStays(server, l, i);
        case Read(max) => ReadStays(server, l, max);
      }
    }
    assert l.written + [] == l.written;
  }

  lemma {:induction false} RunsStaySound(server: bool, l: Link, evs: seq<Event>)
    requires Sound(server, l)
    ensures Sound(server, Run(server, l, evs)) && Run(server, l, evs).written == l.written + Given(server, evs)
    decreases |evs|
  {
    hide Sound, Next, GivenBy;
    if evs == [] {
      assert l.written + [] == l.written;
    } else {
      NextStays(server, l, evs[0]);
      RunsStaySound(server, Next(server, l, evs[0]), evs[1..]);
      Associate(l.written, GivenBy(server, evs[0]), Given(server, evs[1..]));
    }
  }

  /** Any masked or unmasked writes, of any size, read in any sizes with control frames in between, give
      back a prefix of the bytes written, and all of them once no data is waiting. */
  lemma StreamIsFaithful(server: bool, evs: seq<Event>)
    ensures var l := Run(server, Link(Reader([], []), [], [], []), evs);
            && l.delivered <= Given(server, evs)
            && (l.r.pending == [] && !HasData(l.items) ==> l.delivered == Given(server, evs))
  {
    var start := Link(Reader([], []), [], [], []);
    assert Sound(server, start);
    RunsStaySound(server, start, evs);
    var l := Run(server, start, evs);
    assert [] + Given(server, evs) == Given(server, evs);
    Associate(l.delivered, l.r.pending, Carried(l.items));
    if !HasData(l.items) {
      NothingCarried(l.items);
    }
  }

  lemma {:induction false} NothingCarried(items: seq<Item>)
    requires !HasData(items)
    ensures Carried(items) == []
  {
    if items != [] {
      assert items[0].opcode != 2;
      assert forall k :: 0 <= k < |items[1..]| ==> items[1..][k] == items[k + 1];
      NothingCarried(items[1..]);
    }
  }

  // ---------------------------------------------------------------------------------------
  // The connection

  class WsConn {
    const server: bool
    var pending: Data
    var eof: bool
    var net: Data
    var wire: Data

    constructor (server: bool)
      ensures this.server == server && pending == [] && !eof && net == [] && wire == []
    {
      this.server := server;
      pending, eof, net, wire := [], false, [], [];
    }

    /** Masks a copy in place. */
    method MaskInPlace(out: array<byte>, mask: Mask)
      modifies out
      ensures out[..] == Masked(old(out[..]), mask)
    {
      var i := 0;
      while i < out.Length
        invariant 0 <= i <= out.Length
        invariant forall k :: 0 <= k < i ==> out[k] == Xor(old(out[k]), mask[k % 4])
        invariant forall k :: i <= k < out.Length ==> out[k] == old(out[k])
      {
        out[i] := Xor(out[i], mask[i % 4]);
        i := i + 1;
      }
    }

    method WriteFrame(p: Data, key: Key)
      requires |p| < TWO64 && key.Some? == !server
      modifies this`wire
      ensures wire == old(wire) + FrameBytes(2, p, key)
    {
      var hdr: Data := [0x82] + LengthBytes(|p|, key.Some?);
      var out := p;
      if key.Some? {
        hdr := hdr + key.value;
        var copy := new byte[|p|](i requires 0 <= i < |p| => p[i]);
        assert copy[..] == p;
        MaskInPlace(copy, key.value);
        out := copy[..];
      } else {
        assert hdr + [] == hdr;
      }
      wire := wire + hdr;
      wire := wire + out;
    }

    /** One frame per MiB of p, each under the next mask drawn. */
    method Write(p: Data, keys: seq<Key>)
      requires EnoughKeys(!server, p, keys) && forall k :: 0 <= k < |keys| ==> keys[k].Some? == !server
      modifies this`wire
      ensures AllHonest(!server, Cut(p, keys)) && wire == old(wire) + Wired(!server, Cut(p, keys))
    {
      hide FrameBytes;
      CutCarries(!server, p, keys);
      var rest, k := p, 0;
      assert keys[0..] == keys;
      while rest != []
        invariant 0 <= k <= |keys| && EnoughKeys(!server, rest, keys[k..])
        invariant AllHonest(!server, Cut(rest, keys[k..]))
        invariant wire + Wired(!server, Cut(rest, keys[k..])) == old(wire) + Wired(!server, Cut(p, keys))
        decreases |rest|
      {
        assert |keys[k..]| > 0;
        var n := if |rest| > MAX_FRAME then MAX_FRAME else |rest|;
        assert keys[k..][1..] == keys[k + 1..];
        assert |keys[k + 1..]| * MAX_FRAME == |keys[k..]| * MAX_FRAME - MAX_FRAME;
        CutCarries(!server, rest[n..], keys[k + 1..]);
        OneMoreFrame(!server, wire, rest, keys[k..]);
        WriteFrame(rest[..n], keys[k]);
        rest := rest[n..];
        k := k + 1;
      }
      assert wire + [] == wire;
    }

    /** Pending bytes first; after a close frame nothing but the end of the stream. */
    method Read(max: nat) returns (got: Got)
      modifies this`pending, this`eof, this`net
      ensures old(pending) == [] && old(eof) ==> got == Eof && pending == [] && eof && net == old(net)
      ensures old(pending) != [] || !old(eof) ==>
                && got == ReadStep(server, old(Reader(pending, net)), max).1
                && (got.Got? ==> Reader(pending, net) == ReadStep(server, old(Reader(pending, net)), max).0)
                && (eof <==> old(eof) || got.Eof?)
    {
      hide TakeFrame;
      if pending != [] {
        var n := Min(max, |pending|);
        got := Got(pending[..n]);
        pending := pending[n..];
        return;
      }
      if eof {
        return Eof;
      }
      while true
        invariant pending == [] && !eof
        invariant ReadStep(server, Reader([], net), max).1 == ReadStep(server, old(Reader(pending, net)), max).1
        invariant ReadStep(server, Reader([], net), max).1.Got? ==>
                    ReadStep(server, Reader([], net), max) == ReadStep(server, old(Reader(pending, net)), max)
        decreases |net|
      {
        match TakeFrame(server, net) {
          case Broken => return Error;
          case Closing(rest) =>
            net := rest;
            eof := true;
            return Eof;
          case Skipped(rest) =>
            SkipShrinks(server, net);
            net := rest;
          case Payload(data, rest) =>
            net := rest;
            var n := Min(max, |data|);
            pending := data[n..];
            return Got(data[..n]);
        }
      }
    }
  }

  lemma OneMoreFrame(server: bool, wire: Data, p: Data, keys: seq<Key>)
    requires p != [] && keys != [] && AllHonest(server, Cut(p, keys))
    ensures var n := if |p| > MAX_FRAME then MAX_FRAME else |p|;
            && AllHonest(server, Cut(p[n..], keys[1..]))
            && wire + Wired(server, Cut(p, keys))
                == wire + FrameBytes(2, p[..n], keys[0]) + Wired(server, Cut(p[n..], keys[1..]))
  {
    hide FrameBytes;
    var n := if |p| > MAX_FRAME then MAX_FRAME else |p|;
    var items := Cut(p, keys);
    assert items[1..] == Cut(p[n..], keys[1..]) && items[0] == Item(2, p[..n], keys[0]);
    Associate(wire, FrameBytes(2, p[..n], keys[0]), Wired(server, items[1..]));
  }
}
