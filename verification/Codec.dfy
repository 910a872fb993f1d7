// The primitives of the message codecs: a byte cursor that remembers its first failure,
// and the buffer the encoders append to.

module Codec {
  import opened Bytes
  import opened Varints
  import opened Wire

  type Uint8 = x: nat | x < 256
  type Uint32 = x: nat | x < TWO32

  /** A string or byte slice: its length fits the varint in front of it. */
  type Blob = d: Data | |d| < TWO64

  datatype Dec = Dec(b: Data, err: bool)

  function Fail(d: Dec): Dec {
    d.(err := true)
  }

  /** n little-endian bytes; zero once anything has failed. */
  function Fixed(d: Dec, n: nat): (r: (nat, Dec))
    ensures r.0 < Span(n) && |r.1.b| <= |d.b|
  {
    if d.err then (0, d)
    else if |d.b| < n then (0, Fail(d))
    else
      LittleCanonical(d.b[..n]);
      (LittleValue(d.b[..n]), Dec(d.b[n..], false))
  }

  function U8(d: Dec): (r: (Uint8, Dec))
    ensures |r.1.b| <= |d.b|
  {
    Spans();
    Fixed(d, 1)
  }

  function U32(d: Dec): (r: (Uint32, Dec))
    ensures |r.1.b| <= |d.b|
  {
    Spans();
    Fixed(d, 4)
  }

  function U64(d: Dec): (r: (Uint64, Dec))
    ensures |r.1.b| <= |d.b|
  {
    Spans();
    Fixed(d, 8)
  }

  function Uv(d: Dec): (r: (Uint64, Dec))
    ensures |r.1.b| <= |d.b|
  {
    if d.err then (0, d)
    else
      match ReadUv(d.b, 0)
      case None => (0, Fail(d))
      case Some((v, n)) =>
        ReadUvFits(d.b, 0);
        (v, Dec(d.b[n..], false))
  }

  function Sv(d: Dec): (r: (Int64, Dec))
    ensures |r.1.b| <= |d.b|
  {
    if d.err then (0, d)
    else
      var (u, e) := Uv(d);
      if e.err then (0, e) else (Zag(u), e)
  }

  function Chars(d: Dec): (r: (Blob, Dec))
    ensures |r.1.b| <= |d.b|
  {
    if d.err then ([], d)
    else
      var (n, e) := Uv(d);
      if |e.b| < n then ([], Fail(e)) else (e.b[..n], Dec(e.b[n..], e.err))
  }

  function PutChars(s: Blob): Data {
    PutUv(|s|) + s
  }

  // ---------------------------------------------------------------------------------------
  // Each primitive reads back what was put, and refuses every strict prefix of it

  lemma FixedRound(v: nat, n: nat, rest: Data)
    requires v < Span(n)
    ensures Fixed(Dec(LittleEndian(v, n) + rest, false), n) == (v, Dec(rest, false))
  {
    LittleRoundTrip(v, n);
    var b := LittleEndian(v, n) + rest;
    assert b[..n] == LittleEndian(v, n) && b[n..] == rest;
  }

  lemma UvRound(v: Uint64, rest: Data)
    ensures Uv(Dec(PutUv(v) + rest, false)) == (v, Dec(rest, false))
  {
    UvRoundTrip(v, rest);
    assert (PutUv(v) + rest)[|PutUv(v)|..] == rest;
  }

  lemma UvShort(v: nat, p: Data)
    requires p < PutUv(v)
    ensures Uv(Dec(p, false)).1.err
  {
    PrefixUnread(v, 0, p);
  }

  lemma SvRound(x: Int64, rest: Data)
    ensures Sv(Dec(PutUv(Zig(x)) + rest, false)) == (x, Dec(rest, false))
  {
    ZigZag(x, 0);
    UvRound(Zig(x), rest);
  }

  lemma SvShort(x: Int64, p: Data)
    requires p < PutUv(Zig(x))
    ensures Sv(Dec(p, false)).1.err
  {
    UvShort(Zig(x), p);
  }

  /** A strict prefix of a + b stops inside a, or is a and a strict prefix of b. */
  lemma SplitPrefix(p: Data, a: Data, b: Data)
    requires p < a + b
    ensures p < a || (|a| <= |p| && p == a + p[|a|..] && p[|a|..] < b)
  {
    if |p| >= |a| {
      assert (a + b)[|a|..] == b;
    }
  }

  lemma CharsRound(s: Blob, rest: Data)
    ensures Chars(Dec(PutChars(s) + rest, false)) == (s, Dec(rest, false))
  {
    Associate(PutUv(|s|), s, rest);
    UvRound(|s|, s + rest);
    assert (s + rest)[..|s|] == s && (s + rest)[|s|..] == rest;
  }

  lemma CharsShort(s: Blob, p: Data)
    requires p < PutChars(s)
    ensures Chars(Dec(p, false)).1.err
  {
    SplitPrefix(p, PutUv(|s|), s);
    if p < PutUv(|s|) {
      UvShort(|s|, p);
    } else {
      UvRound(|s|, p[|PutUv(|s|)|..]);
    }
  }

  // ---------------------------------------------------------------------------------------
  // The buffers

  class Encoder {
    var b: Data

    constructor ()
      ensures b == []
    {
      b := [];
    }

    method AddFixed(v: nat, n: nat)
      modifies this
      ensures b == old(b) + LittleEndian(v, n)
    {
      b := b + LittleEndian(v, n);
    }

    method AddUv(v: Uint64)
      modifies this
      ensures b == old(b) + PutUv(v)
    {
      b := AppendUvarint(b, v);
    }

    method AddSv(x: Int64)
      modifies this
      ensures b == old(b) + PutUv(Zig(x))
    {
      ZigZag(x, 0);
      b := AppendUvarint(b, Zig(x));
    }

    method AddChars(s: Blob)
      modifies this
      ensures b == old(b) + PutChars(s)
    {
      Associate(b, PutUv(|s|), s);
      b := AppendUvarint(b, |s|);
      b := b + s;
    }
  }

  class Decoder {
    var b: Data
    var err: bool

    function View(): Dec
      reads this
    {
      Dec(b, err)
    }

    constructor (p: Data)
      ensures View() == Dec(p, false)
    {
      b, err := p, false;
    }

    method TakeFixed(n: nat) returns (v: nat)
      modifies this
      ensures (v, View()) == Fixed(old(View()), n)
    {
      if err {
        return 0;
      }
      if |b| < n {
        err := true;
        return 0;
      }
      v := LittleValue(b[..n]);
      b := b[n..];
    }

    method TakeUv() returns (v: Uint64)
      modifies this
      ensures (v, View()) == Uv(old(View()))
    {
      if err {
        return 0;
      }
      var x, n := Uvarint(b);
      if n <= 0 {
        err := true;
        return 0;
      }
      ReadUvFits(b, 0);
      b := b[n..];
      return x;
    }

    method TakeSv() returns (v: Int64)
      modifies this
      ensures (v, View()) == Sv(old(View()))
    {
      if err {
        return 0;
      }
      var x, n := Uvarint(b);
      if n <= 0 {
        err := true;
        return 0;
      }
      ReadUvFits(b, 0);
      ZigZag(0, x);
      b := b[n..];
      return Zag(x);
    }

    method TakeChars() returns (s: Blob)
      modifies this
      ensures (s, View()) == Chars(old(View()))
    {
      if err {
        return [];
      }
      var n := TakeUv();
      if |b| < n {
        err := true;
        return [];
      }
      s := b[..n];
      b := b[n..];
    }
  }
}
