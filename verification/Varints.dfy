// 64-bit unsigned and zigzag varints: LEB128 (section 7.6 of DWARF 5) with Go's overflow rule.

module Varints {
  import opened Bytes
  import opened Wire

  const MAX_LEN: nat := 10

  type Uint64 = x: nat | x < TWO64
  type Int64 = x: int | -0x8000_0000_0000_0000 <= x < 0x8000_0000_0000_0000

  /** Seven bits a byte, least significant first, the top bit set on all but the last. */
  function PutUv(v: nat): (d: Data)
    ensures d != []
  {
    if v < 128 then [v as byte] else [(v % 128 + 128) as byte] + PutUv(v / 128)
  }

  /** Reads a varint of which i bytes have been read: its remaining value and length. The tenth byte
      may only add one bit, and there is no eleventh. */
  function ReadUv(b: Data, i: nat): Option<(nat, nat)>
    decreases |b|
  {
    if b == [] || i >= MAX_LEN then None
    else if b[0] < 128 then
      if i == MAX_LEN - 1 && b[0] > 1 then None else Some((b[0] as nat, 1))
    else
      match ReadUv(b[1..], i + 1)
      case None => None
      case Some((v, n)) => Some((b[0] as nat - 128 + 128 * v, n + 1))
  }

  /** What fits in the bits left after i bytes. */
  function Limit(i: nat): (r: nat)
    ensures r >= 1
    decreases MAX_LEN - i
  {
    if i >= MAX_LEN then 1 else if i == MAX_LEN - 1 then 2 else 128 * Limit(i + 1)
  }

  /** Every accepted value fits 64 bits, and so needs no truncation. */
  lemma {:induction false} ReadUvFits(b: Data, i: nat)
    requires i < MAX_LEN && ReadUv(b, i).Some?
    ensures var (v, n) := ReadUv(b, i).value;
            v < Limit(i) && 0 < n <= |b| && n <= MAX_LEN - i
    decreases |b|
  {
    if b[0] >= 128 {
      ReadUvFits(b[1..], i + 1);
    }
  }

  lemma {:induction false} ReadBack(v: nat, i: nat, rest: Data)
    requires i < MAX_LEN && v < Limit(i)
    ensures ReadUv(PutUv(v) + rest, i) == Some((v, |PutUv(v)|))
    decreases v
  {
    var d := PutUv(v) + rest;
    if v >= 128 {
      assert d[1..] == PutUv(v / 128) + rest;
      ReadBack(v / 128, i + 1, rest);
    }
  }

  lemma {:induction false} PrefixUnread(v: nat, i: nat, p: Data)
    requires p < PutUv(v)
    ensures ReadUv(p, i).None?
    decreases v
  {
    if p != [] {
      assert PutUv(v)[1..] == PutUv(v / 128);
      assert p[1..] < PutUv(v / 128);
      PrefixUnread(v / 128, i + 1, p[1..]);
    }
  }

  /** A 64-bit value reads back from its encoding whatever follows, at its exact length. */
  lemma UvRoundTrip(v: Uint64, rest: Data)
    ensures ReadUv(PutUv(v) + rest, 0) == Some((v, |PutUv(v)|))
    ensures |PutUv(v)| <= MAX_LEN
  {
    ReadBack(v, 0, rest);
    ReadUvFits(PutUv(v) + rest, 0);
  }

  /** Reading is not injective: what is read of a whole string is its canonical form exactly when the string
      does not end in a zero byte it could do without. */
  lemma {:induction false} CanonicalIffNoPadding(d: Data, i: nat)
    requires i < MAX_LEN && ReadUv(d, i).Some? && ReadUv(d, i).value.1 == |d|
    ensures d == PutUv(ReadUv(d, i).value.0) <==> |d| == 1 || d[|d| - 1] != 0
    decreases |d|
  {
    ReadUvFits(d, i);
    if d[0] >= 128 {
      var rest, w := d[1..], ReadUv(d[1..], i + 1).value.0;
      ReadUvFits(rest, i + 1);
      CanonicalIffNoPadding(rest, i + 1);
      assert rest[|rest| - 1] == d[|d| - 1] && d == [d[0]] + rest;
      if w > 0 {
        LongForm(d[0], w);
      } else {
        ZeroEndsInZero(rest, i + 1);
      }
    }
  }

  lemma LongForm(b: byte, w: nat)
    requires b >= 128 && w > 0
    ensures PutUv(b as nat - 128 + 128 * w) == [b] + PutUv(w)
  {
    var v := b as nat - 128 + 128 * w;
    assert v / 128 == w && v % 128 == b as nat - 128;
  }

  lemma {:induction false} ZeroEndsInZero(d: Data, i: nat)
    requires i < MAX_LEN && ReadUv(d, i) == Some((0, |d|))
    ensures d[|d| - 1] == 0
    decreases |d|
  {
    if d[0] >= 128 {
      ReadUvFits(d[1..], i + 1);
      ZeroEndsInZero(d[1..], i + 1);
    }
  }

  /** The canonical form with one needless zero byte. */
  function Padded(d: Data): Data
    requires d != [] && d[|d| - 1] < 128
  {
    d[..|d| - 1] + [d[|d| - 1] + 128, 0]
  }

  lemma {:induction false} LastByteIsLow(v: nat)
    ensures PutUv(v)[|PutUv(v)| - 1] < 128
  {
    if v >= 128 {
      LastByteIsLow(v / 128);
    }
  }

  /** And every value with room for it has such a longer form, which is accepted. */
  lemma {:induction false} LongFormAccepted(v: nat, i: nat)
    requires i + |PutUv(v)| < MAX_LEN
    ensures PutUv(v)[|PutUv(v)| - 1] < 128 && ReadUv(Padded(PutUv(v)), i) == Some((v, |PutUv(v)| + 1))
    decreases v
  {
    LastByteIsLow(v);
    var d := PutUv(v);
    if v < 128 {
      assert Padded(d) == [(v + 128) as byte, 0];
      assert Padded(d)[1..] == [0];
    } else {
      var e := PutUv(v / 128);
      LongFormAccepted(v / 128, i + 1);
      assert d[1..] == e && d[|d| - 1] == e[|e| - 1];
      assert Padded(d) == [d[0]] + Padded(e);
      assert Padded(d)[1..] == Padded(e);
    }
  }

  /** Sign in the low bit. */
  function Zig(x: int): nat {
    if x >= 0 then 2 * x else -2 * x - 1
  }

  function Zag(u: nat): int {
    if u % 2 == 0 then u / 2 else -(u / 2) - 1
  }

  lemma ZigZag(x: Int64, u: Uint64)
    ensures Zig(x) < TWO64 && Zag(Zig(x)) == x
    ensures -0x8000_0000_0000_0000 <= Zag(u) < 0x8000_0000_0000_0000 && Zig(Zag(u)) == u
  {
  }

  // ---------------------------------------------------------------------------------------
  // The loops

  method AppendUvarint(buf: Data, v: Uint64) returns (r: Data)
    ensures r == buf + PutUv(v)
  {
    var x: nat := v;
    r := buf;
    while x >= 128
      invariant r + PutUv(x) == buf + PutUv(v)
      decreases x
    {
      assert r + PutUv(x) == (r + [(x % 128 + 128) as byte]) + PutUv(x / 128);
      r := r + [(x % 128 + 128) as byte];
      x := x / 128;
    }
    r := r + [x as byte];
  }

  function Shifted(x: nat, scale: nat, i: nat, tail: Option<(nat, nat)>): Option<(nat, nat)> {
    match tail
    case None => None
    case Some((v, n)) => Some((x + scale * v, i + n))
  }

  lemma ShiftStep(x: nat, scale: nat, low: nat, v: nat)
    ensures x + scale * (low + 128 * v) == (x + scale * low) + (scale * 128) * v
  {
  }

  /** n is the number of bytes read, or not positive when there is no varint. */
  method Uvarint(buf: Data) returns (x: nat, n: int)
    ensures n > 0 <==> ReadUv(buf, 0).Some?
    ensures n > 0 ==> ReadUv(buf, 0) == Some((x, n))
  {
    x, n := 0, 0;
    var i: nat, scale: nat := 0, 1;
    assert buf[0..] == buf;
    while i < |buf|
      invariant i <= |buf| && i <= MAX_LEN
      invariant ReadUv(buf, 0) == Shifted(x, scale, i, ReadUv(buf[i..], i))
    {
      if i == MAX_LEN {
        return 0, -(i + 1);
      }
      var b := buf[i];
      if b < 128 {
        if i == MAX_LEN - 1 && b > 1 {
          return 0, -(i + 1);
        }
        return x + scale * b as nat, i + 1;
      }
      var low := b as nat - 128;
      assert buf[i..][1..] == buf[i + 1..];
      if ReadUv(buf[i + 1..], i + 1).Some? {
        ShiftStep(x, scale, low, ReadUv(buf[i + 1..], i + 1).value.0);
      }
      x := x + scale * low;
      scale := scale * 128;
      i := i + 1;
    }
    return 0, 0;
  }
}
