// Packed bitmaps, least significant bit first, as both sides of a transfer keep them.

module Bitmaps {
  type Bitmap = seq<bv8>

  function Mask(k: nat): bv8
    requires k < 8
  {
    match k
    case 0 => 1
    case 1 => 2
    case 2 => 4
    case 3 => 8
    case 4 => 16
    case 5 => 32
    case 6 => 64
    case 7 => 128
  }

  predicate Has(x: bv8, k: nat)
    requires k < 8
  {
    x & Mask(k) != 0
  }

  function With(x: bv8, k: nat): bv8
    requires k < 8
  {
    x | Mask(k)
  }

  function Without(x: bv8, k: nat): bv8
    requires k < 8
  {
    x & !Mask(k)
  }

  /** bitTest: a bit beyond the end reads as clear. */
  predicate Bit(b: Bitmap, i: int) {
    0 <= i && i / 8 < |b| && Has(b[i / 8], i % 8)
  }

  /** The first n bits as a sequence. */
  function Bits(b: Bitmap, n: nat): (s: seq<bool>)
    ensures |s| == n
    ensures forall i :: 0 <= i < n ==> s[i] == Bit(b, i)
  {
    seq(n, i requires 0 <= i => Bit(b, i))
  }

  /** How many of the first n bits are set. */
  function Count(s: seq<bool>): (c: nat)
    ensures c <= |s|
  {
    if s == [] then 0 else Count(s[..|s|-1]) + if s[|s|-1] then 1 else 0
  }

  function SetBit(b: Bitmap, i: nat): (r: Bitmap)
    requires i / 8 < |b|
    ensures |r| == |b|
  {
    b[i / 8 := With(b[i / 8], i % 8)]
  }

  function ClearBit(b: Bitmap, i: nat): (r: Bitmap)
    ensures |r| == |b|
  {
    if i / 8 < |b| then b[i / 8 := Without(b[i / 8], i % 8)] else b
  }

  lemma WithBits(x: bv8, a: nat, c: nat)
    requires a < 8 && c < 8
    ensures Has(With(x, a), c) <==> a == c || Has(x, c)
  {
  }

  lemma WithoutBits(x: bv8, a: nat, c: nat)
    requires a < 8 && c < 8
    ensures Has(Without(x, a), c) <==> a != c && Has(x, c)
  {
  }

  /** Setting or clearing a bit changes that bit and no other. */
  lemma BitUpdates(b: Bitmap, i: nat, j: nat)
    requires i / 8 < |b|
    ensures Bit(SetBit(b, i), j) <==> i == j || Bit(b, j)
    ensures Bit(ClearBit(b, i), j) <==> i != j && Bit(b, j)
  {
    var q, k := i / 8, i % 8;
    if q == j / 8 {
      WithBits(b[q], k, j % 8);
      WithoutBits(b[q], k, j % 8);
      assert i == j <==> k == j % 8;
    }
  }

  lemma BitsUpdates(b: Bitmap, i: nat, n: nat)
    requires i / 8 < |b|
    ensures i < n ==> Bits(SetBit(b, i), n) == Bits(b, n)[i := true]
    ensures i < n ==> Bits(ClearBit(b, i), n) == Bits(b, n)[i := false]
    ensures i >= n ==> Bits(SetBit(b, i), n) == Bits(b, n) == Bits(ClearBit(b, i), n)
  {
    forall j: nat | j < n
      ensures Bit(SetBit(b, i), j) <==> i == j || Bit(b, j)
      ensures Bit(ClearBit(b, i), j) <==> i != j && Bit(b, j)
    {
      BitUpdates(b, i, j);
    }
  }

  lemma {:induction false} CountUpdate(s: seq<bool>, i: nat, v: bool)
    requires i < |s|
    ensures Count(s[i := v]) == Count(s) + (if v then 1 else 0) - (if s[i] then 1 else 0)
  {
    var n := |s| - 1;
    if i == n {
      assert s[i := v][..n] == s[..n];
    } else {
      assert s[i := v][..n] == s[..n][i := v];
      CountUpdate(s[..n], i, v);
    }
  }

  lemma {:induction false} CountPrefix(s: seq<bool>, i: nat)
    requires i < |s|
    ensures Count(s[..i + 1]) == Count(s[..i]) + if s[i] then 1 else 0
  {
    assert s[..i + 1][..i] == s[..i];
  }

  /** The count reaches the length exactly when every bit is set. */
  lemma {:induction false} CountFull(s: seq<bool>)
    ensures Count(s) == |s| <==> forall i :: 0 <= i < |s| ==> s[i]
  {
    if s != [] {
      var n := |s| - 1;
      CountFull(s[..n]);
      if forall i :: 0 <= i < n ==> s[..n][i] {
        assert forall i :: 0 <= i < n ==> s[i];
      } else {
        var i :| 0 <= i < n && !s[..n][i];
        assert !s[i];
      }
    }
  }

  lemma {:induction false} CountMonotone(s: seq<bool>, a: nat, b: nat)
    requires a <= b <= |s|
    ensures Count(s[..a]) <= Count(s[..b])
    decreases b
  {
    if a < b {
      CountMonotone(s, a, b - 1);
      CountPrefix(s, b - 1);
    }
  }

  lemma {:induction false} CountNone(s: seq<bool>)
    ensures Count(s) == 0 <==> forall i :: 0 <= i < |s| ==> !s[i]
  {
    if s != [] {
      var n := |s| - 1;
      CountNone(s[..n]);
      if forall i :: 0 <= i < n ==> !s[..n][i] {
        assert forall i :: 0 <= i < n ==> !s[i];
      } else {
        var i :| 0 <= i < n && s[..n][i];
        assert s[i];
      }
    }
  }

  /** popcount8: clear the lowest set bit until none is left. */
  method PopCount8(b: bv8) returns (n: nat)
    ensures n == Count(Bits([b], 8))
  {
    var x := b;
    n := 0;
    while x != 0
      invariant n + Count(Bits([x], 8)) == Count(Bits([b], 8))
      decreases x
    {
      DropLowest(x);
      x := x & (x - 1);
      n := n + 1;
    }
    CountNone(Bits([x], 8));
    assert forall k :: 0 <= k < 8 ==> !Bit([x], k);
  }

  lemma DropLowest(x: bv8)
    requires x != 0
    ensures x & (x - 1) < x
    ensures Count(Bits([x], 8)) == Count(Bits([x & (x - 1)], 8)) + 1
  {
    var y := x & (x - 1);
    var k: nat := if x & 1 != 0 then 0 else if x & 2 != 0 then 1 else if x & 4 != 0 then 2
      else if x & 8 != 0 then 3 else if x & 16 != 0 then 4 else if x & 32 != 0 then 5
      else if x & 64 != 0 then 6 else 7;
    assert Has(x, k) && y == Without(x, k);
    BitsUpdates([x], k, 8);
    assert ClearBit([x], k) == [y];
    CountUpdate(Bits([x], 8), k, false);
  }
}
