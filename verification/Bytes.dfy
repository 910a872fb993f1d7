// Byte strings: the zero test, torn writes, and the
// few facts about concatenation the other modules share.

module Bytes {
  newtype byte = x: int | 0 <= x < 256

  type Data = seq<byte>

  datatype Option<+T> = None | Some(value: T)

  predicate AllZero(b: Data) {
    forall k :: 0 <= k < |b| ==> b[k] == 0
  }

  function Zeros(n: nat): (z: Data)
    ensures |z| == n && AllZero(z)
  {
    seq(n, _ => 0)
  }

  lemma ZerosUnique(a: Data, b: Data)
    requires AllZero(a) && AllZero(b) && |a| == |b|
    ensures a == b
  {
  }

  /** The zero scan: a stride of eight bytes, then the tail byte by byte. */
  method ScanZero(b: Data) returns (zero: bool)
    ensures zero <==> AllZero(b)
  {
    if |b| == 0 {
      return true;
    }
    var i := 0;
    while i + 8 <= |b|
      invariant 0 <= i <= |b|
      invariant AllZero(b[..i])
    {
      if b[i] != 0 || b[i+1] != 0 || b[i+2] != 0 || b[i+3] != 0
         || b[i+4] != 0 || b[i+5] != 0 || b[i+6] != 0 || b[i+7] != 0 {
        return false;
      }
      i := i + 8;
    }
    while i < |b|
      invariant 0 <= i <= |b|
      invariant AllZero(b[..i])
    {
      if b[i] != 0 {
        return false;
      }
      i := i + 1;
    }
    assert b[..i] == b;
    return true;
  }

  /** A write of `data` over `under` that stops after `n` bytes. */
  function Torn(data: Data, under: Data, n: nat): (t: Data)
    requires |data| == |under| && n <= |data|
    ensures |t| == |under|
    ensures data == under ==> t == under
  {
    data[..n] + under[n..]
  }

  function Min(a: nat, b: nat): nat {
    if a < b then a else b
  }

  lemma Associate(a: Data, b: Data, c: Data)
    ensures (a + b) + c == a + (b + c)
  {
  }
}
