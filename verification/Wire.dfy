// Fixed-width integers on the wire,
// most or least significant byte first.

module Wire {
  import opened Bytes

  const TWO32: nat := 0x1_0000_0000
  const TWO64: nat := 0x1_0000_0000_0000_0000

  /** How many values n bytes can hold. */
  function Span(n: nat): (r: nat)
    ensures r > 0
  {
    if n == 0 then 1 else 256 * Span(n - 1)
  }

  lemma Spans()
    ensures Span(1) == 256 && Span(2) == 65536 && Span(4) == TWO32 && Span(8) == TWO64
  {
    assert Span(2) == 256 * Span(1);
    assert Span(3) == 256 * Span(2);
    assert Span(4) == 256 * Span(3);
    assert Span(5) == 256 * Span(4);
    assert Span(6) == 256 * Span(5);
    assert Span(7) == 256 * Span(6);
    assert Span(8) == 256 * Span(7);
  }

  /** The low n bytes of v, least significant first. */
  function LittleEndian(v: nat, n: nat): (d: Data)
    ensures |d| == n
  {
    if n == 0 then [] else [(v % 256) as byte] + LittleEndian(v / 256, n - 1)
  }

  function LittleValue(d: Data): (v: nat) {
    if d == [] then 0 else d[0] as nat + 256 * LittleValue(d[1..])
  }

  function BigEndian(v: nat, n: nat): (d: Data)
    ensures |d| == n
  {
    if n == 0 then [] else BigEndian(v / 256, n - 1) + [(v % 256) as byte]
  }

  function BigValue(d: Data): (v: nat) {
    if d == [] then 0 else BigValue(d[..|d| - 1]) * 256 + d[|d| - 1] as nat
  }

  lemma {:induction false} LittleRoundTrip(v: nat, n: nat)
    requires v < Span(n)
    ensures LittleValue(LittleEndian(v, n)) == v
  {
    if n > 0 {
      LittleRoundTrip(v / 256, n - 1);
      assert LittleEndian(v, n)[1..] == LittleEndian(v / 256, n - 1);
    }
  }

  /** Reading bytes back loses nothing: they are the encoding of their own value. */
  lemma {:induction false} LittleCanonical(d: Data)
    ensures LittleValue(d) < Span(|d|) && LittleEndian(LittleValue(d), |d|) == d
  {
    if d != [] {
      LittleCanonical(d[1..]);
      var v := LittleValue(d);
      assert v % 256 == d[0] as nat && v / 256 == LittleValue(d[1..]);
    }
  }

  lemma {:induction false} BigRoundTrip(v: nat, n: nat)
    requires v < Span(n)
    ensures BigValue(BigEndian(v, n)) == v
  {
    if n > 0 {
      BigRoundTrip(v / 256, n - 1);
      var d := BigEndian(v, n);
      assert d[..|d| - 1] == BigEndian(v / 256, n - 1);
    }
  }

  lemma {:induction false} BigCanonical(d: Data)
    ensures BigValue(d) < Span(|d|) && BigEndian(BigValue(d), |d|) == d
  {
    if d != [] {
      BigCanonical(d[..|d| - 1]);
      var v := BigValue(d);
      assert v % 256 == d[|d| - 1] as nat && v / 256 == BigValue(d[..|d| - 1]);
    }
  }
}
