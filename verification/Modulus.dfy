// Remainders, for counters that wrap around a word
// and indexes that rotate round a list.

module Modulus {
  lemma SmallMultiple(q: int, m: int)
    requires m > 0 && -m < q * m < m
    ensures q * m == 0
  {
    if q >= 1 {
    } else if q <= -1 {
    }
  }

  /** A number that is j more than a multiple of m leaves remainder j. */
  lemma Remainder(x: int, q: int, m: nat, j: nat)
    requires j < m && x == q * m + j
    ensures x % m == j
  {
    assert (q - x / m) * m == x % m - j;
    SmallMultiple(q - x / m, m);
  }

  /** Two counters agree after wrapping exactly when they differ by a multiple of m. */
  lemma SameResidue(i: nat, j: nat, m: nat)
    requires m > 0
    ensures (i + 1) % m == (j + 1) % m <==> (i - j) % m == 0
  {
    var qi, qj, q := (i + 1) / m, (j + 1) / m, (i - j) / m;
    var ri, rj, r := (i + 1) % m, (j + 1) % m, (i - j) % m;
    assert (qi - qj - q) * m == r - (ri - rj);
    if ri == rj {
      SmallMultiple(qi - qj - q, m);
    } else if r == 0 {
      SmallMultiple(qi - qj - q, m);
    }
  }

  /** The index k places after start, going round. */
  function Turn(start: nat, k: nat, n: nat): (at: nat)
    requires n > 0
    ensures at < n
  {
    (start + k) % n
  }

  /** Going round once visits every index. */
  lemma Visits(start: nat, j: nat, n: nat)
    requires j < n
    ensures exists k: nat :: k < n && Turn(start, k, n) == j
  {
    var s, q := start % n, start / n;
    if j >= s {
      Remainder(start + (j - s), q, n, j);
      assert Turn(start, j - s, n) == j;
    } else {
      assert (q + 1) * n == q * n + n;
      Remainder(start + (j + n - s), q + 1, n, j);
      assert Turn(start, j + n - s, n) == j;
    }
  }
}
