// The deterministic chunk grid, and why working chunk by chunk is working on the flat file.

module Grid {
  import opened Bytes

  const MIB: nat := 0x10_0000
  const SMALL_CHUNK: nat := 4 * MIB
  const MEDIUM_CHUNK: nat := 8 * MIB
  const LARGE_CHUNK: nat := 16 * MIB
  const SMALL_LIMIT: nat := 64 * MIB
  const MEDIUM_LIMIT: nat := 0x4000_0000
  const MAX_COUNTED_SIZE: nat := 0x4000_0000_0000_0000
  const MAX_TRANSFER_SIZE: nat := 0x1000_0000_0000
  const MAX_CHUNKS: nat := 0x10_0000
  const INT64_LIMIT: nat := 0x8000_0000_0000_0000

  function ChunkSizeFor(size: int): nat {
    if size <= SMALL_LIMIT then SMALL_CHUNK
    else if size <= MEDIUM_LIMIT then MEDIUM_CHUNK
    else LARGE_CHUNK
  }

  /** Set bits of a positive integer: `n & (n - 1) == 0` exactly when there is one. */
  predicate PowerOfTwo(n: nat)
    decreases n
  {
    n == 1 || (n > 1 && n % 2 == 0 && PowerOfTwo(n / 2))
  }

  datatype Layout = Layout(size: int, chunkSize: int) {
    function Count(): (c: nat) {
      if size <= 0 || chunkSize <= 0 || size > MAX_COUNTED_SIZE then 0
      else (size + chunkSize - 1) / chunkSize
    }

    function Offset(i: int): int {
      i * chunkSize
    }

    function Len(i: int): int {
      var n := size - i * chunkSize;
      if n > chunkSize then chunkSize else n
    }
  }

  function NewLayout(size: int, chunkSize: int): Layout {
    if chunkSize <= 0 || !PowerOfTwo(chunkSize) || chunkSize > LARGE_CHUNK || chunkSize < 512 * 1024
    then Layout(size, ChunkSizeFor(size))
    else Layout(size, chunkSize)
  }

  function CanonicalLayout(size: int): Layout {
    Layout(size, ChunkSizeFor(size))
  }

  /** The geometry check a manifest entry passes before anything is allocated for it. */
  predicate Accepted(size: int, chunkSize: int) {
    && 0 <= size <= MAX_TRANSFER_SIZE
    && var g := NewLayout(size, chunkSize);
       g.chunkSize == ChunkSizeFor(size) && g.Count() <= MAX_CHUNKS
  }

  lemma MulMonotone(a: int, b: int, c: int)
    requires a <= b && 0 <= c
    ensures a * c <= b * c
  {
  }

  lemma CountBounds(g: Layout)
    requires 0 < g.size <= MAX_COUNTED_SIZE && 0 < g.chunkSize
    ensures 0 < g.Count()
    ensures (g.Count() - 1) * g.chunkSize < g.size <= g.Count() * g.chunkSize
  {
    var c := g.Count();
    var n := g.size + g.chunkSize - 1;
    assert n == c * g.chunkSize + n % g.chunkSize;
    assert (c - 1) * g.chunkSize == c * g.chunkSize - g.chunkSize;
    if c <= 0 {
      MulMonotone(c, 0, g.chunkSize);
      assert false;
    }
  }

  /** Chunk i starts where chunk i - 1 ended, is never empty, and the last one ends the file. */
  lemma Tiles(g: Layout, i: nat)
    requires 0 < g.size <= MAX_COUNTED_SIZE && 0 < g.chunkSize && i < g.Count()
    ensures 0 < g.Len(i) <= g.chunkSize
    ensures 0 <= g.Offset(i) < g.size && g.Offset(i) + g.Len(i) <= g.size
    ensures i + 1 < g.Count() ==> g.Offset(i) + g.Len(i) == g.Offset(i + 1) && g.Len(i) == g.chunkSize
    ensures i + 1 == g.Count() ==> g.Offset(i) + g.Len(i) == g.size
  {
    CountBounds(g);
    MulMonotone(0, i, g.chunkSize);
    MulMonotone(i, g.Count() - 1, g.chunkSize);
    assert (i + 1) * g.chunkSize == i * g.chunkSize + g.chunkSize;
    if i + 1 < g.Count() {
      MulMonotone(i + 1, g.Count() - 1, g.chunkSize);
    }
  }

  /** An accepted entry has the canonical grid; its size bound alone keeps the chunk count within
      bounds, and neither the count's numerator nor any chunk's end overflows a signed 64-bit word. */
  lemma AcceptedIsSafe(size: int, chunkSize: int)
    ensures Accepted(size, chunkSize)
            <==> 0 <= size <= MAX_TRANSFER_SIZE && NewLayout(size, chunkSize) == CanonicalLayout(size)
    ensures var g := CanonicalLayout(size);
            0 <= size <= MAX_TRANSFER_SIZE ==>
              && g.Count() <= MAX_CHUNKS
              && size + g.chunkSize - 1 < INT64_LIMIT
              && (forall i: nat | i < g.Count() :: g.Offset(i) + g.chunkSize < INT64_LIMIT)
  {
    var g := CanonicalLayout(size);
    if 0 < size <= MAX_TRANSFER_SIZE {
      CountBounds(g);
      if g.Count() > MAX_CHUNKS {
        MulMonotone(MAX_CHUNKS, g.Count() - 1, g.chunkSize);
        assert false;
      }
      forall i: nat | i < g.Count()
        ensures g.Offset(i) + g.chunkSize < INT64_LIMIT
      {
        Tiles(g, i);
      }
    }
  }

  function Shift(k: nat): (n: nat)
    ensures n > 0
  {
    if k == 0 then 1 else 2 * Shift(k - 1)
  }

  lemma {:induction false} PowerInRange(n: nat, k: nat)
    requires Shift(k) <= n < 2 * Shift(k)
    ensures PowerOfTwo(n) <==> n == Shift(k)
    decreases k
  {
    if k > 0 {
      PowerInRange(n / 2, k - 1);
    }
  }

  const OVERRIDES: set<int> := {MIB / 2, MIB, 2 * MIB, 4 * MIB, 8 * MIB, 16 * MIB}

  /** An override is honoured exactly when it is one of the six powers of two from 512 KiB to 16 MiB. Left
      to itself a file gets the 4 MiB grid when 16 chunks hold it, else the 8 MiB grid when 128 do, else
      the 16 MiB grid. */
  lemma GridIsChosen(size: int, chunkSize: int)
    ensures var g := NewLayout(size, chunkSize);
            && g.size == size
            && g.chunkSize == (if chunkSize in OVERRIDES then chunkSize else CanonicalLayout(size).chunkSize)
    ensures var c := CanonicalLayout(size).chunkSize;
            && c in {4 * MIB, 8 * MIB, 16 * MIB}
            && (c == 4 * MIB <==> size <= 16 * (4 * MIB)) && (c == 16 * MIB <==> size > 128 * (8 * MIB))
  {
    if MIB / 2 <= chunkSize <= LARGE_CHUNK {
      Shifts();
      var k := if chunkSize < MIB then 19 else if chunkSize < 2 * MIB then 20 else if chunkSize < 4 * MIB then 21
               else if chunkSize < 8 * MIB then 22 else if chunkSize < 16 * MIB then 23 else 24;
      PowerInRange(chunkSize, k);
    }
  }

  lemma Shifts()
    ensures Shift(19) == MIB / 2 && Shift(20) == MIB && Shift(21) == 2 * MIB && Shift(22) == 4 * MIB
    ensures Shift(23) == 8 * MIB && Shift(24) == 16 * MIB
  {
    assert Shift(6) == 64;
    assert Shift(12) == 4096;
    assert Shift(18) == 262144;
  }

  /** Whatever does not make sense has no chunks at all. */
  lemma ChunksIff(g: Layout)
    ensures g.Count() > 0 <==> 0 < g.size <= MAX_COUNTED_SIZE && 0 < g.chunkSize
  {
    if 0 < g.size <= MAX_COUNTED_SIZE && 0 < g.chunkSize {
      CountBounds(g);
    }
  }

  // ---------------------------------------------------------------------------------------
  // The flat file against its chunks

  ghost predicate Fits(g: Layout, file: Data) {
    |file| == g.size <= MAX_COUNTED_SIZE && 0 < g.chunkSize
  }

  ghost function ChunkOf(g: Layout, file: Data, i: nat): (c: Data)
    requires Fits(g, file) && i < g.Count()
    ensures |c| == g.Len(i) > 0
  {
    Tiles(g, i);
    file[g.Offset(i)..g.Offset(i) + g.Len(i)]
  }

  ghost function Split(g: Layout, file: Data): (cs: seq<Data>)
    requires Fits(g, file)
    ensures |cs| == g.Count()
    ensures forall i :: 0 <= i < |cs| ==> cs[i] == ChunkOf(g, file, i)
  {
    seq(g.Count(), (i: nat) requires i < g.Count() => ChunkOf(g, file, i))
  }

  /** pwrite: `data` replaces the bytes from `off` on. */
  function WriteAt(file: Data, off: nat, data: Data): (r: Data)
    requires off + |data| <= |file|
    ensures |r| == |file|
  {
    file[..off] + data + file[off + |data|..]
  }

  /** Two files of one size are equal exactly when they agree chunk by chunk. */
  lemma EqualByChunks(g: Layout, a: Data, b: Data)
    requires Fits(g, a) && Fits(g, b)
    ensures a == b <==> Split(g, a) == Split(g, b)
  {
    if Split(g, a) == Split(g, b) {
      forall k | 0 <= k < |a|
        ensures a[k] == b[k]
      {
        CountBounds(g);
        var i := k / g.chunkSize;
        assert k == i * g.chunkSize + k % g.chunkSize;
        if i >= g.Count() {
          MulMonotone(g.Count(), i, g.chunkSize);
          assert false;
        }
        Tiles(g, i);
        assert Split(g, a)[i] == Split(g, b)[i];
        var o := k - g.Offset(i);
        assert a[k] == ChunkOf(g, a, i)[o];
        assert b[k] == ChunkOf(g, b, i)[o];
      }
      assert a == b;
    }
  }

  lemma DistinctChunksApart(g: Layout, i: nat, j: nat)
    requires 0 < g.size <= MAX_COUNTED_SIZE && 0 < g.chunkSize && i < j < g.Count()
    ensures g.Offset(i) + g.Len(i) <= g.Offset(j)
  {
    Tiles(g, i);
    MulMonotone(i + 1, j, g.chunkSize);
  }

  lemma SlicesUnderWrite(file: Data, off: nat, data: Data, lo: nat, hi: nat)
    requires off + |data| <= |file| && lo <= hi <= |file|
    ensures hi <= off || off + |data| <= lo ==> WriteAt(file, off, data)[lo..hi] == file[lo..hi]
    ensures WriteAt(file, off, data)[off..off + |data|] == data
  {
  }

  /** Writing one chunk at its offset changes exactly that chunk. */
  lemma WriteIsChunkUpdate(g: Layout, file: Data, i: nat, data: Data)
    requires Fits(g, file) && i < g.Count() && |data| == g.Len(i)
    ensures 0 <= g.Offset(i) && g.Offset(i) + |data| <= |file|
    ensures Split(g, WriteAt(file, g.Offset(i), data)) == Split(g, file)[i := data]
  {
    Tiles(g, i);
    var after := WriteAt(file, g.Offset(i), data);
    forall j: nat | j < g.Count()
      ensures ChunkOf(g, after, j) == Split(g, file)[i := data][j]
    {
      Tiles(g, j);
      SlicesUnderWrite(file, g.Offset(i), data, g.Offset(j), g.Offset(j) + g.Len(j));
      if j < i {
        DistinctChunksApart(g, j, i);
      } else if i < j {
        DistinctChunksApart(g, i, j);
      }
    }
  }
}
