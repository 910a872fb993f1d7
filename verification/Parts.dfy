// The part file of one swarm artifact: opened and truncated once, then written chunk by chunk in any order.

module Parts {
  import opened Bytes
  import opened Grid

  /** A part that does not exist yet has no bytes. */
  function BytesOf(p: Option<Data>): Data {
    if p.Some? then p.value else []
  }

  function Zeros(n: nat): (z: Data)
    ensures |z| == n && forall k :: 0 <= k < n ==> z[k] == 0
  {
    seq(n, _ => 0)
  }

  /** The first `size` bytes, zeros where the file ends before. */
  function Fitted(size: nat, b: Data): (r: Data)
    ensures |r| == size
  {
    if |b| >= size then b[..size] else b + Zeros(size - |b|)
  }

  /** Opened for writing: created if need be and truncated to its size; the truncation's error is ignored. */
  function OpenedAs(size: nat, p: Option<Data>, truncates: bool): Data {
    if truncates then Fitted(size, BytesOf(p)) else BytesOf(p)
  }

  /** pwrite, which leaves zeros between the end of the file and `off`. */
  function Put(b: Data, off: nat, d: Data): Data {
    if d == [] then b
    else
      (if off <= |b| then b[..off] else b + Zeros(off - |b|)) + d + if off + |d| < |b| then b[off + |d|..] else []
  }

  ghost predicate Regular(g: Layout, i: nat) {
    0 < g.size <= MAX_COUNTED_SIZE && 0 < g.chunkSize && i < g.Count()
  }

  /** What a read of chunk i gives: its bytes, if the file goes on to its end. */
  ghost function Chunk(g: Layout, p: Option<Data>, i: nat): (c: Option<Data>)
    requires Regular(g, i)
    ensures c.Some? ==> |c.value| == g.Len(i)
  {
    Tiles(g, i);
    if g.Offset(i) + g.Len(i) <= |BytesOf(p)| then Some(BytesOf(p)[g.Offset(i)..g.Offset(i) + g.Len(i)]) else None
  }

  /** Chunk i with zeros for what the file is short of. */
  ghost function Filled(g: Layout, p: Option<Data>, i: nat): (c: Data)
    requires Regular(g, i)
    ensures |c| == g.Len(i)
  {
    ChunkOf(g, Fitted(g.size, BytesOf(p)), i)
  }

  lemma WholeIsFilled(g: Layout, p: Option<Data>, i: nat)
    requires Regular(g, i) && Chunk(g, p, i).Some?
    ensures Chunk(g, p, i).value == Filled(g, p, i)
  {
    Tiles(g, i);
    var lo, hi := g.Offset(i), g.Offset(i) + g.Len(i);
    assert Fitted(g.size, BytesOf(p))[lo..hi] == BytesOf(p)[lo..hi];
  }

  lemma OpenedFits(size: nat, p: Option<Data>, truncates: bool)
    ensures Fitted(size, OpenedAs(size, p, truncates)) == Fitted(size, BytesOf(p))
    ensures |OpenedAs(size, p, truncates)| == if truncates then size else |BytesOf(p)|
  {
  }

  /** Opening changes no chunk's bytes, and once truncated to its size the file holds every chunk. */
  lemma OpeningKeeps(g: Layout, p: Option<Data>, truncates: bool, i: nat)
    requires Regular(g, i)
    ensures var q := Some(OpenedAs(g.size, p, truncates));
            && Filled(g, q, i) == Filled(g, p, i)
            && (Chunk(g, q, i).Some? <==> truncates || Chunk(g, p, i).Some?)
            && (Chunk(g, p, i).Some? ==> Chunk(g, q, i) == Chunk(g, p, i))
  {
    var q := Some(OpenedAs(g.size, p, truncates));
    OpenedFits(g.size, p, truncates);
    Tiles(g, i);
    if Chunk(g, p, i).Some? {
      WholeIsFilled(g, p, i);
      WholeIsFilled(g, q, i);
    }
  }

  lemma PutFits(size: nat, b: Data, off: nat, d: Data)
    requires off + |d| <= size
    ensures Fitted(size, Put(b, off, d)) == WriteAt(Fitted(size, b), off, d)
    ensures |Put(b, off, d)| == if d == [] || off + |d| <= |b| then |b| else off + |d|
  {
    var x, y := Fitted(size, Put(b, off, d)), WriteAt(Fitted(size, b), off, d);
    forall k | 0 <= k < size
      ensures x[k] == y[k]
    {
    }
  }

  /** A write of chunk i, whole or cut short after n bytes, changes no other chunk and takes none away. */
  lemma PutKeepsOthers(g: Layout, b: Data, i: nat, data: Data, n: nat, j: nat)
    requires Regular(g, i) && Regular(g, j) && i != j && n <= |data| == g.Len(i) && 0 <= g.Offset(i)
    ensures var q := Some(Put(b, g.Offset(i), data[..n]));
            && Filled(g, q, j) == Filled(g, Some(b), j)
            && (Chunk(g, Some(b), j).Some? ==> Chunk(g, q, j) == Chunk(g, Some(b), j))
  {
    var off, q := g.Offset(i), Some(Put(b, g.Offset(i), data[..n]));
    Tiles(g, i);
    Tiles(g, j);
    PutFits(g.size, b, off, data[..n]);
    SlicesUnderWrite(Fitted(g.size, b), off, data[..n], g.Offset(j), g.Offset(j) + g.Len(j));
    if i < j {
      DistinctChunksApart(g, i, j);
    } else {
      DistinctChunksApart(g, j, i);
    }
    if Chunk(g, Some(b), j).Some? {
      WholeIsFilled(g, Some(b), j);
      WholeIsFilled(g, q, j);
    }
  }

  /** A whole write leaves the chunk; a cut one over the same bytes does no harm. */
  lemma PutHolds(g: Layout, b: Data, i: nat, data: Data, n: nat)
    requires Regular(g, i) && n <= |data| == g.Len(i) && 0 <= g.Offset(i)
    requires n == |data| || Chunk(g, Some(b), i) == Some(data)
    ensures Chunk(g, Some(Put(b, g.Offset(i), data[..n])), i) == Some(data)
  {
    var off, q := g.Offset(i), Some(Put(b, g.Offset(i), data[..n]));
    Tiles(g, i);
    PutFits(g.size, b, off, data[..n]);
    var f := Fitted(g.size, b);
    assert |BytesOf(q)| >= off + |data|;
    WholeIsFilled(g, q, i);
    if n < |data| {
      WholeIsFilled(g, Some(b), i);
      assert f[off..off + |data|] == data;
      assert WriteAt(f, off, data[..n])[off..off + |data|] == data;
    } else {
      assert data[..n] == data;
    }
  }
}
