// The resume sidecar: a packed bitmap, a hash per chunk and a cached count, updated in place.

module Sidecars {
  import opened Bytes
  import opened Bitmaps
  import opened Ledgers
  import Grid

  const VERSION := 1

  /** Size and mtime: what identifies the source content under strict resume. */
  datatype Identity = Identity(size: nat, sec: int, nsec: nat)

  datatype Entry = Entry(path: string, id: Identity) {
    function Layout(): Grid.Layout {
      Grid.CanonicalLayout(id.size)
    }

    function Chunks(): nat {
      Layout().Count()
    }
  }

  /** The saved document. `bitmap` is None when its text does not decode. */
  datatype Document = Document(version: int, path: string, nonce: string, id: Identity, chunkSize: int,
                               chunkCount: int, hashes: seq<Mark>, bitmap: Option<Bitmap>, fullyWritten: bool)

  datatype Problem = BadVersion | SizeChanged | MtimeChanged | GridChanged | CountChanged | PathMismatch

  /** The ledger a document stands for; bitmap bytes it lacks read as clear. */
  function DocumentLedger(d: Document): Ledger
    requires 0 <= d.chunkCount
  {
    Ledger(Bits(if d.bitmap.Some? then d.bitmap.value else [], d.chunkCount), d.hashes)
  }

  function Validate(d: Document, e: Entry, strictMtime: bool): Option<Problem> {
    if d.version != VERSION then Some(BadVersion)
    else if d.id.size != e.id.size then Some(SizeChanged)
    else if strictMtime && (d.id.sec != e.id.sec || d.id.nsec != e.id.nsec) then Some(MtimeChanged)
    else if d.chunkSize != Grid.ChunkSizeFor(e.id.size) then Some(GridChanged)
    else if d.chunkCount != e.Chunks() then Some(CountChanged)
    else if d.path != e.path then Some(PathMismatch)
    else None
  }

  /** A document is accepted exactly when it is one saved for this entry, whatever it says of the chunks;
      without strict resume it may carry another mtime. */
  lemma ValidIff(d: Document, e: Entry, strictMtime: bool)
    ensures Validate(d, e, strictMtime) == None
            <==> d == Document(VERSION, e.path, d.nonce,
                               if strictMtime then e.id else Identity(e.id.size, d.id.sec, d.id.nsec),
                               e.Layout().chunkSize, e.Chunks(), d.hashes, d.bitmap, d.fullyWritten)
  {
    hide Grid.ChunkSizeFor, Entry.Chunks;
  }

  /** Strict validation accepts a document for one entry only, and size-only validation fixes all
      but the mtime. */
  lemma ValidationIdentifies(d: Document, e: Entry, f: Entry)
    requires Validate(d, e, true) == None
    ensures Validate(d, f, true) == None <==> e == f
    ensures Validate(d, f, false) == None <==> e.path == f.path && e.id.size == f.id.size
  {
  }

  function BytesFor(n: nat): nat {
    (n + 7) / 8
  }

  /** The in-memory bitmap after a load: exactly the bytes the chunk count needs. */
  function Resized(b: Bitmap, need: nat): (r: Bitmap)
    ensures |r| == need
    ensures forall k :: 0 <= k < need ==> r[k] == if k < |b| then b[k] else 0
  {
    if |b| == need then b
    else if |b| < need then b + seq(need - |b|, _ => 0)
    else b[..need]
  }

  lemma ResizedKeepsBits(b: Bitmap, n: nat)
    ensures Bits(Resized(b, BytesFor(n)), n) == Bits(b, n)
  {
    var r := Resized(b, BytesFor(n));
    forall i | 0 <= i < n
      ensures Bit(r, i) == Bit(b, i)
    {
      assert i / 8 < BytesFor(n);
    }
  }

  class Sidecar {
    const version: int
    const path: string
    const nonce: string
    const id: Identity
    const chunkSize: int
    const chunkCount: nat
    var hashes: seq<Mark>
    var fullyWritten: bool
    var have: Bitmap
    var haveCount: int

    ghost predicate Valid()
      reads this
    {
      && |hashes| == chunkCount
      && chunkCount <= 8 * |have|
      && haveCount == Count(Bits(have, chunkCount))
    }

    ghost function View(): (l: Ledger)
      reads this
      requires Valid()
      ensures l.Shaped(chunkCount)
    {
      Ledger(Bits(have, chunkCount), hashes)
    }

    ghost function Saved(): (d: Document)
      reads this
    {
      Document(version, path, nonce, id, chunkSize, chunkCount, hashes, Some(have), fullyWritten)
    }

    /** A fresh sidecar: nothing present. */
    constructor New(e: Entry, nonce: string)
      ensures Valid() && View() == EmptyLedger(e.Chunks()) && !fullyWritten
      ensures Saved() == Document(VERSION, e.path, nonce, e.id, e.Layout().chunkSize, e.Chunks(),
                                  EmptyLedger(e.Chunks()).marks, Some(have), false)
      ensures Validate(Saved(), e, true) == None
    {
      version, path, id, fullyWritten := VERSION, e.path, e.id, false;
      this.nonce := nonce;
      chunkSize, chunkCount := e.Layout().chunkSize, e.Chunks();
      hashes := seq(e.Chunks(), _ => Missing);
      have := seq(BytesFor(e.Chunks()), _ => 0);
      haveCount := 0;
      new;
      forall i | 0 <= i < chunkCount
        ensures !Bit(have, i)
      {
      }
      CountNone(Bits(have, chunkCount));
      assert Bits(have, chunkCount) == EmptyLedger(chunkCount).have;
    }

    /** Load after the bookkeeping check: an undecodable bitmap counts as empty, and the bitmap is
        resized to the chunk count. */
    constructor Load(d: Document)
      requires 0 <= d.chunkCount == |d.hashes|
      ensures Valid() && View() == DocumentLedger(d)
      ensures Saved() == d.(bitmap := Some(have)) && |have| == BytesFor(d.chunkCount)
    {
      version, path, nonce, id := d.version, d.path, d.nonce, d.id;
      chunkSize, chunkCount, hashes, fullyWritten := d.chunkSize, d.chunkCount, d.hashes, d.fullyWritten;
      have := if d.bitmap.Some? then d.bitmap.value else [];
      haveCount := 0;
      new;
      ResizeHave();
    }

    /** Restore the bitmap's length, then recount. */
    method ResizeHave()
      requires |hashes| == chunkCount
      modifies this`have, this`haveCount
      ensures Valid() && |have| == BytesFor(chunkCount)
      ensures View() == Ledger(old(Bits(have, chunkCount)), hashes)
    {
      var need := BytesFor(chunkCount);
      ResizedKeepsBits(have, chunkCount);
      if |have| != need {
        have := Resized(have, need);
      }
      RecountHave();
    }

    /** Rebuild the cached count from the bitmap. */
    method RecountHave()
      requires |hashes| == chunkCount <= 8 * |have|
      modifies this`haveCount
      ensures Valid()
    {
      var n := 0;
      var i := 0;
      while i < chunkCount
        invariant 0 <= i <= chunkCount
        invariant n == Count(Bits(have, chunkCount)[..i])
      {
        CountPrefix(Bits(have, chunkCount), i);
        if Bit(have, i) {
          n := n + 1;
        }
        i := i + 1;
      }
      assert Bits(have, chunkCount)[..i] == Bits(have, chunkCount);
      haveCount := n;
    }

    method Have(i: int) returns (b: bool)
      requires Valid()
      ensures b <==> 0 <= i < chunkCount && View().have[i]
    {
      b := 0 <= i < chunkCount && Bit(have, i);
    }

    /** Mark chunk i present with its hash, a hole as "Z"; out of range does nothing. */
    method SetHave(i: int, d: Digest, zero: bool)
      requires Valid()
      modifies this`hashes, this`have, this`haveCount
      ensures Valid() && |have| == old(|have|)
      ensures View() == if 0 <= i < chunkCount then old(View()).Put(i, if zero then Hole else Hex(d)) else old(View())
    {
      if i < 0 || i >= chunkCount || |hashes| <= i {
        return;
      }
      BitsUpdates(have, i, chunkCount);
      CountUpdate(Bits(have, chunkCount), i, true);
      hashes := hashes[i := if zero then Hole else Hex(d)];
      if !Bit(have, i) {
        haveCount := haveCount + 1;
      }
      have := Bitmaps.SetBit(have, i);
    }

    /** Unmark chunk i and forget its hash. */
    method ClearHave(i: int)
      requires Valid()
      modifies this`hashes, this`have, this`haveCount
      ensures Valid() && |have| == old(|have|)
      ensures View() == if 0 <= i < chunkCount then old(View()).Drop(i) else old(View())
    {
      if i < 0 || i >= chunkCount || |hashes| <= i {
        return;
      }
      BitsUpdates(have, i, chunkCount);
      CountUpdate(Bits(have, chunkCount), i, false);
      hashes := hashes[i := Missing];
      if Bit(have, i) {
        haveCount := haveCount - 1;
      }
      have := Bitmaps.ClearBit(have, i);
    }

    /** The constant-time completeness test is right: the cached count is the count of the bitmap. */
    method Complete() returns (c: bool)
      requires Valid()
      ensures c <==> View().Complete()
    {
      CountFull(Bits(have, chunkCount));
      c := haveCount == chunkCount;
    }

    /** Replace the bitmap wholesale. */
    method AdoptBitmap(b: Bitmap)
      requires Valid() && chunkCount <= 8 * |b|
      modifies this`have, this`haveCount
      ensures Valid() && have == b && View() == Ledger(Bits(b, chunkCount), old(hashes))
    {
      have := b;
      RecountHave();
    }

    method MarkFullyWritten()
      requires Valid()
      modifies this`fullyWritten
      ensures fullyWritten && Valid() && View() == old(View())
    {
      fullyWritten := true;
    }

    method Save() returns (d: Document)
      ensures d == Saved()
    {
      d := Document(version, path, nonce, id, chunkSize, chunkCount, hashes, Some(have), fullyWritten);
    }
  }

  /** A saved sidecar loads back with the same ledger, identity and flag. */
  method SaveThenLoad(s: Sidecar) returns (t: Sidecar)
    requires s.Valid()
    ensures fresh(t) && t.Valid() && t.View() == s.View()
    ensures t.id == s.id && t.path == s.path && t.version == s.version && t.fullyWritten == s.fullyWritten
  {
    var d := s.Save();
    t := new Sidecar.Load(d);
  }

  /** Bits and hashes agree before and after every single update, and `Put` and `Drop` undo
      each other's bit. */
  lemma UpdatesKeepSync(l: Ledger, i: nat, mark: Mark)
    requires l.Synced() && i < |l.have| && mark != Missing
    ensures l.Put(i, mark).Synced() && l.Drop(i).Synced()
    ensures l.Put(i, mark).Drop(i) == l.Drop(i)
    ensures !l.have[i] ==> l.Put(i, mark).Drop(i) == l
  {
    assert l.Put(i, mark).Drop(i).have == l.Drop(i).have;
    assert l.Put(i, mark).Drop(i).marks == l.Drop(i).marks;
    if !l.have[i] {
      assert l.Drop(i).have == l.have && l.Drop(i).marks == l.marks;
    }
  }
}
