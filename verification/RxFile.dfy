// The receiver's record of one file as the code keeps it; every method is one critical section.

module RxFiles {
  import opened Bytes
  import opened Bitmaps
  import opened Ledgers
  import opened Sidecars
  import opened Protocol

  /** A bitmap of n set bits. */
  method FullBitmap(n: nat) returns (b: Bitmap)
    ensures |b| == BytesFor(n)
    ensures Bits(b, n) == seq(n, _ => true)
  {
    b := seq(BytesFor(n), _ => 0);
    var i := 0;
    while i < n
      invariant 0 <= i <= n && |b| == BytesFor(n)
      invariant forall k :: 0 <= k < i ==> Bit(b, k)
    {
      forall k: nat | k < n
        ensures Bit(SetBit(b, i), k) <==> k == i || Bit(b, k)
      {
        BitUpdates(b, i, k);
      }
      b := SetBit(b, i);
      i := i + 1;
    }
  }

  /** `l` agrees with `after` on the first i chunks and with `before` on the rest. */
  ghost predicate Halfway(l: Ledger, after: Ledger, before: Ledger, i: nat) {
    && |l.have| == |l.marks| == |after.have| == |after.marks| == |before.have| == |before.marks| && i <= |l.have|
    && (forall k :: 0 <= k < i ==> l.have[k] == after.have[k] && l.marks[k] == after.marks[k])
    && (forall k :: i <= k < |l.have| ==> l.have[k] == before.have[k] && l.marks[k] == before.marks[k])
  }

  lemma HalfwayStep(l: Ledger, m: Ledger, after: Ledger, before: Ledger, i: nat)
    requires Halfway(l, after, before, i) && i < |l.have|
    requires m == Ledger(l.have[i := after.have[i]], l.marks[i := after.marks[i]])
    ensures Halfway(m, after, before, i + 1)
  {
  }

  lemma HalfwayDone(l: Ledger, after: Ledger, before: Ledger)
    requires Halfway(l, after, before, |l.have|)
    ensures l == after
  {
    assert l.have == after.have && l.marks == after.marks;
  }

  /** Re-verify chunk i against what the part holds. */
  method RehashOne(sc: Sidecar, i: nat, read: Read, rebuilt: bool)
    requires sc.Valid() && i < sc.chunkCount
    modifies sc`have, sc`hashes, sc`haveCount
    ensures sc.Valid()
    ensures var (have, mark) := RehashChunk(sc.path, i, old(sc.View()).have[i], old(sc.View()).marks[i], read, rebuilt);
            sc.View() == Ledger(old(sc.View()).have[i := have], old(sc.View()).marks[i := mark])
  {
    var have := sc.Have(i);
    if have {
      match read
      case Unreadable => sc.ClearHave(i);
      case Got(data) =>
        var zero := ScanZero(data);
        if zero {
          if rebuilt || sc.hashes[i] != Hole {
            sc.ClearHave(i);
          }
        } else if sc.hashes[i] == Missing {
          sc.SetHave(i, Sha(sc.path, i, data), false);
        } else if sc.hashes[i] != Hex(Sha(sc.path, i, data)) {
          sc.ClearHave(i);
        }
    }
  }

  /** Re-verify every have-marked chunk of a part. With `rebuilt` the sidecar was lost: every chunk is
      taken for present, all hashes are forgotten, and each is adopted from the part's own bytes. */
  method RehashPart(sc: Sidecar, seen: seq<Read>, rebuilt: bool)
    requires sc.Valid() && sc.chunkCount == |seen|
    modifies sc`have, sc`hashes, sc`haveCount
    ensures sc.Valid()
    ensures sc.View() == if rebuilt then Rebuild(sc.path, seen) else Rehash(sc.path, old(sc.View()), seen)
  {
    ghost var n := |seen|;
    ghost var before := if rebuilt then Ledger(seq(n, _ => true), seq(n, _ => Missing)) else sc.View();
    ghost var after := if rebuilt then Rebuild(sc.path, seen) else Rehash(sc.path, before, seen);
    if rebuilt {
      var full := FullBitmap(sc.chunkCount);
      sc.AdoptBitmap(full);
      sc.hashes := seq(sc.chunkCount, _ => Missing);
    }
    var i := 0;
    while i < sc.chunkCount
      invariant 0 <= i <= n && sc.Valid()
      invariant Halfway(sc.View(), after, before, i)
    {
      ghost var l := sc.View();
      RehashOne(sc, i, seen[i], rebuilt);
      HalfwayStep(l, sc.View(), after, before, i);
      i := i + 1;
    }
    HalfwayDone(sc.View(), after, before);
  }

  /** Hash a whole file into a fresh sidecar: what a delta adoption claims is what a rebuild claims. */
  method HashInto(sc: Sidecar, seen: seq<Read>)
    requires sc.Valid() && sc.chunkCount == |seen| && sc.View() == EmptyLedger(|seen|)
    modifies sc`have, sc`hashes, sc`haveCount
    ensures sc.Valid() && sc.View() == Rebuild(sc.path, seen)
  {
    var i := 0;
    while i < sc.chunkCount
      invariant 0 <= i <= |seen| && sc.Valid()
      invariant forall k :: 0 <= k < i ==>
                  (sc.View().have[k], sc.View().marks[k]) == RehashChunk(sc.path, k, true, Missing, seen[k], true)
      invariant forall k :: i <= k < |seen| ==> !sc.View().have[k] && sc.View().marks[k] == Missing
    {
      if seen[i].Got? {
        var zero := ScanZero(seen[i].data);
        if !zero {
          sc.SetHave(i, Sha(sc.path, i, seen[i].data), false);
        }
      }
      i := i + 1;
    }
    ghost var after := Rebuild(sc.path, seen);
    assert forall k :: 0 <= k < |seen| ==> sc.View().have[k] == after.have[k] && sc.View().marks[k] == after.marks[k];
  }

  /** One digest per claimed chunk, in bitmap order; a recorded hole stands for the blank digest. */
  method CollectClaims(sc: Sidecar) returns (hashes: seq<Digest>)
    requires sc.Valid()
    ensures hashes == ClaimHashes(sc.View())
  {
    hashes := [];
    var i := 0;
    while i < sc.chunkCount
      invariant 0 <= i <= sc.chunkCount
      invariant hashes == ClaimList(sc.View(), i)
    {
      var have := sc.Have(i);
      if have {
        hashes := hashes + [if sc.hashes[i].Hex? then sc.hashes[i].digest else Blank];
      }
      i := i + 1;
    }
  }

  class RxFile {
    const sc: Sidecar
    const n: nat
    var dirty: bool
    var finalQueued: bool
    var resolved: bool
    var errored: bool
    var retries: map<nat, nat>
    var adopted: bool
    var awaitClaims: bool
    var claimsResolved: bool
    var arrived: set<nat>
    var mayStale: bool
    var part: Fd

    ghost predicate Valid()
      reads this, sc
    {
      sc.Valid() && sc.chunkCount == n
    }

    ghost function View(): (r: Receiver)
      reads this, sc
      requires Valid()
    {
      Receiver(sc.View(), adopted, awaitClaims, claimsResolved, arrived, mayStale, dirty, part, finalQueued,
               resolved, errored, retries, sc.fullyWritten)
    }

    /** A file whose sidecar is already loaded, re-hashed or rebuilt. */
    constructor (sc: Sidecar, mayStale: bool, dirty: bool, adopted: bool, awaitClaims: bool)
      requires sc.Valid()
      ensures Valid() && this.sc == sc
      ensures View() == Receiver(sc.View(), adopted, awaitClaims, false, {}, mayStale, dirty, Live, false,
                                 false, false, map[], sc.fullyWritten)
    {
      this.sc, n := sc, sc.chunkCount;
      this.mayStale, this.dirty, this.adopted, this.awaitClaims := mayStale, dirty, adopted, awaitClaims;
      finalQueued, resolved, errored, claimsResolved := false, false, false, false;
      retries, arrived, part := map[], {}, Live;
    }

    /** absorbChunk's snapshot: is the chunk to be dropped? */
    method TakeSnapshot(idx: nat) returns (drop: bool)
      requires Valid() && idx < n
      ensures drop == Drops(View(), idx)
    {
      if errored || resolved {
        return true;
      }
      var have := sc.Have(idx);
      var dup := have && !adopted;
      drop := part != Live || dup;
    }

    /** absorbChunk's closing critical section. */
    method Record(idx: nat, d: Digest, zero: bool)
      requires Valid() && idx < n
      modifies this`dirty, this`arrived, sc`have, sc`hashes, sc`haveCount
      ensures Valid() && View() == MarkChunk(old(View()), idx, if zero then Hole else Hex(d))
    {
      sc.SetHave(idx, d, zero);
      dirty := true;
      if adopted {
        arrived := arrived + {idx};
      }
    }

    method Completed() returns (complete: bool)
      requires Valid()
      ensures complete == Gate(View())
    {
      var c := sc.Complete();
      complete := c && (!awaitClaims || claimsResolved);
    }

    method QueueIfComplete() returns (queue: bool)
      requires Valid()
      modifies this`finalQueued
      ensures Valid() && (View(), queue) == MaybeComplete(old(View()))
    {
      var complete := Completed();
      queue := complete && !finalQueued;
      if queue {
        finalQueued := true;
      }
    }

    method Commit() returns (queue: bool)
      requires Valid()
      modifies this`claimsResolved
      ensures Valid() && (View(), queue) == CommitFile(old(View()))
    {
      if resolved || errored {
        return false;
      }
      claimsResolved := true;
      queue := sc.Complete();
    }

    /** Drop every have-bit that is neither in `keep` nor arrived over the wire. */
    method DropUnkept(keep: Bitmap) returns (changed: bool)
      requires Valid()
      modifies sc`have, sc`hashes, sc`haveCount
      ensures Valid()
      ensures sc.View() == Restrict(old(sc.View()), Kept(View(), Bits(keep, n)))
      ensures changed <==> sc.View().have != old(sc.View()).have
    {
      hide Count, Bits, Bit;
      changed := false;
      ghost var before := sc.View();
      ghost var after := Restrict(before, Kept(View(), Bits(keep, n)));
      var i := 0;
      while i < n
        invariant 0 <= i <= n && Valid()
        invariant Halfway(sc.View(), after, before, i)
        invariant changed ==> after.have != before.have
        invariant changed || forall k :: 0 <= k < i ==> after.have[k] == before.have[k]
      {
        ghost var l := sc.View();
        var have := sc.Have(i);
        if have && !Bit(keep, i) && i !in arrived {
          sc.ClearHave(i);
          changed := true;
        }
        HalfwayStep(l, sc.View(), after, before, i);
        i := i + 1;
      }
      HalfwayDone(sc.View(), after, before);
    }

    /** claimResult up to its call of maybeComplete. */
    method TakeClaimResult(verified: Bitmap) returns (check: bool)
      requires Valid()
      modifies this`dirty, this`claimsResolved, sc`have, sc`hashes, sc`haveCount
      ensures Valid() && (View(), check) == ApplyClaimResult(old(View()), Bits(verified, n))
    {
      if errored || resolved || !adopted {
        return false;
      }
      var changed := DropUnkept(verified);
      if changed {
        dirty := true;
      }
      claimsResolved := true;
      check := true;
    }

    method FailFile() returns (failed: bool)
      requires Valid()
      modifies this`errored, this`resolved, this`part
      ensures Valid() && View() == FailReceiver(old(View()))
      ensures failed == !(old(errored) || old(resolved))
    {
      if errored || resolved {
        return false;
      }
      errored, resolved := true, true;
      if part == Live {
        part := Closed;
      }
      failed := true;
    }

    /** Count an absorb error: ask again, or fail the file after three retries of one chunk. */
    method CountRetry(idx: nat) returns (outcome: RetryOutcome)
      requires Valid()
      modifies this`retries, this`errored, this`resolved, this`part
      ensures Valid() && (View(), outcome) == RetryOrFail(old(View()), idx)
    {
      if errored || resolved {
        return Ignored;
      }
      retries := retries[idx := Tries(retries, idx) + 1];
      if retries[idx] > MAX_TRIES {
        var _ := FailFile();
        return Failed;
      }
      return Retry;
    }

    /** Persist the sidecar if it changed and the part is still open; claims nobody resolved are
        dropped first. */
    method FlushSidecar() returns (saved: Option<Document>)
      requires Valid()
      modifies this`dirty, sc`have, sc`hashes, sc`haveCount
      ensures Valid()
      ensures View() == Flush(old(View())).0
      ensures saved.Some? == Flush(old(View())).1.Some?
      ensures saved.Some? ==> saved.value == sc.Saved() && DocumentLedger(saved.value) == Flush(old(View())).1.value
    {
      saved := None;
      if dirty && part == Live {
        if adopted && !claimsResolved {
          assert Kept(View(), Bits([], n)) == Kept(View(), []);
          var _ := DropUnkept([]);
        }
        var d := sc.Save();
        saved := Some(d);
        dirty := false;
      }
    }

    /** The finalizer takes the part away from the stream handlers. */
    method DetachPart() returns (taken: bool)
      requires Valid()
      modifies this`part
      ensures Valid() && View() == Detach(old(View()))
      ensures taken <==> old(part) == Live && part == Detached
    {
      taken := !(errored || resolved) && part == Live;
      if taken {
        part := Detached;
      }
    }

    method PublishPart(outcome: PublishOutcome)
      requires Valid() && part == Detached
      modifies this`part, this`dirty, this`resolved, this`errored, sc`fullyWritten
      ensures Valid() && View() == Publish(old(View()), outcome)
    {
      hide Count, Bits, Bit, FailReceiver;
      part := Closed;
      assert View() == old(View()).(fd := Closed);
      if outcome == CloseFailed {
        var _ := FailFile();
        return;
      }
      sc.MarkFullyWritten();
      if outcome == RenameFailed {
        var _ := FailFile();
        return;
      }
      dirty := false;
      resolved := true;
    }
  }
}
