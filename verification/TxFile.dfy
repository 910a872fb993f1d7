// The sender's record of one file as the code keeps it: bitmap, scheduler cursor, references, descriptor.

module TxFiles {
  import opened Bytes
  import opened Bitmaps
  import opened Ledgers
  import opened Protocol

  /** The chunks from `lo` up to `hi` the bitmap does not have, in order. */
  function MissingFrom(bits: seq<bool>, lo: nat, hi: nat): (m: seq<nat>)
    requires lo <= hi <= |bits|
    decreases hi - lo
  {
    if lo == hi then [] else (if bits[lo] then [] else [lo]) + MissingFrom(bits, lo + 1, hi)
  }

  lemma {:induction false} MissingSplits(bits: seq<bool>, lo: nat, mid: nat, hi: nat)
    requires lo <= mid <= hi <= |bits|
    ensures MissingFrom(bits, lo, hi) == MissingFrom(bits, lo, mid) + MissingFrom(bits, mid, hi)
    decreases mid - lo
  {
    if lo < mid {
      MissingSplits(bits, lo + 1, mid, hi);
    }
  }

  /** The missing list is the complement of the bitmap: every clear bit once, nothing else, ascending. */
  lemma {:induction false} MissingIsComplement(bits: seq<bool>, lo: nat, hi: nat)
    requires lo <= hi <= |bits|
    ensures var m := MissingFrom(bits, lo, hi);
            && (forall i :: i in m <==> lo <= i < hi && !bits[i])
            && (forall a, b :: 0 <= a < b < |m| ==> m[a] < m[b])
    decreases hi - lo
  {
    if lo < hi {
      MissingIsComplement(bits, lo + 1, hi);
      var rest := MissingFrom(bits, lo + 1, hi);
      assert forall a :: 0 <= a < |rest| ==> rest[a] in rest;
    }
  }

  /** `b` agrees with `after` below i and with `before` from i on. */
  ghost predicate Halfway(b: seq<bool>, after: seq<bool>, before: seq<bool>, i: nat) {
    && |b| == |after| == |before| && i <= |b|
    && (forall k :: 0 <= k < i ==> b[k] == after[k])
    && (forall k :: i <= k < |b| ==> b[k] == before[k])
  }

  lemma HalfwayStep(b: seq<bool>, c: seq<bool>, after: seq<bool>, before: seq<bool>, i: nat)
    requires Halfway(b, after, before, i) && i < |b| && c == b[i := after[i]]
    ensures Halfway(c, after, before, i + 1)
  {
  }

  /** Bits from i on that `after` leaves as they were need no further look. */
  lemma HalfwayDone(b: seq<bool>, after: seq<bool>, before: seq<bool>, i: nat)
    requires Halfway(b, after, before, i) && forall k :: i <= k < |b| ==> after[k] == before[k]
    ensures b == after
  {
  }

  lemma CheckedBitAt(path: string, bits: seq<bool>, hashes: seq<Digest>, seen: seq<Read>, i: nat)
    requires |bits| == |seen| && i < |bits|
    ensures CheckedBits(path, bits, hashes, seen)[i]
            == (bits[i] && (Count(bits[..i]) < |hashes| ==> Confirms(path, i, seen[i], hashes[Count(bits[..i])])))
  {
  }

  /** The source descriptor: not opened yet, open, or closed. */
  datatype SourceFd = Unopened | Open | Shut

  /** Size and mtime: what the manifest says of a source, and what a later look finds. */
  datatype Stat = Stat(size: int, mtime: int)

  class TxFile {
    const path: string
    const count: nat
    const entry: Stat
    var have: Bitmap
    var nextTask: nat
    var inflight: nat
    var retries: map<nat, nat>
    var errored: bool
    var resolved: bool
    var fd: SourceFd

    ghost predicate Valid()
      reads this
    {
      nextTask <= count && (fd == Shut ==> resolved) && (errored ==> resolved)
    }

    /** The record as the step system sees it; what is being checked and whether the file waits for
        the scheduler are kept outside the record. */
    ghost function View(claim: Option<seq<Digest>>, backlog: Backlog): (s: Sender)
      reads this
    {
      Sender(Some(Bits(have, count)), claim, backlog, nextTask, retries, errored, resolved)
    }

    /** The bitmap of a receiver lands: it is copied. */
    constructor (path: string, count: nat, entry: Stat, bitmap: Bitmap)
      ensures Valid() && this.path == path && this.count == count && this.entry == entry && have == bitmap
      ensures nextTask == 0 && inflight == 0 && retries == map[] && !errored && !resolved && fd == Unopened
    {
      this.path, this.count, this.entry, have := path, count, entry, bitmap;
      nextTask, inflight, retries, errored, resolved, fd := 0, 0, map[], false, false, Unopened;
    }

    method Clear(i: nat)
      requires i < count && Bit(have, i)
      modifies this`have
      ensures Bits(have, count) == old(Bits(have, count))[i := false]
      ensures Count(Bits(have, count)) == old(Count(Bits(have, count))) - 1
    {
      BitsUpdates(have, i, count);
      CountUpdate(Bits(have, count), i, false);
      have := ClearBit(have, i);
    }

    /** Without the source nothing can be verified: every claimed bit is cleared. */
    method ClearAll() returns (cleared: nat)
      modifies this`have
      ensures Bits(have, count) == AllClear(count)
      ensures cleared == old(Count(Bits(have, count)))
    {
      hide Count, Bits, Bit;
      cleared := 0;
      var i := 0;
      while i < count
        invariant 0 <= i <= count
        invariant forall k :: 0 <= k < i ==> !Bits(have, count)[k]
        invariant cleared + Count(Bits(have, count)) == old(Count(Bits(have, count)))
      {
        if Bit(have, i) {
          Clear(i);
          cleared := cleared + 1;
        }
        i := i + 1;
      }
      CountNone(Bits(have, count));
      assert Bits(have, count) == AllClear(count);
    }

    /** First pass: each claimed chunk against its digest, until bits or digests run out. */
    method CheckClaims(hashes: seq<Digest>, seen: seq<Read>) returns (cleared: nat, claimed: nat)
      requires |seen| == count
      modifies this`have
      ensures Bits(have, count) == CheckedBits(path, old(Bits(have, count)), hashes, seen)
      ensures cleared + Count(Bits(have, count)) == old(Count(Bits(have, count)))
      ensures claimed == if |hashes| < old(Count(Bits(have, count))) then |hashes| else old(Count(Bits(have, count)))
    {
      hide Count, Bits, Bit, CheckedBits;
      ghost var bits := Bits(have, count);
      ghost var target := CheckedBits(path, bits, hashes, seen);
      cleared, claimed := 0, 0;
      var i := 0;
      while i < count && claimed < |hashes|
        invariant 0 <= i <= count && claimed <= |hashes|
        invariant claimed == Count(bits[..i])
        invariant Halfway(Bits(have, count), target, bits, i)
        invariant cleared + Count(Bits(have, count)) == Count(bits)
      {
        ghost var b := Bits(have, count);
        CountPrefix(bits, i);
        CheckedBitAt(path, bits, hashes, seen, i);
        if Bit(have, i) {
          var h := hashes[claimed];
          claimed := claimed + 1;
          if seen[i].Unreadable? || Sha(path, i, seen[i].data) != h {
            Clear(i);
            cleared := cleared + 1;
          }
        }
        HalfwayStep(b, Bits(have, count), target, bits, i);
        i := i + 1;
      }
      CountMonotone(bits, i, count);
      assert bits[..count] == bits;
      forall k | i <= k < count
        ensures target[k] == bits[k]
      {
        CountMonotone(bits, i, k);
        CheckedBitAt(path, bits, hashes, seen, k);
      }
      HalfwayDone(Bits(have, count), target, bits, i);
    }

    /** Second pass: digests beyond the bits clear what is still set, lowest bit first. */
    method ClearSurplus(claimed: nat, total: nat) returns (cleared: nat)
      requires claimed <= total
      modifies this`have
      ensures Bits(have, count) == DropLowestBits(old(Bits(have, count)), total - claimed)
      ensures cleared + Count(Bits(have, count)) == old(Count(Bits(have, count)))
    {
      hide Count, Bits, Bit;
      ghost var bits := Bits(have, count);
      ghost var target := DropLowestBits(bits, total - claimed);
      var used := claimed;
      cleared := 0;
      var i := 0;
      while i < count && used < total
        invariant 0 <= i <= count && used <= total
        invariant used == claimed + Count(bits[..i])
        invariant Halfway(Bits(have, count), target, bits, i)
        invariant cleared + Count(Bits(have, count)) == Count(bits)
      {
        ghost var b := Bits(have, count);
        CountPrefix(bits, i);
        if Bit(have, i) {
          Clear(i);
          cleared := cleared + 1;
          used := used + 1;
        }
        HalfwayStep(b, Bits(have, count), target, bits, i);
        i := i + 1;
      }
      forall k | i <= k < count
        ensures target[k] == bits[k]
      {
        CountMonotone(bits, i, k);
      }
      HalfwayDone(Bits(have, count), target, bits, i);
    }

    /** verifyClaims, for any bitmap, any digests and any source: what survives, and how many bits
        were cleared. */
    method VerifyClaims(hashes: seq<Digest>, canOpen: bool, seen: seq<Read>) returns (cleared: nat)
      requires |seen| == count
      modifies this`have
      ensures Bits(have, count) == SurvivingBits(path, old(Bits(have, count)), hashes, canOpen, seen)
      ensures cleared == old(Count(Bits(have, count))) - Count(Bits(have, count))
    {
      if !canOpen {
        cleared := ClearAll();
        CountNone(AllClear(count));
        return;
      }
      ghost var bits := Bits(have, count);
      var claimed;
      cleared, claimed := CheckClaims(hashes, seen);
      var more := ClearSurplus(claimed, |hashes|);
      cleared := cleared + more;
      if |hashes| < Count(bits) {
        assert Bits(have, count) == VerifiedBits(path, bits, hashes, seen);
      }
    }

    /** One scheduler pass over this file: queue missing chunks while the task channel has room. */
    method SchedulePass(room: nat) returns (tasks: seq<nat>, done: bool)
      requires Valid() && !errored && !resolved
      modifies this`nextTask, this`inflight
      ensures Valid()
      ensures old(nextTask) <= nextTask <= count
      ensures tasks == MissingFrom(Bits(have, count), old(nextTask), nextTask) && |tasks| <= room
      ensures inflight == old(inflight) + |tasks|
      ensures done <==> nextTask == count
      ensures !done ==> |tasks| == room && !Bits(have, count)[nextTask]
    {
      tasks := [];
      ghost var bits := Bits(have, count);
      ghost var start := nextTask;
      while nextTask < count
        invariant start <= nextTask <= count && |tasks| <= room
        invariant tasks == MissingFrom(bits, start, nextTask)
        invariant inflight == old(inflight) + |tasks|
      {
        MissingSplits(bits, start, nextTask, nextTask + 1);
        if Bit(have, nextTask) {
          nextTask := nextTask + 1;
        } else if |tasks| < room {
          tasks := tasks + [nextTask];
          nextTask := nextTask + 1;
          inflight := inflight + 1;
        } else {
          return tasks, false;
        }
      }
      done := true;
    }

    /** Close the descriptor once the file is settled and no task refers to it. */
    method MaybeClose()
      requires Valid()
      modifies this`fd
      ensures Valid()
      ensures fd == if old(fd) == Open && resolved && inflight == 0 then Shut else old(fd)
    {
      if fd == Open && resolved && inflight == 0 {
        fd := Shut;
      }
    }

    /** failFile: settle as failed once, and close the descriptor if nobody needs it; the receiver is told
        exactly when this call did it. */
    method FailFile() returns (told: bool)
      requires Valid()
      modifies this`errored, this`resolved, this`fd
      ensures Valid()
      ensures forall claim, backlog :: View(claim, backlog) == FailSender(old(View(claim, backlog)))
      ensures told == !(old(errored) || old(resolved))
      ensures fd == if told && old(fd) == Open && inflight == 0 then Shut else old(fd)
    {
      if errored || resolved {
        return false;
      }
      errored, resolved := true, true;
      MaybeClose();
      return true;
    }

    /** A retry request: the chunk is queued again under a fresh reference, or the file fails after
        three retries of one chunk. */
    method RequestRetry(idx: nat) returns (outcome: RetryOutcome)
      requires Valid()
      modifies this`retries, this`inflight, this`errored, this`resolved, this`fd
      ensures Valid()
      ensures forall claim, backlog :: (View(claim, backlog), outcome) == RetryChunk(old(View(claim, backlog)), idx)
      ensures inflight == old(inflight) + if outcome == Retry then 1 else 0
      ensures fd == if outcome == Failed && old(fd) == Open && inflight == 0 then Shut else old(fd)
    {
      if errored || resolved {
        return Ignored;
      }
      retries := retries[idx := Tries(retries, idx) + 1];
      if retries[idx] > MAX_TRIES {
        var _ := FailFile();
        return Failed;
      }
      inflight := inflight + 1;
      return Retry;
    }

    /** The receiver's outcome, counted once. */
    method TakeResult(ok: bool)
      requires Valid()
      modifies this`errored, this`resolved, this`fd
      ensures Valid()
      ensures forall claim, backlog :: View(claim, backlog) == TakeFileResult(old(View(claim, backlog)), ok)
      ensures fd != old(fd) ==> fd == Shut && inflight == 0
    {
      if !resolved {
        errored := errored || !ok;
        resolved := true;
      }
      MaybeClose();
    }

    /** The last task of an unsettled file is out, and everything has been scheduled. */
    predicate AllSent()
      reads this
    {
      fd == Open && !resolved && !errored && inflight == 0 && nextTask >= count
    }

    /** A task lets go of the file. The last one out of a settled file closes the descriptor; the last one
        of an unsettled file looks at the source again, and if that is no longer what the manifest says the
        file fails. `found` is what the look gives, if anything. */
    method TaskDone(found: Option<Stat>) returns (told: bool)
      requires Valid()
      modifies this`inflight, this`errored, this`resolved, this`fd
      ensures Valid()
      ensures inflight == if old(inflight) > 0 then old(inflight) - 1 else 0
      ensures told <==>
                old(fd) == Open && !old(resolved) && inflight == 0 && nextTask == count && found.Some?
                    && found.value != entry
      ensures if told then errored && resolved else errored == old(errored) && resolved == old(resolved)
      ensures fd == if old(fd) == Open && resolved && inflight == 0 then Shut else old(fd)
    {
      told := false;
      if inflight > 0 {
        inflight := inflight - 1;
      }
      if fd == Open && resolved && inflight == 0 {
        fd := Shut;
        return;
      }
      if AllSent() && found.Some? && (found.value.size != entry.size || found.value.mtime != entry.mtime) {
        told := FailFile();
        assert View(None, NotYet).errored && View(None, NotYet).resolved;
      }
    }
  }

  // ---------------------------------------------------------------------------------------
  // The scheduler over any number of passes

  /** What passes over one file queue in total, each pass finding the given room in the channel. */
  method ScheduleAll(f: TxFile, rooms: seq<nat>) returns (tasks: seq<nat>, done: bool)
    requires f.Valid() && !f.errored && !f.resolved && f.nextTask == 0
    modifies f`nextTask, f`inflight
    ensures f.Valid()
    ensures tasks == MissingFrom(Bits(f.have, f.count), 0, f.nextTask)
    ensures done <==> f.nextTask == f.count
    ensures done ==> forall i: nat :: i in tasks <==> i < f.count && !Bits(f.have, f.count)[i]
    ensures done ==> forall a, b :: 0 <= a < b < |tasks| ==> tasks[a] < tasks[b]
  {
    ghost var bits := Bits(f.have, f.count);
    tasks, done := [], f.count == 0;
    var k := 0;
    while k < |rooms|
      invariant 0 <= k <= |rooms| && f.Valid()
      invariant Bits(f.have, f.count) == bits
      invariant tasks == MissingFrom(bits, 0, f.nextTask)
      invariant done <==> f.nextTask == f.count
    {
      ghost var start := f.nextTask;
      var queued;
      queued, done := f.SchedulePass(rooms[k]);
      MissingSplits(bits, 0, start, f.nextTask);
      tasks := tasks + queued;
      k := k + 1;
    }
    MissingIsComplement(bits, 0, f.nextTask);
  }
}
