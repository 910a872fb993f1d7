// Any number of sessions on one path, each ended by a flush, a kill or a crash: what a later one may trust.

module Sessions {
  import opened Bytes
  import opened Bitmaps
  import opened Ledgers
  import opened Sidecars
  import opened Protocol
  import opened CommitSafety
  import Grid

  /** Strict resume: the identity (size, mtime) of a path determines its content. */
  datatype Origin = Origin(path: string, content: Identity -> Data)

  ghost predicate Usable(w: Origin, id: Identity) {
    && |w.content(id)| == id.size
    && 0 < id.size <= Grid.MAX_TRANSFER_SIZE
  }

  ghost function SourceOf(w: Origin, id: Identity): (o: Source)
    requires Usable(w, id)
    ensures |o.chunks| == Entry(w.path, id).Chunks()
    ensures forall i :: 0 <= i < |o.chunks| ==> |o.chunks[i]| > 0
  {
    Source(w.path, Grid.Split(Grid.CanonicalLayout(id.size), w.content(id)))
  }

  /** The part file and its sidecar, as they stand between sessions. */
  datatype Disk = Disk(part: Option<seq<Data>>, meta: Option<Document>)

  /** `inPlace` marks a delta session, whose part is the existing final file. */
  datatype Running = Running(id: Identity, inPlace: bool, c: Session)

  datatype World = World(disk: Disk, live: Option<Running>)

  datatype Start = Fresh | Resume(loads: bool) | Delta

  datatype Event =
    | Begin(id: Identity, start: Start, contents: seq<Data>, bad: set<nat>, sparse: bool)
    | Act(st: Step)
    | Save(bitmap: Bitmap, nonce: string)
    | Stop(contents: seq<Data>, swept: bool)     // clean end, kill or crash
    | Abort

  // ---------------------------------------------------------------------------------------
  // Opening a file

  /** The sidecar is read, passes its bookkeeping check and names exactly this entry. */
  predicate Trusted(meta: Option<Document>, e: Entry) {
    && meta.Some?
    && 0 <= meta.value.chunkCount == |meta.value.hashes|
    && Validate(meta.value, e, true) == None
  }

  function HasBit(l: Ledger): bool {
    exists i :: 0 <= i < |l.have| && l.have[i]
  }

  function FreshReceiver(led: Ledger): Receiver {
    Receiver(led, false, false, false, {}, false, false, Live, false, false, false, map[], false)
  }

  /** A resumed part with a usable sidecar: re-hashed unless nothing is recorded or it says it is
      fully written. */
  function TrustedReceiver(d: Document, path: string, seen: seq<Read>): Receiver
    requires 0 <= d.chunkCount == |d.hashes| == |seen|
  {
    var led := DocumentLedger(d);
    var rehash := !d.fullyWritten && HasBit(led);
    FreshReceiver(if rehash then Rehash(path, led, seen) else led)
      .(mayStale := true, dirty := rehash, fullyWritten := d.fullyWritten)
  }

  /** A part without a usable sidecar: rebuilt from its own bytes, and untrusted if that found any. */
  function RebuiltReceiver(path: string, seen: seq<Read>): Receiver {
    var led := Rebuild(path, seen);
    FreshReceiver(led).(mayStale := true, dirty := true, adopted := HasBit(led), awaitClaims := HasBit(led))
  }

  /** A same-size final file with another mtime, adopted as its own part. */
  function AdoptedReceiver(path: string, seen: seq<Read>): Receiver {
    var led := Rebuild(path, seen);
    FreshReceiver(led).(mayStale := true, adopted := true, awaitClaims := HasBit(led))
  }

  ghost function Opened(w: Origin, disk: Disk, id: Identity, start: Start, contents: seq<Data>,
      bad: set<nat>): (r: Receiver)
    requires Usable(w, id) && SameSizes(contents, SourceOf(w, id).chunks)
  {
    var seen := Source(w.path, contents).Reads(bad);
    match start
    case Fresh => FreshReceiver(EmptyLedger(|contents|))
    case Delta => AdoptedReceiver(w.path, seen)
    case Resume(loads) =>
      if loads && Trusted(disk.meta, Entry(w.path, id)) then TrustedReceiver(disk.meta.value, w.path, seen)
      else RebuiltReceiver(w.path, seen)
  }

  ghost function NewSession(o: Source, sparse: bool, contents: seq<Data>, r: Receiver, start: Start): Session
    requires |r.led.have| == |r.led.marks|
  {
    Session(o, sparse, contents, r, Sender(None, None, NotYet, 0, map[], false, false),
            [HaveBitmap(r.led.have, if r.adopted then ClaimHashes(r.led) else [])],
            [], [], 0, start.Delta?, false, r.led, None)
  }

  // ---------------------------------------------------------------------------------------
  // Events

  /** What the opened file holds: zeros if it is new, the part if its chunks still fit, and anything
      at all if it had another size or is the final file. */
  ghost predicate Holds(disk: Disk, start: Start, contents: seq<Data>, src: seq<Data>) {
    && SameSizes(contents, src)
    && match start
       case Fresh => disk.part.None? && forall i :: 0 <= i < |contents| ==> AllZero(contents[i])
       case Resume(_) => disk.part.Some? && (SameSizes(disk.part.value, src) ==> contents == disk.part.value)
       case Delta => true
  }

  ghost predicate Possible(w: Origin, world: World, ev: Event) {
    match ev
    case Begin(id, start, contents, _, _) =>
      world.live.None? && Usable(w, id) && Holds(world.disk, start, contents, SourceOf(w, id).chunks)
    case Act(st) => world.live.Some? && WellShaped(world.live.value.c) && Enabled(world.live.value.c, st)
    case Save(bitmap, _) =>
      && world.live.Some? && WellShaped(world.live.value.c)
      && (Flush(world.live.value.c.r).1.Some? ==>
            Bits(bitmap, |world.live.value.c.o.chunks|) == Flush(world.live.value.c.r).1.value.have)
    case Stop(_, _) => world.live.Some?
    case Abort => world.live.Some?
  }

  function DocumentOf(path: string, id: Identity, nonce: string, led: Ledger, bitmap: Bitmap,
      fullyWritten: bool): Document {
    Document(VERSION, path, nonce, id, Grid.ChunkSizeFor(id.size), Entry(path, id).Chunks(), led.marks, Some(bitmap),
        fullyWritten)
  }

  /** A flush writes the sidecar next to the part; a delta session's goes to a path no resume reads. */
  ghost function AfterSave(w: Origin, world: World, bitmap: Bitmap, nonce: string): World
    requires world.live.Some? && WellShaped(world.live.value.c)
  {
    var run := world.live.value;
    var (r, saved) := Flush(run.c.r);
    World(if saved.Some? && !run.inPlace
          then world.disk.(meta := Some(DocumentOf(w.path, run.id, nonce, saved.value, bitmap, r.fullyWritten)))
          else world.disk,
          Some(run.(c := run.c.(r := r))))
  }

  function AfterStop(world: World, contents: seq<Data>, swept: bool): World
    requires world.live.Some?
  {
    var run := world.live.value;
    if run.inPlace then World(world.disk, None)
    else if run.c.published.Some? then
      World(Disk(None, if swept then None else world.disk.meta), None)
    else World(world.disk.(part := Some(contents)), None)
  }

  ghost function Next(w: Origin, world: World, ev: Event): World
    requires Possible(w, world, ev)
  {
    match ev
    case Begin(id, start, contents, bad, sparse) =>
      var c := NewSession(SourceOf(w, id), sparse, contents, Opened(w, world.disk, id, start, contents, bad), start);
      // a fresh part has a new nonce, so no sidecar is found beside it
      World(if start.Fresh? then world.disk.(meta := None) else world.disk, Some(Running(id, start.Delta?, c)))
    case Act(st) => world.(live := Some(world.live.value.(c := Apply(world.live.value.c, st))))
    case Save(bitmap, nonce) => AfterSave(w, world, bitmap, nonce)
    case Stop(contents, swept) => AfterStop(world, contents, swept)
    case Abort => World(if world.live.value.inPlace then world.disk else Disk(None, None), None)
  }

  // ---------------------------------------------------------------------------------------
  // The invariant

  /** Every recorded hash is the source's for the identity the sidecar names; bits and hashes agree;
      and no sidecar on disk says "fully written". */
  ghost predicate MetaSound(w: Origin, d: Document) {
    && Usable(w, d.id) && d.path == w.path && !d.fullyWritten
    && d.chunkCount == |d.hashes| == |SourceOf(w, d.id).chunks|
    && DocumentLedger(d).Synced()
    && forall i :: 0 <= i < |d.hashes| && d.hashes[i] != Missing ==> SourceMark(SourceOf(w, d.id), d.hashes[i], i)
  }

  ghost predicate RunningSound(w: Origin, run: Running) {
    Usable(w, run.id) && run.c.o == SourceOf(w, run.id) && Safe(run.c)
  }

  ghost predicate WorldSound(w: Origin, world: World) {
    && (world.disk.meta.Some? ==> MetaSound(w, world.disk.meta.value))
    && (world.live.Some? ==> RunningSound(w, world.live.value))
  }

  lemma FreshSound(o: Source, contents: seq<Data>)
    requires SameSizes(contents, o.chunks) && forall i :: 0 <= i < |contents| ==> AllZero(contents[i])
    ensures var led := EmptyLedger(|contents|);
            PartSound(o, contents, led.marks, false) && BitsSound(o, led, Trust(false, false, false, {}), led)
  {
    var led := EmptyLedger(|contents|);
    forall i | 0 <= i < |o.chunks|
      ensures ChunkSound(o, contents, led.marks[i], false, i)
    {
      if AllZero(o.chunks[i]) {
        ZerosUnique(contents[i], o.chunks[i]);
      }
    }
  }

  /** Claims rebuilt from the part's own bytes may be false of the source, but a claim that equals the
      source's hash can only come from the source's bytes. */
  lemma RebuiltSound(o: Source, contents: seq<Data>, bad: set<nat>)
    requires SameSizes(contents, o.chunks)
    ensures var led := Rebuild(o.path, Source(o.path, contents).Reads(bad));
            && led.Shaped(|contents|)
            && PartSound(o, contents, led.marks, true)
            && BitsSound(o, led, Trust(true, HasBit(led), false, {}), led)
            && ClaimSound(Trust(true, HasBit(led), false, {}), led)
            && (!HasBit(led) ==> BitsSound(o, led, Trust(false, false, false, {}), led))
  {
    var seen := Source(o.path, contents).Reads(bad);
    var led := Rebuild(o.path, seen);
    forall i | 0 <= i < |o.chunks|
      ensures ChunkSound(o, contents, led.marks[i], true, i)
      ensures led.have[i] <==> led.marks[i] != Missing
      ensures led.have[i] ==> led.marks[i].Hex?
    {
      RebuildClaims(o.path, seen, i);
    }
  }

  /** What a trusted resume skips is the source's: for every chunk it keeps, the part holds the
      source's bytes, whatever happened to the part since. */
  lemma TrustedSound(w: Origin, d: Document, id: Identity, contents: seq<Data>, bad: set<nat>)
    requires Usable(w, id) && MetaSound(w, d) && Trusted(Some(d), Entry(w.path, id))
    requires SameSizes(contents, SourceOf(w, id).chunks)
    ensures d.id == id
    ensures var o := SourceOf(w, id);
            var r := TrustedReceiver(d, w.path, Source(w.path, contents).Reads(bad));
            && r.led.Shaped(|contents|)
            && PartSound(o, contents, r.led.marks, true)
            && BitsSound(o, r.led, Trust(false, false, false, {}), r.led)
            && (forall i :: 0 <= i < |contents| && r.led.have[i] ==> contents[i] == o.chunks[i])
  {
    var o := SourceOf(w, id);
    var seen := Source(w.path, contents).Reads(bad);
    var led := DocumentLedger(d);
    var r := TrustedReceiver(d, w.path, seen);
    RehashSynced(w.path, led, seen);
    forall i | 0 <= i < |contents|
      ensures r.led.have[i] ==> contents[i] == o.chunks[i] && SourceMark(o, r.led.marks[i], i)
      ensures ChunkSound(o, contents, r.led.marks[i], true, i)
    {
      RehashKeepsTheDescribed(w.path, led, seen, i);
      assert led.have[i] ==> HasBit(led);
      if r.led.have[i] && r.led.marks[i] == Hole {
        ZerosUnique(contents[i], o.chunks[i]);
      }
    }
  }

  lemma NewSessionSafe(o: Source, sparse: bool, contents: seq<Data>, r: Receiver, start: Start)
    requires SameSizes(contents, o.chunks) && r.led.Shaped(|o.chunks|)
    requires PartSound(o, contents, r.led.marks, r.mayStale)
    requires BitsSound(o, r.led, TrustOf(r), r.led) && ClaimSound(TrustOf(r), r.led)
    requires r.fd == Live && !r.finalQueued && !r.fullyWritten && r.arrived == {}
    ensures Safe(NewSession(o, sparse, contents, r, start))
  {
  }

  lemma BeginSound(w: Origin, world: World, ev: Event)
    requires WorldSound(w, world) && ev.Begin? && Possible(w, world, ev)
    ensures WorldSound(w, Next(w, world, ev))
  {
    var o := SourceOf(w, ev.id);
    var r := Opened(w, world.disk, ev.id, ev.start, ev.contents, ev.bad);
    OpenedSound(w, world.disk, ev.id, ev.start, ev.contents, ev.bad);
    NewSessionSafe(o, ev.sparse, ev.contents, r, ev.start);
  }

  lemma OpenedSound(w: Origin, disk: Disk, id: Identity, start: Start, contents: seq<Data>, bad: set<nat>)
    requires Usable(w, id) && SameSizes(contents, SourceOf(w, id).chunks)
    requires disk.meta.Some? ==> MetaSound(w, disk.meta.value)
    requires start.Fresh? ==> forall i :: 0 <= i < |contents| ==> AllZero(contents[i])
    ensures var o := SourceOf(w, id);
            var r := Opened(w, disk, id, start, contents, bad);
            && r.led.Shaped(|o.chunks|)
            && PartSound(o, contents, r.led.marks, r.mayStale)
            && BitsSound(o, r.led, TrustOf(r), r.led) && ClaimSound(TrustOf(r), r.led)
            && r.fd == Live && !r.finalQueued && !r.fullyWritten && r.arrived == {}
  {
    var o := SourceOf(w, id);
    if start.Fresh? {
      FreshSound(o, contents);
    } else if start.Resume? && start.loads && Trusted(disk.meta, Entry(w.path, id)) {
      TrustedSound(w, disk.meta.value, id, contents, bad);
    } else {
      RebuiltSound(o, contents, bad);
    }
  }

  /** A flush persists exactly the settled bits: arrived chunks, or bits the sender's verdict covers. */
  lemma FlushKeepsSettled(o: Source, r: Receiver, claim: Ledger)
    requires BitsSound(o, r.led, TrustOf(r), claim)
    ensures var (q, saved) := Flush(r);
            && BitsSound(o, q.led, TrustOf(q), claim)
            && (saved.Some? ==>
                  && saved.value == q.led && saved.value.Synced()
                  && (forall i :: 0 <= i < |o.chunks| ==>
                        (saved.value.have[i] <==> r.led.have[i] && Settled(TrustOf(r), i)))
                  && (forall i :: 0 <= i < |o.chunks| && saved.value.have[i] ==>
                        saved.value.marks[i] == r.led.marks[i] && SourceMark(o, saved.value.marks[i], i)))
  {
    var (q, saved) := Flush(r);
    forall i | 0 <= i < |o.chunks|
      ensures BitSound(o, q.led, TrustOf(q), claim, i)
      ensures saved.Some? && q.led.have[i] ==> Settled(TrustOf(r), i)
    {
      assert BitSound(o, r.led, TrustOf(r), claim, i);
    }
    assert forall i {:trigger BitSound(o, q.led, TrustOf(q), claim, i)} ::
             0 <= i < |o.chunks| && saved.Some? && q.led.have[i] ==> BitSound(o, q.led, TrustOf(q), claim, i);
  }

  lemma FlushSafe(c: Session)
    requires Safe(c)
    ensures Safe(c.(r := Flush(c.r).0))
  {
    FlushKeepsSettled(c.o, c.r, c.claim);
    var q := Flush(c.r).0;
    forall i | 0 <= i < |c.o.chunks|
      ensures ChunkSound(c.o, c.part, q.led.marks[i], q.mayStale, i)
    {
      assert ChunkSound(c.o, c.part, c.r.led.marks[i], c.r.mayStale, i);
    }
  }

  lemma SaveSound(w: Origin, world: World, ev: Event)
    requires WorldSound(w, world) && ev.Save? && Possible(w, world, ev)
    ensures WorldSound(w, Next(w, world, ev))
  {
    var run := world.live.value;
    FlushSafe(run.c);
    FlushKeepsSettled(run.c.o, run.c.r, run.c.claim);
    var (r, saved) := Flush(run.c.r);
    if saved.Some? {
      var d := DocumentOf(w.path, run.id, ev.nonce, saved.value, ev.bitmap, r.fullyWritten);
      assert DocumentLedger(d) == saved.value;
      assert r.fd == Live;
      assert MetaSound(w, d);
    }
  }

  lemma ActSound(w: Origin, world: World, st: Step)
    requires WorldSound(w, world) && Possible(w, world, Act(st))
    ensures WorldSound(w, Next(w, world, Act(st)))
  {
    StepKeepsSafe(world.live.value.c, st);
    StepKeepsSource(world.live.value.c, st);
  }

  lemma NextSound(w: Origin, world: World, ev: Event)
    requires WorldSound(w, world) && Possible(w, world, ev)
    ensures WorldSound(w, Next(w, world, ev))
  {
    match ev
    case Begin(_, _, _, _, _) => BeginSound(w, world, ev);
    case Act(st) => ActSound(w, world, st);
    case Save(_, _) => SaveSound(w, world, ev);
    case Stop(_, _) =>
    case Abort =>
  }

  // ---------------------------------------------------------------------------------------
  // Whole histories

  const PRISTINE := World(Disk(None, None), None)

  /** The worlds a history of events leads to, from an empty disk; None when an event was not possible. */
  ghost function After(w: Origin, history: seq<Event>): Option<World>
  {
    if history == [] then Some(PRISTINE)
    else
      var before := After(w, history[..|history| - 1]);
      var ev := history[|history| - 1];
      if before.Some? && Possible(w, before.value, ev) then Some(Next(w, before.value, ev)) else None
  }

  lemma {:induction false} HistorySound(w: Origin, history: seq<Event>)
    ensures After(w, history).Some? ==> WorldSound(w, After(w, history).value)
  {
    if history != [] {
      HistorySound(w, history[..|history| - 1]);
      var before := After(w, history[..|history| - 1]);
      var ev := history[|history| - 1];
      if before.Some? && Possible(w, before.value, ev) {
        NextSound(w, before.value, ev);
      }
    }
  }

  /** Commit safety over every history: when the gate is open, when a file waits for the finalizer,
      and when one has been put into place, its chunks are the source's; as a flat file it is the
      source's content for the identity that was announced. */
  lemma CommittedIsSource(w: Origin, history: seq<Event>)
    requires After(w, history).Some? && After(w, history).value.live.Some?
    ensures var run := After(w, history).value.live.value;
            && Usable(w, run.id)
            && var o := SourceOf(w, run.id);
            && (Gate(run.c.r) || run.c.queue > 0 || run.c.r.fd == Detached ==> run.c.part == o.chunks)
            && (run.c.published.Some? ==> run.c.published.value == o.chunks)
  {
    HistorySound(w, history);
    var run := After(w, history).value.live.value;
    if Gate(run.c.r) {
      GateMeansSource(run.c);
    }
  }

  lemma PublishedFile(w: Origin, history: seq<Event>, file: Data)
    requires After(w, history).Some? && After(w, history).value.live.Some?
    requires var run := After(w, history).value.live.value;
             && |file| == run.id.size <= Grid.MAX_COUNTED_SIZE
             && run.c.published == Some(Grid.Split(Grid.CanonicalLayout(run.id.size), file))
    ensures file == w.content(After(w, history).value.live.value.id)
  {
    CommittedIsSource(w, history);
    var id := After(w, history).value.live.value.id;
    Grid.EqualByChunks(Grid.CanonicalLayout(id.size), file, w.content(id));
  }

  /** Resume safety over every history: whatever sidecar lies on disk, every hash in it is the source's
      for the identity it names, and a trusted resume under that identity skips only chunks whose bytes
      in the part, whatever they are by then, equal the source's. */
  lemma ResumeSkipsOnlySource(w: Origin, history: seq<Event>, contents: seq<Data>, bad: set<nat>)
    requires After(w, history).Some? && After(w, history).value.disk.meta.Some?
    ensures var d := After(w, history).value.disk.meta.value;
            && MetaSound(w, d)
            && var o := SourceOf(w, d.id);
            SameSizes(contents, o.chunks) && Trusted(Some(d), Entry(w.path, d.id)) ==>
              var r := TrustedReceiver(d, w.path, Source(w.path, contents).Reads(bad));
              forall i :: 0 <= i < |contents| && r.led.have[i] ==> contents[i] == o.chunks[i]
  {
    HistorySound(w, history);
    var d := After(w, history).value.disk.meta.value;
    if SameSizes(contents, SourceOf(w, d.id).chunks) && Trusted(Some(d), Entry(w.path, d.id)) {
      TrustedSound(w, d, d.id, contents, bad);
    }
  }

  /** A clean resume loses nothing it need not: with the part as it was at the flush and readable, the
      re-hash keeps every saved chunk except zero chunks that were sent as data. */
  lemma CleanResumeKeeps(c: Session, i: nat)
    requires Safe(c) && Flush(c.r).1.Some? && i < |c.o.chunks|
    ensures var saved := Flush(c.r).1.value;
            Rehash(c.o.path, saved, Source(c.o.path, c.part).Reads({})).have[i] <==>
              saved.have[i] && (AllZero(c.o.chunks[i]) ==> saved.marks[i] == Hole)
  {
    FlushKeepsSettled(c.o, c.r, c.claim);
    var saved := Flush(c.r).1.value;
    assert ChunkSound(c.o, c.part, c.r.led.marks[i], c.r.mayStale, i);
    RehashKeepsTheDescribed(c.o.path, saved, Source(c.o.path, c.part).Reads({}), i);
  }
}
