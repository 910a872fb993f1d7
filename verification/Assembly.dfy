// The workers of one swarm join, interleaved in any order, over peers that may serve anything.

module Assembly {
  import opened Bytes
  import opened Grid
  import opened Parts
  import opened Pickers
  import opened Swarm

  datatype Worker =
    | Idle
    | Fetching(t: Task)
    | Fetched(t: Task, data: Data)       // bytes that passed the chunk check
    | Writing(t: Task, data: Data)       // the first completion of t, about to write
    | Stopped

  /** `finals` is what the destination holds of each file at the start, `parts` what its part holds now, and
      `open` the parts opened for writing; `written` and `lost` count the writes that succeeded and failed. */
  datatype Join = Join(run: Run, finals: seq<Option<Data>>, parts: seq<Option<Data>>, open: set<nat>,
                       avail: set<Task>, written: multiset<Task>, lost: multiset<Task>, ws: seq<Worker>,
                       cancelled: bool, fatal: bool)

  function LayoutOf(files: seq<SwarmFile>, t: Task): Layout
    requires t.file < |files|
  {
    CanonicalLayout(files[t.file].size)
  }

  predicate InFiles(files: seq<SwarmFile>, t: Task) {
    t.file < |files| && t.chunk < LayoutOf(files, t).Count()
  }

  /** Every file's catalog was made from the seed's copy of it. */
  ghost predicate FromSeed(files: seq<SwarmFile>, seeds: seq<Data>) {
    && |files| == |seeds|
    && forall i :: 0 <= i < |files| ==>
         |seeds[i]| == files[i].size <= MAX_COUNTED_SIZE
         && files[i].sha == Sha256(seeds[i])
         && files[i].chunks == Catalog(CanonicalLayout(files[i].size), seeds[i])
  }

  ghost function SeedAt(files: seq<SwarmFile>, seeds: seq<Data>, t: Task): Data
    requires FromSeed(files, seeds) && InFiles(files, t)
  {
    ChunkOf(LayoutOf(files, t), seeds[t.file], t.chunk)
  }

  predicate Sized(files: seq<SwarmFile>, finals: seq<Option<Data>>, parts: seq<Option<Data>>) {
    |finals| == |parts| == |files|
  }

  /** What is held of a chunk: by a final file that verifies, else by the part. */
  ghost function Held(files: seq<SwarmFile>, finals: seq<Option<Data>>, parts: seq<Option<Data>>, t: Task): Option<Data>
    requires Sized(files, finals, parts) && InFiles(files, t)
  {
    var g := LayoutOf(files, t);
    if FinalOk(files[t.file], finals[t.file]) then Some(ChunkOf(g, finals[t.file].value, t.chunk))
    else Chunk(g, parts[t.file], t.chunk)
  }

  /** The part's bytes of a chunk, with zeros for what it is short of. */
  ghost function FilledAt(files: seq<SwarmFile>, parts: seq<Option<Data>>, t: Task): Data
    requires |parts| == |files| && InFiles(files, t)
  {
    Filled(LayoutOf(files, t), parts[t.file], t.chunk)
  }

  /** The part goes on to the chunk's end. */
  ghost predicate Reaches(files: seq<SwarmFile>, parts: seq<Option<Data>>, t: Task)
    requires |parts| == |files| && InFiles(files, t)
  {
    Chunk(LayoutOf(files, t), parts[t.file], t.chunk).Some?
  }

  datatype Step =
    | Take(k: nat, rarity: map<Task, nat>, t: Task)
    | Fetch(k: nat, data: Data)          // some source served bytes that verify
    | FetchFails(k: nat)
    | Finish(k: nat)
    | OpenPart(k: nat, truncates: bool)  // the first write to a file opens its part, under the lock
    | Write(k: nat)
    | WriteFails(k: nat, n: nat)         // an error of the open, or of the write after n bytes
    | Stop(k: nat)
    | Cancel                             // the caller gives up

  predicate MayWrite(files: seq<SwarmFile>, s: Join, k: nat) {
    && k < |s.ws| && s.ws[k].Writing? && s.ws[k].t.file < |s.parts| == |files|
    && LayoutOf(files, s.ws[k].t).Offset(s.ws[k].t.chunk) >= 0
  }

  /** The parts after the first n bytes of t's chunk have been written. */
  function PartsPut(files: seq<SwarmFile>, parts: seq<Option<Data>>, t: Task, data: Data, n: nat): seq<Option<Data>>
    requires t.file < |parts| == |files| && n <= |data| && LayoutOf(files, t).Offset(t.chunk) >= 0
  {
    if n == 0 then parts
    else parts[t.file := Some(Put(BytesOf(parts[t.file]), LayoutOf(files, t).Offset(t.chunk), data[..n]))]
  }

  predicate Enabled(files: seq<SwarmFile>, s: Join, st: Step) {
    match st
    case Take(k, rarity, t) => k < |s.ws| && s.ws[k].Idle? && MayPick(s.run.p, rarity, t)
    case Fetch(k, data) =>
      k < |s.ws| && s.ws[k].Fetching? && s.ws[k].t.file < |files|
          && ChunkOk(files[s.ws[k].t.file], s.ws[k].t.chunk, data)
    case FetchFails(k) => k < |s.ws| && s.ws[k].Fetching? && s.ws[k].t in s.run.held
    case Finish(k) => k < |s.ws| && s.ws[k].Fetched? && s.ws[k].t in s.run.held
    case OpenPart(k, _) =>
      k < |s.ws| && s.ws[k].Writing? && s.ws[k].t.file < |s.parts| == |files| && s.ws[k].t.file !in s.open
    case Write(k) => MayWrite(files, s, k) && s.ws[k].t.file in s.open
    case WriteFails(k, n) => MayWrite(files, s, k) && n <= |s.ws[k].data| && (n > 0 ==> s.ws[k].t.file in s.open)
    case Stop(k) => k < |s.ws| && s.ws[k].Idle? && (s.cancelled || AllDone(s.run.p))
    case Cancel => true
  }

  function Act(files: seq<SwarmFile>, s: Join, st: Step): Join
    requires Enabled(files, s, st)
  {
    match st
    case Take(k, rarity, t) =>
      s.(run := After(s.run, Pickers.Pick(rarity, t)), ws := s.ws[k := Fetching(t)])
    case Fetch(k, data) => s.(ws := s.ws[k := Fetched(s.ws[k].t, data)])
    case FetchFails(k) =>
      var (_, gone) := FailedTask(s.run.p, s.ws[k].t);
      s.(run := After(s.run, Fail(s.ws[k].t)), ws := s.ws[k := Idle],
         fatal := s.fatal || gone, cancelled := s.cancelled || gone)
    case Finish(k) =>
      var (_, first) := Completed(s.run.p, s.ws[k].t);
      s.(run := After(s.run, Pickers.Complete(s.ws[k].t)),
         ws := s.ws[k := if first then Writing(s.ws[k].t, s.ws[k].data) else Idle])
    case OpenPart(k, truncates) =>
      var i := s.ws[k].t.file;
      s.(parts := s.parts[i := Some(OpenedAs(files[i].size, s.parts[i], truncates))], open := s.open + {i})
    case Write(k) =>
      var (t, data) := (s.ws[k].t, s.ws[k].data);
      s.(parts := PartsPut(files, s.parts, t, data, |data|), avail := s.avail + {t},
         written := s.written + multiset{t}, ws := s.ws[k := Idle])
    case WriteFails(k, n) =>
      var (t, data) := (s.ws[k].t, s.ws[k].data);
      s.(parts := PartsPut(files, s.parts, t, data, n), lost := s.lost + multiset{t}, ws := s.ws[k := Idle],
         fatal := true, cancelled := true)
    case Stop(k) => s.(ws := s.ws[k := Stopped])
    case Cancel => s.(cancelled := true)
  }

  // ---------------------------------------------------------------------------------------
  // What the workers hold between them

  predicate Holds(w: Worker, t: Task) {
    (w.Fetching? || w.Fetched?) && w.t == t
  }

  predicate Scribes(w: Worker, t: Task) {
    w.Writing? && w.t == t
  }

  function One(b: bool): nat {
    if b then 1 else 0
  }

  function HeldBy(ws: seq<Worker>, t: Task): nat {
    if ws == [] then 0 else HeldBy(ws[..|ws| - 1], t) + One(Holds(ws[|ws| - 1], t))
  }

  function ScribedBy(ws: seq<Worker>, t: Task): nat {
    if ws == [] then 0 else ScribedBy(ws[..|ws| - 1], t) + One(Scribes(ws[|ws| - 1], t))
  }

  lemma {:induction false} WorkerChanges(ws: seq<Worker>, k: nat, w: Worker, t: Task)
    requires k < |ws|
    ensures HeldBy(ws[k := w], t) + One(Holds(ws[k], t)) == HeldBy(ws, t) + One(Holds(w, t))
    ensures ScribedBy(ws[k := w], t) + One(Scribes(ws[k], t)) == ScribedBy(ws, t) + One(Scribes(w, t))
  {
    hide Holds, Scribes, One;
    var n := |ws| - 1;
    if k < n {
      WorkerChanges(ws[..n], k, w, t);
      assert ws[k := w][..n] == ws[..n][k := w];
    } else {
      assert ws[k := w][..n] == ws[..n];
    }
  }

  lemma {:induction false} ScribesAreWriting(ws: seq<Worker>, t: Task)
    requires ScribedBy(ws, t) > 0
    ensures exists k :: 0 <= k < |ws| && ws[k].Writing? && ws[k].t == t
  {
    var n := |ws| - 1;
    if ScribedBy(ws[..n], t) > 0 {
      ScribesAreWriting(ws[..n], t);
      var k :| 0 <= k < n && ws[..n][k].Writing? && ws[..n][k].t == t;
      assert ws[k].Writing?;
    } else {
      assert ws[n].Writing? && ws[n].t == t;
    }
  }

  // ---------------------------------------------------------------------------------------
  // The invariant

  ghost predicate WorkerSound(files: seq<SwarmFile>, seeds: seq<Data>, tasks: set<Task>, w: Worker)
    requires FromSeed(files, seeds)
  {
    && (w.Fetching? || w.Fetched? || w.Writing? ==> w.t in tasks && InFiles(files, w.t))
    && (w.Fetched? || w.Writing? ==> w.data == SeedAt(files, seeds, w.t))
  }

  ghost predicate WorkersSound(files: seq<SwarmFile>, seeds: seq<Data>, tasks: set<Task>, ws: seq<Worker>)
    requires FromSeed(files, seeds)
  {
    forall k :: 0 <= k < |ws| ==> WorkerSound(files, seeds, tasks, ws[k])
  }

  ghost predicate TasksInFiles(files: seq<SwarmFile>, finals: seq<Option<Data>>, tasks: set<Task>) {
    forall t :: t in tasks ==> InFiles(files, t) && t.file < |finals| && !FinalOk(files[t.file], finals[t.file])
  }

  /** What is offered to other peers is the seed's. */
  ghost predicate AvailSound(files: seq<SwarmFile>, seeds: seq<Data>, finals: seq<Option<Data>>,
      parts: seq<Option<Data>>, avail: set<Task>)
    requires FromSeed(files, seeds) && Sized(files, finals, parts)
  {
    forall t :: t in avail ==> InFiles(files, t) && Held(files, finals, parts, t) == Some(SeedAt(files, seeds, t))
  }

  ghost predicate Covered(files: seq<SwarmFile>, tasks: set<Task>, avail: set<Task>) {
    forall t :: InFiles(files, t) ==> t in tasks || t in avail
  }

  /** For one task: the picker counts the workers fetching it, and its first completion is being
      written, written, or lost to a write error. */
  predicate TaskAccounted(run: Run, ws: seq<Worker>, written: multiset<Task>, lost: multiset<Task>, t: Task) {
    HeldBy(ws, t) == run.held[t] && ScribedBy(ws, t) + written[t] + lost[t] == run.firsts[t]
  }

  ghost predicate Accounted(run: Run, ws: seq<Worker>, written: multiset<Task>, lost: multiset<Task>) {
    forall t :: TaskAccounted(run, ws, written, lost, t)
  }

  predicate Flags(lost: multiset<Task>, fatal: bool, cancelled: bool) {
    (lost != multiset{} ==> fatal) && (fatal ==> cancelled)
  }

  ghost predicate WrittenAvail(written: multiset<Task>, avail: set<Task>) {
    forall t :: t in written ==> t in avail
  }

  /** A worker stops only when told to or when everything is done. */
  predicate Stops(ws: seq<Worker>, over: bool) {
    forall k :: 0 <= k < |ws| && ws[k].Stopped? ==> over
  }

  ghost predicate JoinSound(files: seq<SwarmFile>, seeds: seq<Data>, s: Join)
    requires FromSeed(files, seeds)
  {
    && RunSound(s.run)
    && WorkersSound(files, seeds, s.run.tasks, s.ws)
    && Sized(files, s.finals, s.parts)
    && TasksInFiles(files, s.finals, s.run.tasks)
    && AvailSound(files, seeds, s.finals, s.parts, s.avail)
    && Covered(files, s.run.tasks, s.avail)
    && Accounted(s.run, s.ws, s.written, s.lost)
    && Flags(s.lost, s.fatal, s.cancelled)
    && WrittenAvail(s.written, s.avail)
    && Stops(s.ws, s.cancelled || AllDone(s.run.p))
  }

  lemma IdleIsSound(files: seq<SwarmFile>, seeds: seq<Data>, tasks: set<Task>, ws: seq<Worker>, k: nat)
    requires FromSeed(files, seeds) && WorkersSound(files, seeds, tasks, ws) && k < |ws|
    ensures WorkersSound(files, seeds, tasks, ws[k := Idle]) && WorkersSound(files, seeds, tasks, ws[k := Stopped])
  {
  }

  lemma PickIsSound(files: seq<SwarmFile>, seeds: seq<Data>, s: Join, k: nat, t: Task)
    requires FromSeed(files, seeds) && WorkersSound(files, seeds, s.run.tasks, s.ws)
    requires TasksInFiles(files, s.finals, s.run.tasks)
    requires k < |s.ws| && RunSound(s.run) && (t in s.run.p.pending || t in s.run.p.inflight)
    ensures WorkersSound(files, seeds, s.run.tasks, s.ws[k := Fetching(t)])
  {
    assert TaskSound(s.run, t);
  }

  lemma FetchIsSound(files: seq<SwarmFile>, seeds: seq<Data>, tasks: set<Task>, ws: seq<Worker>, k: nat, data: Data)
    requires FromSeed(files, seeds) && WorkersSound(files, seeds, tasks, ws)
    requires k < |ws| && ws[k].Fetching? && ws[k].t.file < |files| && ChunkOk(files[ws[k].t.file], ws[k].t.chunk, data)
    ensures WorkersSound(files, seeds, tasks, ws[k := Fetched(ws[k].t, data)])
  {
    var t := ws[k].t;
    assert WorkerSound(files, seeds, tasks, ws[k]);
    OnlySeedVerifies(files[t.file], seeds[t.file], t.chunk, data);
  }

  lemma WritingIsSound(files: seq<SwarmFile>, seeds: seq<Data>, tasks: set<Task>, ws: seq<Worker>, k: nat)
    requires FromSeed(files, seeds) && WorkersSound(files, seeds, tasks, ws) && k < |ws| && ws[k].Fetched?
    ensures WorkersSound(files, seeds, tasks, ws[k := Writing(ws[k].t, ws[k].data)])
  {
    assert WorkerSound(files, seeds, tasks, ws[k]);
  }

  lemma StopsStay(ws: seq<Worker>, k: nat, w: Worker, over: bool, after: bool)
    requires Stops(ws, over) && (over ==> after) && k < |ws| && (w.Stopped? ==> after)
    ensures Stops(ws[k := w], after)
  {
  }

  lemma DoneGrows(r: Run, ev: Event)
    requires Possible(r, ev)
    ensures AllDone(r.p) ==> AllDone(After(r, ev).p)
    ensures After(r, ev).tasks == r.tasks
  {
    SubsetSize(r.p.done, After(r, ev).p.done);
  }

  /** A picker event of worker k and its new stage keep the accounts when, for every task, what the
      worker lets go of and takes up matches what the picker notes. */
  lemma AccountsStay(run: Run, ev: Event, ws: seq<Worker>, k: nat, w: Worker, written: multiset<Task>,
      lost: multiset<Task>)
    requires Accounted(run, ws, written, lost) && k < |ws| && Possible(run, ev)
    requires match ev
             case Pick(_, t) => ws[k].Idle? && w == Fetching(t)
             case Complete(t) =>
               ws[k].Fetched? && ws[k].t == t && w == (if Completed(run.p, t).1 then Writing(t, ws[k].data) else Idle)
             case Fail(t) => ws[k].Fetching? && ws[k].t == t && w == Idle
    ensures Accounted(After(run, ev), ws[k := w], written, lost)
  {
    var later, changed := After(run, ev), ws[k := w];
    forall t
      ensures TaskAccounted(later, changed, written, lost, t)
    {
      assert TaskAccounted(run, ws, written, lost, t);
      WorkerChanges(ws, k, w, t);
    }
  }

  lemma WriteAccounted(run: Run, ws: seq<Worker>, k: nat, written: multiset<Task>, lost: multiset<Task>)
    requires Accounted(run, ws, written, lost) && k < |ws| && ws[k].Writing?
    ensures Accounted(run, ws[k := Idle], written + multiset{ws[k].t}, lost)
    ensures Accounted(run, ws[k := Idle], written, lost + multiset{ws[k].t})
  {
    var changed, more, gone := ws[k := Idle], written + multiset{ws[k].t}, lost + multiset{ws[k].t};
    forall t
      ensures TaskAccounted(run, changed, more, lost, t)
      ensures TaskAccounted(run, changed, written, gone, t)
    {
      assert TaskAccounted(run, ws, written, lost, t);
      WorkerChanges(ws, k, Idle, t);
    }
  }

  lemma SameAccounts(run: Run, ws: seq<Worker>, k: nat, w: Worker, written: multiset<Task>, lost: multiset<Task>)
    requires Accounted(run, ws, written, lost) && k < |ws|
    requires forall t :: Holds(w, t) == Holds(ws[k], t) && Scribes(w, t) == Scribes(ws[k], t)
    ensures Accounted(run, ws[k := w], written, lost)
  {
    var changed := ws[k := w];
    forall t
      ensures TaskAccounted(run, changed, written, lost, t)
    {
      assert TaskAccounted(run, ws, written, lost, t);
      WorkerChanges(ws, k, w, t);
    }
  }

  lemma TakeStays(files: seq<SwarmFile>, seeds: seq<Data>, s: Join, k: nat, rarity: map<Task, nat>, t: Task)
    requires FromSeed(files, seeds) && JoinSound(files, seeds, s) && Enabled(files, s, Take(k, rarity, t))
    ensures JoinSound(files, seeds, Act(files, s, Take(k, rarity, t)))
  {
    hide RunSound, WorkersSound, TasksInFiles, Sized, AvailSound, Covered, Accounted, WrittenAvail, Stops,
        FromSeed, AllDone, After;
    var ev := Pickers.Pick(rarity, t);
    StepSound(s.run, ev);
    DoneGrows(s.run, ev);
    PickIsSound(files, seeds, s, k, t);
    AccountsStay(s.run, ev, s.ws, k, Fetching(t), s.written, s.lost);
    StopsStay(s.ws, k, Fetching(t), s.cancelled || AllDone(s.run.p), s.cancelled || AllDone(After(s.run, ev).p));
  }

  lemma FetchStays(files: seq<SwarmFile>, seeds: seq<Data>, s: Join, k: nat, data: Data)
    requires FromSeed(files, seeds) && JoinSound(files, seeds, s) && Enabled(files, s, Fetch(k, data))
    ensures JoinSound(files, seeds, Act(files, s, Fetch(k, data)))
  {
    hide RunSound, WorkersSound, TasksInFiles, Sized, AvailSound, Covered, Accounted, WrittenAvail, Stops,
        FromSeed, AllDone, ChunkOk;
    var w := Fetched(s.ws[k].t, data);
    FetchIsSound(files, seeds, s.run.tasks, s.ws, k, data);
    SameAccounts(s.run, s.ws, k, w, s.written, s.lost);
    StopsStay(s.ws, k, w, s.cancelled || AllDone(s.run.p), s.cancelled || AllDone(s.run.p));
  }

  lemma FetchFailsStays(files: seq<SwarmFile>, seeds: seq<Data>, s: Join, k: nat)
    requires FromSeed(files, seeds) && JoinSound(files, seeds, s) && Enabled(files, s, FetchFails(k))
    ensures JoinSound(files, seeds, Act(files, s, FetchFails(k)))
  {
    hide RunSound, WorkersSound, TasksInFiles, Sized, AvailSound, Covered, Accounted, WrittenAvail, Stops,
        FromSeed, AllDone, After, FailedTask;
    var ev := Fail(s.ws[k].t);
    StepSound(s.run, ev);
    DoneGrows(s.run, ev);
    IdleIsSound(files, seeds, s.run.tasks, s.ws, k);
    AccountsStay(s.run, ev, s.ws, k, Idle, s.written, s.lost);
    var cancelled := Act(files, s, FetchFails(k)).cancelled;
    StopsStay(s.ws, k, Idle, s.cancelled || AllDone(s.run.p), cancelled || AllDone(After(s.run, ev).p));
  }

  lemma FinishStays(files: seq<SwarmFile>, seeds: seq<Data>, s: Join, k: nat)
    requires FromSeed(files, seeds) && JoinSound(files, seeds, s) && Enabled(files, s, Finish(k))
    ensures JoinSound(files, seeds, Act(files, s, Finish(k)))
  {
    hide RunSound, WorkersSound, TasksInFiles, Sized, AvailSound, Covered, Accounted, WrittenAvail, Stops,
        FromSeed, AllDone, After, Completed;
    var t := s.ws[k].t;
    var ev := Pickers.Complete(t);
    var w := if Completed(s.run.p, t).1 then Writing(t, s.ws[k].data) else Idle;
    StepSound(s.run, ev);
    DoneGrows(s.run, ev);
    IdleIsSound(files, seeds, s.run.tasks, s.ws, k);
    WritingIsSound(files, seeds, s.run.tasks, s.ws, k);
    AccountsStay(s.run, ev, s.ws, k, w, s.written, s.lost);
    StopsStay(s.ws, k, w, s.cancelled || AllDone(s.run.p), s.cancelled || AllDone(After(s.run, ev).p));
  }

  lemma FinalIsSeed(files: seq<SwarmFile>, seeds: seq<Data>, finals: seq<Option<Data>>, parts: seq<Option<Data>>,
      t: Task)
    requires FromSeed(files, seeds) && Sized(files, finals, parts) && InFiles(files, t)
    requires FinalOk(files[t.file], finals[t.file])
    ensures Held(files, finals, parts, t) == Some(SeedAt(files, seeds, t))
  {
    assert Sha256(finals[t.file].value) == Sha256(seeds[t.file]);
  }

  /** A write of the seed's bytes, whole or cut short, over chunk t. */
  lemma PutKeepsHeld(files: seq<SwarmFile>, seeds: seq<Data>, finals: seq<Option<Data>>, parts: seq<Option<Data>>,
      t: Task, n: nat, u: Task)
    requires FromSeed(files, seeds) && Sized(files, finals, parts) && InFiles(files, t) && InFiles(files, u)
    requires n <= |SeedAt(files, seeds, t)| && LayoutOf(files, t).Offset(t.chunk) >= 0
    requires Held(files, finals, parts, u) == Some(SeedAt(files, seeds, u))
        || (u == t && n == |SeedAt(files, seeds, t)|)
    ensures Held(files, finals, PartsPut(files, parts, t, SeedAt(files, seeds, t), n), u)
        == Some(SeedAt(files, seeds, u))
  {
    if FinalOk(files[u.file], finals[u.file]) {
      FinalIsSeed(files, seeds, finals, PartsPut(files, parts, t, SeedAt(files, seeds, t), n), u);
    } else if u.file == t.file && n > 0 {
      var g, b := LayoutOf(files, t), BytesOf(parts[t.file]);
      hide SeedAt, FromSeed, Chunk, Put;
      SameBytes(g, parts[t.file], u.chunk);
      if u == t {
        PutHolds(g, b, t.chunk, SeedAt(files, seeds, t), n);
      } else {
        PutKeepsOthers(g, b, t.chunk, SeedAt(files, seeds, t), n, u.chunk);
      }
    }
  }

  lemma SameBytes(g: Layout, p: Option<Data>, i: nat)
    requires Regular(g, i)
    ensures Chunk(g, Some(BytesOf(p)), i) == Chunk(g, p, i) && Filled(g, Some(BytesOf(p)), i) == Filled(g, p, i)
  {
  }

  lemma PutStays(files: seq<SwarmFile>, seeds: seq<Data>, finals: seq<Option<Data>>, parts: seq<Option<Data>>,
      avail: set<Task>, t: Task, n: nat)
    requires FromSeed(files, seeds) && Sized(files, finals, parts) && AvailSound(files, seeds, finals, parts, avail)
    requires InFiles(files, t) && n <= |SeedAt(files, seeds, t)| && LayoutOf(files, t).Offset(t.chunk) >= 0
    ensures var after := PartsPut(files, parts, t, SeedAt(files, seeds, t), n);
            && Sized(files, finals, after) && AvailSound(files, seeds, finals, after, avail)
            && (n == |SeedAt(files, seeds, t)| ==> AvailSound(files, seeds, finals, after, avail + {t}))
  {
    assert t.file < |parts|;
    hide SeedAt, FromSeed, Held, InFiles;
    var after := PartsPut(files, parts, t, SeedAt(files, seeds, t), n);
    forall u | u in avail || (u == t && n == |SeedAt(files, seeds, t)|)
      ensures InFiles(files, u) && Held(files, finals, after, u) == Some(SeedAt(files, seeds, u))
    {
      PutKeepsHeld(files, seeds, finals, parts, t, n, u);
    }
  }

  lemma OpenPartStays(files: seq<SwarmFile>, seeds: seq<Data>, s: Join, k: nat, truncates: bool)
    requires FromSeed(files, seeds) && JoinSound(files, seeds, s) && Enabled(files, s, OpenPart(k, truncates))
    ensures JoinSound(files, seeds, Act(files, s, OpenPart(k, truncates)))
  {
    hide RunSound, WorkersSound, TasksInFiles, Covered, Accounted, WrittenAvail, Stops, FromSeed, AllDone, SeedAt,
        Chunk;
    var after := Act(files, s, OpenPart(k, truncates));
    var i := s.ws[k].t.file;
    forall t | t in s.avail
      ensures InFiles(files, t) && Held(files, s.finals, after.parts, t) == Some(SeedAt(files, seeds, t))
    {
      if t.file == i {
        OpeningKeeps(LayoutOf(files, t), s.parts[i], truncates, t.chunk);
      }
    }
  }

  lemma WriteStays(files: seq<SwarmFile>, seeds: seq<Data>, s: Join, k: nat)
    requires FromSeed(files, seeds) && JoinSound(files, seeds, s) && Enabled(files, s, Write(k))
    ensures JoinSound(files, seeds, Act(files, s, Write(k)))
  {
    assert WorkerSound(files, seeds, s.run.tasks, s.ws[k]);
    hide RunSound, WorkersSound, TasksInFiles, AvailSound, Accounted, Stops, FromSeed, AllDone, InFiles, SeedAt,
        PartsPut, LayoutOf;
    IdleIsSound(files, seeds, s.run.tasks, s.ws, k);
    PutStays(files, seeds, s.finals, s.parts, s.avail, s.ws[k].t, |s.ws[k].data|);
    WriteAccounted(s.run, s.ws, k, s.written, s.lost);
    StopsStay(s.ws, k, Idle, s.cancelled || AllDone(s.run.p), s.cancelled || AllDone(s.run.p));
  }

  lemma WriteFailsStays(files: seq<SwarmFile>, seeds: seq<Data>, s: Join, k: nat, n: nat)
    requires FromSeed(files, seeds) && JoinSound(files, seeds, s) && Enabled(files, s, WriteFails(k, n))
    ensures JoinSound(files, seeds, Act(files, s, WriteFails(k, n)))
  {
    assert WorkerSound(files, seeds, s.run.tasks, s.ws[k]);
    hide RunSound, WorkersSound, TasksInFiles, AvailSound, Covered, Accounted, WrittenAvail, Stops, FromSeed,
        AllDone, InFiles, SeedAt, PartsPut, LayoutOf;
    IdleIsSound(files, seeds, s.run.tasks, s.ws, k);
    PutStays(files, seeds, s.finals, s.parts, s.avail, s.ws[k].t, n);
    WriteAccounted(s.run, s.ws, k, s.written, s.lost);
    StopsStay(s.ws, k, Idle, s.cancelled || AllDone(s.run.p), true);
  }

  lemma StopStays(files: seq<SwarmFile>, seeds: seq<Data>, s: Join, k: nat)
    requires FromSeed(files, seeds) && JoinSound(files, seeds, s) && Enabled(files, s, Stop(k))
    ensures JoinSound(files, seeds, Act(files, s, Stop(k)))
  {
    hide RunSound, WorkersSound, TasksInFiles, Sized, AvailSound, Covered, Accounted, WrittenAvail, Stops,
        FromSeed, AllDone;
    IdleIsSound(files, seeds, s.run.tasks, s.ws, k);
    SameAccounts(s.run, s.ws, k, Stopped, s.written, s.lost);
    StopsStay(s.ws, k, Stopped, s.cancelled || AllDone(s.run.p), s.cancelled || AllDone(s.run.p));
  }

  lemma CancelStays(files: seq<SwarmFile>, seeds: seq<Data>, s: Join)
    requires FromSeed(files, seeds) && JoinSound(files, seeds, s)
    ensures JoinSound(files, seeds, Act(files, s, Cancel))
  {
    hide RunSound, WorkersSound, TasksInFiles, Sized, AvailSound, Covered, Accounted, WrittenAvail, FromSeed,
        AllDone;
  }

  lemma StepStays(files: seq<SwarmFile>, seeds: seq<Data>, s: Join, st: Step)
    requires FromSeed(files, seeds) && JoinSound(files, seeds, s) && Enabled(files, s, st)
    ensures JoinSound(files, seeds, Act(files, s, st))
  {
    hide JoinSound, Act, Enabled;
    match st
    case Take(k, rarity, t) => TakeStays(files, seeds, s, k, rarity, t);
    case Fetch(k, data) => FetchStays(files, seeds, s, k, data);
    case FetchFails(k) => FetchFailsStays(files, seeds, s, k);
    case Finish(k) => FinishStays(files, seeds, s, k);
    case OpenPart(k, truncates) => OpenPartStays(files, seeds, s, k, truncates);
    case Write(k) => WriteStays(files, seeds, s, k);
    case WriteFails(k, n) => WriteFailsStays(files, seeds, s, k, n);
    case Stop(k) => StopStays(files, seeds, s, k);
    case Cancel => CancelStays(files, seeds, s);
  }

  // ---------------------------------------------------------------------------------------
  // Whole joins

  function AllTasks(files: seq<SwarmFile>): (ts: set<Task>)
    ensures forall t :: t in ts <==> InFiles(files, t)
  {
    set i: nat, c: nat | i < |files| && c < CanonicalLayout(files[i].size).Count() :: Task(i, c)
  }

  /** What a join starts from: final files that may be anything, parts that may be absent or of any length,
      chunks whose read fails during the scan of the parts, and a number of workers. */
  datatype Setup = Setup(files: seq<SwarmFile>, finals: seq<Option<Data>>, parts: seq<Option<Data>>,
                         unread: set<Task>, workers: nat)

  ghost predicate Ready(u: Setup, seeds: seq<Data>) {
    FromSeed(u.files, seeds) && Sized(u.files, u.finals, u.parts)
  }

  predicate LocalTask(u: Setup, t: Task)
    requires Sized(u.files, u.finals, u.parts) && t.file < |u.files|
  {
    Local(u.files[t.file], u.finals[t.file], u.parts[t.file], t !in u.unread, t.chunk)
  }

  /** The chunks that need not be fetched. */
  function LocalTasks(u: Setup): (ts: set<Task>)
    requires Sized(u.files, u.finals, u.parts)
    ensures forall t :: t in ts <==> InFiles(u.files, t) && LocalTask(u, t)
  {
    set t | t in AllTasks(u.files) && LocalTask(u, t)
  }

  /** Chunks that verify are kept and offered, all the others become tasks. */
  function Start(u: Setup): Join
    requires Sized(u.files, u.finals, u.parts)
  {
    Join(NewRun(AllTasks(u.files) - LocalTasks(u)), u.finals, u.parts, {}, LocalTasks(u), multiset{}, multiset{},
         seq(u.workers, _ => Idle), false, false)
  }

  lemma {:induction false} NobodyWorks(ws: seq<Worker>, t: Task)
    requires forall k :: 0 <= k < |ws| ==> ws[k].Idle? || ws[k].Stopped?
    ensures HeldBy(ws, t) == 0 && ScribedBy(ws, t) == 0
  {
    if ws != [] {
      NobodyWorks(ws[..|ws| - 1], t);
    }
  }

  lemma KeptIsSeed(u: Setup, seeds: seq<Data>, t: Task)
    requires Ready(u, seeds) && InFiles(u.files, t) && LocalTask(u, t)
    ensures Held(u.files, u.finals, u.parts, t) == Some(SeedAt(u.files, seeds, t))
  {
    if FinalOk(u.files[t.file], u.finals[t.file]) {
      FinalIsSeed(u.files, seeds, u.finals, u.parts, t);
    } else {
      var c := Chunk(LayoutOf(u.files, t), u.parts[t.file], t.chunk);
      OnlySeedVerifies(u.files[t.file], seeds[t.file], t.chunk, c.value);
    }
  }

  lemma StartIsSound(u: Setup, seeds: seq<Data>)
    requires Ready(u, seeds)
    ensures JoinSound(u.files, seeds, Start(u))
  {
    var s := Start(u);
    NewRunSound(s.run.tasks);
    StartAvail(u, seeds);
    StartTasks(u);
    StartAccounts(s.run.tasks, s.ws);
    StartWorkers(u.files, seeds, s.run.tasks, s.ws);
    hide FromSeed, InFiles, RunSound, Accounted, AvailSound, AllDone, WorkersSound, TasksInFiles, LocalTask;
  }

  lemma StartTasks(u: Setup)
    requires Sized(u.files, u.finals, u.parts)
    ensures TasksInFiles(u.files, u.finals, Start(u).run.tasks)
  {
    hide InFiles, Kept;
  }

  lemma StartWorkers(files: seq<SwarmFile>, seeds: seq<Data>, tasks: set<Task>, ws: seq<Worker>)
    requires FromSeed(files, seeds) && forall k :: 0 <= k < |ws| ==> ws[k].Idle?
    ensures WorkersSound(files, seeds, tasks, ws)
  {
  }

  lemma StartAvail(u: Setup, seeds: seq<Data>)
    requires Ready(u, seeds)
    ensures AvailSound(u.files, seeds, u.finals, u.parts, Start(u).avail)
  {
    hide FromSeed, SeedAt, InFiles, Held, LocalTask;
    forall t | t in Start(u).avail
      ensures InFiles(u.files, t) && Held(u.files, u.finals, u.parts, t) == Some(SeedAt(u.files, seeds, t))
    {
      KeptIsSeed(u, seeds, t);
    }
  }

  lemma StartAccounts(tasks: set<Task>, ws: seq<Worker>)
    requires forall k :: 0 <= k < |ws| ==> ws[k].Idle?
    ensures Accounted(NewRun(tasks), ws, multiset{}, multiset{})
  {
    var run, none := NewRun(tasks), multiset{};
    forall t
      ensures TaskAccounted(run, ws, none, none, t)
    {
      NobodyWorks(ws, t);
    }
  }

  ghost function JoinFrom(files: seq<SwarmFile>, s: Join, steps: seq<Step>): Option<Join>
    decreases |steps|
  {
    if steps == [] then Some(s)
    else if Enabled(files, s, steps[0]) then JoinFrom(files, Act(files, s, steps[0]), steps[1..])
    else None
  }

  /** The join after these steps, if they are possible. */
  ghost function Joined(u: Setup, steps: seq<Step>): Option<Join>
    requires Sized(u.files, u.finals, u.parts)
  {
    JoinFrom(u.files, Start(u), steps)
  }

  lemma {:induction false} JoinsStaySound(files: seq<SwarmFile>, seeds: seq<Data>, s: Join, steps: seq<Step>)
    requires FromSeed(files, seeds) && JoinSound(files, seeds, s) && JoinFrom(files, s, steps).Some?
    ensures JoinSound(files, seeds, JoinFrom(files, s, steps).value)
    decreases |steps|
  {
    hide FromSeed, JoinSound, Act, Enabled;
    if steps != [] {
      StepStays(files, seeds, s, steps[0]);
      JoinsStaySound(files, seeds, Act(files, s, steps[0]), steps[1..]);
    }
  }

  lemma JoinedIsSound(u: Setup, seeds: seq<Data>, steps: seq<Step>)
    requires Ready(u, seeds) && Joined(u, steps).Some?
    ensures JoinSound(u.files, seeds, Joined(u, steps).value)
  {
    hide JoinSound, Start, FromSeed;
    StartIsSound(u, seeds);
    JoinsStaySound(u.files, seeds, Start(u), steps);
  }

  /** In every interleaving, whatever the peers serve: everything offered to other peers is the seed's,
      and no task is written twice although the endgame fetches it twice. */
  lemma OfferedIsSeed(u: Setup, seeds: seq<Data>, steps: seq<Step>)
    requires Ready(u, seeds) && Joined(u, steps).Some?
    ensures var s := Joined(u, steps).value;
            && Sized(u.files, s.finals, s.parts)
            && (forall t :: t in s.avail ==>
                  InFiles(u.files, t) && Held(u.files, s.finals, s.parts, t) == Some(SeedAt(u.files, seeds, t)))
            && (forall t :: s.written[t] <= 1)
  {
    hide FromSeed, SeedAt, InFiles, Held, Start;
    JoinedIsSound(u, seeds, steps);
    var s := Joined(u, steps).value;
    forall t
      ensures s.written[t] <= 1
    {
      assert TaskAccounted(s.run, s.ws, s.written, s.lost, t) && TaskSound(s.run, t);
    }
  }

  // ---------------------------------------------------------------------------------------
  // The end of a join

  lemma DoneIsWritten(files: seq<SwarmFile>, seeds: seq<Data>, s: Join, t: Task)
    requires FromSeed(files, seeds) && JoinSound(files, seeds, s) && !s.fatal && InFiles(files, t)
    requires t in s.run.tasks ==> t in s.run.p.done
    requires forall k :: 0 <= k < |s.ws| ==> s.ws[k].Stopped?
    ensures t in s.avail
  {
    hide FromSeed, SeedAt, InFiles, AvailSound, WorkersSound;
    if t in s.run.tasks {
      assert TaskSound(s.run, t) && TaskAccounted(s.run, s.ws, s.written, s.lost, t);
      NobodyWorks(s.ws, t);
      assert t in s.written;
    }
  }

  lemma DoneStaysDone(files: seq<SwarmFile>, s: Join, st: Step, t: Task)
    requires Enabled(files, s, st) && t in s.run.p.done
    ensures t in Act(files, s, st).run.p.done
  {
    hide PartsPut, Put, Fitted;
  }

  lemma WriterIsDone(files: seq<SwarmFile>, seeds: seq<Data>, s: Join, k: nat)
    requires FromSeed(files, seeds) && JoinSound(files, seeds, s) && k < |s.ws| && s.ws[k].Writing?
    ensures s.ws[k].t in s.run.p.done && InFiles(files, s.ws[k].t) && s.ws[k].data == SeedAt(files, seeds, s.ws[k].t)
  {
    assert WorkerSound(files, seeds, s.run.tasks, s.ws[k]);
    hide FromSeed, WorkersSound, AvailSound, Covered, InFiles, SeedAt;
    var t := s.ws[k].t;
    assert TaskAccounted(s.run, s.ws, s.written, s.lost, t) && TaskSound(s.run, t);
    WorkerChanges(s.ws, k, Idle, t);
  }

  lemma StepKeeps(files: seq<SwarmFile>, s: Join, st: Step)
    requires Enabled(files, s, st)
    ensures Act(files, s, st).run.tasks == s.run.tasks && Act(files, s, st).finals == s.finals
    ensures |Act(files, s, st).parts| == |s.parts|
  {
    hide Put, Fitted;
  }

  lemma PutKeepsFilled(files: seq<SwarmFile>, seeds: seq<Data>, parts: seq<Option<Data>>, t: Task, n: nat, v: Task)
    requires FromSeed(files, seeds) && |parts| == |files| && InFiles(files, t) && InFiles(files, v) && t != v
    requires n <= |SeedAt(files, seeds, t)| && LayoutOf(files, t).Offset(t.chunk) >= 0
    ensures FilledAt(files, PartsPut(files, parts, t, SeedAt(files, seeds, t), n), v) == FilledAt(files, parts, v)
  {
    if v.file == t.file && n > 0 {
      var g := LayoutOf(files, t);
      hide SeedAt, FromSeed, Filled, Put;
      SameBytes(g, parts[t.file], v.chunk);
      PutKeepsOthers(g, BytesOf(parts[t.file]), t.chunk, SeedAt(files, seeds, t), n, v.chunk);
    }
  }

  /** Opening a part, and writing chunks of finished tasks, leave the bytes of an unfinished one. */
  lemma StepKeepsUnfinished(files: seq<SwarmFile>, seeds: seq<Data>, s: Join, st: Step, t: Task)
    requires FromSeed(files, seeds) && JoinSound(files, seeds, s) && Enabled(files, s, st)
    requires t !in s.run.p.done && InFiles(files, t) && |Act(files, s, st).parts| == |files|
    ensures FilledAt(files, Act(files, s, st).parts, t) == FilledAt(files, s.parts, t)
  {
    hide JoinSound, FromSeed, SeedAt, PartsPut, Filled;
    match st
    case OpenPart(k, truncates) =>
      if s.ws[k].t.file == t.file {
        OpeningKeeps(LayoutOf(files, t), s.parts[t.file], truncates, t.chunk);
      }
    case Write(k) =>
      WriterIsDone(files, seeds, s, k);
      PutKeepsFilled(files, seeds, s.parts, s.ws[k].t, |s.ws[k].data|, t);
    case WriteFails(k, n) =>
      WriterIsDone(files, seeds, s, k);
      PutKeepsFilled(files, seeds, s.parts, s.ws[k].t, n, t);
    case _ =>
  }

  /** A task that is not done. */
  predicate Lacking(s: Join, t: Task) {
    t in s.run.tasks && t !in s.run.p.done
  }

  /** The bytes of unfinished tasks are as they were at the start. */
  ghost predicate Untouched(files: seq<SwarmFile>, parts0: seq<Option<Data>>, s: Join)
    requires |parts0| == |files| == |s.parts|
  {
    forall t :: Lacking(s, t) && InFiles(files, t) ==> FilledAt(files, s.parts, t) == FilledAt(files, parts0, t)
  }

  lemma UntouchedStays(files: seq<SwarmFile>, seeds: seq<Data>, parts0: seq<Option<Data>>, s: Join, st: Step)
    requires FromSeed(files, seeds) && JoinSound(files, seeds, s) && Enabled(files, s, st)
    requires |parts0| == |files| && Untouched(files, parts0, s)
    ensures |Act(files, s, st).parts| == |files| && Untouched(files, parts0, Act(files, s, st))
  {
    assert |s.parts| == |files|;
    hide JoinSound, FromSeed, Act, Enabled, FilledAt, InFiles;
    var later := Act(files, s, st);
    StepKeeps(files, s, st);
    forall t | Lacking(later, t) && InFiles(files, t)
      ensures FilledAt(files, later.parts, t) == FilledAt(files, parts0, t)
    {
      if t in s.run.p.done {
        DoneStaysDone(files, s, st, t);
      }
      StepKeepsUnfinished(files, seeds, s, st, t);
    }
  }

  lemma {:induction false} JoinsStayUntouched(files: seq<SwarmFile>, seeds: seq<Data>, parts0: seq<Option<Data>>,
      s: Join, steps: seq<Step>)
    requires FromSeed(files, seeds) && JoinSound(files, seeds, s) && JoinFrom(files, s, steps).Some?
    requires |parts0| == |files| == |s.parts| && Untouched(files, parts0, s)
    ensures var end := JoinFrom(files, s, steps).value;
            |end.parts| == |files| && Untouched(files, parts0, end) && end.run.tasks == s.run.tasks
                && end.finals == s.finals
    decreases |steps|
  {
    hide FromSeed, JoinSound, Act, Enabled, Untouched;
    if steps != [] {
      StepStays(files, seeds, s, steps[0]);
      StepKeeps(files, s, steps[0]);
      UntouchedStays(files, seeds, parts0, s, steps[0]);
      JoinsStayUntouched(files, seeds, parts0, Act(files, s, steps[0]), steps[1..]);
    }
  }

  /** Every chunk of every file is held and is the seed's. */
  ghost predicate AllSeed(files: seq<SwarmFile>, seeds: seq<Data>, finals: seq<Option<Data>>, parts: seq<Option<Data>>)
    requires FromSeed(files, seeds) && Sized(files, finals, parts)
  {
    forall t :: InFiles(files, t) ==> Held(files, finals, parts, t) == Some(SeedAt(files, seeds, t))
  }

  predicate AllStopped(s: Join) {
    forall k :: 0 <= k < |s.ws| ==> s.ws[k].Stopped?
  }

  /** The chunk of an unfinished task is the seed's although nobody wrote it: it held the seed's bytes at the
      start, as far as it went and zeros from there, and the part has come to go on to its end. */
  ghost predicate SeedUnwritten(u: Setup, seeds: seq<Data>, s: Join, t: Task)
    requires Ready(u, seeds) && InFiles(u.files, t) && |s.parts| == |u.files|
  {
    Reaches(u.files, s.parts, t) && FilledAt(u.files, u.parts, t) == SeedAt(u.files, seeds, t)
  }

  lemma LackingIsHeld(u: Setup, seeds: seq<Data>, s: Join, t: Task)
    requires Ready(u, seeds) && Sized(u.files, s.finals, s.parts) && TasksInFiles(u.files, s.finals, s.run.tasks)
    requires Untouched(u.files, u.parts, s) && Lacking(s, t)
    ensures InFiles(u.files, t)
    ensures Held(u.files, s.finals, s.parts, t) == Some(SeedAt(u.files, seeds, t)) <==> SeedUnwritten(u, seeds, s, t)
  {
    hide SeedAt, FromSeed, Filled, Chunk;
    if Reaches(u.files, s.parts, t) {
      WholeIsFilled(LayoutOf(u.files, t), s.parts[t.file], t.chunk);
    }
  }

  lemma JoinedIsUntouched(u: Setup, seeds: seq<Data>, steps: seq<Step>)
    requires Ready(u, seeds) && Joined(u, steps).Some?
    ensures var s := Joined(u, steps).value;
            && Sized(u.files, s.finals, s.parts) && TasksInFiles(u.files, s.finals, s.run.tasks)
            && Untouched(u.files, u.parts, s) && s.finals == u.finals
  {
    var start := Start(u);
    assert Untouched(u.files, u.parts, start);
    hide FromSeed, Untouched, Start, TasksInFiles;
    StartIsSound(u, seeds);
    JoinedIsSound(u, seeds, steps);
    JoinsStayUntouched(u.files, seeds, u.parts, start, steps);
  }

  /** When all workers have stopped without a fatal error, whether the caller cancelled or not: every chunk of
      every file is the seed's exactly when each unfinished task's chunk is so without having been written. */
  lemma FinishedIsSeed(u: Setup, seeds: seq<Data>, steps: seq<Step>)
    requires Ready(u, seeds) && Joined(u, steps).Some?
    requires !Joined(u, steps).value.fatal && AllStopped(Joined(u, steps).value)
    ensures var s := Joined(u, steps).value;
            && Sized(u.files, s.finals, s.parts)
            && (forall t :: Lacking(s, t) ==> InFiles(u.files, t))
            && (AllSeed(u.files, seeds, s.finals, s.parts)
                <==> forall t :: Lacking(s, t) ==> SeedUnwritten(u, seeds, s, t))
  {
    hide FromSeed, SeedAt, Held, SeedUnwritten, Joined, Untouched;
    JoinedIsSound(u, seeds, steps);
    JoinedIsUntouched(u, seeds, steps);
    var s := Joined(u, steps).value;
    forall t | Lacking(s, t)
      ensures InFiles(u.files, t)
      ensures Held(u.files, s.finals, s.parts, t) == Some(SeedAt(u.files, seeds, t)) <==> SeedUnwritten(u, seeds, s, t)
    {
      LackingIsHeld(u, seeds, s, t);
    }
    forall t | InFiles(u.files, t) && !Lacking(s, t)
      ensures Held(u.files, s.finals, s.parts, t) == Some(SeedAt(u.files, seeds, t))
    {
      DoneIsWritten(u.files, seeds, s, t);
    }
  }

  lemma DoneAreTasks(r: Run)
    requires RunSound(r)
    ensures r.p.done <= r.tasks
  {
    forall t | t in r.p.done
      ensures t in r.tasks
    {
      assert TaskSound(r, t);
    }
  }

  /** So with all tasks done it is the seed's. */
  lemma DoneIsSeed(u: Setup, seeds: seq<Data>, steps: seq<Step>)
    requires Ready(u, seeds) && Joined(u, steps).Some?
    requires var s := Joined(u, steps).value; !s.fatal && AllStopped(s) && AllDone(s.run.p)
    ensures var s := Joined(u, steps).value;
            Sized(u.files, s.finals, s.parts) && AllSeed(u.files, seeds, s.finals, s.parts)
  {
    hide FromSeed, AllSeed, SeedUnwritten, Joined;
    JoinedIsSound(u, seeds, steps);
    FinishedIsSeed(u, seeds, steps);
    AllDoneMeansAll(Joined(u, steps).value.run);
  }

  predicate Uncancelled(steps: seq<Step>) {
    forall k :: 0 <= k < |steps| ==> !steps[k].Cancel?
  }

  /** Only the caller or a fatal error cancels the workers. */
  lemma {:induction false} CancelledByFatal(files: seq<SwarmFile>, s: Join, steps: seq<Step>)
    requires JoinFrom(files, s, steps).Some? && Uncancelled(steps) && (s.cancelled <==> s.fatal)
    ensures var end := JoinFrom(files, s, steps).value;
            (end.cancelled <==> end.fatal) && (s.fatal ==> end.fatal) && |end.ws| == |s.ws|
    decreases |steps|
  {
    if steps != [] {
      assert !steps[0].Cancel?;
      CancelledByFatal(files, Act(files, s, steps[0]), steps[1..]);
    }
  }

  /** And a join the caller does not cancel either reports a fatal error or has done all its tasks. */
  lemma UncancelledIsDone(u: Setup, seeds: seq<Data>, steps: seq<Step>)
    requires Ready(u, seeds) && u.workers > 0 && Joined(u, steps).Some? && Uncancelled(steps)
    requires var s := Joined(u, steps).value; !s.fatal && AllStopped(s)
    ensures var s := Joined(u, steps).value;
            Sized(u.files, s.finals, s.parts) && AllDone(s.run.p) && AllSeed(u.files, seeds, s.finals, s.parts)
  {
    CancelledByFatal(u.files, Start(u), steps);
    hide FromSeed, AllSeed, AllDone, Joined;
    JoinedIsSound(u, seeds, steps);
    assert Joined(u, steps).value.ws[0].Stopped?;
    DoneIsSeed(u, seeds, steps);
  }

  // ---------------------------------------------------------------------------------------
  // Which parts have come to go on to their end

  /** Every opening of the run truncates the part to its size. */
  predicate Truncating(steps: seq<Step>) {
    forall k :: 0 <= k < |steps| && steps[k].OpenPart? ==> steps[k].truncates
  }

  /** A part opened for writing has its size at least; the others are as they were. */
  predicate Extended(files: seq<SwarmFile>, parts0: seq<Option<Data>>, parts: seq<Option<Data>>, open: set<nat>) {
    && |parts0| == |parts| == |files|
    && forall i :: 0 <= i < |files| ==>
         if i in open then |BytesOf(parts[i])| >= files[i].size else parts[i] == parts0[i]
  }

  lemma PutLengthens(b: Data, off: nat, d: Data)
    ensures |Put(b, off, d)| >= |b|
  {
  }

  lemma ExtendedStays(files: seq<SwarmFile>, parts0: seq<Option<Data>>, s: Join, st: Step)
    requires Enabled(files, s, st) && Extended(files, parts0, s.parts, s.open) && (st.OpenPart? ==> st.truncates)
    ensures Extended(files, parts0, Act(files, s, st).parts, Act(files, s, st).open)
  {
    hide Put, Fitted;
    match st
    case Write(k) => PutsLengthen(files, s.parts, s.ws[k].t, s.ws[k].data, |s.ws[k].data|);
    case WriteFails(k, n) => PutsLengthen(files, s.parts, s.ws[k].t, s.ws[k].data, n);
    case _ =>
  }

  lemma PutsLengthen(files: seq<SwarmFile>, parts: seq<Option<Data>>, t: Task, data: Data, n: nat)
    requires t.file < |parts| == |files| && n <= |data| && LayoutOf(files, t).Offset(t.chunk) >= 0
    ensures forall i :: 0 <= i < |parts| ==> |BytesOf(PartsPut(files, parts, t, data, n)[i])| >= |BytesOf(parts[i])|
  {
    PutLengthens(BytesOf(parts[t.file]), LayoutOf(files, t).Offset(t.chunk), data[..n]);
  }

  lemma {:induction false} JoinsStayExtended(files: seq<SwarmFile>, parts0: seq<Option<Data>>, s: Join,
      steps: seq<Step>)
    requires Extended(files, parts0, s.parts, s.open) && JoinFrom(files, s, steps).Some? && Truncating(steps)
    ensures var end := JoinFrom(files, s, steps).value; Extended(files, parts0, end.parts, end.open)
    decreases |steps|
  {
    hide Act, Enabled, Extended;
    if steps != [] {
      ExtendedStays(files, parts0, s, steps[0]);
      JoinsStayExtended(files, parts0, Act(files, s, steps[0]), steps[1..]);
    }
  }

  /** When truncations succeed, an unfinished task's chunk is the seed's exactly when it held the seed's bytes
      at the start, zeros from its old end on, and either its file has been opened for writing or the part
      went on to its end already. */
  lemma UnwrittenIffOpened(u: Setup, seeds: seq<Data>, steps: seq<Step>, t: Task)
    requires Ready(u, seeds) && Joined(u, steps).Some? && Truncating(steps) && Lacking(Joined(u, steps).value, t)
    ensures var s := Joined(u, steps).value;
            && InFiles(u.files, t) && |s.parts| == |u.files|
            && (SeedUnwritten(u, seeds, s, t)
                <==> (t.file in s.open || Reaches(u.files, u.parts, t))
                     && FilledAt(u.files, u.parts, t) == SeedAt(u.files, seeds, t))
  {
    JoinedIsUntouched(u, seeds, steps);
    JoinsStayExtended(u.files, u.parts, Start(u), steps);
    var s := Joined(u, steps).value;
    assert InFiles(u.files, t);
    hide FromSeed, SeedAt, Filled, Joined;
    Tiles(LayoutOf(u.files, t), t.chunk);
  }

  /** A part of its size whose chunks are the seed's is the seed's file, byte for byte. */
  lemma PartIsSeed(files: seq<SwarmFile>, seeds: seq<Data>, finals: seq<Option<Data>>, parts: seq<Option<Data>>, i: nat)
    requires FromSeed(files, seeds) && Sized(files, finals, parts) && AllSeed(files, seeds, finals, parts)
    requires i < |files| && !FinalOk(files[i], finals[i]) && |BytesOf(parts[i])| == files[i].size
    ensures BytesOf(parts[i]) == seeds[i]
  {
    var g, part := CanonicalLayout(files[i].size), BytesOf(parts[i]);
    forall c: nat | c < g.Count()
      ensures Split(g, part)[c] == Split(g, seeds[i])[c]
    {
      assert InFiles(files, Task(i, c));
      assert Held(files, finals, parts, Task(i, c)) == Some(SeedAt(files, seeds, Task(i, c)));
    }
    EqualByChunks(g, part, seeds[i]);
  }

  // ---------------------------------------------------------------------------------------
  // A cancelled join that has the seed without being done

  lemma FirstStep(files: seq<SwarmFile>, s: Join, st: Step, steps: seq<Step>)
    requires Enabled(files, s, st)
    ensures JoinFrom(files, s, [st] + steps) == JoinFrom(files, Act(files, s, st), steps)
  {
    assert ([st] + steps)[1..] == steps;
  }

  /** One file of two chunks, nothing of it here yet, and one worker. */
  ghost predicate TwoChunks(u: Setup, seeds: seq<Data>) {
    && Ready(u, seeds) && |u.files| == 1 && u.finals == [None] && u.parts == [None] && u.workers == 1
    && CanonicalLayout(u.files[0].size).Count() == 2
  }

  lemma TwoTasks(u: Setup, seeds: seq<Data>)
    requires TwoChunks(u, seeds)
    ensures Start(u).run == NewRun({Task(0, 0), Task(0, 1)}) && Start(u).ws == [Idle]
    ensures Start(u).open == {} && !Start(u).fatal && |Start(u).parts| == |u.files| == 1
  {
    var g := CanonicalLayout(u.files[0].size);
    forall t | InFiles(u.files, t)
      ensures !LocalTask(u, t) && t in {Task(0, 0), Task(0, 1)}
    {
      Tiles(g, t.chunk);
    }
    assert AllTasks(u.files) == {Task(0, 0), Task(0, 1)};
    assert LocalTasks(u) == {};
  }

  /** The picker once the first task has been taken, and once it is done. */
  function Took(t: Task, v: Task): Run {
    After(NewRun({t, v}), Pickers.Pick(map[], t))
  }

  lemma TookIs(t: Task, v: Task)
    requires t != v
    ensures Possible(NewRun({t, v}), Pickers.Pick(map[], t)) && Possible(Took(t, v), Complete(t))
    ensures Completed(Took(t, v).p, t).1 && After(Took(t, v), Complete(t)).p.done == {t}
    ensures After(Took(t, v), Complete(t)).tasks == {t, v} && !AllDone(After(Took(t, v), Complete(t)).p)
  {
    assert |{t, v}| == 2;
  }

  lemma {:induction false} JoinSteps(files: seq<SwarmFile>, s: Join, a: seq<Step>, b: seq<Step>)
    requires JoinFrom(files, s, a).Some?
    ensures JoinFrom(files, s, a + b) == JoinFrom(files, JoinFrom(files, s, a).value, b)
    decreases |a|
  {
    hide Act, Enabled;
    if a == [] {
      assert a + b == b;
    } else {
      assert (a + b)[1..] == a[1..] + b;
      JoinSteps(files, Act(files, s, a[0]), a[1..], b);
    }
  }

  /** One idle worker takes t, fetches it and is about to write it. */
  lemma WorkerFetches(files: seq<SwarmFile>, s: Join, t: Task, data: Data) returns (steps: seq<Step>)
    requires s.ws == [Idle] && MayPick(s.run.p, map[], t)
    requires var r := After(s.run, Pickers.Pick(map[], t)); t in r.held && Completed(r.p, t).1
    requires t.file < |files| && ChunkOk(files[t.file], t.chunk, data)
    ensures Truncating(steps)
    ensures var r := After(s.run, Pickers.Pick(map[], t));
            JoinFrom(files, s, steps) == Some(s.(run := After(r, Pickers.Complete(t)), ws := [Writing(t, data)]))
  {
    hide After, Completed, ChunkOk, AllDone, MayPick;
    var s1 := Act(files, s, Take(0, map[], t));
    var s2 := Act(files, s1, Fetch(0, data));
    var s3 := Act(files, s2, Finish(0));
    var none: seq<Step> := [];
    FirstStep(files, s2, Finish(0), none);
    FirstStep(files, s1, Fetch(0, data), [Finish(0)] + none);
    FirstStep(files, s, Take(0, map[], t), [Fetch(0, data)] + ([Finish(0)] + none));
    steps := [Take(0, map[], t)] + ([Fetch(0, data)] + ([Finish(0)] + none));
    assert s3.ws == [Writing(t, data)];
    assert JoinFrom(files, s3, none) == Some(s3);
  }

  /** It opens the part, writes, and is told to stop. */
  lemma WorkerWritesAndStops(files: seq<SwarmFile>, s: Join) returns (steps: seq<Step>)
    requires |s.ws| == 1 && MayWrite(files, s, 0) && s.ws[0].t.file !in s.open && !s.fatal
    ensures JoinFrom(files, s, steps).Some? && Truncating(steps)
    ensures var e := JoinFrom(files, s, steps).value;
            !e.fatal && e.open == s.open + {s.ws[0].t.file} && AllStopped(e) && e.run == s.run
  {
    hide Put, Fitted, AllDone;
    var s1 := Act(files, s, OpenPart(0, true));
    var s2 := Act(files, s1, Write(0));
    var s3 := Act(files, s2, Cancel);
    var s4 := Act(files, s3, Stop(0));
    var none: seq<Step> := [];
    FirstStep(files, s3, Stop(0), none);
    FirstStep(files, s2, Cancel, [Stop(0)] + none);
    FirstStep(files, s1, Write(0), [Cancel] + ([Stop(0)] + none));
    FirstStep(files, s, OpenPart(0, true), [Write(0)] + ([Cancel] + ([Stop(0)] + none)));
    steps := [OpenPart(0, true)] + ([Write(0)] + ([Cancel] + ([Stop(0)] + none)));
    assert JoinFrom(files, s4, none) == Some(s4);
  }

  lemma FirstChunkVerifies(u: Setup, seeds: seq<Data>)
    requires TwoChunks(u, seeds)
    ensures CanonicalLayout(u.files[0].size).Offset(0) >= 0
    ensures ChunkOk(u.files[0], 0, SeedAt(u.files, seeds, Task(0, 0)))
  {
    Tiles(CanonicalLayout(u.files[0].size), 0);
    OnlySeedVerifies(u.files[0], seeds[0], 0, SeedAt(u.files, seeds, Task(0, 0)));
  }

  /** Both together. */
  lemma WorkerRuns(files: seq<SwarmFile>, s: Join, t: Task, data: Data) returns (steps: seq<Step>)
    requires s.ws == [Idle] && MayPick(s.run.p, map[], t) && !s.fatal && t.file !in s.open
    requires var r := After(s.run, Pickers.Pick(map[], t)); t in r.held && Completed(r.p, t).1
    requires t.file < |s.parts| == |files| && ChunkOk(files[t.file], t.chunk, data)
    requires LayoutOf(files, t).Offset(t.chunk) >= 0
    ensures JoinFrom(files, s, steps).Some? && Truncating(steps)
    ensures var e := JoinFrom(files, s, steps).value;
            && !e.fatal && e.open == s.open + {t.file} && AllStopped(e)
            && e.run == After(After(s.run, Pickers.Pick(map[], t)), Pickers.Complete(t))
  {
    hide After, Completed, MayPick, Truncating, JoinFrom, ChunkOk, LayoutOf;
    var a := WorkerFetches(files, s, t, data);
    var s1 := JoinFrom(files, s, a).value;
    assert MayWrite(files, s1, 0);
    var b := WorkerWritesAndStops(files, s1);
    JoinSteps(files, s, a, b);
    BothTruncate(a, b);
    steps := a + b;
  }

  lemma OneWorkerWrites(u: Setup, seeds: seq<Data>) returns (steps: seq<Step>)
    requires TwoChunks(u, seeds)
    ensures Joined(u, steps).Some? && Truncating(steps)
    ensures var s := Joined(u, steps).value;
            && !s.fatal && s.open == {0} && AllStopped(s)
            && s.run == After(Took(Task(0, 0), Task(0, 1)), Complete(Task(0, 0)))
  {
    hide Start, FromSeed, SeedAt, LocalTasks, AllTasks, ChunkOk, MayPick, Completed, Possible, AllDone, After, NewRun;
    var t, v := Task(0, 0), Task(0, 1);
    TwoTasks(u, seeds);
    TookIs(t, v);
    TakenTask(t, v);
    FirstChunkVerifies(u, seeds);
    var s, data := Start(u), SeedAt(u.files, seeds, t);
    assert Joined(u, []) == JoinFrom(u.files, s, []);
    hide JoinFrom, Truncating, AllStopped;
    steps := WorkerRuns(u.files, s, t, data);
  }

  lemma BothTruncate(a: seq<Step>, b: seq<Step>)
    requires Truncating(a) && Truncating(b)
    ensures Truncating(a + b)
  {
  }

  lemma TakenTask(t: Task, v: Task)
    ensures MayPick(NewRun({t, v}).p, map[], t) && t in Took(t, v).held
  {
    assert NewRun({t, v}).p.pending == {t, v} && |{t, v}| > 0;
  }

  /** With the second chunk all zeros in the seed, a worker that writes the first and is then cancelled leaves
      the whole seed behind with a task not done. */
  lemma CancelledCanBeSeed(u: Setup, seeds: seq<Data>)
    requires TwoChunks(u, seeds) && AllZero(SeedAt(u.files, seeds, Task(0, 1)))
    ensures exists steps: seq<Step> ::
              && Joined(u, steps).Some?
              && var s := Joined(u, steps).value;
                 && !s.fatal && AllStopped(s) && !AllDone(s.run.p)
                 && Sized(u.files, s.finals, s.parts) && AllSeed(u.files, seeds, s.finals, s.parts)
  {
    var t, v := Task(0, 0), Task(0, 1);
    var steps := OneWorkerWrites(u, seeds);
    var s := Joined(u, steps).value;
    TookIs(t, v);
    FinishedIsSeed(u, seeds, steps);
    assert FilledAt(u.files, u.parts, v) == SeedAt(u.files, seeds, v) by {
      ZerosAreSeed(u, seeds, v);
    }
    hide FromSeed, Joined, SeedAt, AllSeed, FilledAt, Held;
    forall w | Lacking(s, w)
      ensures SeedUnwritten(u, seeds, s, w)
    {
      assert w == v;
      UnwrittenIffOpened(u, seeds, steps, w);
    }
  }

  lemma ZerosAreSeed(u: Setup, seeds: seq<Data>, v: Task)
    requires Ready(u, seeds) && InFiles(u.files, v) && u.parts[v.file].None? && AllZero(SeedAt(u.files, seeds, v))
    ensures FilledAt(u.files, u.parts, v) == SeedAt(u.files, seeds, v)
  {
    Tiles(LayoutOf(u.files, v), v.chunk);
  }

  /** A chunk of ones and then a chunk of zeros. */
  function OnesAndZeros(): (d: Data)
    ensures |d| == 2 * SMALL_CHUNK && forall k :: SMALL_CHUNK <= k < |d| ==> d[k] == 0
  {
    seq(2 * SMALL_CHUNK, i => if i < SMALL_CHUNK then 1 else 0)
  }

  /** Such a file exists. */
  lemma SuchAFile(u: Setup, seed: Data)
    requires seed == OnesAndZeros()
    requires var f := SwarmFile(|seed|, Sha256(seed), Catalog(CanonicalLayout(|seed|), seed));
             u == Setup([f], [None], [None], {}, 1)
    ensures TwoChunks(u, [seed]) && AllZero(SeedAt(u.files, [seed], Task(0, 1)))
  {
    hide OnesAndZeros;
    var g := CanonicalLayout(|seed|);
    assert g.chunkSize == SMALL_CHUNK && g.Count() == 2;
    assert FromSeed(u.files, [seed]);
    assert g.Offset(1) == SMALL_CHUNK;
  }

  lemma CancelledJoinsCanBeSeed()
    ensures exists u: Setup, seeds: seq<Data>, steps: seq<Step> ::
              && Ready(u, seeds) && Joined(u, steps).Some?
              && var s := Joined(u, steps).value;
                 && !s.fatal && AllStopped(s) && !AllDone(s.run.p)
                 && Sized(u.files, s.finals, s.parts) && AllSeed(u.files, seeds, s.finals, s.parts)
  {
    hide OnesAndZeros, AllSeed, AllDone, Joined, Catalog, SeedAt, AllZero;
    var seed := OnesAndZeros();
    var f := SwarmFile(|seed|, Sha256(seed), Catalog(CanonicalLayout(|seed|), seed));
    var u, seeds := Setup([f], [None], [None], {}, 1), [seed];
    SuchAFile(u, seed);
    hide FromSeed;
    CancelledCanBeSeed(u, seeds);
  }

  // ---------------------------------------------------------------------------------------
  // The loops that feed the step system

  /** The scan of the destination before the workers start: what is not here becomes a task, once; what is
      here is offered. */
  method ScanFiles(u: Setup) returns (tasks: seq<Task>, avail: set<Task>)
    requires Sized(u.files, u.finals, u.parts) && forall i :: 0 <= i < |u.files| ==> u.files[i].size <= MAX_COUNTED_SIZE
    ensures forall a, b :: 0 <= a < b < |tasks| ==> tasks[a] != tasks[b]
    ensures (set t | t in tasks) == Start(u).run.tasks && avail == Start(u).avail
  {
    hide LocalTask;
    tasks, avail := [], {};
    var i := 0;
    while i < |u.files|
      invariant 0 <= i <= |u.files|
      invariant Scanned(u, tasks, avail, i, 0)
    {
      var unread := set t | t in u.unread && t.file == i :: t.chunk;
      var have, _ := LocalChunks(u.files[i], u.finals[i], u.parts[i], unread);
      var c: nat := 0;
      while c < |have|
        invariant 0 <= c <= |have|
        invariant Scanned(u, tasks, avail, i, c)
      {
        var t := Task(i, c);
        assert c in unread <==> t in u.unread;
        assert have[c] <==> LocalTask(u, t) by {
          HaveIsLocal(u, t, Readable(unread, c));
        }
        if have[c] {
          avail := avail + {t};
        } else {
          tasks := tasks + [t];
        }
        c := c + 1;
      }
      i := i + 1;
    }
  }

  lemma HaveIsLocal(u: Setup, t: Task, readable: bool)
    requires Sized(u.files, u.finals, u.parts) && t.file < |u.files| && (readable <==> t !in u.unread)
    ensures LocalTask(u, t) <==> Local(u.files[t.file], u.finals[t.file], u.parts[t.file], readable, t.chunk)
  {
  }

  /** The files before i and the first c chunks of file i have been scanned. */
  ghost predicate Scanned(u: Setup, tasks: seq<Task>, avail: set<Task>, i: nat, c: nat)
    requires Sized(u.files, u.finals, u.parts)
  {
    && (forall a, b :: 0 <= a < b < |tasks| ==> tasks[a] != tasks[b])
    && (forall t :: t in tasks <==> Before(u.files, t, i, c) && !LocalTask(u, t))
    && (forall t :: t in avail <==> Before(u.files, t, i, c) && LocalTask(u, t))
  }

  predicate Before(files: seq<SwarmFile>, t: Task, i: nat, c: nat) {
    InFiles(files, t) && (t.file < i || (t.file == i && t.chunk < c))
  }

  /** What a worker's fetch of its chunk comes to is a step it may take: the bytes go on only if they verify. */
  method FetchChunk(files: seq<SwarmFile>, s: Join, k: nat, peers: seq<string>, start: nat, answers: seq<seq<Reply>>,
      http: seq<Reply>, banned: set<string>, others: seq<seq<set<string>>>, looks: nat)
    returns (st: Step, nowBanned: set<string>)
    requires k < |s.ws| && s.ws[k].Fetching? && InFiles(files, s.ws[k].t) && s.ws[k].t in s.run.held
    requires |answers| == 3 == |others| && (|http| == 0 || |http| == 3)
    requires forall round :: 0 <= round < 3 ==> |answers[round]| == |peers| == |others[round]|
    ensures Enabled(files, s, st) && (st.Fetch? || st == FetchFails(k)) && (st.Fetch? ==> st.k == k)
  {
    var t := s.ws[k].t;
    var got;
    got, nowBanned :=
      FetchWithRetry(files[t.file], t.chunk, peers, start, answers, http, banned, others, looks);
    st := if got.Good? then Fetch(k, got.data) else FetchFails(k);
  }
}
