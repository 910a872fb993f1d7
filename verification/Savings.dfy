// What a session has on disk for the next one: nothing set is forgotten by a flush, and a resume finds it.

module Savings {
  import opened Bytes
  import opened Bitmaps
  import opened Ledgers
  import opened Sidecars
  import opened Protocol
  import opened CommitSafety
  import opened Sessions
  import Grid

  /** The sidecar on disk is one a resume of this file will trust, and says what the ledger says; a ledger that
      records nothing needs none. */
  ghost predicate OnDisk(path: string, disk: Disk, id: Identity, led: Ledger) {
    || led == EmptyLedger(|led.have|)
    || (Trusted(disk.meta, Entry(path, id)) && DocumentLedger(disk.meta.value) == led)
  }

  /** Whatever is recorded is on disk, or the next flush will write it. */
  ghost predicate NothingForgotten(w: Origin, world: World) {
    world.live.Some? ==>
      var run := world.live.value;
      && run.c.r.led.Shaped(|run.c.o.chunks|)
      && (run.c.published.Some? ==> run.c.r.fd == Closed)
      && (!run.inPlace && run.c.r.fd == Live && Flush(run.c.r).1.None? ==>
            OnDisk(w.path, world.disk, run.id, run.c.r.led))
  }

  /** A step after which nothing is left to flush has changed nothing that is recorded. */
  lemma QuietStep(c: Session, st: Step)
    requires Safe(c) && Enabled(c, st) && WellShaped(Apply(c, st))
    requires Apply(c, st).r.fd == Live && Flush(Apply(c, st).r).1.None?
    ensures c.r.fd == Live && Flush(c.r).1.None? && Apply(c, st).r.led == c.r.led
  {
    if st.TakeVerdict? && c.toR[0].ClaimResult? {
      QuietVerdict(c.r, c.toR[0].verified);
    } else {
      OtherQuiet(c, st);
    }
  }

  lemma QuietVerdict(r: Receiver, verified: seq<bool>)
    requires |r.led.have| == |r.led.marks| && r.led.Synced()
    ensures var q := ApplyClaimResult(r, verified).0;
            q.fd == r.fd && |q.led.have| == |q.led.marks| && (!q.dirty ==> !r.dirty && q.led == r.led)
  {
    var q := ApplyClaimResult(r, verified).0;
    if !q.dirty {
      assert q.led.have == r.led.have;
      assert q.led.marks == r.led.marks;
    }
  }

  lemma SenderQuiet(c: Session, st: Step)
    requires WellShaped(c) && Enabled(c, st)
    requires st.OpenGate? || st.Verify? || st.Schedule? || st.Send? || st.SendFailure? || st.TakeReply?
    ensures var q := Apply(c, st).r;
            q.fd == Live && !q.dirty ==> c.r.fd == Live && !c.r.dirty && q.led == c.r.led
  {
  }

  lemma HandlerQuiet(c: Session, st: Step)
    requires WellShaped(c) && Enabled(c, st)
    requires st.Snapshot? || st.Write? || st.Mark? || st.Reject?
    ensures var q := Apply(c, st).r;
            q.fd == Live && !q.dirty ==> c.r.fd == Live && !c.r.dirty && q.led == c.r.led
  {
  }

  lemma TornQuiet(c: Session, st: Step)
    requires WellShaped(c) && Enabled(c, st)
    requires st.TornWrite?
    ensures var q := Apply(c, st).r;
            q.fd == Live && !q.dirty ==> c.r.fd == Live && !c.r.dirty && q.led == c.r.led
  {
  }

  lemma RecordsQuiet(r: Receiver)
    ensures var q := FailReceiver(r);
            && (q.fd == Live && !q.dirty ==> r.fd == Live && !r.dirty && q.led == r.led)
            && (r.fd == Closed ==> q.fd == Closed)
  {
  }

  lemma CommitQuiet(r: Receiver)
    ensures var q := CommitFile(r).0;
            && (q.fd == Live && !q.dirty ==> r.fd == Live && !r.dirty && q.led == r.led)
            && (r.fd == Closed ==> q.fd == Closed)
  {
  }

  lemma CheckQuiet(r: Receiver)
    ensures var q := MaybeComplete(r).0;
            && (q.fd == Live && !q.dirty ==> r.fd == Live && !r.dirty && q.led == r.led)
            && (r.fd == Closed ==> q.fd == Closed)
  {
    hide Gate;
  }

  lemma DetachQuiet(r: Receiver)
    ensures var q := Detach(r);
            && (q.fd == Live && !q.dirty ==> r.fd == Live && !r.dirty && q.led == r.led)
            && (r.fd == Closed ==> q.fd == Closed)
  {
  }

  lemma ControlQuiet(c: Session, st: Step)
    requires WellShaped(c) && Enabled(c, st)
    requires st.TakeVerdict? && !c.toR[0].ClaimResult?
    ensures var q := Apply(c, st).r;
            q.fd == Live && !q.dirty ==> c.r.fd == Live && !c.r.dirty && q.led == c.r.led
  {
    RecordsQuiet(c.r);
    CommitQuiet(c.r);
    hide FailReceiver, CommitFile, WellShaped;
  }

  lemma GateQuiet(c: Session, st: Step)
    requires WellShaped(c) && Enabled(c, st)
    requires st.Prepare? || st.Check? || st.CtrlCheck?
    ensures var q := Apply(c, st).r;
            q.fd == Live && !q.dirty ==> c.r.fd == Live && !c.r.dirty && q.led == c.r.led
  {
    CheckQuiet(c.r);
    hide Gate, MaybeComplete, WellShaped;
  }

  lemma FinalizerQuiet(c: Session, st: Step)
    requires WellShaped(c) && Enabled(c, st)
    requires st.StartFinalize? || st.EndFinalize?
    ensures var q := Apply(c, st).r;
            q.fd == Live && !q.dirty ==> c.r.fd == Live && !c.r.dirty && q.led == c.r.led
  {
    DetachQuiet(c.r);
    if st.EndFinalize? {
      PublishQuiet(c.r, st.outcome);
    }
    hide Detach, Publish, WellShaped;
  }

  lemma PublishQuiet(r: Receiver, outcome: PublishOutcome)
    requires r.fd == Detached
    ensures Publish(r, outcome).fd == Closed
  {
    hide SameClaims, FailReceiver;
  }

  lemma OtherQuiet(c: Session, st: Step)
    requires WellShaped(c) && Enabled(c, st)
    requires !(st.TakeVerdict? && c.toR[0].ClaimResult?)
    ensures var q := Apply(c, st).r;
            q.fd == Live && !q.dirty ==> c.r.fd == Live && !c.r.dirty && q.led == c.r.led
  {
    hide Apply, WellShaped, Enabled;
    match st
    case TakeVerdict => ControlQuiet(c, st);
    case TornWrite(_, _) => TornQuiet(c, st);
    case Snapshot(_) => HandlerQuiet(c, st);
    case Write(_) => HandlerQuiet(c, st);
    case Mark(_) => HandlerQuiet(c, st);
    case Reject(_) => HandlerQuiet(c, st);
    case Prepare => GateQuiet(c, st);
    case Check(_) => GateQuiet(c, st);
    case CtrlCheck => GateQuiet(c, st);
    case StartFinalize => FinalizerQuiet(c, st);
    case EndFinalize(_) => FinalizerQuiet(c, st);
    case _ => SenderQuiet(c, st);
  }

  /** Only the finalizer publishes, and it closes the part for good. */
  lemma PublishedCloses(c: Session, st: Step)
    requires WellShaped(c) && Enabled(c, st) && (c.published.Some? ==> c.r.fd == Closed)
    ensures Apply(c, st).published.Some? ==> Apply(c, st).r.fd == Closed
  {
    hide WellShaped;
    match st
    case EndFinalize(outcome) => PublishQuiet(c.r, outcome);
    case TakeVerdict => ClosedVerdict(c);
    case TornWrite(k, n) => ClosedStays(c.r, c.tokens[k].idx);
    case Reject(k) => ClosedStays(c.r, c.tokens[k].idx);
    case Check(_) => CheckQuiet(c.r);
    case CtrlCheck => CheckQuiet(c.r);
    case StartFinalize => DetachQuiet(c.r);
    case _ =>
  }

  lemma ClosedStays(r: Receiver, i: nat)
    ensures r.fd == Closed ==> RetryOrFail(r, i).0.fd == Closed
  {
  }

  lemma ClosedVerdict(c: Session)
    requires Enabled(c, TakeVerdict) && WellShaped(c)
    ensures Apply(c, TakeVerdict).published == c.published
    ensures c.r.fd == Closed ==> Apply(c, TakeVerdict).r.fd == Closed
  {
    RecordsQuiet(c.r);
    CommitQuiet(c.r);
    hide FailReceiver, CommitFile, Restrict;
  }

  lemma ActForgetsNothing(w: Origin, world: World, st: Step)
    requires WorldSound(w, world) && NothingForgotten(w, world) && Possible(w, world, Act(st))
    ensures NothingForgotten(w, Next(w, world, Act(st)))
  {
    var c := world.live.value.c;
    StepKeepsSafe(c, st);
    StepKeepsSource(c, st);
    PublishedCloses(c, st);
    var d := Apply(c, st);
    if d.r.fd == Live && Flush(d.r).1.None? {
      QuietStep(c, st);
    }
    hide Apply, Flush, Safe, Enabled, OnDisk;
  }

  lemma SaveForgetsNothing(w: Origin, world: World, ev: Event)
    requires WorldSound(w, world) && NothingForgotten(w, world) && ev.Save? && Possible(w, world, ev)
    ensures NothingForgotten(w, Next(w, world, ev))
    ensures Flush(world.live.value.c.r).1.Some? && !world.live.value.inPlace ==>
              var run, disk := world.live.value, Next(w, world, ev).disk;
              Trusted(disk.meta, Entry(w.path, run.id)) && DocumentLedger(disk.meta.value) == Flush(run.c.r).1.value
  {
    var run := world.live.value;
    FlushSafe(run.c);
    var (r, saved) := Flush(run.c.r);
    if saved.Some? && !run.inPlace {
      var d := DocumentOf(w.path, run.id, ev.nonce, saved.value, ev.bitmap, r.fullyWritten);
      assert DocumentLedger(d) == saved.value;
      assert Trusted(Some(d), Entry(w.path, run.id));
    }
  }

  lemma BeginForgetsNothing(w: Origin, world: World, ev: Event)
    requires WorldSound(w, world) && ev.Begin? && Possible(w, world, ev)
    ensures NothingForgotten(w, Next(w, world, ev))
  {
    OpenedSound(w, world.disk, ev.id, ev.start, ev.contents, ev.bad);
  }

  /** Over every history: a running session with nothing left to flush, whose part is open and not the final file
      itself, has all it has recorded in a sidecar on disk that the next resume trusts. */
  lemma {:induction false} HistoryForgetsNothing(w: Origin, history: seq<Event>)
    ensures After(w, history).Some? ==> NothingForgotten(w, After(w, history).value)
  {
    hide NothingForgotten, WorldSound, Next, Possible;
    if history == [] {
      NothingYet(w);
    } else {
      HistoryForgetsNothing(w, history[..|history| - 1]);
      HistorySound(w, history[..|history| - 1]);
      var before := After(w, history[..|history| - 1]);
      var ev := history[|history| - 1];
      if before.Some? && Possible(w, before.value, ev) {
        match ev {
          case Begin(_, _, _, _, _) => BeginForgetsNothing(w, before.value, ev);
          case Act(st) => ActForgetsNothing(w, before.value, st);
          case Save(_, _) => SaveForgetsNothing(w, before.value, ev);
          case Stop(_, _) => EndForgetsNothing(w, before.value, ev);
          case Abort => EndForgetsNothing(w, before.value, ev);
        }
      }
    }
  }

  lemma NothingYet(w: Origin)
    ensures NothingForgotten(w, PRISTINE)
  {
  }

  lemma EndForgetsNothing(w: Origin, world: World, ev: Event)
    requires Possible(w, world, ev) && (ev.Stop? || ev.Abort?)
    ensures NothingForgotten(w, Next(w, world, ev))
  {
  }

  /** A new file has nothing to save yet and skips zero chunks; one opened over older bytes writes them out. */
  lemma NewFilesSkipZeros(w: Origin, world: World, ev: Event, t: Token)
    requires ev.Begin? && Possible(w, world, ev) && t.Snapped?
    ensures var r := Next(w, world, ev).live.value.c.r;
            && (ev.start.Fresh? ==> Flush(r).1.None? && (Writes(r, t) <==> !t.zero))
            && (!ev.start.Fresh? ==> Writes(r, t))
  {
    hide Rebuild, Rehash, Trusted, HasBit, SameSizes;
  }

  /** What each event leaves on disk. A delta session touches neither part nor sidecar; a new part meets no old
      sidecar; a saved file has nothing left to save; a published part is gone, and so is an aborted one, with
      nothing for another session to resume. */
  lemma DiskFollows(w: Origin, world: World, ev: Event)
    requires Possible(w, world, ev)
    ensures var next := Next(w, world, ev);
            && (world.live.Some? && world.live.value.inPlace ==> next.disk == world.disk)
            && (ev.Begin? ==> next.disk == if ev.start.Fresh? then Disk(None, None) else world.disk)
            && (ev.Act? ==> next.disk == world.disk)
            && (ev.Save? ==> next.disk.part == world.disk.part && Flush(next.live.value.c.r).1.None?)
            && (ev.Save? && Flush(world.live.value.c.r).1.None? ==> next == world)
            && (ev.Stop? && !world.live.value.inPlace && world.live.value.c.published.Some? ==>
                  next.disk.part.None? && (ev.swept ==> next.disk.meta.None?))
            && (ev.Abort? && !world.live.value.inPlace ==> next.disk == Disk(None, None))
    ensures world.live.Some? && !world.live.value.inPlace
            && (ev.Abort? || (ev.Stop? && world.live.value.c.published.Some?)) ==>
              forall later: Event :: later.Begin? && later.start.Resume? ==> !Possible(w, Next(w, world, ev), later)
  {
    hide Restrict, Kept, Opened, NewSession, DocumentOf, SameSizes, Apply;
    if ev.Save? {
      FlushedOnce(world.live.value.c.r);
    }
  }

  /** A flush leaves nothing to flush. */
  lemma FlushedOnce(r: Receiver)
    requires |r.led.have| == |r.led.marks|
    ensures var q := Flush(r).0; |q.led.have| == |q.led.marks| && Flush(q).1.None?
  {
  }

  // ---------------------------------------------------------------------------------------
  // From a mark to the next session

  /** What is marked now is flushed: in the saved ledger, under the mark it was given. */
  lemma MarkedIsFlushed(c: Session, k: nat)
    requires Safe(c) && Enabled(c, Mark(k)) && c.r.fd == Live
    ensures var d := Apply(c, Mark(k));
            && d.r.fd == Live && d.part == c.part && |d.r.led.have| == |d.r.led.marks| == |c.o.chunks|
            && Flush(d.r).1.Some?
            && var saved := Flush(d.r).1.value;
               |saved.have| == |saved.marks| == |c.o.chunks| && saved.have[c.tokens[k].idx]
               && saved.marks[c.tokens[k].idx] == MarkOf(c.o.path, c.tokens[k])
  {
  }

  lemma AfterOne(w: Origin, history: seq<Event>, ev: Event)
    requires After(w, history).Some?
    ensures After(w, history + [ev])
            == if Possible(w, After(w, history).value, ev) then Some(Next(w, After(w, history).value, ev)) else None
  {
    hide Possible, Next;
    var all := history + [ev];
    assert all[..|all| - 1] == history && all[|all| - 1] == ev;
  }

  /** A stop leaves the part and its sidecar to the next session. */
  lemma StopLeaves(w: Origin, world: World, contents: seq<Data>, swept: bool)
    requires world.live.Some? && !world.live.value.inPlace && world.live.value.c.published.None?
    ensures Possible(w, world, Stop(contents, swept))
    ensures Next(w, world, Stop(contents, swept)) == World(Disk(Some(contents), world.disk.meta), None)
  {
  }

  /** A trusted resume of an untouched part has exactly the saved chunks whose marks their bytes answer to. */
  lemma ResumeFinds(w: Origin, disk: Disk, c: Session, id: Identity, sparse: bool, i: nat)
    requires Usable(w, id) && c.o == SourceOf(w, id) && Safe(c) && Flush(c.r).1.Some? && i < |c.o.chunks|
    requires disk.part == Some(c.part) && disk.meta.Some? && MetaSound(w, disk.meta.value)
    requires Trusted(disk.meta, Entry(w.path, id)) && DocumentLedger(disk.meta.value) == Flush(c.r).1.value
    requires Flush(c.r).1.value.have[i]
    ensures var begin := Begin(id, Resume(true), c.part, {}, sparse);
            && Possible(w, World(disk, None), begin)
            && var next := Next(w, World(disk, None), begin).live;
               && next.Some? && next.value.c.o == c.o && i < |next.value.c.r.led.have|
               && (next.value.c.r.led.have[i] <==> (AllZero(c.o.chunks[i]) ==> Flush(c.r).1.value.marks[i] == Hole))
  {
    var led := Flush(c.r).1.value;
    assert SameSizes(c.part, c.o.chunks);
    CleanResumeKeeps(c, i);
    assert HasBit(led);
    hide Rehash, Safe, Flush, Trusted;
    var begin := Begin(id, Resume(true), c.part, {}, sparse);
    var seen := Source(w.path, c.part).Reads({});
    assert Opened(w, disk, id, begin.start, c.part, {}) == TrustedReceiver(disk.meta.value, w.path, seen);
  }

  /** From end to end, after any history: a chunk is marked, the sidecar is saved, the session stops with the part
      as it is, and the next one resumes it under the same identity. It then has the chunk, unless that is a zero
      chunk that was sent as data. */
  lemma MarkedSurvivesResume(w: Origin, history: seq<Event>, k: nat, bitmap: Bitmap, nonce: string, swept: bool,
      sparse: bool)
    requires After(w, history).Some? && Possible(w, After(w, history).value, Act(Mark(k)))
    requires var run := After(w, history).value.live.value; !run.inPlace && run.c.r.fd == Live
    requires After(w, (history + [Act(Mark(k))]) + [Save(bitmap, nonce)]).Some?
    ensures var run := After(w, history).value.live.value;
            var stopped := ((history + [Act(Mark(k))]) + [Save(bitmap, nonce)]) + [Stop(run.c.part, swept)];
            var resumed := stopped + [Begin(run.id, Resume(true), run.c.part, {}, sparse)];
            && After(w, resumed).Some? && After(w, resumed).value.live.Some?
            && var next, i := After(w, resumed).value.live.value, run.c.tokens[k].idx;
               && i < |next.c.r.led.have| && i < |next.c.o.chunks| && next.c.o == run.c.o
               && (next.c.r.led.have[i] <==> (AllZero(next.c.o.chunks[i]) ==> run.c.tokens[k].zero))
  {
    var world := After(w, history).value;
    var run := world.live.value;
    HistorySound(w, history);
    HistoryForgetsNothing(w, history);
    MarkedIsFlushed(run.c, k);
    ActSound(w, world, Mark(k));
    ActForgetsNothing(w, world, Mark(k));
    AfterOne(w, history, Act(Mark(k)));
    var marked := Next(w, world, Act(Mark(k)));
    AfterOne(w, history + [Act(Mark(k))], Save(bitmap, nonce));
    SaveForgetsNothing(w, marked, Save(bitmap, nonce));
    SaveSound(w, marked, Save(bitmap, nonce));
    var saved := Next(w, marked, Save(bitmap, nonce));
    var d := marked.live.value.c;
    assert saved.live.value.c.published == d.published == run.c.published == None;
    StepKeepsSource(run.c, Mark(k));
    StopLeaves(w, saved, run.c.part, swept);
    AfterOne(w, (history + [Act(Mark(k))]) + [Save(bitmap, nonce)], Stop(run.c.part, swept));
    var disk := Disk(Some(run.c.part), saved.disk.meta);
    ResumeFinds(w, disk, d, run.id, sparse, run.c.tokens[k].idx);
    AfterOne(w, ((history + [Act(Mark(k))]) + [Save(bitmap, nonce)]) + [Stop(run.c.part, swept)],
             Begin(run.id, Resume(true), run.c.part, {}, sparse));
  }
}
