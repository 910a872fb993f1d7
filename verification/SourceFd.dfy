// The lifetime of a source descriptor on the sender: no read after close, and no settled file left open.

module SourceFds {
  import opened Bytes

  /** Where a task is: queued; past the settled test; past the descriptor test, about to read; or done
      with the file and about to give its reference back. */
  datatype TaskAt = Waiting | Checked | Reading | Finished

  datatype Fd = Unopened | Open | Shut

  /** `closers` counts calls of maybeCloseFD that have not looked yet. */
  datatype File = File(fd: Fd, resolved: bool, errored: bool, inflight: nat, tasks: seq<TaskAt>, closers: nat)

  datatype Step =
    | Queue                   // the scheduler or a retry, or a request for a file without error
    | Lose(k: nat)            // a hand-off abandoned at shutdown: its reference is never given back
    | LookAtFile(k: nat)
    | LookAtFd(k: nat, opens: bool)
    | Read(k: nat)
    | Done(k: nat)
    | Settle(err: bool)
    | Close

  const START := File(Unopened, false, false, 0, [], 0)

  predicate Enabled(f: File, st: Step) {
    match st
    case Queue => !f.errored
    case Lose(k) => k < |f.tasks| && f.tasks[k] == Waiting
    case LookAtFile(k) => k < |f.tasks| && f.tasks[k] == Waiting
    case LookAtFd(k, _) => k < |f.tasks| && f.tasks[k] == Checked
    case Read(k) => k < |f.tasks| && f.tasks[k] == Reading
    case Done(k) => k < |f.tasks| && f.tasks[k] == Finished
    case Settle(_) => !f.resolved
    case Close => f.closers > 0
  }

  /** The first task past the settled test opens the descriptor, once; a closed one is never reopened. */
  function OpenedBy(f: File, opens: bool): Fd {
    if f.fd == Unopened && opens then Open else f.fd
  }

  predicate MayClose(fd: Fd, resolved: bool, inflight: nat) {
    fd == Open && resolved && inflight == 0
  }

  function Next(f: File, st: Step): File
    requires Enabled(f, st)
  {
    match st
    case Queue => f.(inflight := f.inflight + 1, tasks := f.tasks + [Waiting])
    case Lose(k) => f.(tasks := f.tasks[..k] + f.tasks[k + 1..])
    case LookAtFile(k) => f.(tasks := f.tasks[k := if f.errored || f.resolved then Finished else Checked])
    case LookAtFd(k, opens) =>
      var fd := OpenedBy(f, opens);
      f.(fd := fd, tasks := f.tasks[k := if fd == Open then Reading else Finished])
    case Read(k) => f.(tasks := f.tasks[k := Finished])
    case Done(k) =>
      var left := if f.inflight > 0 then f.inflight - 1 else 0;
      f.(inflight := left, tasks := f.tasks[..k] + f.tasks[k + 1..],
         fd := if MayClose(f.fd, f.resolved, left) then Shut else f.fd)
    case Settle(err) => f.(resolved := true, errored := err, closers := f.closers + 1)
    case Close => f.(closers := f.closers - 1, fd := if MayClose(f.fd, f.resolved, f.inflight) then Shut else f.fd)
  }

  /** References cover the tasks, readers have an open descriptor, and an idle settled file either has
      no open descriptor or somebody is about to close it. */
  ghost predicate Inv(f: File) {
    && |f.tasks| <= f.inflight
    && (forall k :: 0 <= k < |f.tasks| && f.tasks[k] == Reading ==> f.fd == Open)
    && (f.fd == Shut ==> f.resolved)
    && (MayClose(f.fd, f.resolved, f.inflight) ==> f.closers > 0)
  }

  /** A task that leaves the list takes no other's place. */
  lemma Without(tasks: seq<TaskAt>, k: nat, j: nat)
    requires k < |tasks| && j < |tasks| - 1
    ensures (tasks[..k] + tasks[k + 1..])[j] == tasks[if j < k then j else j + 1]
  {
  }

  lemma LeavingKeepsInv(f: File, st: Step)
    requires Inv(f) && Enabled(f, st) && (st.Lose? || st.Done?)
    ensures Inv(Next(f, st))
  {
    var g := Next(f, st);
    forall j | 0 <= j < |g.tasks| && g.tasks[j] == Reading
      ensures g.fd == Open
    {
      Without(f.tasks, st.k, j);
    }
  }

  lemma AdvancingKeepsInv(f: File, st: Step)
    requires Inv(f) && Enabled(f, st) && (st.LookAtFile? || st.LookAtFd? || st.Read?)
    ensures Inv(Next(f, st))
  {
  }

  lemma SettlingKeepsInv(f: File, st: Step)
    requires Inv(f) && Enabled(f, st) && (st.Queue? || st.Settle? || st.Close?)
    ensures Inv(Next(f, st))
  {
  }

  lemma StepKeepsInv(f: File, st: Step)
    requires Inv(f) && Enabled(f, st)
    ensures Inv(Next(f, st))
  {
    hide Inv, Enabled, Next;
    if st.Lose? || st.Done? {
      LeavingKeepsInv(f, st);
    } else if st.LookAtFile? || st.LookAtFd? || st.Read? {
      AdvancingKeepsInv(f, st);
    } else {
      SettlingKeepsInv(f, st);
    }
  }

  ghost function Run(steps: seq<Step>): (f: seq<File>)
    ensures |f| <= 1
  {
    if steps == [] then [START]
    else
      var before := Run(steps[..|steps| - 1]);
      var st := steps[|steps| - 1];
      if before != [] && Enabled(before[0], st) then [Next(before[0], st)] else []
  }

  /** In every interleaving: a task that reads has an open descriptor under it; and once the file is
      settled, its references are back and no closer is left, the descriptor is not open. */
  lemma {:induction false} NoReadAfterClose(steps: seq<Step>, k: nat)
    requires Run(steps) != []
    ensures var f := Run(steps)[0];
            && Inv(f)
            && (k < |f.tasks| && f.tasks[k] == Reading ==> f.fd == Open)
            && (f.resolved && f.inflight == 0 && f.closers == 0 ==> f.fd != Open)
  {
    if steps != [] {
      NoReadAfterClose(steps[..|steps| - 1], k);
      StepKeepsInv(Run(steps[..|steps| - 1])[0], steps[|steps| - 1]);
    }
  }

  // ---------------------------------------------------------------------------------------
  // The course of one task

  /** The file after these steps, if each is possible in turn. */
  function Then(f: File, steps: seq<Step>): Option<File>
    decreases |steps|
  {
    if steps == [] then Some(f)
    else if Enabled(f, steps[0]) then Then(Next(f, steps[0]), steps[1..])
    else None
  }

  lemma ThenFirst(f: File, st: Step, rest: seq<Step>)
    ensures Then(f, [st] + rest) == if Enabled(f, st) then Then(Next(f, st), rest) else None
  {
    assert ([st] + rest)[1..] == rest;
  }

  /** A task queued for an unsettled file goes on to read it, unless it is the one to open the descriptor and that
      fails: it looks at the file, then at the descriptor, and reads. */
  lemma UnsettledTasksRead(f: File, k: nat, opens: bool)
    requires Inv(f) && !f.resolved && !f.errored && k < |f.tasks| && f.tasks[k] == Waiting
    ensures var g := Then(f, [LookAtFile(k), LookAtFd(k, opens)]);
            && g.Some? && |g.value.tasks| == |f.tasks|
            && (g.value.tasks[k] == Reading <==> opens || f.fd == Open)
            && (g.value.tasks[k] == Reading ==> g.value.fd == Open)
            && (g.value.tasks[k] != Reading ==> g.value.tasks[k] == Finished && g.value.fd == f.fd)
            && g.value.inflight == f.inflight
            && forall j :: 0 <= j < |f.tasks| && j != k ==> g.value.tasks[j] == f.tasks[j]
  {
    ThenFirst(f, LookAtFile(k), [LookAtFd(k, opens)]);
    ThenFirst(Next(f, LookAtFile(k)), LookAtFd(k, opens), []);
    assert [LookAtFile(k)] + [LookAtFd(k, opens)] == [LookAtFile(k), LookAtFd(k, opens)];
    assert [LookAtFd(k, opens)] + [] == [LookAtFd(k, opens)];
  }

  /** A task of a settled file is done with it without a look at the descriptor. */
  lemma SettledTasksPass(f: File, k: nat)
    requires (f.resolved || f.errored) && k < |f.tasks| && f.tasks[k] == Waiting
    ensures Then(f, [LookAtFile(k)]) == Some(f.(tasks := f.tasks[k := Finished]))
  {
    ThenFirst(f, LookAtFile(k), []);
    assert [LookAtFile(k)] + [] == [LookAtFile(k)];
  }

  /** A reader gives its reference back in two more steps, and the last reference out of a settled file closes the
      descriptor. */
  lemma ReadersFinish(f: File, k: nat)
    requires Inv(f) && k < |f.tasks| && f.tasks[k] == Reading
    ensures Then(f, [Read(k), Done(k)])
            == Some(f.(tasks := f.tasks[..k] + f.tasks[k + 1..], inflight := f.inflight - 1,
                       fd := if f.resolved && f.inflight == 1 then Shut else Open))
  {
    var g := Next(f, Read(k));
    assert g.tasks[..k] + g.tasks[k + 1..] == f.tasks[..k] + f.tasks[k + 1..];
    ThenFirst(f, Read(k), [Done(k)]);
    ThenFirst(g, Done(k), []);
    assert [Read(k)] + [Done(k)] == [Read(k), Done(k)] && [Done(k)] + [] == [Done(k)];
  }

  /** Settling a file and the look that follows close an idle descriptor, and leave one that tasks still refer to. */
  lemma SettledFilesClose(f: File, err: bool)
    requires Inv(f) && !f.resolved
    ensures Then(f, [Settle(err), Close])
            == Some(f.(resolved := true, errored := err, fd := if f.fd == Open && f.inflight == 0 then Shut else f.fd))
  {
    ThenFirst(f, Settle(err), [Close]);
    ThenFirst(Next(f, Settle(err)), Close, []);
    assert [Settle(err)] + [Close] == [Settle(err), Close] && [Close] + [] == [Close];
  }

  /** The descriptor is opened at most once and closed at most once: only a task that has seen the file unsettled
      opens it, and a closed one stays closed. A file settles once, and a failed one takes no more tasks. */
  lemma DescriptorGoesOneWay(f: File, st: Step)
    requires Inv(f) && Enabled(f, st)
    ensures f.fd == Shut ==> Next(f, st).fd == Shut
    ensures f.fd == Open ==> Next(f, st).fd != Unopened
    ensures f.fd == Unopened && Next(f, st).fd != Unopened ==>
              Next(f, st).fd == Open && st.LookAtFd? && st.opens && st.k < |f.tasks| && f.tasks[st.k] == Checked
    ensures f.fd == Open && Next(f, st).fd == Shut ==> f.resolved && (st.Close? || st.Done?)
    ensures st.Settle? ==> !f.resolved
    ensures st.Lose? ==> st.k < |f.tasks| && f.tasks[st.k] == Waiting && Next(f, st).inflight == f.inflight
                         && Next(f, st).tasks == f.tasks[..st.k] + f.tasks[st.k + 1..]
    ensures st.Queue? ==> !f.errored && Next(f, st).inflight == f.inflight + 1
    ensures st.Queue? ==> Next(f, st).tasks == f.tasks + [Waiting]
  {
    hide Inv;
  }
}
