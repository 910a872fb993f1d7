// The relay's store-and-forward buffer: memory that spills to a file, refined to one bounded queue.

module Spools {
  import opened Bytes

  /** `file` is the spill file's content; offsets count from its start. */
  datatype Spool = Spool(limit: int, memLimit: int, hasDir: bool, mem: Data, file: Option<Data>,
                         wr: nat, rd: nat, buffered: int, eof: bool, err: bool)

  function NewSpool(limit: int, memLimit: int, hasDir: bool): Spool {
    Spool(limit, memLimit, hasDir, [], None, 0, 0, 0, false, false)
  }

  /** A write at `off`, inside the file or extending it. */
  function FileWrite(f: Data, off: nat, d: Data): (r: Data)
    requires off <= |f|
    ensures off + |d| <= |r|
  {
    f[..off] + d + if off + |d| <= |f| then f[off + |d|..] else []
  }

  /** Offsets stay inside the file; without one nothing has been spilled, or the spool has failed. */
  predicate Offsets(s: Spool) {
    if s.file.Some? then s.rd <= |s.file.value| && s.wr <= |s.file.value| else s.err || (s.rd == 0 && s.wr == 0)
  }

  /** The spill file is dropped, whatever it still held. */
  function Failed(s: Spool): Spool {
    s.(err := true, file := None)
  }

  /** A writer must wait: the spool holds its limit. */
  predicate Full(s: Spool) {
    s.limit > 0 && s.buffered >= s.limit && !s.err
  }

  function Room(s: Spool, want: nat): int {
    if s.limit > 0 && s.limit - s.buffered < want then s.limit - s.buffered else want
  }

  predicate MustSpill(s: Spool) {
    |s.mem| >= s.memLimit && s.hasDir && s.mem != []
  }

  function Spilled(s: Spool): Spool
    requires Offsets(s) && !s.err
  {
    var f := if s.file.Some? then s.file.value else [];
    s.(file := Some(FileWrite(f, s.wr, s.mem)), wr := s.wr + |s.mem|, mem := [])
  }

  /** Bytes go to the end of the file once there is one, else to memory. */
  function Stored(s: Spool, d: Data): Spool
    requires Offsets(s)
  {
    if s.file.Some? then
      s.(file := Some(FileWrite(s.file.value, s.wr, d)), wr := s.wr + |d|, buffered := s.buffered + |d|)
    else s.(mem := s.mem + d, buffered := s.buffered + |d|)
  }

  /** One turn of Write's loop: the new state and how many bytes of p it took. */
  function WriteTurn(s: Spool, p: Data, spillOk: bool, writeOk: bool): (Spool, nat)
    requires Offsets(s) && !Full(s) && p != []
  {
    if s.err then (s, 0)
    else
      var n: nat := Room(s, |p|);
      if MustSpill(s) && !spillOk then (Failed(s), 0)
      else
        var t := if MustSpill(s) then Spilled(s) else s;
        if t.file.Some? && !writeOk then (Failed(t), 0) else (Stored(t, p[..n]), n)
  }

  datatype Outcome = Bytes(data: Data) | Eof | Error | Wait

  /** A drained spill file is rewound and truncated; the truncation's own error is ignored. */
  function Rewound(s: Spool, truncates: bool): Spool {
    if s.file.Some? && s.rd == s.wr && s.mem == [] then
      s.(rd := 0, wr := 0, file := if truncates then Some([]) else s.file)
    else s
  }

  function ReadFile(s: Spool, max: nat, truncates: bool): (Spool, Data)
    requires Offsets(s) && s.file.Some? && s.rd < s.wr
  {
    var n := Min(max, |s.file.value| - s.rd);
    (Rewound(s.(rd := s.rd + n, buffered := s.buffered - n), truncates), s.file.value[s.rd..s.rd + n])
  }

  function ReadMem(s: Spool, max: nat): (Spool, Data) {
    var n := Min(max, |s.mem|);
    (s.(mem := s.mem[n..], buffered := s.buffered - n), s.mem[..n])
  }

  /** The read comes to the file. */
  predicate OnFile(s: Spool, max: nat) {
    s.file.Some? && s.rd < s.wr && max > 0
  }

  /** One turn of Read. The file gives up to `gives` bytes, fewer than it holds when its read fails half way;
      a read that fails with none at all fails the spool. */
  function ReadTurn(s: Spool, max: nat, gives: nat, truncates: bool): (Spool, Outcome)
    requires Offsets(s)
  {
    if OnFile(s, max) then
      if gives == 0 then (Failed(s), Error)
      else
        var (t, d) := ReadFile(s, Min(max, gives), truncates);
        (t, Bytes(d))
    else if s.mem != [] then
      var (t, d) := ReadMem(s, max);
      (t, Bytes(d))
    else if s.eof then (s, Eof)
    else if s.err then (s, Error)
    else (s, Wait)
  }

  // ---------------------------------------------------------------------------------------
  // The queue it stands for

  /** What is held and not read yet: the file's unread part, then memory. */
  function Held(s: Spool): Data
    requires Offsets(s)
  {
    (if s.file.Some? && s.rd <= s.wr then s.file.value[s.rd..s.wr] else []) + s.mem
  }

  /** The unread part lies before the last write, but the file may go on past it; memory and a spill file
      are never used together, and a failed spool has no file; the count is the number of held bytes and
      respects the limit. */
  predicate Sound(s: Spool) {
    && Offsets(s)
    && (s.file.Some? ==> s.rd <= s.wr && s.mem == [] && !s.err)
    && (!s.err ==> s.buffered == |Held(s)| && (s.limit > 0 ==> s.buffered <= s.limit))
  }

  lemma SpillKeepsQueue(s: Spool)
    requires Sound(s) && !s.err && MustSpill(s)
    ensures Sound(Spilled(s)) && Held(Spilled(s)) == Held(s)
  {
    assert s.file.None?;
    assert Spilled(s).file.value == s.mem;
  }

  lemma StoreAppends(s: Spool, d: Data)
    requires Sound(s) && !s.err && (s.limit > 0 ==> s.buffered + |d| <= s.limit)
    ensures Sound(Stored(s, d)) && Held(Stored(s, d)) == Held(s) + d
  {
    if s.file.Some? {
      var f := s.file.value;
      var g := FileWrite(f, s.wr, d);
      assert g[s.rd..s.wr + |d|] == f[s.rd..s.wr] + d;
    }
  }

  lemma WriteTurnAppends(s: Spool, p: Data, spillOk: bool, writeOk: bool)
    requires Sound(s) && !Full(s) && p != []
    ensures var (t, n) := WriteTurn(s, p, spillOk, writeOk);
            && Sound(t) && n <= |p|
            && (!t.err ==> Held(t) == Held(s) + p[..n] && (s.limit <= 0 ==> n == |p|) && n > 0)
            && (!t.err && n < |p| ==> Full(t))
            && (t.err ==> n == 0 && (Held(t) == Held(s) || Held(t) == []))
  {
    if !s.err {
      if MustSpill(s) {
        SpillKeepsQueue(s);
        if spillOk && writeOk {
          StoreAppends(Spilled(s), p[..Room(s, |p|)]);
        }
      } else if s.file.None? || writeOk {
        StoreAppends(s, p[..Room(s, |p|)]);
      }
    }
  }

  /** A read of the file does not reach past the last write: the file ends there, or the read brings no more
      than the unread part. */
  predicate Fits(s: Spool, max: nat, gives: nat) {
    OnFile(s, max) ==> s.wr == |s.file.value| || Min(max, gives) <= s.wr - s.rd
  }

  lemma ReadFileDequeues(s: Spool, max: nat, truncates: bool)
    requires Sound(s) && OnFile(s, max) && (s.wr == |s.file.value| || max <= s.wr - s.rd)
    ensures var (t, d) := ReadFile(s, max, truncates);
            Sound(t) && d != [] && Held(s) == d + Held(t)
  {
    var f := s.file.value;
    var n := Min(max, |f| - s.rd);
    assert f[s.rd..s.wr] == f[s.rd..s.rd + n] + f[s.rd + n..s.wr];
  }

  lemma ReadMemDequeues(s: Spool, max: nat)
    requires Sound(s) && s.mem != []
    ensures var (t, d) := ReadMem(s, max);
            Sound(t) && (max > 0 ==> d != []) && Held(s) == d + Held(t)
  {
    var n := Min(max, |s.mem|);
    assert s.mem == s.mem[..n] + s.mem[n..];
  }

  /** A read that fits takes the head of the queue, truncated or not; it waits or ends only on an empty one,
      unless the file cannot be read. */
  lemma ReadTurnSound(s: Spool, max: nat, gives: nat, truncates: bool)
    requires Sound(s) && Fits(s, max, gives)
    ensures var (t, o) := ReadTurn(s, max, gives, truncates);
            && Sound(t)
            && (o.Bytes? ==> Held(s) == o.data + Held(t) && (max > 0 ==> o.data != []))
            && (!o.Bytes? ==>
                  if OnFile(s, max) then gives == 0 && t == Failed(s) else t == s && (max > 0 ==> Held(s) == []))
  {
    if OnFile(s, max) {
      if gives > 0 {
        ReadFileDequeues(s, Min(max, gives), truncates);
      }
    } else if s.mem != [] {
      ReadMemDequeues(s, max);
    }
  }

  /** A read the file does not refuse takes the head of the queue and leaves the rest exactly when it fits; one
      that does not fit gives out more bytes than are held. */
  lemma ReadTurnDequeues(s: Spool, max: nat, gives: nat, truncates: bool)
    requires Sound(s) && gives > 0
    ensures var (t, o) := ReadTurn(s, max, gives, truncates);
            && (Fits(s, max, gives) <==> Sound(t) && Held(s) == (if o.Bytes? then o.data else []) + Held(t))
            && (!Fits(s, max, gives) ==> o.Bytes? && |o.data| > |Held(s)|)
  {
    if Fits(s, max, gives) {
      ReadTurnSound(s, max, gives, truncates);
    } else {
      assert Held(s) == s.file.value[s.rd..s.wr];
    }
  }

  /** A blocked writer is never stuck: the reader has something to take, or finds the file broken and fails the
      spool, which ends the wait. */
  lemma FullIsReadable(s: Spool, max: nat, gives: nat, truncates: bool)
    requires Sound(s) && Full(s) && max > 0
    ensures gives > 0 ==> ReadTurn(s, max, gives, truncates).1.Bytes?
    ensures !Full(ReadTurn(s, max, gives, truncates).0)
  {
    if Fits(s, max, gives) {
      ReadTurnSound(s, max, gives, truncates);
    } else {
      ReadTurnDequeues(s, max, gives, truncates);
    }
  }

  // ---------------------------------------------------------------------------------------
  // Whole runs

  datatype Op =
    | Write(p: Data, spillOk: bool, writeOk: bool)   // one turn of a writer that is not blocked
    | Read(max: nat, gives: nat, truncates: bool)
    | CloseWrite
    | Fail

  datatype History = History(s: Spool, accepted: Data, delivered: Data)

  predicate Possible(h: History, op: Op) {
    Offsets(h.s) && (op.Write? ==> !Full(h.s) && op.p != [])
  }

  function After(h: History, op: Op): History
    requires Possible(h, op)
  {
    match op
    case Write(p, spillOk, writeOk) =>
      var (t, n) := WriteTurn(h.s, p, spillOk, writeOk);
      h.(s := t, accepted := h.accepted + if n <= |p| then p[..n] else [])
    case Read(max, gives, truncates) =>
      var (t, o) := ReadTurn(h.s, max, gives, truncates);
      h.(s := t, delivered := h.delivered + if o.Bytes? then o.data else [])
    case CloseWrite => h.(s := h.s.(eof := true))
    case Fail => h.(s := Failed(h.s))
  }

  lemma OffsetsStay(h: History, op: Op)
    requires Possible(h, op)
    ensures Offsets(After(h, op).s)
  {
  }

  function Run(h: History, ops: seq<Op>): Option<History>
    decreases |ops|
  {
    if ops == [] then Some(h)
    else if Possible(h, ops[0]) then Run(After(h, ops[0]), ops[1..])
    else None
  }

  /** Nothing lost, nothing reordered: until a failure, what was accepted is what was delivered and
      then what is held; after one, what was delivered and what can still be read is a beginning of it. */
  ghost predicate Faithful(h: History) {
    && Sound(h.s)
    && h.delivered + Held(h.s) <= h.accepted
    && (!h.s.err ==> h.delivered + Held(h.s) == h.accepted)
  }

  lemma WriteKeepsFaithful(h: History, p: Data, spillOk: bool, writeOk: bool)
    requires Faithful(h) && Possible(h, Write(p, spillOk, writeOk))
    ensures Faithful(After(h, Write(p, spillOk, writeOk)))
  {
    WriteTurnAppends(h.s, p, spillOk, writeOk);
    var (t, n) := WriteTurn(h.s, p, spillOk, writeOk);
    if t.err {
      assert h.accepted + p[..0] == h.accepted;
      assert h.delivered + [] == h.delivered;
    } else {
      Associate(h.delivered, Held(h.s), p[..n]);
    }
  }

  lemma ReadKeepsFaithful(h: History, max: nat, gives: nat, truncates: bool)
    requires Faithful(h) && Fits(h.s, max, gives)
    ensures Faithful(After(h, Read(max, gives, truncates)))
  {
    ReadTurnSound(h.s, max, gives, truncates);
    var (t, o) := ReadTurn(h.s, max, gives, truncates);
    if o.Bytes? {
      Associate(h.delivered, o.data, Held(t));
    } else {
      assert h.delivered + [] == h.delivered;
    }
  }

  lemma ReadPastTheEnd(h: History, max: nat, gives: nat, truncates: bool)
    requires Faithful(h) && !Fits(h.s, max, gives)
    ensures var g := After(h, Read(max, gives, truncates)); !(g.delivered <= g.accepted)
  {
    ReadTurnDequeues(h.s, max, gives, truncates);
    assert |h.delivered + Held(h.s)| == |h.accepted|;
  }

  lemma FailKeepsFaithful(h: History)
    requires Faithful(h)
    ensures Faithful(After(h, Fail))
  {
    var t := Failed(h.s);
    assert Held(t) == Held(h.s) || Held(t) == [];
    assert h.delivered + [] == h.delivered;
  }

  /** The operation is not a read that reaches past the last write. */
  predicate OpFits(h: History, op: Op) {
    op.Read? ==> Fits(h.s, op.max, op.gives)
  }

  lemma OpKeepsFaithful(h: History, op: Op)
    requires Faithful(h) && Possible(h, op) && OpFits(h, op)
    ensures Faithful(After(h, op))
  {
    match op
    case Write(p, spillOk, writeOk) => WriteKeepsFaithful(h, p, spillOk, writeOk);
    case Read(max, gives, truncates) => ReadKeepsFaithful(h, max, gives, truncates);
    case CloseWrite => assert Held(After(h, op).s) == Held(h.s);
    case Fail => FailKeepsFaithful(h);
  }

  /** Every read of the run fits when it is made. */
  predicate ReadsFit(h: History, ops: seq<Op>)
    requires Run(h, ops).Some?
    decreases |ops|
  {
    ops == [] || (OpFits(h, ops[0]) && ReadsFit(After(h, ops[0]), ops[1..]))
  }

  /** At every moment of the run the delivered bytes are a prefix of the accepted ones. */
  predicate StaysPrefix(h: History, ops: seq<Op>)
    requires Run(h, ops).Some?
    decreases |ops|
  {
    h.delivered <= h.accepted && (ops == [] || StaysPrefix(After(h, ops[0]), ops[1..]))
  }

  lemma StartsAsPrefix(h: History, ops: seq<Op>)
    requires Run(h, ops).Some? && StaysPrefix(h, ops)
    ensures h.delivered <= h.accepted
  {
  }

  /** The spool is a bounded FIFO over every run of writes, reads, closes and failures in which every read
      fits, whether truncations succeed or not: nothing is lost or reordered while nothing has failed, and
      never more than a positive limit is held. */
  lemma {:induction false} SpoolIsFifo(h: History, ops: seq<Op>)
    requires Faithful(h) && Run(h, ops).Some? && ReadsFit(h, ops)
    ensures var e := Run(h, ops).value;
            && Faithful(e) && StaysPrefix(h, ops)
            && (!e.s.err ==> e.accepted == e.delivered + Held(e.s))
            && (!e.s.err && e.s.limit > 0 ==> |Held(e.s)| <= e.s.limit)
    decreases |ops|
  {
    hide After, Possible, Held;
    if ops != [] {
      OpKeepsFaithful(h, ops[0]);
      SpoolIsFifo(After(h, ops[0]), ops[1..]);
    }
  }

  lemma {:induction false} PrefixMeansFits(h: History, ops: seq<Op>)
    requires Faithful(h) && Run(h, ops).Some? && StaysPrefix(h, ops)
    ensures ReadsFit(h, ops)
    decreases |ops|
  {
    hide After, Possible, Faithful;
    if ops != [] {
      if !OpFits(h, ops[0]) {
        StartsAsPrefix(After(h, ops[0]), ops[1..]);
        ReadPastTheEnd(h, ops[0].max, ops[0].gives, ops[0].truncates);
      } else {
        OpKeepsFaithful(h, ops[0]);
        PrefixMeansFits(After(h, ops[0]), ops[1..]);
      }
    }
  }

  /** From a fresh spool, over every run and whichever truncations are ignored: the bytes delivered stay a
      prefix of the bytes accepted exactly when every read of the file fits. */
  lemma FifoIffReadsFit(limit: int, memLimit: int, hasDir: bool, ops: seq<Op>)
    requires Run(History(NewSpool(limit, memLimit, hasDir), [], []), ops).Some?
    ensures var h := History(NewSpool(limit, memLimit, hasDir), [], []);
            StaysPrefix(h, ops) <==> ReadsFit(h, ops)
  {
    var h := History(NewSpool(limit, memLimit, hasDir), [], []);
    assert Faithful(h);
    if ReadsFit(h, ops) {
      SpoolIsFifo(h, ops);
    }
    if StaysPrefix(h, ops) {
      PrefixMeansFits(h, ops);
    }
  }

  lemma {:induction false} OffsetsHold(h: History, ops: seq<Op>)
    requires Offsets(h.s) && Run(h, ops).Some?
    ensures Offsets(Run(h, ops).value.s)
    decreases |ops|
  {
    hide Offsets, After;
    if ops != [] {
      OffsetsStay(h, ops[0]);
      OffsetsHold(After(h, ops[0]), ops[1..]);
    }
  }

  /** No run is cut short, not even by a read past the last write: in every state reached anything is possible
      but a write that brings nothing or must wait. */
  lemma OnlyWritersWait(limit: int, memLimit: int, hasDir: bool, ops: seq<Op>, op: Op)
    requires Run(History(NewSpool(limit, memLimit, hasDir), [], []), ops).Some?
    ensures var e := Run(History(NewSpool(limit, memLimit, hasDir), [], []), ops).value;
            Possible(e, op) <==> (op.Write? ==> !Full(e.s) && op.p != [])
  {
    OffsetsHold(History(NewSpool(limit, memLimit, hasDir), [], []), ops);
  }

  /** A file that ends at its last write; it does as long as every truncation succeeds. */
  predicate EndsAtWrite(s: Spool) {
    s.file.Some? ==> s.wr == |s.file.value|
  }

  lemma EndStays(h: History, op: Op)
    requires Faithful(h) && EndsAtWrite(h.s) && Possible(h, op) && (op.Read? ==> op.truncates)
    ensures EndsAtWrite(After(h, op).s) && OpFits(h, op)
  {
    hide Held, FileWrite;
    if op.Write? && !h.s.err {
      WrittenEnds(h.s, op.p[..Room(h.s, |op.p|)]);
      if MustSpill(h.s) {
        SpillKeepsQueue(h.s);
        SpilledEnds(h.s);
        WrittenEnds(Spilled(h.s), op.p[..Room(h.s, |op.p|)]);
      }
    }
  }

  lemma WrittenEnds(s: Spool, d: Data)
    requires Offsets(s) && EndsAtWrite(s)
    ensures EndsAtWrite(Stored(s, d))
  {
  }

  lemma SpilledEnds(s: Spool)
    requires Offsets(s) && EndsAtWrite(s) && !s.err
    ensures EndsAtWrite(Spilled(s)) && Offsets(Spilled(s))
  {
  }

  lemma {:induction false} TruncatedReadsFit(h: History, ops: seq<Op>)
    requires Faithful(h) && EndsAtWrite(h.s) && Run(h, ops).Some?
    requires forall k :: 0 <= k < |ops| && ops[k].Read? ==> ops[k].truncates
    ensures ReadsFit(h, ops)
    decreases |ops|
  {
    hide Faithful, EndsAtWrite, After, Possible, OpFits;
    if ops != [] {
      EndStays(h, ops[0]);
      OpKeepsFaithful(h, ops[0]);
      TruncatedReadsFit(After(h, ops[0]), ops[1..]);
    }
  }

  // ---------------------------------------------------------------------------------------
  // What the reader is told, and where the bytes are kept

  /** A read that does not come to the file tells what there is to tell of an empty queue: the end once writing was
      closed, else the failure if there is one, else to wait. */
  lemma EmptyReadAnswers(s: Spool, max: nat, gives: nat, truncates: bool)
    requires Sound(s) && max > 0 && !OnFile(s, max)
    ensures var o := ReadTurn(s, max, gives, truncates).1;
            && (o == Eof <==> Held(s) == [] && s.eof)
            && (o == Error <==> Held(s) == [] && !s.eof && s.err)
            && (o == Wait <==> Held(s) == [] && !s.eof && !s.err)
            && (o.Bytes? <==> Held(s) != [])
  {
  }

  /** A turn of Write spills exactly when memory has reached its threshold, there is a directory and nothing is spilled
      yet. It fails exactly when that spill fails, or when there is a file then and it cannot be written; otherwise it
      takes all of p or what the limit leaves, into the file if there is one and else into memory. */
  lemma WriteAnswers(s: Spool, p: Data, spillOk: bool, writeOk: bool)
    requires Sound(s) && !s.err && !Full(s) && p != []
    ensures var (t, n) := WriteTurn(s, p, spillOk, writeOk);
            var spills := s.hasDir && s.file.None? && s.mem != [] && |s.mem| >= s.memLimit;
            && (t.err <==> (spills && !spillOk) || ((spills || s.file.Some?) && !writeOk))
            && (!t.err ==> (t.file.Some? <==> spills || s.file.Some?))
            && (!t.err ==> n == if s.limit > 0 && s.limit - s.buffered < |p| then s.limit - s.buffered else |p|)
            && (!t.err && t.file.None? ==> n <= |p| && t.mem == s.mem + p[..n])
            && (!t.err && t.file.Some? ==> t.mem == [])
  {
    hide FileWrite;
  }

  /** A read that drains the file gives its space back, and the file is used again from its start. */
  lemma DrainedIsReleased(s: Spool, max: nat, gives: nat)
    requires Sound(s) && OnFile(s, max) && gives > 0 && Fits(s, max, gives)
    ensures var (t, o) := ReadTurn(s, max, gives, true);
            && o.Bytes? && |o.data| == Min(Min(max, gives), s.wr - s.rd)
            && (|o.data| == s.wr - s.rd ==> t.file == Some([]) && t.rd == 0 && t.wr == 0)
            && (|o.data| < s.wr - s.rd ==> t.file == s.file && t.rd == s.rd + |o.data| && t.wr == s.wr)
  {
  }

  predicate Closes(ops: seq<Op>) {
    exists k :: 0 <= k < |ops| && ops[k].CloseWrite?
  }

  /** The operation can break the spool: it is told to fail, or the file cannot be written or read. */
  predicate Breaks(op: Op) {
    match op
    case Write(_, spillOk, writeOk) => !spillOk || !writeOk
    case Read(_, gives, _) => gives == 0
    case CloseWrite => false
    case Fail => true
  }

  lemma StepFlags(h: History, op: Op)
    requires Possible(h, op)
    ensures After(h, op).s.eof <==> h.s.eof || op.CloseWrite?
    ensures h.s.err ==> After(h, op).s.err
    ensures op.Fail? ==> After(h, op).s.err
    ensures After(h, op).s.err ==> h.s.err || Breaks(op)
  {
    hide FileWrite;
  }

  /** The end of the stream is remembered exactly from a CloseWrite on, and a failure comes only from an operation
      that can break the spool and stays. */
  lemma {:induction false} FlagsAreEarned(h: History, ops: seq<Op>)
    requires Run(h, ops).Some?
    ensures var e := Run(h, ops).value;
            && (e.s.eof <==> h.s.eof || Closes(ops))
            && (e.s.err ==> h.s.err || exists k :: 0 <= k < |ops| && Breaks(ops[k]))
            && (h.s.err || (exists k :: 0 <= k < |ops| && ops[k].Fail?) ==> e.s.err)
    decreases |ops|
  {
    hide After, Possible, Breaks;
    if ops != [] {
      StepFlags(h, ops[0]);
      var later := ops[1..];
      FlagsAreEarned(After(h, ops[0]), later);
      assert forall k :: 0 < k < |ops| ==> ops[k] == later[k - 1];
      assert forall k :: 0 <= k < |later| ==> later[k] == ops[k + 1];
    }
  }

  /** Over every run from a fresh spool whose reads fit, the next read that finds nothing says why: the end exactly
      when writing has been closed, and on a spool that has not failed everything accepted has then been delivered;
      it waits exactly when writing has not been closed and nothing has failed. */
  lemma ReaderIsToldWhy(limit: int, memLimit: int, hasDir: bool, ops: seq<Op>, max: nat, gives: nat, truncates: bool)
    requires var h := History(NewSpool(limit, memLimit, hasDir), [], []); Run(h, ops).Some? && ReadsFit(h, ops)
    requires max > 0 && gives > 0
    ensures Offsets(Run(History(NewSpool(limit, memLimit, hasDir), [], []), ops).value.s)
    ensures var e := Run(History(NewSpool(limit, memLimit, hasDir), [], []), ops).value;
            var o := ReadTurn(e.s, max, gives, truncates).1;
            && (o == Eof ==> Closes(ops)) && (o == Wait ==> !Closes(ops) && !e.s.err)
            && (o == Error ==> !Closes(ops) && exists k :: 0 <= k < |ops| && Breaks(ops[k]))
            && (!o.Bytes? && !e.s.err ==> e.delivered == e.accepted && (o == Eof <==> Closes(ops)))
            && (o.Bytes? ==> o.data != [])
  {
    var h := History(NewSpool(limit, memLimit, hasDir), [], []);
    SpoolIsFifo(h, ops);
    FlagsAreEarned(h, ops);
    var e := Run(h, ops).value;
    if !OnFile(e.s, max) {
      EmptyReadAnswers(e.s, max, gives, truncates);
      assert Held(e.s) == [] ==> e.delivered + Held(e.s) == e.delivered;
    }
  }

  predicate Smaller(ops: seq<Op>, m: nat) {
    forall k :: 0 <= k < |ops| && ops[k].Write? ==> |ops[k].p| <= m
  }

  /** What is in memory is below the threshold and one more write, if there is a directory to spill to. */
  predicate MemoryBounded(s: Spool, m: nat) {
    s.hasDir ==> |s.mem| <= m + if s.memLimit > 0 then s.memLimit else 0
  }

  /** A file is made only over the threshold, and only with a directory. */
  predicate FileEarned(h: History) {
    h.s.file.Some? ==> h.s.hasDir && |h.accepted| >= h.s.memLimit
  }

  lemma MemoryStays(h: History, op: Op, m: nat)
    requires Faithful(h) && Possible(h, op) && OpFits(h, op) && (op.Write? ==> |op.p| <= m)
    requires MemoryBounded(h.s, m) && FileEarned(h)
    ensures var g := After(h, op);
            && MemoryBounded(g.s, m) && FileEarned(g) && g.s.hasDir == h.s.hasDir && g.s.memLimit == h.s.memLimit
            && |g.accepted| >= |h.accepted|
  {
    hide FileWrite;
    assert h.s.file.None? && !h.s.err ==> |h.s.mem| <= |h.accepted|;
  }

  /** Over every run from a fresh spool whose reads fit: with a directory memory holds no more than the threshold and
      one write, and nothing is spilled before as much as the threshold has been written, or without a directory. */
  lemma {:induction false} MemoryIsBounded(h: History, ops: seq<Op>, m: nat)
    requires Faithful(h) && Run(h, ops).Some? && ReadsFit(h, ops) && Smaller(ops, m)
    requires MemoryBounded(h.s, m) && FileEarned(h)
    ensures var e := Run(h, ops).value;
            && e.s.hasDir == h.s.hasDir && e.s.memLimit == h.s.memLimit
            && (e.s.hasDir ==> |e.s.mem| <= m + if e.s.memLimit > 0 then e.s.memLimit else 0)
            && (!e.s.hasDir || |e.accepted| < e.s.memLimit ==> e.s.file.None?)
    decreases |ops|
  {
    hide After, Possible, Faithful, MemoryBounded, FileEarned;
    if ops == [] {
      EndsBounded(h, m);
    } else {
      OpKeepsFaithful(h, ops[0]);
      MemoryStays(h, ops[0], m);
      MemoryIsBounded(After(h, ops[0]), ops[1..], m);
    }
  }

  lemma EndsBounded(h: History, m: nat)
    requires MemoryBounded(h.s, m) && FileEarned(h)
    ensures h.s.hasDir ==> |h.s.mem| <= m + if h.s.memLimit > 0 then h.s.memLimit else 0
    ensures !h.s.hasDir || |h.accepted| < h.s.memLimit ==> h.s.file.None?
  {
  }

  lemma FilledTwice()
    ensures var h := History(NewSpool(0, 0, true), [], []);
            var ops := [Write([1], true, true), Write([2], true, true)];
            Run(h, ops) == Some(History(Spool(0, 0, true, [], Some([1, 2]), 2, 0, 2, false, false), [1, 2], []))
  {
    var h0 := History(NewSpool(0, 0, true), [], []);
    var x: Data, y: Data := [1], [2];
    assert x[..1] == x && y[..1] == y;
    var h1 := After(h0, Write([1], true, true));
    assert h1.s == Spool(0, 0, true, [1], None, 0, 0, 1, false, false);
    assert FileWrite([], 0, [1]) == [1] && FileWrite([1], 1, [2]) == [1, 2];
    var h2 := After(h1, Write([2], true, true));
    assert h2.s == Stored(Spilled(h1.s), [2]);
    assert h2.s.file == Some([1, 2]) && h2.s.mem == [] && h2.accepted == [1, 2] && h2.delivered == [];
    var ops: seq<Op> := [Write([1], true, true), Write([2], true, true)];
    assert ops[1..] == [Write([2], true, true)];
    assert Run(h1, ops[1..]) == Some(h2);
  }

  lemma RewoundOverStale()
    ensures var h := History(Spool(0, 0, true, [], Some([1, 2]), 2, 0, 2, false, false), [1, 2], []);
            var ops := [Read(2, 2, false), Write([3], true, true)];
            Run(h, ops) == Some(History(Spool(0, 0, true, [], Some([3, 2]), 1, 0, 1, false, false), [1, 2, 3], [1, 2]))
  {
    var h2 := History(Spool(0, 0, true, [], Some([1, 2]), 2, 0, 2, false, false), [1, 2], []);
    var h3 := After(h2, Read(2, 2, false));
    assert h3 == History(Spool(0, 0, true, [], Some([1, 2]), 0, 0, 0, false, false), [1, 2], [1, 2]);
    assert FileWrite([1, 2], 0, [3]) == [3, 2];
    var z: Data := [3];
    assert z[..1] == z;
    var h4 := After(h3, Write([3], true, true));
    assert h4.s == Stored(h3.s, [3]);
    assert h4.s.file == Some([3, 2]) && h4.accepted == [1, 2, 3] && h4.delivered == [1, 2];
    var ops: seq<Op> := [Read(2, 2, false), Write([3], true, true)];
    assert ops[1..] == [Write([3], true, true)];
    assert Run(h3, ops[1..]) == Some(h4);
  }

  lemma StaleByteDelivered()
    ensures var h := History(Spool(0, 0, true, [], Some([3, 2]), 1, 0, 1, false, false), [1, 2, 3], [1, 2]);
            Run(h, [Read(2, 2, true)]).Some? && Run(h, [Read(2, 2, true)]).value.accepted == [1, 2, 3]
            && Run(h, [Read(2, 2, true)]).value.delivered == [1, 2, 3, 2]
  {
    var h := History(Spool(0, 0, true, [], Some([3, 2]), 1, 0, 1, false, false), [1, 2, 3], [1, 2]);
    assert ReadTurn(h.s, 2, 2, true).1.data == [3, 2];
  }

  lemma {:induction false} RunJoins(h: History, a: seq<Op>, b: seq<Op>)
    requires Run(h, a).Some?
    ensures Run(h, a + b) == Run(Run(h, a).value, b)
    decreases |a|
  {
    if a == [] {
      assert a + b == b;
    } else {
      assert (a + b)[1..] == a[1..] + b;
      RunJoins(After(h, a[0]), a[1..], b);
    }
  }

  /** An ignored truncation error breaks it: with a spilled [1, 2] read and rewound but not truncated,
      the next read after one more byte is written delivers the stale 2 again. */
  lemma IgnoredTruncationRepeatsBytes()
    ensures exists ops: seq<Op> ::
              var e := Run(History(NewSpool(0, 0, true), [], []), ops);
              e.Some? && e.value.accepted == [1, 2, 3] && e.value.delivered == [1, 2, 3, 2]
  {
    var h := History(NewSpool(0, 0, true), [], []);
    var a: seq<Op> := [Write([1], true, true), Write([2], true, true)];
    var b: seq<Op> := [Read(2, 2, false), Write([3], true, true)];
    var c: seq<Op> := [Read(2, 2, true)];
    FilledTwice();
    RewoundOverStale();
    StaleByteDelivered();
    RunJoins(h, a, b);
    RunJoins(h, a + b, c);
    var e := Run(h, (a + b) + c);
    assert e.Some? && e.value.accepted == [1, 2, 3] && e.value.delivered == [1, 2, 3, 2];
  }

  // ---------------------------------------------------------------------------------------
  // The buffer itself

  class SpoolBuf {
    const limit: int
    const memLimit: int
    const hasDir: bool
    var mem: Data
    var file: Option<Data>
    var fileWrOff: nat
    var fileRdOff: nat
    var buffered: int
    var eof: bool
    var err: bool

    function View(): Spool
      reads this
    {
      Spool(limit, memLimit, hasDir, mem, file, fileWrOff, fileRdOff, buffered, eof, err)
    }

    constructor (limit: int, memLimit: int, hasDir: bool)
      ensures View() == NewSpool(limit, memLimit, hasDir)
    {
      this.limit, this.memLimit, this.hasDir := limit, memLimit, hasDir;
      mem, file, fileWrOff, fileRdOff, buffered, eof, err := [], None, 0, 0, 0, false, false;
    }

    method FailLocked()
      modifies this`err, this`file
      ensures View() == Failed(old(View()))
    {
      err := true;
      file := None;
    }

    method SpillLocked(ok: bool) returns (failed: bool)
      requires Offsets(View()) && !err
      modifies this`mem, this`file, this`fileWrOff
      ensures failed <==> mem != [] && !ok
      ensures if old(mem) == [] then View() == old(View())
              else if !ok then View().(file := old(file)) == old(View())
              else View() == Spilled(old(View()))
    {
      if mem == [] {
        return false;
      }
      if file.None? {
        file := Some([]);
      }
      if !ok {
        return true;
      }
      file := Some(FileWrite(file.value, fileWrOff, mem));
      fileWrOff := fileWrOff + |mem|;
      mem := [];
      return false;
    }

    /** The locked part of one turn: spill if memory is over its threshold, then store the chunk. */
    method Store(chunk: Data, spillOk: bool, writeOk: bool) returns (failed: bool)
      requires Sound(View()) && !err && !Full(View()) && chunk != [] && |chunk| == Room(View(), |chunk|)
      modifies this`mem, this`file, this`fileWrOff, this`buffered, this`err
      ensures (View(), if failed then 0 else |chunk|) == WriteTurn(old(View()), chunk, spillOk, writeOk)
      ensures Sound(View()) && (failed <==> err)
      ensures !failed ==> Held(View()) == old(Held(View())) + chunk
    {
      hide Held, FileWrite;
      WriteTurnAppends(View(), chunk, spillOk, writeOk);
      assert chunk[..|chunk|] == chunk;
      if |mem| >= memLimit && hasDir {
        failed := SpillLocked(spillOk);
        if failed {
          FailLocked();
          return;
        }
      }
      if file.Some? {
        if !writeOk {
          FailLocked();
          return true;
        }
        file := Some(FileWrite(file.value, fileWrOff, chunk));
        fileWrOff := fileWrOff + |chunk|;
      } else {
        mem := mem + chunk;
      }
      buffered := buffered + |chunk|;
      return false;
    }

    /** Buffers p until it is taken, the limit is reached, or something fails; the caller waits for the
        reader when bytes are left over. */
    method Write(p: Data, spillOk: bool, writeOk: bool) returns (written: nat)
      requires Sound(View())
      modifies this`mem, this`file, this`fileWrOff, this`buffered, this`err
      ensures Sound(View()) && written <= |p|
      ensures !err ==> Held(View()) == old(Held(View())) + p[..written]
      ensures !err && written < |p| ==> Full(View())
      ensures old(err) ==> err && written == 0
    {
      hide Held, Stored, Spilled, WriteTurn, MustSpill;
      written := 0;
      assert p[..0] == [];
      while written < |p|
        invariant Sound(View()) && written <= |p|
        invariant !err ==> Held(View()) == old(Held(View())) + p[..written]
        invariant old(err) ==> err && written == 0
      {
        if err || (limit > 0 && buffered >= limit) {
          return;
        }
        var n := |p| - written;
        if limit > 0 && limit - buffered < n {
          n := limit - buffered;
        }
        assert p[..written + n] == p[..written] + p[written..written + n];
        var failed := Store(p[written..written + n], spillOk, writeOk);
        if failed {
          return;
        }
        written := written + n;
      }
    }

    method ResetSpillLocked(truncates: bool)
      modifies this`file, this`fileRdOff, this`fileWrOff
      ensures View() == Rewound(old(View()), truncates)
    {
      if file.Some? && fileRdOff == fileWrOff && mem == [] {
        if truncates {
          file := Some([]);
        }
        fileRdOff, fileWrOff := 0, 0;
      }
    }

    /** Drains in FIFO order, file before memory. The file gives at most `gives` bytes; with none at all its
        error fails the spool. */
    method Read(max: nat, gives: nat, truncates: bool) returns (o: Outcome)
      requires Offsets(View())
      modifies this`mem, this`file, this`fileRdOff, this`fileWrOff, this`buffered, this`err
      ensures (View(), o) == ReadTurn(old(View()), max, gives, truncates)
    {
      if file.Some? && fileRdOff < fileWrOff {
        var n := Min(Min(max, gives), |file.value| - fileRdOff);
        if n > 0 {
          o := Bytes(file.value[fileRdOff..fileRdOff + n]);
          fileRdOff := fileRdOff + n;
          buffered := buffered - n;
          if fileRdOff == fileWrOff && mem == [] {
            ResetSpillLocked(truncates);
          }
          return;
        }
        if max > 0 {
          FailLocked();
          return Error;
        }
      }
      if mem != [] {
        var n := Min(max, |mem|);
        o := Bytes(mem[..n]);
        mem := mem[n..];
        buffered := buffered - n;
        return;
      }
      if eof {
        return Eof;
      }
      if err {
        return Error;
      }
      return Wait;
    }

    method CloseWrite()
      modifies this`eof
      ensures View() == old(View()).(eof := true)
    {
      eof := true;
    }
  }
}
