// The hash-chained audit journal: torn-tail repair over crashes, and what the chain proves.

module Audit {
  import opened Bytes

  const NEWLINE: byte := 10
  const NUL: byte := 0

  datatype Entry = Entry(seqNo: int, ts: Data, event: Data, detail: Data, prev: Data, hash: Data)

  /** The line codec (JSON in the source) and the hash (SHA-256 in hex). */
  datatype Format = Format(enc: Entry -> Data, dec: Data -> Option<Entry>, hash: Data -> Data)

  /** A line holds one entry, never a newline; it reads back as that entry. */
  ghost predicate GoodLines(c: Format) {
    forall e: Entry :: NEWLINE !in c.enc(e) && c.enc(e) != [] && c.dec(c.enc(e)) == Some(e)
  }

  /** Hashes are distinct for distinct inputs, and hex strings. */
  ghost predicate GoodHash(c: Format) {
    && (forall x: Data, y: Data :: c.hash(x) == c.hash(y) ==> x == y)
    && (forall x: Data :: c.hash(x) != [] && NUL !in c.hash(x))
  }

  function Digits(n: nat): (d: Data)
    ensures d != [] && forall k :: 0 <= k < |d| ==> 48 <= d[k] < 58
  {
    if n < 10 then [(48 + n) as byte] else Digits(n / 10) + [(48 + n % 10) as byte]
  }

  function Decimal(n: int): Data {
    if n < 0 then [45] + Digits(-n) else Digits(n)
  }

  function Preimage(e: Entry): Data {
    e.prev + ([NUL] + (Decimal(e.seqNo) + ([NUL] + (e.ts + ([NUL] + (e.event + ([NUL] + e.detail)))))))
  }

  function HashOf(c: Format, e: Entry): Data {
    c.hash(Preimage(e))
  }

  // ---------------------------------------------------------------------------------------
  // Reading

  /** The position of the first newline, or the length. */
  function FirstNewline(b: Data): (i: nat)
    ensures i <= |b| && NEWLINE !in b[..i] && (i < |b| ==> b[i] == NEWLINE)
  {
    if b == [] then 0 else if b[0] == NEWLINE then 0
    else
      assert b[..1 + FirstNewline(b[1..])] == [b[0]] + b[1..][..FirstNewline(b[1..])];
      1 + FirstNewline(b[1..])
  }

  datatype Scan = Scan(entries: seq<Entry>, valid: nat, torn: bool)

  /** The intact prefix: its entries, its length, and whether what follows is one partial line. */
  function ReadAll(c: Format, b: Data): Scan
    decreases |b|
  {
    if b == [] then Scan([], 0, false)
    else
      var i := FirstNewline(b);
      if i == |b| then Scan([], 0, true)
      else if i > 0 && c.dec(b[..i]).None? then Scan([], 0, false)
      else
        var rest := ReadAll(c, b[i + 1..]);
        Scan((if i > 0 then [c.dec(b[..i]).value] else []) + rest.entries, i + 1 + rest.valid, rest.torn)
  }

  /** How many entries link and hash correctly before the first that does not. */
  function Intact(c: Format, es: seq<Entry>, prev: Data): nat {
    if es == [] || es[0].prev != prev || es[0].hash != HashOf(c, es[0]) then 0
    else 1 + Intact(c, es[1..], es[0].hash)
  }

  predicate Verifies(c: Format, es: seq<Entry>) {
    Intact(c, es, []) == |es|
  }

  // ---------------------------------------------------------------------------------------
  // Opening and appending

  datatype Opened = Ready(file: Data, seqNo: int, head: Data) | Refused

  function LastSeq(es: seq<Entry>): int {
    if es == [] then 0 else es[|es| - 1].seqNo
  }

  function LastHash(es: seq<Entry>): Data {
    if es == [] then [] else es[|es| - 1].hash
  }

  /** A torn tail is cut off; anything else unreadable refuses, and the file stays as it was. */
  function OpenFile(c: Format, file: Data): Opened {
    var s := ReadAll(c, file);
    if |file| > s.valid && !s.torn then Refused
    else Ready(if s.valid <= |file| then file[..s.valid] else file, LastSeq(s.entries), LastHash(s.entries))
  }

  function NextEntry(c: Format, seqNo: int, head: Data, ts: Data, event: Data, detail: Data): Entry {
    var e := Entry(seqNo + 1, ts, event, detail, head, []);
    e.(hash := HashOf(c, e))
  }

  function Line(c: Format, e: Entry): Data {
    c.enc(e) + [NEWLINE]
  }

  function Encode(c: Format, es: seq<Entry>): Data {
    if es == [] then [] else Line(c, es[0]) + Encode(c, es[1..])
  }

  /** Every entry hashes correctly and links to the one before. */
  predicate Linked(c: Format, es: seq<Entry>) {
    forall k :: 0 <= k < |es| ==> es[k].hash == HashOf(c, es[k]) && es[k].prev == LastHash(es[..k])
  }

  /** The entries are numbered from 1. */
  predicate Numbered(es: seq<Entry>) {
    forall k :: 0 <= k < |es| ==> es[k].seqNo == k + 1
  }

  // ---------------------------------------------------------------------------------------
  // Runs with crashes and short writes

  /** The first n bytes of an entry's line, without its newline. */
  datatype Piece = Piece(e: Entry, n: nat)

  predicate IsPiece(c: Format, p: Piece) {
    0 < p.n <= |c.enc(p.e)|
  }

  function Glued(c: Format, ps: seq<Piece>): Data
    requires forall k :: 0 <= k < |ps| ==> IsPiece(c, ps[k])
  {
    if ps == [] then []
    else
      var p := ps[|ps| - 1];
      assert IsPiece(c, p);
      Glued(c, ps[..|ps| - 1]) + c.enc(p.e)[..p.n]
  }

  /** Beginnings of lines followed by a whole line make no entry: what an object notation gives, since each
      piece opens an object that the next one starts inside of or after. */
  ghost predicate GoodJoins(c: Format) {
    forall ps: seq<Piece>, e: Entry ::
      ps != [] && (forall k :: 0 <= k < |ps| ==> IsPiece(c, ps[k])) ==> c.dec(Glued(c, ps) + c.enc(e)).None?
  }

  datatype Journal = Closed | Live(seqNo: int, head: Data)

  /** `full` is every entry whose line was wholly written before anything was buried; `tail` is what short
      writes and a crash have left after them. `missed` counts the sequence numbers failed appends have used
      up since the journal was opened or a line was written. A line was `buried` if it was written behind such
      a tail, and the numbering is `gapped` if a line was written after a missed number. */
  datatype World = World(file: Data, j: Journal, full: seq<Entry>, tail: seq<Piece>, missed: nat, buried: bool,
      gapped: bool)

  datatype Op =
    | Open
    | Append(ts: Data, event: Data, detail: Data)
    | ShortAppend(ts: Data, event: Data, detail: Data, takes: nat)   // the disk takes less than a line: an error
    | Crash(ts: Data, event: Data, detail: Data, n: nat)             // power is lost n bytes into a line

  function Appended(c: Format, w: World, ts: Data, event: Data, detail: Data): Entry
    requires w.j.Live?
  {
    NextEntry(c, w.j.seqNo, w.j.head, ts, event, detail)
  }

  predicate Possible(c: Format, w: World, op: Op) {
    match op
    case Open => w.j.Closed?
    case Append(_, _, _) => w.j.Live?
    case ShortAppend(ts, event, detail, takes) => w.j.Live? && takes < |Line(c, Appended(c, w, ts, event, detail))|
    case Crash(ts, event, detail, n) => w.j.Live? && n <= |Line(c, Appended(c, w, ts, event, detail))|
  }

  /** A whole line reaches the disk. */
  function Whole(c: Format, w: World, e: Entry): World {
    var clean := w.tail == [] && !w.buried;
    w.(file := w.file + Line(c, e), full := if clean then w.full + [e] else w.full,
       missed := 0, buried := !clean, gapped := w.gapped || (clean && w.missed > 0))
  }

  /** The first n bytes of a line reach the disk. */
  function Partly(c: Format, w: World, e: Entry, n: nat): World
    requires n < |Line(c, e)|
  {
    w.(file := w.file + Line(c, e)[..n], tail := if n > 0 then w.tail + [Piece(e, n)] else w.tail)
  }

  function After(c: Format, w: World, op: Op): World
    requires Possible(c, w, op)
  {
    match op
    case Open =>
      (match OpenFile(c, w.file)
       case Refused => w
       case Ready(file, seqNo, head) => w.(file := file, j := Live(seqNo, head), tail := [], missed := 0))
    case Append(ts, event, detail) =>
      var e := Appended(c, w, ts, event, detail);
      Whole(c, w, e).(j := Live(e.seqNo, e.hash))
    case ShortAppend(ts, event, detail, takes) =>
      var e := Appended(c, w, ts, event, detail);
      Partly(c, w, e, takes).(j := Live(e.seqNo, w.j.head), missed := w.missed + 1)
    case Crash(ts, event, detail, n) =>
      var e := Appended(c, w, ts, event, detail);
      (if n == |Line(c, e)| then Whole(c, w, e) else Partly(c, w, e, n)).(j := Closed)
  }

  function Run(c: Format, w: World, ops: seq<Op>): Option<World>
    decreases |ops|
  {
    if ops == [] then Some(w)
    else if Possible(c, w, ops[0]) then Run(c, After(c, w, ops[0]), ops[1..])
    else None
  }

  const EMPTY := World([], Closed, [], [], 0, false, false)

  // ---------------------------------------------------------------------------------------
  // Reading what was written

  lemma {:induction false} EncodeJoin(c: Format, a: seq<Entry>, b: seq<Entry>)
    ensures Encode(c, a + b) == Encode(c, a) + Encode(c, b)
  {
    if a == [] {
      assert a + b == b;
    } else {
      assert (a + b)[1..] == a[1..] + b;
      EncodeJoin(c, a[1..], b);
      Associate(Line(c, a[0]), Encode(c, a[1..]), Encode(c, b));
    }
  }

  lemma NewlineAt(line: Data, rest: Data)
    requires NEWLINE !in line
    ensures FirstNewline(line + ([NEWLINE] + rest)) == |line|
    ensures FirstNewline(line) == |line|
  {
    var b := line + ([NEWLINE] + rest);
    assert b[|line|] == NEWLINE;
  }

  function Before(out: seq<Entry>, valid: nat, s: Scan): Scan {
    Scan(out + s.entries, valid + s.valid, s.torn)
  }

  lemma BeforeTwice(out: seq<Entry>, valid: nat, more: seq<Entry>, n: nat, s: Scan)
    ensures Before(out, valid, Before(more, n, s)) == Before(out + more, valid + n, s)
    ensures Before([], 0, s) == s
  {
    assert out + (more + s.entries) == (out + more) + s.entries;
    assert [] + s.entries == s.entries;
  }

  lemma OneLineRead(c: Format, b: Data, i: nat)
    requires i == FirstNewline(b) && i < |b| && (i > 0 ==> c.dec(b[..i]).Some?)
    ensures ReadAll(c, b) == Before(if i > 0 then [c.dec(b[..i]).value] else [], i + 1, ReadAll(c, b[i + 1..]))
  {
  }

  /** Lines written in full are read back, whatever follows them. */
  lemma {:induction false} ReadsPast(c: Format, es: seq<Entry>, rest: Data)
    requires GoodLines(c)
    ensures ReadAll(c, Encode(c, es) + rest) == Before(es, |Encode(c, es)|, ReadAll(c, rest))
    decreases |es|
  {
    hide FirstNewline, ReadAll, Before;
    if es == [] {
      assert Encode(c, es) + rest == rest;
      BeforeTwice([], 0, [], 0, ReadAll(c, rest));
    } else {
      var line, more := c.enc(es[0]), Encode(c, es[1..]) + rest;
      var b := Encode(c, es) + rest;
      Associate(Line(c, es[0]), Encode(c, es[1..]), rest);
      Associate(line, [NEWLINE], more);
      NewlineAt(line, more);
      assert b[..|line|] == line && b[|line| + 1..] == more;
      OneLineRead(c, b, |line|);
      ReadsPast(c, es[1..], rest);
      BeforeTwice([es[0]], |line| + 1, es[1..], |Encode(c, es[1..])|, ReadAll(c, rest));
      assert [es[0]] + es[1..] == es;
    }
  }

  /** A partial line after them is a torn tail. */
  lemma ReadsBack(c: Format, es: seq<Entry>, tail: Data)
    requires GoodLines(c) && NEWLINE !in tail
    ensures ReadAll(c, Encode(c, es) + tail) == Scan(es, |Encode(c, es)|, tail != [])
  {
    ReadsPast(c, es, tail);
    NewlineAt(tail, []);
  }

  /** A line after them that makes no entry ends the reading there, for good. */
  lemma ReadsUpTo(c: Format, es: seq<Entry>, line: Data, rest: Data)
    requires GoodLines(c) && line != [] && NEWLINE !in line && c.dec(line).None?
    ensures ReadAll(c, Encode(c, es) + (line + ([NEWLINE] + rest))) == Scan(es, |Encode(c, es)|, false)
  {
    var b := line + ([NEWLINE] + rest);
    ReadsPast(c, es, b);
    NewlineAt(line, rest);
    assert b[..|line|] == line;
  }

  lemma {:induction false} ChainIntact(c: Format, es: seq<Entry>, k: nat)
    requires Linked(c, es) && k <= |es|
    ensures Intact(c, es[k..], LastHash(es[..k])) == |es| - k
    decreases |es| - k
  {
    if k < |es| {
      assert es[k..][0] == es[k] && es[k..][1..] == es[k + 1..];
      assert es[..k + 1][k] == es[k];
      ChainIntact(c, es, k + 1);
    }
  }

  /** A chained journal verifies from end to end. */
  lemma ChainVerifies(c: Format, es: seq<Entry>)
    requires Linked(c, es)
    ensures Verifies(c, es)
  {
    assert es[0..] == es && es[..0] == [];
    ChainIntact(c, es, 0);
  }

  lemma ChainGrows(c: Format, es: seq<Entry>, seqNo: int, ts: Data, event: Data, detail: Data)
    requires Linked(c, es)
    ensures Linked(c, es + [NextEntry(c, seqNo, LastHash(es), ts, event, detail)])
  {
    var e := NextEntry(c, seqNo, LastHash(es), ts, event, detail);
    var more := es + [e];
    assert e.hash == HashOf(c, e);
    forall k | 0 <= k < |more|
      ensures more[k].hash == HashOf(c, more[k]) && more[k].prev == LastHash(more[..k])
    {
      assert more[..k] == es[..k];
      if k == |es| {
        assert es[..k] == es;
      }
    }
  }

  lemma {:induction false} GluedPlain(c: Format, ps: seq<Piece>)
    requires GoodLines(c) && forall k :: 0 <= k < |ps| ==> IsPiece(c, ps[k])
    ensures NEWLINE !in Glued(c, ps) && (Glued(c, ps) == [] <==> ps == [])
  {
    if ps != [] {
      GluedPlain(c, ps[..|ps| - 1]);
      var p := ps[|ps| - 1];
      assert NEWLINE !in c.enc(p.e)[..p.n];
    }
  }

  lemma GluedGrows(c: Format, ps: seq<Piece>, e: Entry, n: nat)
    requires (forall k :: 0 <= k < |ps| ==> IsPiece(c, ps[k])) && 0 < n <= |c.enc(e)|
    ensures Glued(c, ps + [Piece(e, n)]) == Glued(c, ps) + Line(c, e)[..n]
  {
    var more := ps + [Piece(e, n)];
    assert more[..|more| - 1] == ps;
    assert Line(c, e)[..n] == c.enc(e)[..n];
  }

  /** What is on disk while nothing is buried: the full lines, then the tail. */
  predicate Clean(c: Format, file: Data, full: seq<Entry>, tail: seq<Piece>) {
    && (forall k :: 0 <= k < |tail| ==> IsPiece(c, tail[k]))
    && file == Encode(c, full) + Glued(c, tail)
  }

  /** What is on disk once something is: after the full lines, a complete line that makes no entry. */
  ghost predicate Spoilt(c: Format, file: Data, full: seq<Entry>) {
    exists line: Data, rest: Data ::
      && line != [] && NEWLINE !in line && c.dec(line).None?
      && file == Encode(c, full) + (line + ([NEWLINE] + rest))
  }

  /** Where the open journal stands, and what the numbering has come to. */
  predicate Counts(j: Journal, full: seq<Entry>, missed: nat, buried: bool, gapped: bool) {
    && (j.Live? && !buried ==> j.head == LastHash(full) && j.seqNo == LastSeq(full) + missed)
    && (Numbered(full) <==> !gapped)
  }

  ghost predicate Sound(c: Format, w: World) {
    && Linked(c, w.full)
    && Counts(w.j, w.full, w.missed, w.buried, w.gapped)
    && (if w.buried then Spoilt(c, w.file, w.full) else Clean(c, w.file, w.full, w.tail))
  }

  lemma CleanReads(c: Format, file: Data, full: seq<Entry>, tail: seq<Piece>)
    requires GoodLines(c) && Clean(c, file, full, tail)
    ensures ReadAll(c, file) == Scan(full, |Encode(c, full)|, tail != [])
    ensures OpenFile(c, file) == Ready(Encode(c, full), LastSeq(full), LastHash(full))
  {
    hide ReadAll, Encode;
    GluedPlain(c, tail);
    ReadsBack(c, full, Glued(c, tail));
    assert file[..|Encode(c, full)|] == Encode(c, full);
  }

  lemma SpoiltReads(c: Format, file: Data, full: seq<Entry>)
    requires GoodLines(c) && Spoilt(c, file, full)
    ensures ReadAll(c, file) == Scan(full, |Encode(c, full)|, false)
    ensures OpenFile(c, file) == Refused
  {
    hide ReadAll, Encode;
    var line: Data, rest: Data :| line != [] && NEWLINE !in line && c.dec(line).None?
                                  && file == Encode(c, full) + (line + ([NEWLINE] + rest));
    ReadsUpTo(c, full, line, rest);
  }

  lemma SpoiltStays(c: Format, file: Data, full: seq<Entry>, more: Data)
    requires Spoilt(c, file, full)
    ensures Spoilt(c, file + more, full)
  {
    var line: Data, rest: Data :| line != [] && NEWLINE !in line && c.dec(line).None?
                                  && file == Encode(c, full) + (line + ([NEWLINE] + rest));
    Associate(Encode(c, full), line + ([NEWLINE] + rest), more);
    Associate(line, [NEWLINE] + rest, more);
    Associate([NEWLINE], rest, more);
  }

  lemma CleanGrows(c: Format, file: Data, full: seq<Entry>, e: Entry)
    requires Clean(c, file, full, [])
    ensures Clean(c, file + Line(c, e), full + [e], [])
  {
    EncodeJoin(c, full, [e]);
    assert Encode(c, [e]) == Line(c, e) + [];
    assert Line(c, e) + [] == Line(c, e) && Encode(c, full) + [] == Encode(c, full);
    assert Encode(c, full + [e]) + [] == Encode(c, full + [e]);
  }

  lemma TailGrows(c: Format, file: Data, full: seq<Entry>, tail: seq<Piece>, e: Entry, n: nat)
    requires Clean(c, file, full, tail) && 0 < n < |Line(c, e)|
    ensures Clean(c, file + Line(c, e)[..n], full, tail + [Piece(e, n)])
  {
    GluedGrows(c, tail, e, n);
    Associate(Encode(c, full), Glued(c, tail), Line(c, e)[..n]);
  }

  lemma LineIsBuried(c: Format, file: Data, full: seq<Entry>, tail: seq<Piece>, e: Entry)
    requires GoodLines(c) && GoodJoins(c) && Clean(c, file, full, tail) && tail != []
    ensures Spoilt(c, file + Line(c, e), full)
  {
    var line := Glued(c, tail) + c.enc(e);
    GluedPlain(c, tail);
    assert c.dec(line).None?;
    Associate(Encode(c, full), Glued(c, tail), Line(c, e));
    Associate(Glued(c, tail), c.enc(e), [NEWLINE]);
    assert [NEWLINE] + [] == [NEWLINE];
    assert file + Line(c, e) == Encode(c, full) + (line + ([NEWLINE] + []));
  }

  lemma CountsGrow(full: seq<Entry>, missed: nat, gapped: bool, e: Entry)
    requires (Numbered(full) <==> !gapped) && e.seqNo == LastSeq(full) + missed + 1
    ensures Numbered(full + [e]) <==> !(gapped || missed > 0)
    ensures LastSeq(full + [e]) == e.seqNo && LastHash(full + [e]) == e.hash
  {
    var more := full + [e];
    assert more[|full|] == e;
    if Numbered(more) {
      assert forall k :: 0 <= k < |full| ==> full[k] == more[k];
    }
  }

  lemma WholeStays(c: Format, w: World, ts: Data, event: Data, detail: Data, live: bool)
    requires GoodLines(c) && GoodJoins(c) && Sound(c, w) && w.j.Live?
    ensures var e := Appended(c, w, ts, event, detail);
            Sound(c, Whole(c, w, e).(j := if live then Live(e.seqNo, e.hash) else Closed))
  {
    hide Linked, Clean, Spoilt, Numbered, GoodLines, GoodJoins, Line;
    var e := Appended(c, w, ts, event, detail);
    if w.buried {
      SpoiltStays(c, w.file, w.full, Line(c, e));
    } else if w.tail != [] {
      LineIsBuried(c, w.file, w.full, w.tail, e);
    } else {
      ChainGrows(c, w.full, w.j.seqNo, ts, event, detail);
      CleanGrows(c, w.file, w.full, e);
      CountsGrow(w.full, w.missed, w.gapped, e);
    }
  }

  lemma PartlyStays(c: Format, w: World, e: Entry, n: nat, j: Journal, missed: nat)
    requires Sound(c, w) && n < |Line(c, e)| && Counts(j, w.full, missed, w.buried, w.gapped)
    ensures Sound(c, Partly(c, w, e, n).(j := j, missed := missed))
  {
    hide Linked, Clean, Spoilt, Line, Counts;
    if w.buried {
      SpoiltStays(c, w.file, w.full, Line(c, e)[..n]);
    } else if n > 0 {
      TailGrows(c, w.file, w.full, w.tail, e, n);
    } else {
      assert w.file + Line(c, e)[..n] == w.file;
    }
  }

  lemma OpenStays(c: Format, w: World)
    requires GoodLines(c) && Sound(c, w) && Possible(c, w, Open)
    ensures Sound(c, After(c, w, Open)) && (After(c, w, Open).j.Live? <==> !w.buried)
  {
    hide Linked, Spoilt, OpenFile, Encode, Numbered;
    if w.buried {
      SpoiltReads(c, w.file, w.full);
    } else {
      CleanReads(c, w.file, w.full, w.tail);
      assert Glued(c, []) == [] && Encode(c, w.full) + [] == Encode(c, w.full);
    }
  }

  lemma StepStays(c: Format, w: World, op: Op)
    requires GoodLines(c) && GoodJoins(c) && Sound(c, w) && Possible(c, w, op)
    ensures Sound(c, After(c, w, op))
  {
    hide GoodLines, GoodJoins, Linked, Clean, Spoilt, Numbered, Line, NextEntry;
    match op
    case Open => OpenStays(c, w);
    case Append(ts, event, detail) => WholeStays(c, w, ts, event, detail, true);
    case ShortAppend(ts, event, detail, takes) =>
      var e := Appended(c, w, ts, event, detail);
      NumberUsed(c, w, ts, event, detail);
      PartlyStays(c, w, e, takes, Live(e.seqNo, w.j.head), w.missed + 1);
    case Crash(ts, event, detail, n) =>
      var e := Appended(c, w, ts, event, detail);
      if n == |Line(c, e)| {
        WholeStays(c, w, ts, event, detail, false);
      } else {
        PartlyStays(c, w, e, n, Closed, w.missed);
      }
  }

  lemma NumberUsed(c: Format, w: World, ts: Data, event: Data, detail: Data)
    requires w.j.Live?
    ensures Appended(c, w, ts, event, detail).seqNo == w.j.seqNo + 1
  {
  }

  lemma {:induction false} RunsStaySound(c: Format, w: World, ops: seq<Op>)
    requires GoodLines(c) && GoodJoins(c) && Sound(c, w) && Run(c, w, ops).Some?
    ensures Sound(c, Run(c, w, ops).value)
    decreases |ops|
  {
    hide Sound, After, Possible, GoodLines, GoodJoins;
    if ops != [] {
      StepStays(c, w, ops[0]);
      RunsStaySound(c, After(c, w, ops[0]), ops[1..]);
    }
  }

  /** Over every run of opens, appends, short writes and crashes at any byte, Verify reports exactly the
      fully written entries, with no break; they are numbered from 1 exactly when no line was written after
      a missed number. */
  lemma CrashRunsVerify(c: Format, ops: seq<Op>)
    requires GoodLines(c) && GoodJoins(c) && Run(c, EMPTY, ops).Some?
    ensures var w := Run(c, EMPTY, ops).value;
            && ReadAll(c, w.file).entries == w.full && Verifies(c, w.full)
            && (Numbered(w.full) <==> !w.gapped)
  {
    hide GoodLines, GoodJoins, ReadAll, Verifies;
    EmptyIsSound(c);
    RunsStaySound(c, EMPTY, ops);
    var w := Run(c, EMPTY, ops).value;
    ChainVerifies(c, w.full);
    if w.buried {
      SpoiltReads(c, w.file, w.full);
    } else {
      CleanReads(c, w.file, w.full, w.tail);
    }
  }

  lemma EmptyIsSound(c: Format)
    ensures Sound(c, EMPTY)
  {
    assert Encode(c, []) + Glued(c, []) == [];
  }

  /** And Open refuses the journal, leaving it as it is, exactly when a line was written behind what a
      short write had left on the same open journal; otherwise it cuts off a torn tail at most. */
  lemma RefusedIffBuried(c: Format, ops: seq<Op>)
    requires GoodLines(c) && GoodJoins(c) && Run(c, EMPTY, ops).Some?
    ensures var w := Run(c, EMPTY, ops).value;
            && (OpenFile(c, w.file).Refused? <==> w.buried)
            && (!w.buried ==> OpenFile(c, w.file) == Ready(Encode(c, w.full), LastSeq(w.full), LastHash(w.full)))
  {
    hide GoodLines, GoodJoins, OpenFile, Encode, Linked;
    EmptyIsSound(c);
    RunsStaySound(c, EMPTY, ops);
    var w := Run(c, EMPTY, ops).value;
    if w.buried {
      SpoiltReads(c, w.file, w.full);
    } else {
      CleanReads(c, w.file, w.full, w.tail);
    }
  }

  predicate Writes(c: Format, w: World, op: Op)
    requires Possible(c, w, op)
  {
    match op
    case Append(_, _, _) => true
    case Crash(ts, event, detail, n) => n == |Line(c, Appended(c, w, ts, event, detail))|
    case _ => false
  }

  /** From w on, and with bytes of a short write at the end of the file if `dirty`: some whole line is
      written after a short write of at least one byte on the same open journal. */
  predicate WritesAfterShort(c: Format, w: World, ops: seq<Op>, dirty: bool)
    requires Run(c, w, ops).Some?
    decreases |ops|
  {
    ops != []
    && ((dirty && Writes(c, w, ops[0]))
        || WritesAfterShort(c, After(c, w, ops[0]), ops[1..],
             match ops[0]
             case ShortAppend(_, _, _, takes) => dirty || takes > 0
             case Append(_, _, _) => dirty
             case _ => false))
  }

  lemma {:induction false} BuriedIffWritten(c: Format, w: World, ops: seq<Op>, dirty: bool)
    requires GoodLines(c) && GoodJoins(c) && Sound(c, w) && Run(c, w, ops).Some?
    requires w.j.Live? && !w.buried ==> (dirty <==> w.tail != [])
    requires w.j.Closed? ==> !dirty
    ensures Run(c, w, ops).value.buried <==> w.buried || WritesAfterShort(c, w, ops, dirty)
    decreases |ops|
  {
    hide Sound, GoodLines, GoodJoins, OpenFile, Line, NextEntry;
    if ops != [] {
      StepStays(c, w, ops[0]);
      if ops[0].Open? {
        OpenStays(c, w);
      }
      var later := match ops[0]
        case ShortAppend(_, _, _, takes) => dirty || takes > 0
        case Append(_, _, _) => dirty
        case _ => false;
      BuriedIffWritten(c, After(c, w, ops[0]), ops[1..], later);
    }
  }

  /** Open refuses at the end of a run exactly when in it some line was wholly written after a short write
      of at least one byte, without the journal being opened in between. */
  lemma RefusedIffWrittenAfterShort(c: Format, ops: seq<Op>)
    requires GoodLines(c) && GoodJoins(c) && Run(c, EMPTY, ops).Some?
    ensures OpenFile(c, Run(c, EMPTY, ops).value.file).Refused? <==> WritesAfterShort(c, EMPTY, ops, false)
  {
    hide GoodLines, GoodJoins, OpenFile, WritesAfterShort;
    RefusedIffBuried(c, ops);
    EmptyIsSound(c);
    BuriedIffWritten(c, EMPTY, ops, false);
  }

  /** It does happen: one byte of a line is taken, and the next append returns without an error. */
  lemma ShortWriteLosesJournal(c: Format)
    requires GoodLines(c) && GoodJoins(c)
    ensures exists ops: seq<Op> :: Run(c, EMPTY, ops).Some? && OpenFile(c, Run(c, EMPTY, ops).value.file).Refused?
  {
    hide GoodLines, GoodJoins, OpenFile, Line, Sound;
    var ops := [Open, ShortAppend([], [], [], 1), Append([], [], [])];
    EmptyIsSound(c);
    StepStays(c, EMPTY, Open);
    OpenStays(c, EMPTY);
    var w := After(c, EMPTY, Open);
    LongLine(c, Appended(c, w, [], [], []));
    assert ops[1..] == [ShortAppend([], [], [], 1), Append([], [], [])];
    assert ops[1..][1..] == [Append([], [], [])];
    assert Run(c, EMPTY, ops).Some? && WritesAfterShort(c, EMPTY, ops, false);
    RefusedIffWrittenAfterShort(c, ops);
  }

  lemma LongLine(c: Format, e: Entry)
    requires GoodLines(c)
    ensures |Line(c, e)| > 1
  {
  }

  // ---------------------------------------------------------------------------------------
  // Damage that is not a torn tail

  /** The newline-terminated lines of a file. */
  function CompleteLines(b: Data): seq<Data>
    decreases |b|
  {
    var i := FirstNewline(b);
    if i == |b| then [] else [b[..i]] + CompleteLines(b[i + 1..])
  }

  predicate Unreadable(c: Format, line: Data) {
    line != [] && c.dec(line).None?
  }

  lemma {:induction false} ValidFits(c: Format, b: Data)
    ensures ReadAll(c, b).valid <= |b|
    ensures ReadAll(c, b).torn ==> ReadAll(c, b).valid < |b|
    decreases |b|
  {
    if b != [] {
      var i := FirstNewline(b);
      if i < |b| && !(i > 0 && c.dec(b[..i]).None?) {
        ValidFits(c, b[i + 1..]);
      }
    }
  }

  predicate HasUnreadable(c: Format, lines: seq<Data>) {
    exists k :: 0 <= k < |lines| && Unreadable(c, lines[k])
  }

  lemma FirstOrLater(c: Format, line: Data, lines: seq<Data>)
    ensures HasUnreadable(c, [line] + lines) <==> Unreadable(c, line) || HasUnreadable(c, lines)
  {
    var all := [line] + lines;
    assert all[0] == line && all[1..] == lines;
    if Unreadable(c, line) {
      assert Unreadable(c, all[0]);
    } else if k :| 0 <= k < |lines| && Unreadable(c, lines[k]) {
      assert Unreadable(c, all[k + 1]);
    }
  }

  lemma RefusedByScan(c: Format, b: Data)
    ensures OpenFile(c, b).Refused? <==> ReadAll(c, b).valid < |b| && !ReadAll(c, b).torn
  {
    ValidFits(c, b);
  }

  lemma LaterDecides(c: Format, b: Data, i: nat)
    requires i == FirstNewline(b) && i < |b| && !Unreadable(c, b[..i])
    ensures OpenFile(c, b).Refused? <==> OpenFile(c, b[i + 1..]).Refused?
  {
    hide OpenFile, ReadAll, FirstNewline;
    RefusedByScan(c, b);
    RefusedByScan(c, b[i + 1..]);
    OneLineRead(c, b, i);
  }

  /** Open refuses, and leaves the file alone, exactly when some complete line cannot be read. */
  lemma {:induction false} RefusedIffUnreadable(c: Format, b: Data)
    ensures OpenFile(c, b).Refused? <==> HasUnreadable(c, CompleteLines(b))
    decreases |b|
  {
    hide OpenFile, HasUnreadable;
    RefusedByScan(c, b);
    var i := FirstNewline(b);
    if i == |b| {
      NoLines(c);
    } else {
      FirstOrLater(c, b[..i], CompleteLines(b[i + 1..]));
      if !Unreadable(c, b[..i]) {
        LaterDecides(c, b, i);
        RefusedIffUnreadable(c, b[i + 1..]);
      }
    }
  }

  lemma NoLines(c: Format)
    ensures !HasUnreadable(c, [])
  {
  }

  // ---------------------------------------------------------------------------------------
  // Tamper evidence

  lemma {:induction false} DigitsInjective(a: nat, b: nat)
    requires Digits(a) == Digits(b)
    ensures a == b
    decreases a
  {
    var x, y := Digits(a), Digits(b);
    assert x[|x| - 1] == y[|y| - 1];
    assert a >= 10 <==> |x| >= 2;
    assert b >= 10 <==> |y| >= 2;
    if a >= 10 {
      assert x[..|x| - 1] == Digits(a / 10) && y[..|y| - 1] == Digits(b / 10);
      DigitsInjective(a / 10, b / 10);
    }
  }

  lemma DecimalInjective(a: int, b: int)
    requires Decimal(a) == Decimal(b)
    ensures a == b
  {
    assert a < 0 <==> Decimal(a)[0] == 45;
    assert b < 0 <==> Decimal(b)[0] == 45;
    if a < 0 {
      assert Decimal(a)[1..] == Digits(-a) && Decimal(b)[1..] == Digits(-b);
      DigitsInjective(-a, -b);
    } else {
      DigitsInjective(a, b);
    }
  }

  lemma DecimalPlain(n: int)
    ensures NUL !in Decimal(n)
  {
  }

  /** A field without NULs ends at the first one. */
  lemma FieldsSplit(a: Data, x: Data, b: Data, y: Data)
    requires NUL !in a && NUL !in b && a + ([NUL] + x) == b + ([NUL] + y)
    ensures a == b && x == y
  {
    var p, q := a + ([NUL] + x), b + ([NUL] + y);
    assert p[|a|] == NUL && q[|b|] == NUL;
    assert p[..|a|] == a && q[..|b|] == b;
    assert p[|a| + 1..] == x && q[|b| + 1..] == y;
  }

  predicate Plain(e: Entry) {
    NUL !in e.prev && NUL !in e.ts && NUL !in e.event
  }

  lemma PreimageInjective(e: Entry, f: Entry)
    requires Plain(e) && Plain(f) && Preimage(e) == Preimage(f)
    ensures e.prev == f.prev && e.seqNo == f.seqNo && e.ts == f.ts && e.event == f.event && e.detail == f.detail
  {
    hide Decimal;
    DecimalPlain(e.seqNo);
    DecimalPlain(f.seqNo);
    var e3, f3 := e.event + ([NUL] + e.detail), f.event + ([NUL] + f.detail);
    var e2, f2 := e.ts + ([NUL] + e3), f.ts + ([NUL] + f3);
    var e1, f1 := Decimal(e.seqNo) + ([NUL] + e2), Decimal(f.seqNo) + ([NUL] + f2);
    FieldsSplit(e.prev, e1, f.prev, f1);
    FieldsSplit(Decimal(e.seqNo), e2, Decimal(f.seqNo), f2);
    FieldsSplit(e.ts, e3, f.ts, f3);
    FieldsSplit(e.event, e.detail, f.event, f.detail);
    DecimalInjective(e.seqNo, f.seqNo);
  }

  predicate PlainTexts(es: seq<Entry>) {
    forall k :: 0 <= k < |es| ==> NUL !in es[k].ts && NUL !in es[k].event
  }

  lemma {:induction false} IntactLinks(c: Format, es: seq<Entry>, prev: Data)
    requires Intact(c, es, prev) == |es|
    ensures forall k :: 0 <= k < |es| ==> es[k].hash == HashOf(c, es[k])
    ensures forall k :: 0 <= k < |es| ==> es[k].prev == if k == 0 then prev else es[k - 1].hash
  {
    if es != [] {
      IntactLinks(c, es[1..], es[0].hash);
      var later := es[1..];
      forall k | 0 <= k < |es|
        ensures es[k].hash == HashOf(c, es[k]) && es[k].prev == if k == 0 then prev else es[k - 1].hash
      {
        if k > 0 {
          assert later[k - 1] == es[k];
          assert k > 1 ==> later[k - 2] == es[k - 1];
        }
      }
    }
  }

  lemma VerifiedIsLinked(c: Format, es: seq<Entry>)
    requires Verifies(c, es)
    ensures Linked(c, es)
  {
    IntactLinks(c, es, []);
    forall k | 0 <= k < |es|
      ensures es[k].prev == LastHash(es[..k])
    {
      if k > 0 {
        assert es[..k][k - 1] == es[k - 1];
      }
    }
  }

  lemma LinkedPrefix(c: Format, es: seq<Entry>)
    requires Linked(c, es) && es != []
    ensures Linked(c, es[..|es| - 1])
  {
    var n := |es| - 1;
    forall k | 0 <= k < n
      ensures es[..n][k].prev == LastHash(es[..n][..k])
    {
      assert es[..n][..k] == es[..k];
    }
  }

  lemma HeadIsNotEmpty(c: Format, es: seq<Entry>)
    requires GoodHash(c) && Linked(c, es)
    ensures es != [] ==> LastHash(es) != []
  {
    hide Preimage;
    if es != [] {
      assert LastHash(es) == c.hash(Preimage(es[|es| - 1]));
    }
  }

  lemma SameHeadSameLast(c: Format, a: seq<Entry>, b: seq<Entry>)
    requires GoodHash(c) && Linked(c, a) && Linked(c, b) && PlainTexts(a) && PlainTexts(b)
    requires a != [] && b != [] && LastHash(a) == LastHash(b)
    ensures a[|a| - 1] == b[|b| - 1] && LastHash(a[..|a| - 1]) == LastHash(b[..|b| - 1])
  {
    hide Preimage;
    var e, f := a[|a| - 1], b[|b| - 1];
    assert c.hash(Preimage(e)) == c.hash(Preimage(f));
    PreimageInjective(e, f);
  }

  lemma {:induction false} SameHeadSameChain(c: Format, a: seq<Entry>, b: seq<Entry>)
    requires GoodHash(c) && Linked(c, a) && Linked(c, b) && PlainTexts(a) && PlainTexts(b)
    requires LastHash(a) == LastHash(b)
    ensures a == b
    decreases |a|
  {
    hide GoodHash, LastHash, Linked;
    HeadIsNotEmpty(c, a);
    HeadIsNotEmpty(c, b);
    assert (a == [] || b == []) ==> a == b by {
      EmptyHead();
    }
    if a != [] {
      var m, n := |a| - 1, |b| - 1;
      SameHeadSameLast(c, a, b);
      LinkedPrefix(c, a);
      LinkedPrefix(c, b);
      SameHeadSameChain(c, a[..m], b[..n]);
      assert a == a[..m] + [a[m]] && b == b[..n] + [b[n]];
    }
  }

  lemma EmptyHead()
    ensures LastHash([]) == []
  {
  }

  /** Two journals that both verify and end in the same hash are the same journal. */
  lemma TamperEvidence(c: Format, a: seq<Entry>, b: seq<Entry>)
    requires GoodHash(c) && Verifies(c, a) && Verifies(c, b) && PlainTexts(a) && PlainTexts(b)
    ensures LastHash(a) == LastHash(b) <==> a == b
  {
    VerifiedIsLinked(c, a);
    VerifiedIsLinked(c, b);
    if LastHash(a) == LastHash(b) {
      SameHeadSameChain(c, a, b);
    }
  }

  lemma {:induction false} IntactPrefix(c: Format, es: seq<Entry>, prev: Data, k: nat)
    requires Intact(c, es, prev) == |es| && k <= |es|
    ensures Intact(c, es[..k], prev) == k
  {
    if k > 0 {
      assert es[..k][1..] == es[1..][..k - 1];
      IntactPrefix(c, es[1..], es[0].hash, k - 1);
    }
  }

  /** Without a remembered head, cutting entries off the end goes unnoticed. */
  lemma CutTailVerifies(c: Format, es: seq<Entry>, k: nat)
    requires Verifies(c, es) && k <= |es|
    ensures Verifies(c, es[..k])
  {
    IntactPrefix(c, es, [], k);
  }

  lemma SameLinkSamePlace(c: Format, es: seq<Entry>, i: nat, j: nat)
    requires GoodHash(c) && Verifies(c, es) && PlainTexts(es) && i <= |es| && j <= |es|
    requires LastHash(es[..i]) == LastHash(es[..j])
    ensures i == j
  {
    CutTailVerifies(c, es, i);
    CutTailVerifies(c, es, j);
    TamperEvidence(c, es[..i], es[..j]);
    assert |es[..i]| == i && |es[..j]| == j;
  }

  lemma LinkAt(c: Format, es: seq<Entry>, k: nat)
    requires Linked(c, es) && k < |es|
    ensures es[k].prev == LastHash(es[..k])
  {
  }

  lemma {:induction false} TakenInOrder(c: Format, es: seq<Entry>, d: seq<Entry>, k: nat)
    requires GoodHash(c) && Verifies(c, es) && PlainTexts(es)
    requires Linked(c, d) && (forall i :: 0 <= i < |d| ==> d[i] in es) && k <= |d|
    ensures k <= |es| && d[..k] == es[..k]
  {
    hide GoodHash, Verifies, PlainTexts, LastHash, Linked;
    if k > 0 {
      TakenInOrder(c, es, d, k - 1);
      VerifiedIsLinked(c, es);
      assert d[k - 1] in es;
      var i :| 0 <= i < |es| && es[i] == d[k - 1];
      LinkAt(c, es, i);
      LinkAt(c, d, k - 1);
      SameLinkSamePlace(c, es, i, k - 1);
      assert d[..k] == d[..k - 1] + [d[k - 1]] && es[..k] == es[..k - 1] + [es[k - 1]];
    }
  }

  /** Of all the journals that can be put together from a verified journal's entries, left out, repeated or
      moved in any way, exactly its beginnings verify. */
  lemma OnlyPrefixesVerify(c: Format, es: seq<Entry>, d: seq<Entry>)
    requires GoodHash(c) && Verifies(c, es) && PlainTexts(es) && forall i :: 0 <= i < |d| ==> d[i] in es
    ensures Verifies(c, d) <==> d <= es
  {
    hide GoodHash, Verifies, PlainTexts;
    if Verifies(c, d) {
      VerifiedIsLinked(c, d);
      TakenInOrder(c, es, d, |d|);
      assert d[..|d|] == d;
    }
    if d <= es {
      assert d == es[..|d|];
      CutTailVerifies(c, es, |d|);
    }
  }

  /** So deleting a block of entries goes unnoticed exactly when it is empty or reaches the end. */
  lemma DeletedBlockVerifies(c: Format, es: seq<Entry>, a: nat, b: nat)
    requires GoodHash(c) && Verifies(c, es) && PlainTexts(es) && a <= b <= |es|
    ensures Verifies(c, es[..a] + es[b..]) <==> a == b || b == |es|
  {
    hide GoodHash, Verifies, PlainTexts;
    var d := es[..a] + es[b..];
    OnlyPrefixesVerify(c, es, d);
    if a == b || b == |es| {
      assert d == es || d == es[..a];
    } else if d <= es {
      VerifiedIsLinked(c, es);
      assert d[a] == es[b] && d[a] == es[a];
      SameLinkSamePlace(c, es, a, b);
    }
  }

  // ---------------------------------------------------------------------------------------
  // A format that meets the assumptions

  const BRACE: byte := 123

  /** Two letters a byte. */
  function Letters(d: Data): (r: Data)
    ensures |r| == 2 * |d| && forall k :: 0 <= k < |r| ==> 65 <= r[k] < 81
  {
    if d == [] then [] else [65 + d[0] / 16, 65 + d[0] % 16] + Letters(d[1..])
  }

  lemma {:induction false} LettersInjective(a: Data, b: Data)
    requires Letters(a) == Letters(b)
    ensures a == b
    decreases |a|
  {
    assert |a| == |b|;
    if a != [] {
      var x, y := Letters(a), Letters(b);
      assert x[0] == y[0] && x[1] == y[1];
      assert x[2..] == Letters(a[1..]) && y[2..] == Letters(b[1..]);
      LettersInjective(a[1..], b[1..]);
      assert a == [a[0]] + a[1..] && b == [b[0]] + b[1..];
    }
  }

  function Fields(e: Entry): Data {
    Decimal(e.seqNo) + ([NUL] + (Letters(e.ts) + ([NUL] + (Letters(e.event) + ([NUL]
    + (Letters(e.detail) + ([NUL] + (Letters(e.prev) + ([NUL] + Letters(e.hash))))))))))
  }

  lemma FieldsInjective(e: Entry, f: Entry)
    requires Fields(e) == Fields(f)
    ensures e == f
  {
    hide Decimal, Letters;
    DecimalPlain(e.seqNo);
    DecimalPlain(f.seqNo);
    var e4, f4 := Letters(e.prev) + ([NUL] + Letters(e.hash)), Letters(f.prev) + ([NUL] + Letters(f.hash));
    var e3, f3 := Letters(e.detail) + ([NUL] + e4), Letters(f.detail) + ([NUL] + f4);
    var e2, f2 := Letters(e.event) + ([NUL] + e3), Letters(f.event) + ([NUL] + f3);
    var e1, f1 := Letters(e.ts) + ([NUL] + e2), Letters(f.ts) + ([NUL] + f2);
    FieldsSplit(Decimal(e.seqNo), e1, Decimal(f.seqNo), f1);
    FieldsSplit(Letters(e.ts), e2, Letters(f.ts), f2);
    FieldsSplit(Letters(e.event), e3, Letters(f.event), f3);
    FieldsSplit(Letters(e.detail), e4, Letters(f.detail), f4);
    FieldsSplit(Letters(e.prev), Letters(e.hash), Letters(f.prev), Letters(f.hash));
    DecimalInjective(e.seqNo, f.seqNo);
    LettersInjective(e.ts, f.ts);
    LettersInjective(e.event, f.event);
    LettersInjective(e.detail, f.detail);
    LettersInjective(e.prev, f.prev);
    LettersInjective(e.hash, f.hash);
  }

  function Object(e: Entry): Data {
    [BRACE] + Fields(e)
  }

  predicate Dull(x: Data) {
    NEWLINE !in x && BRACE !in x
  }

  lemma DullJoins(x: Data, y: Data)
    requires Dull(x) && Dull(y)
    ensures Dull(x + ([NUL] + y))
  {
  }

  lemma {:induction false} DecimalDull(n: int)
    ensures Dull(Decimal(n))
  {
    assert Dull(Digits(if n < 0 then -n else n));
  }

  lemma FieldsDull(e: Entry)
    ensures Dull(Fields(e))
  {
    hide Decimal;
    assert Dull(Letters(e.ts)) && Dull(Letters(e.event)) && Dull(Letters(e.detail));
    assert Dull(Letters(e.prev)) && Dull(Letters(e.hash));
    hide Letters, Dull;
    DecimalDull(e.seqNo);
    var e4 := Letters(e.prev) + ([NUL] + Letters(e.hash));
    var e3 := Letters(e.detail) + ([NUL] + e4);
    var e2 := Letters(e.event) + ([NUL] + e3);
    var e1 := Letters(e.ts) + ([NUL] + e2);
    DullJoins(Letters(e.prev), Letters(e.hash));
    DullJoins(Letters(e.detail), e4);
    DullJoins(Letters(e.event), e3);
    DullJoins(Letters(e.ts), e2);
    DullJoins(Decimal(e.seqNo), e1);
  }

  ghost function ObjectOf(x: Data): (r: Option<Entry>)
    ensures r.Some? ==> Object(r.value) == x
  {
    if exists e: Entry :: Object(e) == x then
      var e: Entry :| Object(e) == x;
      Some(e)
    else None
  }

  lemma ObjectRead(e: Entry)
    ensures ObjectOf(Object(e)) == Some(e)
  {
    hide Fields;
    var f := ObjectOf(Object(e)).value;
    assert Object(f)[1..] == Fields(f) && Object(e)[1..] == Fields(e);
    FieldsInjective(e, f);
  }

  lemma {:induction false} GluedOpens(c: Format, ps: seq<Piece>)
    requires c.enc == Object && ps != [] && forall k :: 0 <= k < |ps| ==> IsPiece(c, ps[k])
    ensures |Glued(c, ps)| > 0 && Glued(c, ps)[0] == BRACE
  {
    hide Fields;
    var p := ps[|ps| - 1];
    assert IsPiece(c, p) && c.enc(p.e)[..p.n][0] == BRACE;
    if |ps| > 1 {
      GluedOpens(c, ps[..|ps| - 1]);
    }
  }

  lemma NotTwoObjects(f: Entry, x: Data, e: Entry)
    requires |x| > 0
    ensures Object(f) != x + Object(e)
  {
    FieldsDull(f);
    hide Fields;
    assert (x + Object(e))[|x|] == BRACE;
    assert forall k :: 0 < k < |Object(f)| ==> Object(f)[k] == Fields(f)[k - 1];
  }

  lemma TwoObjects(x: Data, e: Entry)
    requires |x| > 0
    ensures ObjectOf(x + Object(e)).None?
  {
    hide Object;
    if ObjectOf(x + Object(e)).Some? {
      NotTwoObjects(ObjectOf(x + Object(e)).value, x, e);
    }
  }

  function Hashed(x: Data): Data {
    [BRACE] + Letters(x)
  }

  lemma HashedInjective(x: Data, y: Data)
    requires Hashed(x) == Hashed(y)
    ensures x == y
  {
    assert Hashed(x)[1..] == Letters(x) && Hashed(y)[1..] == Letters(y);
    LettersInjective(x, y);
  }

  /** There is a format of the kind the journal assumes. */
  lemma FormatsExist()
    ensures exists c: Format :: GoodLines(c) && GoodJoins(c) && GoodHash(c)
  {
    hide Object, ObjectOf;
    var c := Format(Object, ObjectOf, Hashed);
    forall x: Data, y: Data | c.hash(x) == c.hash(y)
      ensures x == y
    {
      HashedInjective(x, y);
    }
    assert GoodHash(c);
    forall e: Entry
      ensures NEWLINE !in c.enc(e) && c.enc(e) != [] && c.dec(c.enc(e)) == Some(e)
    {
      FieldsDull(e);
      ObjectIs(e);
      ObjectRead(e);
    }
    forall ps: seq<Piece>, e: Entry | ps != [] && (forall k :: 0 <= k < |ps| ==> IsPiece(c, ps[k]))
      ensures c.dec(Glued(c, ps) + c.enc(e)).None?
    {
      GluedOpens(c, ps);
      TwoObjects(Glued(c, ps), e);
    }
    assert GoodLines(c) && GoodJoins(c);
  }

  lemma ObjectIs(e: Entry)
    ensures Object(e) == [BRACE] + Fields(e)
  {
  }

  // ---------------------------------------------------------------------------------------
  // The journal file

  method ReadAllValid(c: Format, b: Data) returns (s: Scan)
    ensures s == ReadAll(c, b)
  {
    hide FirstNewline, Before;
    var out: seq<Entry>, valid: nat := [], 0;
    assert b[0..] == b;
    BeforeTwice([], 0, [], 0, ReadAll(c, b));
    while valid < |b|
      invariant valid <= |b|
      invariant ReadAll(c, b) == Before(out, valid, ReadAll(c, b[valid..]))
    {
      var rest := b[valid..];
      var i := FirstNewline(rest);
      if i == |rest| {
        Stopped(out, valid, true);
        return Scan(out, valid, true);
      }
      if i > 0 && c.dec(rest[..i]).None? {
        Stopped(out, valid, false);
        return Scan(out, valid, false);
      }
      var more := if i > 0 then [c.dec(rest[..i]).value] else [];
      OneLineRead(c, rest, i);
      assert rest[i + 1..] == b[valid + i + 1..];
      BeforeTwice(out, valid, more, i + 1, ReadAll(c, rest[i + 1..]));
      out := out + more;
      valid := valid + i + 1;
    }
    Stopped(out, valid, false);
    return Scan(out, valid, false);
  }

  lemma Stopped(out: seq<Entry>, valid: nat, torn: bool)
    ensures Before(out, valid, Scan([], 0, torn)) == Scan(out, valid, torn)
  {
  }

  /** How many entries are intact, and whether the chain breaks after them. */
  method Verify(c: Format, file: Data) returns (intact: nat, breaks: bool)
    ensures var es := ReadAll(c, file).entries;
            intact == Intact(c, es, []) && (breaks <==> !Verifies(c, es))
  {
    var s := ReadAllValid(c, file);
    var es, prev := s.entries, [];
    var i := 0;
    assert es[0..] == es;
    while i < |es|
      invariant i <= |es|
      invariant Intact(c, es, []) == i + Intact(c, es[i..], prev)
    {
      var e := es[i];
      if e.prev != prev {
        return i, true;
      }
      if e.hash != HashOf(c, e) {
        return i, true;
      }
      prev := e.hash;
      i := i + 1;
    }
    return |es|, false;
  }

  class JournalFile {
    const c: Format
    var file: Data
    var seqNo: int
    var head: Data

    constructor (c: Format, file: Data)
      ensures this.c == c && this.file == file
    {
      this.c, this.file, seqNo, head := c, file, 0, [];
    }

    method Open() returns (ok: bool)
      modifies this
      ensures match OpenFile(c, old(file))
              case Refused => !ok && file == old(file)
              case Ready(f, n, h) => ok && file == f && seqNo == n && head == h
    {
      var s := ReadAllValid(c, file);
      seqNo, head := 0, [];
      if |s.entries| > 0 {
        var last := s.entries[|s.entries| - 1];
        seqNo, head := last.seqNo, last.hash;
      }
      if |file| > s.valid {
        if !s.torn {
          return false;
        }
        file := file[..s.valid];
      }
      ValidFits(c, old(file));
      assert old(file)[..|old(file)|] == old(file);
      ok := true;
    }

    /** `takes` is how much of the line the disk takes; anything less is an error, and the sequence
        number is used up all the same. */
    method Append(ts: Data, event: Data, detail: Data, takes: nat) returns (ok: bool)
      modifies this
      ensures var e := NextEntry(c, old(seqNo), old(head), ts, event, detail);
              && ok == (takes >= |Line(c, e)|) && seqNo == e.seqNo
              && file == old(file) + (if ok then Line(c, e) else Line(c, e)[..takes])
              && head == if ok then e.hash else old(head)
    {
      seqNo := seqNo + 1;
      var e := Entry(seqNo, ts, event, detail, head, []);
      e := e.(hash := HashOf(c, e));
      var line := Line(c, e);
      if takes < |line| {
        file := file + line[..takes];
        return false;
      }
      file := file + line;
      head := e.hash;
      ok := true;
    }
  }
}
