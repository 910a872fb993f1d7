// Manifest entries, manifest batches and have-bitmaps on the wire: every encodable value reads
// back whatever follows it, and every strict prefix of an encoding is refused.

module Messages {
  import opened Bytes
  import opened Codec
  import opened Varints
  import opened Wire

  const MAX_XATTRS: nat := 1024
  const MAX_BATCH: nat := 4096
  const MAX_HASHES: nat := 0x10_0000
  const HASH: nat := 32

  datatype Result<+T> = Ok(value: T) | Err

  datatype Head = Head(path: Blob, id: Uint32, mode: Uint32)
  datatype Owner = Owner(uid: Uint32, gid: Uint32, uname: Blob, gname: Blob)
  datatype Time = Time(sec: Int64, nsec: Uint32)

  /** The kind of an entry and the fields only that kind carries. */
  datatype Body =
    | Regular(size: Int64, dev: Uint64, ino: Uint64, chunkSize: Int64)
    | Dir
    | Symlink(target: Blob)
    | Hardlink(ref: Uint32)
    | Fifo(rdev: Uint64)
    | CharDev(rdev: Uint64)
    | BlockDev(rdev: Uint64)
    | Socket
    | Unknown(kind: Uint8)

  datatype Xattr = Xattr(name: Blob, value: Blob)

  datatype Entry = Entry(body: Body, head: Head, owner: Owner, mtime: Time, atime: Time, xattrs: seq<Xattr>)

  function KindOf(b: Body): Uint8 {
    match b
    case Regular(_, _, _, _) => 0
    case Dir => 1
    case Symlink(_) => 2
    case Hardlink(_) => 3
    case Fifo(_) => 4
    case CharDev(_) => 5
    case BlockDev(_) => 6
    case Socket => 7
    case Unknown(k) => k
  }

  /** Two's complement. */
  function Unsigned(x: Int64): Uint64 {
    if x >= 0 then x else x + TWO64
  }

  function Signed(u: Uint64): Int64 {
    if u < 0x8000_0000_0000_0000 then u else u - TWO64
  }

  function Low32(x: int): Uint32 {
    x % TWO32
  }

  // ---------------------------------------------------------------------------------------
  // Encoding

  function PutIdMode(id: Uint32, mode: Uint32): Data {
    PutUv(id) + LittleEndian(mode, 4)
  }

  function PutHead(h: Head): Data {
    PutChars(h.path) + PutIdMode(h.id, h.mode)
  }

  function PutIds(uid: Uint32, gid: Uint32): Data {
    PutUv(Zig(uid)) + PutUv(Zig(gid))
  }

  function PutNames(uname: Blob, gname: Blob): Data {
    PutChars(uname) + PutChars(gname)
  }

  function PutOwner(o: Owner): Data {
    PutIds(o.uid, o.gid) + PutNames(o.uname, o.gname)
  }

  function PutTime(t: Time): Data {
    PutUv(Zig(t.sec)) + PutUv(t.nsec)
  }

  function PutFields(head: Head, owner: Owner, mtime: Time, atime: Time): Data {
    PutHead(head) + (PutOwner(owner) + (PutTime(mtime) + PutTime(atime)))
  }

  /** A chunk size travels as its low 32 bits. */
  function PutBody(b: Body): Data {
    match b
    case Regular(size, dev, ino, chunkSize) =>
      LittleEndian(Unsigned(size), 8)
          + (LittleEndian(dev, 8) + (LittleEndian(ino, 8) + LittleEndian(Low32(chunkSize), 4)))
    case Hardlink(ref) => PutUv(ref)
    case Symlink(target) => PutChars(target)
    case Fifo(rdev) => LittleEndian(rdev, 8)
    case CharDev(rdev) => LittleEndian(rdev, 8)
    case BlockDev(rdev) => LittleEndian(rdev, 8)
    case _ => []
  }

  function PutXattr(x: Xattr): Data {
    PutChars(x.name) + PutChars(x.value)
  }

  function PutXattrs(xs: seq<Xattr>): Data {
    if xs == [] then [] else PutXattr(xs[0]) + PutXattrs(xs[1..])
  }

  type Xattrs = xs: seq<Xattr> | |xs| < TWO64

  function PutTail(xs: Xattrs): Data {
    PutUv(|xs|) + PutXattrs(xs)
  }

  function EncodeEntry(e: Entry): Data
    requires |e.xattrs| < TWO64
  {
    LittleEndian(KindOf(e.body), 1)
    + (PutFields(e.head, e.owner, e.mtime, e.atime) + (PutBody(e.body) + PutTail(e.xattrs)))
  }

  // ---------------------------------------------------------------------------------------
  // Decoding

  function GetIdMode(d: Dec): (r: ((Uint32, Uint32), Dec))
    ensures |r.1.b| <= |d.b|
  {
    var (id, d1) := Uv(d);
    var (mode, d2) := U32(d1);
    ((Low32(id), mode), d2)
  }

  function GetHead(d: Dec): (r: (Head, Dec))
    ensures |r.1.b| <= |d.b|
  {
    var (path, d1) := Chars(d);
    var ((id, mode), d2) := GetIdMode(d1);
    (Head(path, id, mode), d2)
  }

  function GetIds(d: Dec): (r: ((Uint32, Uint32), Dec))
    ensures |r.1.b| <= |d.b|
  {
    var (uid, d1) := Sv(d);
    var (gid, d2) := Sv(d1);
    ((Low32(uid), Low32(gid)), d2)
  }

  function GetNames(d: Dec): (r: ((Blob, Blob), Dec))
    ensures |r.1.b| <= |d.b|
  {
    var (uname, d1) := Chars(d);
    var (gname, d2) := Chars(d1);
    ((uname, gname), d2)
  }

  function GetOwner(d: Dec): (r: (Owner, Dec))
    ensures |r.1.b| <= |d.b|
  {
    var ((uid, gid), d1) := GetIds(d);
    var ((uname, gname), d2) := GetNames(d1);
    (Owner(uid, gid, uname, gname), d2)
  }

  function GetTime(d: Dec): (r: (Time, Dec))
    ensures |r.1.b| <= |d.b|
  {
    var (sec, d1) := Sv(d);
    var (nsec, d2) := Uv(d1);
    (Time(sec, Low32(nsec)), d2)
  }

  function GetRegular(d: Dec): (r: (Body, Dec))
    ensures |r.1.b| <= |d.b|
  {
    var (size, d1) := U64(d);
    var (dev, d2) := U64(d1);
    var (ino, d3) := U64(d2);
    var (chunkSize, d4) := U32(d3);
    (Regular(Signed(size), dev, ino, chunkSize), d4)
  }

  function GetBody(kind: Uint8, d: Dec): (r: (Body, Dec))
    ensures |r.1.b| <= |d.b|
  {
    match kind
    case 0 => GetRegular(d)
    case 1 => (Dir, d)
    case 2 => var (target, d1) := Chars(d); (Symlink(target), d1)
    case 3 => var (ref, d1) := Uv(d); (Hardlink(Low32(ref)), d1)
    case 4 => var (rdev, d1) := U64(d); (Fifo(rdev), d1)
    case 5 => var (rdev, d1) := U64(d); (CharDev(rdev), d1)
    case 6 => var (rdev, d1) := U64(d); (BlockDev(rdev), d1)
    case 7 => (Socket, d)
    case _ => (Unknown(kind), d)
  }

  function GetXattr(d: Dec): (r: (Xattr, Dec))
    ensures |r.1.b| <= |d.b|
  {
    var (name, d1) := Chars(d);
    var (value, d2) := Chars(d1);
    (Xattr(name, value), d2)
  }

  function GetXattrs(n: nat, d: Dec): (r: (seq<Xattr>, Dec))
    ensures |r.0| == n && |r.1.b| <= |d.b|
  {
    if n == 0 then ([], d)
    else
      var (x, d1) := GetXattr(d);
      var (xs, d2) := GetXattrs(n - 1, d1);
      ([x] + xs, d2)
  }

  /** The fields after the kind. */
  function GetFields(d: Dec): (r: ((Head, Owner, Time, Time), Dec))
    ensures |r.1.b| <= |d.b|
  {
    var (head, d1) := GetHead(d);
    var (owner, d2) := GetOwner(d1);
    var (mtime, d3) := GetTime(d2);
    var (atime, d4) := GetTime(d3);
    ((head, owner, mtime, atime), d4)
  }

  /** The end of an entry of p: its nx xattrs. */
  function FromXattrs(nx: nat, f: (Head, Owner, Time, Time), body: Body, p: Data, d: Dec): Result<(Entry, nat)>
    requires |d.b| <= |p|
  {
    if nx > MAX_XATTRS then Err
    else
      var (xattrs, d1) := GetXattrs(nx, d);
      if d1.err then Err else Ok((Entry(body, f.0, f.1, f.2, f.3, xattrs), |p| - |d1.b|))
  }

  function FromTail(f: (Head, Owner, Time, Time), body: Body, p: Data, d: Dec): Result<(Entry, nat)>
    requires |d.b| <= |p|
  {
    if body.Unknown? then Err
    else
      var (nx, d1) := Uv(d);
      FromXattrs(nx, f, body, p, d1)
  }

  function FromBody(kind: Uint8, f: (Head, Owner, Time, Time), p: Data, d: Dec): Result<(Entry, nat)>
    requires |d.b| <= |p|
  {
    var (body, d1) := GetBody(kind, d);
    FromTail(f, body, p, d1)
  }

  function FromFields(kind: Uint8, p: Data, d: Dec): Result<(Entry, nat)>
    requires |d.b| <= |p|
  {
    var (f, d1) := GetFields(d);
    FromBody(kind, f, p, d1)
  }

  /** The entry at the front of p and how many bytes it takes. */
  function DecodeEntry(p: Data): Result<(Entry, nat)> {
    var (kind, d) := U8(Dec(p, false));
    FromFields(kind, p, d)
  }

  /** What an entry is after a trip over the wire. */
  function Carried(b: Body): Body {
    match b
    case Regular(size, dev, ino, chunkSize) => Regular(size, dev, ino, Low32(chunkSize))
    case _ => b
  }

  // ---------------------------------------------------------------------------------------
  // Each part reads back, and a strict prefix of it is refused

  lemma U8Round(v: Uint8, rest: Data)
    ensures U8(Dec(LittleEndian(v, 1) + rest, false)) == (v, Dec(rest, false))
  {
    Spans();
    FixedRound(v, 1, rest);
  }

  lemma U32Round(v: Uint32, rest: Data)
    ensures U32(Dec(LittleEndian(v, 4) + rest, false)) == (v, Dec(rest, false))
  {
    Spans();
    FixedRound(v, 4, rest);
  }

  lemma U64Round(v: Uint64, rest: Data)
    ensures U64(Dec(LittleEndian(v, 8) + rest, false)) == (v, Dec(rest, false))
  {
    Spans();
    FixedRound(v, 8, rest);
  }

  lemma IdModeRound(id: Uint32, mode: Uint32, rest: Data)
    ensures GetIdMode(Dec(PutIdMode(id, mode) + rest, false)) == ((id, mode), Dec(rest, false))
  {
    Associate(PutUv(id), LittleEndian(mode, 4), rest);
    UvRound(id, LittleEndian(mode, 4) + rest);
    U32Round(mode, rest);
  }

  lemma IdModeShort(id: Uint32, mode: Uint32, p: Data)
    requires p < PutIdMode(id, mode)
    ensures GetIdMode(Dec(p, false)).1.err
  {
    var a := PutUv(id);
    SplitPrefix(p, a, LittleEndian(mode, 4));
    if p < a {
      UvShort(id, p);
    } else {
      UvRound(id, p[|a|..]);
    }
  }

  lemma HeadRound(h: Head, rest: Data)
    ensures GetHead(Dec(PutHead(h) + rest, false)) == (h, Dec(rest, false))
  {
    var b := PutIdMode(h.id, h.mode);
    Associate(PutChars(h.path), b, rest);
    CharsRound(h.path, b + rest);
    IdModeRound(h.id, h.mode, rest);
  }

  lemma HeadShort(h: Head, p: Data)
    requires p < PutHead(h)
    ensures GetHead(Dec(p, false)).1.err
  {
    var a := PutChars(h.path);
    SplitPrefix(p, a, PutIdMode(h.id, h.mode));
    if p < a {
      CharsShort(h.path, p);
    } else {
      CharsRound(h.path, p[|a|..]);
      IdModeShort(h.id, h.mode, p[|a|..]);
    }
  }

  lemma IdsRound(uid: Uint32, gid: Uint32, rest: Data)
    ensures GetIds(Dec(PutIds(uid, gid) + rest, false)) == ((uid, gid), Dec(rest, false))
  {
    Associate(PutUv(Zig(uid)), PutUv(Zig(gid)), rest);
    SvRound(uid, PutUv(Zig(gid)) + rest);
    SvRound(gid, rest);
  }

  lemma IdsShort(uid: Uint32, gid: Uint32, p: Data)
    requires p < PutIds(uid, gid)
    ensures GetIds(Dec(p, false)).1.err
  {
    var a := PutUv(Zig(uid));
    SplitPrefix(p, a, PutUv(Zig(gid)));
    if p < a {
      SvShort(uid, p);
    } else {
      SvRound(uid, p[|a|..]);
      SvShort(gid, p[|a|..]);
    }
  }

  lemma NamesRound(uname: Blob, gname: Blob, rest: Data)
    ensures GetNames(Dec(PutNames(uname, gname) + rest, false)) == ((uname, gname), Dec(rest, false))
  {
    Associate(PutChars(uname), PutChars(gname), rest);
    CharsRound(uname, PutChars(gname) + rest);
    CharsRound(gname, rest);
  }

  lemma NamesShort(uname: Blob, gname: Blob, p: Data)
    requires p < PutNames(uname, gname)
    ensures GetNames(Dec(p, false)).1.err
  {
    var a := PutChars(uname);
    SplitPrefix(p, a, PutChars(gname));
    if p < a {
      CharsShort(uname, p);
    } else {
      CharsRound(uname, p[|a|..]);
      CharsShort(gname, p[|a|..]);
    }
  }

  lemma OwnerRound(o: Owner, rest: Data)
    ensures GetOwner(Dec(PutOwner(o) + rest, false)) == (o, Dec(rest, false))
  {
    var b := PutNames(o.uname, o.gname);
    Associate(PutIds(o.uid, o.gid), b, rest);
    IdsRound(o.uid, o.gid, b + rest);
    NamesRound(o.uname, o.gname, rest);
  }

  lemma OwnerShort(o: Owner, p: Data)
    requires p < PutOwner(o)
    ensures GetOwner(Dec(p, false)).1.err
  {
    var a := PutIds(o.uid, o.gid);
    SplitPrefix(p, a, PutNames(o.uname, o.gname));
    if p < a {
      IdsShort(o.uid, o.gid, p);
    } else {
      IdsRound(o.uid, o.gid, p[|a|..]);
      NamesShort(o.uname, o.gname, p[|a|..]);
    }
  }

  lemma TimeRound(t: Time, rest: Data)
    ensures GetTime(Dec(PutTime(t) + rest, false)) == (t, Dec(rest, false))
  {
    Associate(PutUv(Zig(t.sec)), PutUv(t.nsec), rest);
    SvRound(t.sec, PutUv(t.nsec) + rest);
    UvRound(t.nsec, rest);
  }

  lemma TimeShort(t: Time, p: Data)
    requires p < PutTime(t)
    ensures GetTime(Dec(p, false)).1.err
  {
    var a := PutUv(Zig(t.sec));
    SplitPrefix(p, a, PutUv(t.nsec));
    if p < a {
      SvShort(t.sec, p);
    } else {
      SvRound(t.sec, p[|a|..]);
      UvShort(t.nsec, p[|a|..]);
    }
  }

  lemma SignedUnsigned(x: Int64)
    ensures Signed(Unsigned(x)) == x
  {
  }

  lemma RegularRound(b: Body, rest: Data)
    requires b.Regular?
    ensures GetRegular(Dec(PutBody(b) + rest, false)) == (Carried(b), Dec(rest, false))
  {
    var s, d, i, c := LittleEndian(Unsigned(b.size), 8), LittleEndian(b.dev, 8), LittleEndian(b.ino, 8),
        LittleEndian(Low32(b.chunkSize), 4);
    Associate(s, d + (i + c), rest);
    Associate(d, i + c, rest);
    Associate(i, c, rest);
    U64Round(Unsigned(b.size), (d + (i + c)) + rest);
    U64Round(b.dev, (i + c) + rest);
    U64Round(b.ino, c + rest);
    U32Round(Low32(b.chunkSize), rest);
    SignedUnsigned(b.size);
  }

  lemma RegularShort(p: Data)
    requires |p| < 28
    ensures GetRegular(Dec(p, false)).1.err
  {
  }

  lemma BodyRound(b: Body, rest: Data)
    requires b.Unknown? ==> b.kind > 7
    ensures GetBody(KindOf(b), Dec(PutBody(b) + rest, false)) == (Carried(b), Dec(rest, false))
  {
    hide Chars, Uv, U64, GetRegular, PutChars, PutUv, LittleEndian;
    match b
    case Regular(_, _, _, _) => RegularRound(b, rest);
    case Symlink(target) => CharsRound(target, rest);
    case Hardlink(ref) => UvRound(ref, rest);
    case Fifo(rdev) => U64Round(rdev, rest);
    case CharDev(rdev) => U64Round(rdev, rest);
    case BlockDev(rdev) => U64Round(rdev, rest);
    case _ => assert [] + rest == rest;
  }

  lemma BodyShort(b: Body, p: Data)
    requires p < PutBody(b)
    ensures GetBody(KindOf(b), Dec(p, false)).1.err
  {
    match b
    case Regular(_, _, _, _) => RegularShort(p);
    case Symlink(target) => CharsShort(target, p);
    case Hardlink(ref) => UvShort(ref, p);
    case Fifo(_) =>
    case CharDev(_) =>
    case BlockDev(_) =>
  }

  lemma XattrRound(x: Xattr, rest: Data)
    ensures GetXattr(Dec(PutXattr(x) + rest, false)) == (x, Dec(rest, false))
  {
    Associate(PutChars(x.name), PutChars(x.value), rest);
    CharsRound(x.name, PutChars(x.value) + rest);
    CharsRound(x.value, rest);
  }

  lemma XattrShort(x: Xattr, p: Data)
    requires p < PutXattr(x)
    ensures GetXattr(Dec(p, false)).1.err
  {
    var a := PutChars(x.name);
    SplitPrefix(p, a, PutChars(x.value));
    if p < a {
      CharsShort(x.name, p);
    } else {
      CharsRound(x.name, p[|a|..]);
      CharsShort(x.value, p[|a|..]);
    }
  }

  lemma OneXattrLess(n: nat, d: Dec)
    requires n > 0
    ensures GetXattrs(n, d) == ([GetXattr(d).0] + GetXattrs(n - 1, GetXattr(d).1).0, GetXattrs(n - 1, GetXattr(d).1).1)
  {
  }

  lemma {:induction false} XattrsRound(xs: seq<Xattr>, rest: Data)
    ensures GetXattrs(|xs|, Dec(PutXattrs(xs) + rest, false)) == (xs, Dec(rest, false))
  {
    if xs == [] {
      assert [] + rest == rest;
    } else {
      Associate(PutXattr(xs[0]), PutXattrs(xs[1..]), rest);
      XattrRound(xs[0], PutXattrs(xs[1..]) + rest);
      XattrsRound(xs[1..], rest);
      OneXattrLess(|xs|, Dec(PutXattrs(xs) + rest, false));
      assert xs == [xs[0]] + xs[1..];
    }
  }

  lemma {:induction false} XattrsSticky(n: nat, d: Dec)
    requires d.err
    ensures GetXattrs(n, d).1 == d
  {
    if n > 0 {
      XattrsSticky(n - 1, d);
    }
  }

  lemma XattrsShortHere(xs: seq<Xattr>, p: Data)
    requires xs != [] && p < PutXattr(xs[0])
    ensures GetXattrs(|xs|, Dec(p, false)).1.err
  {
    XattrShort(xs[0], p);
    XattrsSticky(|xs| - 1, GetXattr(Dec(p, false)).1);
    OneXattrLess(|xs|, Dec(p, false));
  }

  lemma XattrsShortLater(xs: seq<Xattr>, p: Data, q: Data)
    requires xs != [] && p == PutXattr(xs[0]) + q && GetXattrs(|xs| - 1, Dec(q, false)).1.err
    ensures GetXattrs(|xs|, Dec(p, false)).1.err
  {
    XattrRound(xs[0], q);
    OneXattrLess(|xs|, Dec(p, false));
  }

  lemma {:induction false} XattrsShort(xs: seq<Xattr>, p: Data)
    requires p < PutXattrs(xs)
    ensures GetXattrs(|xs|, Dec(p, false)).1.err
  {
    var a := PutXattr(xs[0]);
    SplitPrefix(p, a, PutXattrs(xs[1..]));
    if p < a {
      XattrsShortHere(xs, p);
    } else {
      XattrsShort(xs[1..], p[|a|..]);
      XattrsShortLater(xs, p, p[|a|..]);
    }
  }

  // ---------------------------------------------------------------------------------------
  // Entries

  lemma FieldsRound(head: Head, owner: Owner, mtime: Time, atime: Time, rest: Data)
    ensures GetFields(Dec(PutFields(head, owner, mtime, atime) + rest, false))
        == ((head, owner, mtime, atime), Dec(rest, false))
  {
    var b, c, d := PutOwner(owner), PutTime(mtime), PutTime(atime);
    Associate(PutHead(head), b + (c + d), rest);
    Associate(b, c + d, rest);
    Associate(c, d, rest);
    HeadRound(head, (b + (c + d)) + rest);
    OwnerRound(owner, (c + d) + rest);
    TimeRound(mtime, d + rest);
    TimeRound(atime, rest);
  }

  lemma FieldsShort(head: Head, owner: Owner, mtime: Time, atime: Time, p: Data)
    requires p < PutFields(head, owner, mtime, atime)
    ensures GetFields(Dec(p, false)).1.err
  {
    var a, b, c, d := PutHead(head), PutOwner(owner), PutTime(mtime), PutTime(atime);
    SplitPrefix(p, a, b + (c + d));
    if p < a {
      HeadShort(head, p);
    } else {
      var q := p[|a|..];
      HeadRound(head, q);
      SplitPrefix(q, b, c + d);
      if q < b {
        OwnerShort(owner, q);
      } else {
        var r := q[|b|..];
        OwnerRound(owner, r);
        SplitPrefix(r, c, d);
        if r < c {
          TimeShort(mtime, r);
        } else {
          TimeRound(mtime, r[|c|..]);
          TimeShort(atime, r[|c|..]);
        }
      }
    }
  }

  lemma FieldsSticky(d: Dec)
    requires d.err
    ensures GetFields(d).1 == d
  {
  }

  predicate Encodable(e: Entry) {
    && |e.xattrs| <= MAX_XATTRS
    && !e.body.Unknown?
    && (e.body.Regular? ==> 0 <= e.body.chunkSize < TWO32)
  }

  lemma EntryParts(e: Entry, rest: Data)
    requires |e.xattrs| < TWO64
    ensures var f, b := PutFields(e.head, e.owner, e.mtime, e.atime), PutBody(e.body);
            var n, x := PutUv(|e.xattrs|), PutXattrs(e.xattrs);
            EncodeEntry(e) + rest == LittleEndian(KindOf(e.body), 1) + (f + (b + (n + (x + rest))))
  {
    var k, f, b, n, x := LittleEndian(KindOf(e.body), 1), PutFields(e.head, e.owner, e.mtime, e.atime),
        PutBody(e.body), PutUv(|e.xattrs|), PutXattrs(e.xattrs);
    Associate(k, f + (b + (n + x)), rest);
    Associate(f, b + (n + x), rest);
    Associate(b, n + x, rest);
    Associate(n, x, rest);
  }

  /** What is read back: the entry as carried, or a refusal. */
  function Expected(e: Entry, n: nat): Result<(Entry, nat)> {
    if e.body.Unknown? || |e.xattrs| > MAX_XATTRS then Err else Ok((e.(body := Carried(e.body)), n))
  }

  lemma XattrsExpected(e: Entry, p: Data, rest: Data)
    requires |PutXattrs(e.xattrs) + rest| <= |p| && !e.body.Unknown?
    ensures FromXattrs(|e.xattrs|, (e.head, e.owner, e.mtime, e.atime), Carried(e.body), p,
        Dec(PutXattrs(e.xattrs) + rest, false))
            == Expected(e, |p| - |rest|)
  {
    hide GetXattrs, PutXattrs;
    XattrsRound(e.xattrs, rest);
  }

  lemma TailExpected(e: Entry, p: Data, rest: Data)
    requires |e.xattrs| < TWO64 && |PutUv(|e.xattrs|) + (PutXattrs(e.xattrs) + rest)| <= |p|
    ensures FromTail((e.head, e.owner, e.mtime, e.atime), Carried(e.body), p,
        Dec(PutUv(|e.xattrs|) + (PutXattrs(e.xattrs) + rest), false))
            == Expected(e, |p| - |rest|)
  {
    UvRound(|e.xattrs|, PutXattrs(e.xattrs) + rest);
    if !e.body.Unknown? {
      XattrsExpected(e, p, rest);
    }
  }

  lemma BodyExpected(e: Entry, p: Data, rest: Data)
    requires |e.xattrs| < TWO64 && (e.body.Unknown? ==> e.body.kind > 7)
    requires |PutBody(e.body) + (PutUv(|e.xattrs|) + (PutXattrs(e.xattrs) + rest))| <= |p|
    ensures FromBody(KindOf(e.body), (e.head, e.owner, e.mtime, e.atime), p,
                     Dec(PutBody(e.body) + (PutUv(|e.xattrs|) + (PutXattrs(e.xattrs) + rest)), false))
            == Expected(e, |p| - |rest|)
  {
    BodyRound(e.body, PutUv(|e.xattrs|) + (PutXattrs(e.xattrs) + rest));
    TailExpected(e, p, rest);
  }

  lemma FieldsExpected(e: Entry, p: Data, r: Data, rest: Data)
    requires |e.xattrs| < TWO64 && (e.body.Unknown? ==> e.body.kind > 7)
    requires r == PutBody(e.body) + (PutUv(|e.xattrs|) + (PutXattrs(e.xattrs) + rest))
    requires |PutFields(e.head, e.owner, e.mtime, e.atime) + r| <= |p|
    ensures FromFields(KindOf(e.body), p, Dec(PutFields(e.head, e.owner, e.mtime, e.atime) + r, false))
            == Expected(e, |p| - |rest|)
  {
    FieldsRound(e.head, e.owner, e.mtime, e.atime, r);
    BodyExpected(e, p, rest);
  }

  lemma KindFirst(kind: Uint8, tail: Data, p: Data)
    requires p == LittleEndian(kind, 1) + tail
    ensures DecodeEntry(p) == FromFields(kind, p, Dec(tail, false))
  {
    U8Round(kind, tail);
  }

  /** What any entry decodes to, whatever follows its encoding. */
  lemma EntryExpected(e: Entry, p: Data, rest: Data)
    requires |e.xattrs| < TWO64 && (e.body.Unknown? ==> e.body.kind > 7)
    requires p == EncodeEntry(e) + rest
    ensures DecodeEntry(p) == Expected(e, |p| - |rest|)
  {
    var r := PutBody(e.body) + (PutUv(|e.xattrs|) + (PutXattrs(e.xattrs) + rest));
    var tail := PutFields(e.head, e.owner, e.mtime, e.atime) + r;
    EntryParts(e, rest);
    KindFirst(KindOf(e.body), tail, p);
    FieldsExpected(e, p, r, rest);
  }

  lemma ExpectedIsItself(e: Entry, n: nat)
    ensures Expected(e, n) == Ok((e, n)) <==> Encodable(e)
    ensures Expected(e, n).Ok? ==> Expected(e, n).value.1 == n
  {
  }

  /** An entry read back from its encoding followed by anything is itself, at its exact length, exactly
      when its kind is known, its chunk size fits 32 bits and it has no more than 1024 xattrs. */
  lemma EntryRoundTrip(e: Entry, rest: Data)
    requires |e.xattrs| < TWO64 && (e.body.Unknown? ==> e.body.kind > 7)
    ensures DecodeEntry(EncodeEntry(e) + rest) == Ok((e, |EncodeEntry(e)|)) <==> Encodable(e)
  {
    EntryExpected(e, EncodeEntry(e) + rest, rest);
    ExpectedIsItself(e, |EncodeEntry(e)|);
  }

  // Truncation

  lemma XattrsMissing(xs: seq<Xattr>, f: (Head, Owner, Time, Time), body: Body, p: Data, q: Data)
    requires |xs| < TWO64 && q < PutTail(xs) && |q| <= |p|
    ensures FromTail(f, body, p, Dec(q, false)).Err?
  {
    var n := PutUv(|xs|);
    SplitPrefix(q, n, PutXattrs(xs));
    if q < n {
      UvShort(|xs|, q);
      XattrsSticky(0, Uv(Dec(q, false)).1);
    } else {
      UvRound(|xs|, q[|n|..]);
      XattrsShort(xs, q[|n|..]);
    }
  }

  lemma BrokenTail(f: (Head, Owner, Time, Time), body: Body, p: Data, d: Dec)
    requires d.err && |d.b| <= |p|
    ensures FromTail(f, body, p, d).Err?
  {
  }

  lemma BrokenBody(kind: Uint8, f: (Head, Owner, Time, Time), p: Data, d: Dec)
    requires d.err && |d.b| <= |p|
    ensures FromBody(kind, f, p, d).Err?
  {
    BrokenTail(f, GetBody(kind, d).0, p, GetBody(kind, d).1);
  }

  lemma BodyMissing(e: Entry, f: (Head, Owner, Time, Time), p: Data, q: Data)
    requires |e.xattrs| < TWO64 && q < PutBody(e.body) + PutTail(e.xattrs) && |q| <= |p|
    requires e.body.Unknown? ==> e.body.kind > 7
    ensures FromBody(KindOf(e.body), f, p, Dec(q, false)).Err?
  {
    var b := PutBody(e.body);
    SplitPrefix(q, b, PutTail(e.xattrs));
    if q < b {
      BodyShort(e.body, q);
      BrokenTail(f, GetBody(KindOf(e.body), Dec(q, false)).0, p, GetBody(KindOf(e.body), Dec(q, false)).1);
    } else {
      BodyRound(e.body, q[|b|..]);
      XattrsMissing(e.xattrs, f, Carried(e.body), p, q[|b|..]);
    }
  }

  lemma FieldsMissing(e: Entry, p: Data, q: Data)
    requires |e.xattrs| < TWO64 && |q| <= |p| && (e.body.Unknown? ==> e.body.kind > 7)
    requires q < PutFields(e.head, e.owner, e.mtime, e.atime) + (PutBody(e.body) + PutTail(e.xattrs))
    ensures FromFields(KindOf(e.body), p, Dec(q, false)).Err?
  {
    var f := PutFields(e.head, e.owner, e.mtime, e.atime);
    SplitPrefix(q, f, PutBody(e.body) + PutTail(e.xattrs));
    if q < f {
      FieldsShort(e.head, e.owner, e.mtime, e.atime, q);
      BrokenBody(KindOf(e.body), GetFields(Dec(q, false)).0, p, GetFields(Dec(q, false)).1);
    } else {
      FieldsRound(e.head, e.owner, e.mtime, e.atime, q[|f|..]);
      BodyMissing(e, (e.head, e.owner, e.mtime, e.atime), p, q[|f|..]);
    }
  }

  /** Every strict prefix of an encoding is refused. */
  lemma EntryTruncated(e: Entry, p: Data)
    requires |e.xattrs| < TWO64 && (e.body.Unknown? ==> e.body.kind > 7)
    requires p < EncodeEntry(e)
    ensures DecodeEntry(p).Err?
  {
    var k := LittleEndian(KindOf(e.body), 1);
    var r := PutFields(e.head, e.owner, e.mtime, e.atime) + (PutBody(e.body) + PutTail(e.xattrs));
    SplitPrefix(p, k, r);
    if p < k {
      FieldsSticky(Dec(p, true));
      BrokenBody(0, GetFields(Dec(p, true)).0, p, Dec(p, true));
    } else {
      U8Round(KindOf(e.body), p[1..]);
      FieldsMissing(e, p, p[1..]);
    }
  }

  // ---------------------------------------------------------------------------------------
  // Batches

  predicate Sendable(es: seq<Entry>) {
    forall k :: 0 <= k < |es| ==> |es[k].xattrs| < TWO64 && (es[k].body.Unknown? ==> es[k].body.kind > 7)
  }

  function PutEntries(es: seq<Entry>): Data
    requires Sendable(es)
  {
    if es == [] then [] else EncodeEntry(es[0]) + PutEntries(es[1..])
  }

  function EncodeBatch(es: seq<Entry>): Data
    requires |es| < TWO64 && Sendable(es)
  {
    PutUv(|es|) + PutEntries(es)
  }

  lemma {:induction false} DecodedSize(p: Data)
    ensures DecodeEntry(p).Ok? ==> DecodeEntry(p).value.1 <= |p|
  {
  }

  function GetEntries(n: nat, b: Data): Result<seq<Entry>>
    decreases n
  {
    if n == 0 then Ok([])
    else
      match DecodeEntry(b)
      case Err => Err
      case Ok((e, used)) =>
        DecodedSize(b);
        match GetEntries(n - 1, b[used..])
        case Err => Err
        case Ok(es) => Ok([e] + es)
  }

  /** Bytes after the last entry are ignored. */
  function DecodeBatch(p: Data): Result<seq<Entry>> {
    var (n, d) := Uv(Dec(p, false));
    if d.err || n > MAX_BATCH then Err else GetEntries(n, d.b)
  }

  predicate AllEncodable(es: seq<Entry>) {
    forall k :: 0 <= k < |es| ==> Encodable(es[k])
  }

  lemma FirstEntry(es: seq<Entry>, b: Data, rest: Data)
    requires es != [] && Sendable(es) && b == PutEntries(es) + rest
    ensures Sendable(es[1..]) && DecodeEntry(b) == Expected(es[0], |EncodeEntry(es[0])|)
    ensures |EncodeEntry(es[0])| <= |b| && b[|EncodeEntry(es[0])|..] == PutEntries(es[1..]) + rest
  {
    hide DecodeEntry, EncodeEntry;
    var a, c := EncodeEntry(es[0]), PutEntries(es[1..]) + rest;
    Associate(a, PutEntries(es[1..]), rest);
    EntryExpected(es[0], b, c);
    assert b[|a|..] == c;
  }

  lemma {:induction false} EntriesRound(es: seq<Entry>, b: Data, rest: Data)
    requires Sendable(es) && b == PutEntries(es) + rest
    ensures GetEntries(|es|, b) == Ok(es) <==> AllEncodable(es)
    decreases |es|
  {
    hide DecodeEntry, EncodeEntry;
    if es != [] {
      FirstEntry(es, b, rest);
      var n := |EncodeEntry(es[0])|;
      EntriesRound(es[1..], b[n..], rest);
      ExpectedIsItself(es[0], n);
      assert es == [es[0]] + es[1..];
      EntriesRoundStep(es, b, n);
    }
  }

  lemma EntriesRoundStep(es: seq<Entry>, b: Data, n: nat)
    requires es != [] && n <= |b| && DecodeEntry(b) == Expected(es[0], n)
    requires GetEntries(|es| - 1, b[n..]) == Ok(es[1..]) <==> AllEncodable(es[1..])
    ensures GetEntries(|es|, b) == Ok(es) <==> AllEncodable(es)
  {
    hide DecodeEntry, Expected, Encodable;
    ExpectedIsItself(es[0], n);
    assert AllEncodable(es) <==> Encodable(es[0]) && AllEncodable(es[1..]);
    var first, later := DecodeEntry(b), GetEntries(|es| - 1, b[n..]);
    if first.Ok? && later.Ok? {
      var e := first.value.0;
      assert GetEntries(|es|, b) == Ok([e] + later.value);
      assert [e] + later.value == es <==> e == es[0] && later.value == es[1..] by {
        assert es == [es[0]] + es[1..];
        assert ([e] + later.value)[0] == e && ([e] + later.value)[1..] == later.value;
      }
    }
  }

  /** A batch reads back, whatever follows it, exactly when it has at most 4096 entries and each of
      them is encodable. */
  lemma BatchRoundTrip(es: seq<Entry>, rest: Data)
    requires |es| < TWO64 && Sendable(es)
    ensures DecodeBatch(EncodeBatch(es) + rest) == Ok(es) <==> |es| <= MAX_BATCH && AllEncodable(es)
  {
    var b := PutEntries(es) + rest;
    Associate(PutUv(|es|), PutEntries(es), rest);
    UvRound(|es|, b);
    EntriesRound(es, b, rest);
  }

  lemma {:induction false} EntriesTruncated(es: seq<Entry>, p: Data)
    requires Sendable(es) && p < PutEntries(es)
    ensures GetEntries(|es|, p).Err?
    decreases |es|
  {
    hide EncodeEntry, DecodeEntry, Expected;
    var a := EncodeEntry(es[0]);
    SplitPrefix(p, a, PutEntries(es[1..]));
    if p < a {
      EntryTruncated(es[0], p);
    } else {
      var q := p[|a|..];
      EntryExpected(es[0], p, q);
      ExpectedIsItself(es[0], |a|);
      EntriesTruncated(es[1..], q);
    }
  }

  /** A batch cut anywhere is refused. */
  lemma BatchTruncated(es: seq<Entry>, p: Data)
    requires |es| < TWO64 && Sendable(es) && p < EncodeBatch(es)
    ensures DecodeBatch(p).Err?
  {
    var n := PutUv(|es|);
    SplitPrefix(p, n, PutEntries(es));
    if p < n {
      UvShort(|es|, p);
    } else {
      UvRound(|es|, p[|n|..]);
      EntriesTruncated(es, p[|n|..]);
    }
  }

  // ---------------------------------------------------------------------------------------
  // Have-bitmaps

  type Hash = h: Data | |h| == HASH witness Zeros(HASH)

  datatype HaveBitmap = HaveBitmap(fileId: Uint32, status: Uint8, bitmap: Blob, hashes: seq<Hash>)

  function PutHashes(hs: seq<Hash>): Data {
    if hs == [] then [] else hs[0] + PutHashes(hs[1..])
  }

  function PutClaim(m: HaveBitmap): Data {
    PutUv(m.fileId) + (LittleEndian(m.status, 1) + PutChars(m.bitmap))
  }

  function EncodeHave(m: HaveBitmap): Data
    requires |m.hashes| < TWO64
  {
    PutClaim(m) + (PutUv(|m.hashes|) + PutHashes(m.hashes))
  }

  function GetClaim(d: Dec): (r: ((Uint32, Uint8, Blob), Dec)) {
    var (id, d1) := Uv(d);
    var (status, d2) := U8(d1);
    var (bitmap, d3) := Chars(d2);
    ((Low32(id), status, bitmap), d3)
  }

  /** Hashes have a fixed width; running out of bytes is an error of its own. */
  function GetHashes(n: nat, b: Data): Result<seq<Hash>>
    decreases n
  {
    if n == 0 then Ok([])
    else if |b| < HASH then Err
    else
      match GetHashes(n - 1, b[HASH..])
      case Err => Err
      case Ok(hs) => var h: Hash := b[..HASH]; Ok([h] + hs)
  }

  function FromHashes(c: (Uint32, Uint8, Blob), n: nat, d: Dec): Result<HaveBitmap> {
    if n > MAX_HASHES then Err
    else
      match GetHashes(n, d.b)
      case Err => Err
      case Ok(hs) => if d.err then Err else Ok(HaveBitmap(c.0, c.1, c.2, hs))
  }

  function DecodeHave(p: Data): Result<HaveBitmap> {
    var (c, d) := GetClaim(Dec(p, false));
    var (n, d1) := Uv(d);
    FromHashes(c, n, d1)
  }

  lemma ClaimRound(m: HaveBitmap, rest: Data)
    ensures GetClaim(Dec(PutClaim(m) + rest, false)) == ((m.fileId, m.status, m.bitmap), Dec(rest, false))
  {
    hide PutUv, PutChars, LittleEndian, Uv, U8, Chars;
    var a, b, c := PutUv(m.fileId), LittleEndian(m.status, 1), PutChars(m.bitmap);
    Associate(a, b + c, rest);
    Associate(b, c, rest);
    UvRound(m.fileId, b + (c + rest));
    U8Round(m.status, c + rest);
    CharsRound(m.bitmap, rest);
  }

  lemma ClaimShort(m: HaveBitmap, p: Data)
    requires p < PutClaim(m)
    ensures GetClaim(Dec(p, false)).1.err
  {
    var a, b, c := PutUv(m.fileId), LittleEndian(m.status, 1), PutChars(m.bitmap);
    SplitPrefix(p, a, b + c);
    if p < a {
      UvShort(m.fileId, p);
    } else {
      var q := p[|a|..];
      UvRound(m.fileId, q);
      SplitPrefix(q, b, c);
      if q < b {
        assert q == [];
      } else {
        U8Round(m.status, q[1..]);
        CharsShort(m.bitmap, q[1..]);
      }
    }
  }

  lemma {:induction false} HashesRound(hs: seq<Hash>, b: Data, rest: Data)
    requires b == PutHashes(hs) + rest
    ensures GetHashes(|hs|, b) == Ok(hs)
    decreases |hs|
  {
    if hs != [] {
      assert b[..HASH] == hs[0] && b[HASH..] == PutHashes(hs[1..]) + rest;
      HashesRound(hs[1..], b[HASH..], rest);
      assert hs == [hs[0]] + hs[1..];
    }
  }

  lemma {:induction false} HashesShort(hs: seq<Hash>, p: Data)
    requires p < PutHashes(hs)
    ensures GetHashes(|hs|, p).Err?
    decreases |hs|
  {
    if |p| >= HASH {
      SplitPrefix(p, hs[0], PutHashes(hs[1..]));
      HashesShort(hs[1..], p[HASH..]);
    }
  }

  /** A have-bitmap reads back, whatever follows it, exactly when it has at most 2^20 hashes. */
  lemma HaveRoundTrip(m: HaveBitmap, rest: Data)
    requires |m.hashes| < TWO64
    ensures DecodeHave(EncodeHave(m) + rest) == Ok(m) <==> |m.hashes| <= MAX_HASHES
  {
    var n, h := PutUv(|m.hashes|), PutHashes(m.hashes);
    Associate(PutClaim(m), n + h, rest);
    Associate(n, h, rest);
    ClaimRound(m, n + (h + rest));
    UvRound(|m.hashes|, h + rest);
    HashesRound(m.hashes, h + rest, rest);
  }

  /** A have-bitmap cut anywhere is refused, also inside a hash. */
  lemma HaveTruncated(m: HaveBitmap, p: Data)
    requires |m.hashes| < TWO64 && p < EncodeHave(m)
    ensures DecodeHave(p).Err?
  {
    var a, n, h := PutClaim(m), PutUv(|m.hashes|), PutHashes(m.hashes);
    SplitPrefix(p, a, n + h);
    if p < a {
      ClaimShort(m, p);
    } else {
      var q := p[|a|..];
      ClaimRound(m, q);
      SplitPrefix(q, n, h);
      if q < n {
        UvShort(|m.hashes|, q);
      } else {
        UvRound(|m.hashes|, q[|n|..]);
        HashesShort(m.hashes, q[|n|..]);
      }
    }
  }
}
