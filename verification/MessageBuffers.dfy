// The message encoders and decoders as they run over their buffers.
// Each is proved against the format in Messages, so what is proved there holds
// for the loops and the sticky error here.

module MessageBuffers {
  import opened Bytes
  import opened Codec
  import opened Messages
  import opened Varints
  import opened Wire

  /** The fields every entry has, in wire order. */
  method AddFields(b: Encoder, e: Entry)
    modifies b
    ensures b.b == old(b.b) + PutFields(e.head, e.owner, e.mtime, e.atime)
  {
    ghost var start := b.b;
    b.AddChars(e.head.path);
    b.AddUv(e.head.id);
    b.AddFixed(e.head.mode, 4);
    HeadJoined(start, e.head);
    b.AddSv(e.owner.uid);
    b.AddSv(e.owner.gid);
    b.AddChars(e.owner.uname);
    b.AddChars(e.owner.gname);
    OwnerJoined(start + PutHead(e.head), e.owner);
    b.AddSv(e.mtime.sec);
    b.AddUv(e.mtime.nsec);
    b.AddSv(e.atime.sec);
    b.AddUv(e.atime.nsec);
    TimesJoined(start, e);
  }

  lemma HeadJoined(start: Data, h: Head)
    ensures start + PutChars(h.path) + PutUv(h.id) + LittleEndian(h.mode, 4) == start + PutHead(h)
  {
    Regroup(start, PutChars(h.path), PutUv(h.id), LittleEndian(h.mode, 4));
  }

  lemma Regroup(start: Data, a: Data, b: Data, c: Data)
    ensures start + a + b + c == start + (a + (b + c))
  {
  }

  lemma OwnerJoined(start: Data, o: Owner)
    ensures start + PutUv(Zig(o.uid)) + PutUv(Zig(o.gid)) + PutChars(o.uname) + PutChars(o.gname) == start + PutOwner(o)
  {
    Associate(start, PutUv(Zig(o.uid)), PutUv(Zig(o.gid)));
    Regroup(start, PutIds(o.uid, o.gid), PutChars(o.uname), PutChars(o.gname));
  }

  lemma TimesJoined(start: Data, e: Entry)
    ensures start + PutHead(e.head) + PutOwner(e.owner) + PutUv(Zig(e.mtime.sec)) + PutUv(e.mtime.nsec)
            + PutUv(Zig(e.atime.sec)) + PutUv(e.atime.nsec)
            == start + PutFields(e.head, e.owner, e.mtime, e.atime)
  {
    var s := start + PutHead(e.head) + PutOwner(e.owner);
    Associate(s, PutUv(Zig(e.mtime.sec)), PutUv(e.mtime.nsec));
    Associate(s + PutTime(e.mtime), PutUv(Zig(e.atime.sec)), PutUv(e.atime.nsec));
    Regroup(start + PutHead(e.head), PutOwner(e.owner), PutTime(e.mtime), PutTime(e.atime));
    Associate(start, PutHead(e.head), PutOwner(e.owner) + (PutTime(e.mtime) + PutTime(e.atime)));
  }

  /** The fields only this kind has. */
  method AddBody(b: Encoder, body: Body)
    modifies b
    ensures b.b == old(b.b) + PutBody(body)
  {
    match body {
      case Regular(size, dev, ino, chunkSize) =>
        ghost var start := b.b;
        b.AddFixed(Unsigned(size), 8);
        b.AddFixed(dev, 8);
        b.AddFixed(ino, 8);
        b.AddFixed(Low32(chunkSize), 4);
        Associate(start, LittleEndian(Unsigned(size), 8), LittleEndian(dev, 8));
        RegularJoined(start, LittleEndian(Unsigned(size), 8), LittleEndian(dev, 8), LittleEndian(ino, 8),
            LittleEndian(Low32(chunkSize), 4));
      case Hardlink(ref) => b.AddUv(ref);
      case Symlink(target) => b.AddChars(target);
      case Fifo(rdev) => b.AddFixed(rdev, 8);
      case CharDev(rdev) => b.AddFixed(rdev, 8);
      case BlockDev(rdev) => b.AddFixed(rdev, 8);
      case _ =>
    }
  }

  lemma RegularJoined(start: Data, a: Data, b: Data, c: Data, d: Data)
    ensures start + a + b + c + d == start + (a + (b + (c + d)))
  {
  }

  /** Encodes one entry; the source's loop over the xattrs appends each in turn. */
  method EncodeEntryBytes(e: Entry) returns (r: Data)
    requires |e.xattrs| < TWO64
    ensures r == EncodeEntry(e)
  {
    var b := new Encoder();
    b.AddFixed(KindOf(e.body), 1);
    AddFields(b, e);
    AddBody(b, e.body);
    b.AddUv(|e.xattrs|);
    ghost var start := b.b;
    var i := 0;
    assert e.xattrs[..0] == [] && start + [] == start;
    while i < |e.xattrs|
      invariant i <= |e.xattrs|
      invariant b.b == start + PutXattrs(e.xattrs[..i])
    {
      b.AddChars(e.xattrs[i].name);
      b.AddChars(e.xattrs[i].value);
      OneMoreXattr(start, e.xattrs, i);
      i := i + 1;
    }
    assert e.xattrs[..i] == e.xattrs;
    EntryJoined(e);
    r := b.b;
  }

  lemma {:induction false} XattrsJoin(a: seq<Xattr>, b: seq<Xattr>)
    ensures PutXattrs(a + b) == PutXattrs(a) + PutXattrs(b)
  {
    if a == [] {
      assert a + b == b;
    } else {
      assert (a + b)[1..] == a[1..] + b;
      XattrsJoin(a[1..], b);
      Associate(PutXattr(a[0]), PutXattrs(a[1..]), PutXattrs(b));
    }
  }

  lemma OneMoreXattr(start: Data, xs: seq<Xattr>, i: nat)
    requires i < |xs|
    ensures start + PutXattrs(xs[..i]) + PutChars(xs[i].name) + PutChars(xs[i].value) == start + PutXattrs(xs[..i + 1])
  {
    assert xs[..i + 1] == xs[..i] + [xs[i]];
    XattrsJoin(xs[..i], [xs[i]]);
    assert PutXattr(xs[i]) + [] == PutXattr(xs[i]);
    Associate(start + PutXattrs(xs[..i]), PutChars(xs[i].name), PutChars(xs[i].value));
    Associate(start, PutXattrs(xs[..i]), PutXattr(xs[i]));
  }

  lemma EntryJoined(e: Entry)
    requires |e.xattrs| < TWO64
    ensures [] + LittleEndian(KindOf(e.body), 1) + PutFields(e.head, e.owner, e.mtime, e.atime) + PutBody(e.body)
            + PutUv(|e.xattrs|) + PutXattrs(e.xattrs) == EncodeEntry(e)
  {
    hide PutFields, PutBody, PutXattrs, KindOf, LittleEndian, PutUv;
    var k, f, b, n, x := LittleEndian(KindOf(e.body), 1), PutFields(e.head, e.owner, e.mtime, e.atime),
        PutBody(e.body), PutUv(|e.xattrs|), PutXattrs(e.xattrs);
    assert [] + k == k;
    Associate(k + f + b, n, x);
    Regroup(k, f, b, n + x);
  }

  method TakeFields(d: Decoder) returns (f: (Head, Owner, Time, Time))
    modifies d
    ensures (f, d.View()) == GetFields(old(d.View()))
  {
    hide Chars, Uv, Sv, Fixed;
    var path := d.TakeChars();
    var id := d.TakeUv();
    var mode := TakeU32(d);
    var uid := d.TakeSv();
    var gid := d.TakeSv();
    var uname := d.TakeChars();
    var gname := d.TakeChars();
    var msec := d.TakeSv();
    var mnsec := d.TakeUv();
    var asec := d.TakeSv();
    var ansec := d.TakeUv();
    f := (Head(path, Low32(id), mode), Owner(Low32(uid), Low32(gid), uname, gname), Time(msec, Low32(mnsec)),
        Time(asec, Low32(ansec)));
  }

  method TakeU8(d: Decoder) returns (v: Uint8)
    modifies d
    ensures (v, d.View()) == U8(old(d.View()))
  {
    Spans();
    v := d.TakeFixed(1);
  }

  method TakeU32(d: Decoder) returns (v: Uint32)
    modifies d
    ensures (v, d.View()) == U32(old(d.View()))
  {
    Spans();
    v := d.TakeFixed(4);
  }

  method TakeU64(d: Decoder) returns (v: Uint64)
    modifies d
    ensures (v, d.View()) == U64(old(d.View()))
  {
    Spans();
    v := d.TakeFixed(8);
  }

  method TakeBody(kind: Uint8, d: Decoder) returns (body: Body)
    modifies d
    ensures (body, d.View()) == GetBody(kind, old(d.View()))
  {
    match kind {
      case 0 =>
        var size := TakeU64(d);
        var dev := TakeU64(d);
        var ino := TakeU64(d);
        var chunkSize := TakeU32(d);
        body := Regular(Signed(size), dev, ino, chunkSize);
      case 1 => body := Dir;
      case 2 =>
        var target := d.TakeChars();
        body := Symlink(target);
      case 3 =>
        var ref := d.TakeUv();
        body := Hardlink(Low32(ref));
      case 4 =>
        var rdev := TakeU64(d);
        body := Fifo(rdev);
      case 5 =>
        var rdev := TakeU64(d);
        body := CharDev(rdev);
      case 6 =>
        var rdev := TakeU64(d);
        body := BlockDev(rdev);
      case 7 => body := Socket;
      case _ => body := Unknown(kind);
    }
  }

  lemma AppendOne(xs: seq<Xattr>, x: Xattr, later: seq<Xattr>)
    ensures xs + ([x] + later) == (xs + [x]) + later
  {
  }

  /** The xattr loop, which keeps running on a failed decoder. */
  method TakeXattrs(n: nat, d: Decoder) returns (xs: seq<Xattr>)
    modifies d
    ensures (xs, d.View()) == GetXattrs(n, old(d.View()))
  {
    hide Chars;
    xs := [];
    var i := 0;
    ghost var start := d.View();
    assert xs + GetXattrs(n, start).0 == GetXattrs(n, start).0;
    while i < n
      invariant i <= n
      invariant GetXattrs(n, start) == (xs + GetXattrs(n - i, d.View()).0, GetXattrs(n - i, d.View()).1)
    {
      OneXattrLess(n - i, d.View());
      var name := d.TakeChars();
      var value := d.TakeChars();
      var x := Xattr(name, value);
      AppendOne(xs, x, GetXattrs(n - i - 1, d.View()).0);
      xs := xs + [x];
      i := i + 1;
    }
    assert xs + [] == xs;
  }

  method DecodeEntryBytes(p: Data) returns (r: Result<(Entry, nat)>)
    ensures r == DecodeEntry(p)
  {
    hide GetFields, GetBody, GetXattrs, Uv, U8;
    var d := new Decoder(p);
    var kind := TakeU8(d);
    var f := TakeFields(d);
    var body := TakeBody(kind, d);
    if body.Unknown? {
      return Err;
    }
    var nx := d.TakeUv();
    if nx > MAX_XATTRS {
      return Err;
    }
    var xattrs := TakeXattrs(nx, d);
    if d.err {
      return Err;
    }
    return Ok((Entry(body, f.0, f.1, f.2, f.3, xattrs), |p| - |d.b|));
  }

  method DecodeBatchBytes(p: Data) returns (r: Result<seq<Entry>>)
    ensures r == DecodeBatch(p)
  {
    hide DecodeEntry;
    var d := new Decoder(p);
    var n := d.TakeUv();
    if n > MAX_BATCH {
      return Err;
    }
    ghost var start := d.View();
    var es: seq<Entry>, i := [], 0;
    BeforeNone(GetEntries(n, d.b));
    while i < n
      invariant i <= n && d.err == start.err
      invariant GetEntries(n, start.b) == Before(es, GetEntries(n - i, d.b))
    {
      var one := DecodeEntryBytes(d.b);
      if one.Err? {
        return Err;
      }
      DecodedSize(d.b);
      BeforeMore(es, one.value.0, GetEntries(n - i - 1, d.b[one.value.1..]));
      es := es + [one.value.0];
      d.b := d.b[one.value.1..];
      i := i + 1;
    }
    assert es + [] == es;
    if d.err {
      return Err;
    }
    return Ok(es);
  }

  function Before(es: seq<Entry>, later: Result<seq<Entry>>): Result<seq<Entry>> {
    match later
    case Err => Err
    case Ok(fs) => Ok(es + fs)
  }

  lemma BeforeNone(later: Result<seq<Entry>>)
    ensures Before([], later) == later
  {
    if later.Ok? {
      assert [] + later.value == later.value;
    }
  }

  lemma BeforeMore(es: seq<Entry>, e: Entry, later: Result<seq<Entry>>)
    ensures later.Ok? ==> es + ([e] + later.value) == (es + [e]) + later.value
  {
  }

  method DecodeHaveBytes(p: Data) returns (r: Result<HaveBitmap>)
    ensures r == DecodeHave(p)
  {
    hide Chars, Uv, Fixed;
    var d := new Decoder(p);
    var id := d.TakeUv();
    var status := TakeU8(d);
    var bitmap := d.TakeChars();
    assert GetClaim(Dec(p, false)) == ((Low32(id), status, bitmap), d.View());
    var n := d.TakeUv();
    assert DecodeHave(p) == FromHashes((Low32(id), status, bitmap), n, d.View());
    if n > MAX_HASHES {
      return Err;
    }
    ghost var start := d.View();
    var hs: seq<Hash>, i := [], 0;
    assert GetHashes(n, d.b).Ok? ==> hs + GetHashes(n, d.b).value == GetHashes(n, d.b).value;
    while i < n
      invariant i <= n && d.err == start.err
      invariant GetHashes(n, start.b) == BeforeHashes(hs, GetHashes(n - i, d.b))
    {
      if |d.b| < HASH {
        return Err;
      }
      var h: Hash := d.b[..HASH];
      BeforeMoreHashes(hs, h, GetHashes(n - i - 1, d.b[HASH..]));
      hs := hs + [h];
      d.b := d.b[HASH..];
      i := i + 1;
    }
    assert hs + [] == hs;
    if d.err {
      return Err;
    }
    return Ok(HaveBitmap.HaveBitmap(Low32(id), status, bitmap, hs));
  }

  function BeforeHashes(hs: seq<Hash>, later: Result<seq<Hash>>): Result<seq<Hash>> {
    match later
    case Err => Err
    case Ok(fs) => Ok(hs + fs)
  }

  lemma BeforeMoreHashes(hs: seq<Hash>, h: Hash, later: Result<seq<Hash>>)
    ensures later.Ok? ==> hs + ([h] + later.value) == (hs + [h]) + later.value
  {
  }
}
