// Chunk frames on a data stream, plain and with a checksum trailer.

module ChunkFrames {
  import opened Bytes
  import opened Codec
  import opened Varints
  import opened Wire

  const FRAME_TYPE: Uint8 := 0x20
  const MAX_PAYLOAD: nat := 17 * 0x10_0000 + 4096
  const COALESCE: nat := 128 * 1024

  datatype Header = Header(fileId: Uint32, idx: Uint64, flags: Uint8, payloadLen: Uint64)

  datatype Received = Chunk(h: Header, payload: Data, rest: Data) | Bad

  /** The checksum, CRC-32C in the source, is any function of the bytes. */
  type Crc = Data -> Uint32

  // Flag bits 0 (all-zero chunk) and 3 (checksum trailer).

  predicate IsZero(flags: Uint8) {
    flags % 2 == 1
  }

  predicate IsSummed(flags: Uint8) {
    flags / 8 % 2 == 1
  }

  function WithSum(flags: Uint8): (r: Uint8)
    ensures IsSummed(r) && IsZero(r) == IsZero(flags)
  {
    if IsSummed(flags) then flags else flags + 8
  }

  function WithoutSum(flags: Uint8): (r: Uint8)
    ensures !IsSummed(r) && IsZero(r) == IsZero(flags)
  {
    if IsSummed(flags) then flags - 8 else flags
  }

  // ---------------------------------------------------------------------------------------
  // The format

  function PutIdentity(h: Header): Data {
    PutUv(h.fileId) + (PutUv(h.idx) + LittleEndian(h.flags, 1))
  }

  function PutHeader(h: Header): Data {
    LittleEndian(FRAME_TYPE, 1) + (PutIdentity(h) + PutUv(h.payloadLen))
  }

  function FrameBytes(h: Header, payload: Data): Data {
    PutHeader(h) + payload
  }

  function GetIdentity(d: Dec): ((Uint32, Uint64, Uint8), Dec) {
    var (id, d1) := Uv(d);
    var (idx, d2) := Uv(d1);
    var (flags, d3) := U8(d2);
    ((id % TWO32, idx, flags), d3)
  }

  /** A payload of the announced length; an empty one needs the zero flag. */
  function TakePayload(h: Header, d: Dec): Received {
    if d.err || h.payloadLen > MAX_PAYLOAD then Bad
    else if h.payloadLen == 0 then
      if IsZero(h.flags) then Chunk(h, [], d.b) else Bad
    else if |d.b| < h.payloadLen then Bad
    else Chunk(h, d.b[..h.payloadLen], d.b[h.payloadLen..])
  }

  function ReadFrame(b: Data): Received {
    var (t, d) := U8(Dec(b, false));
    if d.err || t != FRAME_TYPE then Bad
    else
      var (i, d1) := GetIdentity(d);
      var (n, d2) := Uv(d1);
      TakePayload(Header(i.0, i.1, i.2, n), d2)
  }

  lemma IdentityRound(h: Header, rest: Data)
    ensures GetIdentity(Dec(PutIdentity(h) + rest, false)) == ((h.fileId, h.idx, h.flags), Dec(rest, false))
  {
    hide PutUv;
    var a, b, c := PutUv(h.fileId), PutUv(h.idx), LittleEndian(h.flags, 1);
    Associate(a, b + c, rest);
    Associate(b, c, rest);
    UvRound(h.fileId, b + (c + rest));
    UvRound(h.idx, c + rest);
    Spans();
    FixedRound(h.flags, 1, rest);
  }

  lemma IdentityShort(h: Header, p: Data)
    requires p < PutIdentity(h)
    ensures GetIdentity(Dec(p, false)).1.err
  {
    var a, b, c := PutUv(h.fileId), PutUv(h.idx), LittleEndian(h.flags, 1);
    SplitPrefix(p, a, b + c);
    if p < a {
      UvShort(h.fileId, p);
    } else {
      var q := p[|a|..];
      UvRound(h.fileId, q);
      SplitPrefix(q, b, c);
      if q < b {
        UvShort(h.idx, q);
      } else {
        UvRound(h.idx, q[|b|..]);
      }
    }
  }

  predicate Acceptable(h: Header) {
    h.payloadLen <= MAX_PAYLOAD && (h.payloadLen == 0 ==> IsZero(h.flags))
  }

  lemma HeaderRound(h: Header, rest: Data)
    ensures ReadFrame(PutHeader(h) + rest) == TakePayload(h, Dec(rest, false))
  {
    hide PutIdentity, GetIdentity, TakePayload, PutUv;
    var t, i, n := LittleEndian(FRAME_TYPE, 1), PutIdentity(h), PutUv(h.payloadLen);
    Associate(t, i + n, rest);
    Associate(i, n, rest);
    Spans();
    FixedRound(FRAME_TYPE, 1, i + (n + rest));
    IdentityRound(h, n + rest);
    UvRound(h.payloadLen, rest);
  }

  /** A frame reads back as its header and payload, leaving what follows, exactly when its payload is
      within bounds and only a zero chunk is empty. */
  lemma FrameRoundTrip(h: Header, payload: Data, rest: Data)
    requires |payload| == h.payloadLen
    ensures ReadFrame(FrameBytes(h, payload) + rest) == Chunk(h, payload, rest) <==> Acceptable(h)
  {
    hide PutHeader, ReadFrame;
    Associate(PutHeader(h), payload, rest);
    HeaderRound(h, payload + rest);
    assert (payload + rest)[..|payload|] == payload && (payload + rest)[|payload|..] == rest;
    assert payload == [] ==> payload + rest == rest;
  }

  lemma BadHeaderPart(h: Header, p: Data)
    requires p < PutIdentity(h) + PutUv(h.payloadLen)
    ensures Uv(GetIdentity(Dec(p, false)).1).1.err
  {
    hide PutUv, PutIdentity, GetIdentity;
    var i := PutIdentity(h);
    SplitPrefix(p, i, PutUv(h.payloadLen));
    if p < i {
      IdentityShort(h, p);
    } else {
      IdentityRound(h, p[|i|..]);
      UvShort(h.payloadLen, p[|i|..]);
    }
  }

  lemma HeaderShort(h: Header, p: Data)
    requires p < PutHeader(h)
    ensures ReadFrame(p).Bad?
  {
    hide PutIdentity, GetIdentity, PutUv, Uv;
    var t, r := LittleEndian(FRAME_TYPE, 1), PutIdentity(h) + PutUv(h.payloadLen);
    SplitPrefix(p, t, r);
    if p < t {
      assert p == [];
    } else {
      Spans();
      FixedRound(FRAME_TYPE, 1, p[1..]);
      BadHeaderPart(h, p[1..]);
    }
  }

  /** A frame cut anywhere is refused. */
  lemma FrameTruncated(h: Header, payload: Data, p: Data)
    requires |payload| == h.payloadLen && p < FrameBytes(h, payload)
    ensures ReadFrame(p).Bad?
  {
    hide PutHeader, ReadFrame;
    SplitPrefix(p, PutHeader(h), payload);
    if p < PutHeader(h) {
      HeaderShort(h, p);
    } else {
      HeaderRound(h, p[|PutHeader(h)|..]);
    }
  }

  // ---------------------------------------------------------------------------------------
  // The checksum trailer

  function ChunkSum(crc: Crc, h: Header, body: Data): Uint32 {
    crc(PutIdentity(h.(flags := WithoutSum(h.flags))) + body)
  }

  function SummedHeader(h: Header, body: Data): Header
    requires |body| + 4 < TWO64
  {
    h.(flags := WithSum(h.flags), payloadLen := |body| + 4)
  }

  function SummedPayload(crc: Crc, h: Header, body: Data): (r: Data)
    ensures |r| == |body| + 4
  {
    body + LittleEndian(ChunkSum(crc, h, body), 4)
  }

  /** The receiver's checks before it uses a payload: a trailer where one is required, long enough to be
      there, and matching; its result is the body. */
  function CheckSum(crc: Crc, required: bool, h: Header, payload: Data): Option<Data> {
    if !IsSummed(h.flags) then if required then None else Some(payload)
    else if |payload| < 4 then None
    else
      var body := payload[..|payload| - 4];
      if ChunkSum(crc, h, body) == LittleValue(payload[|payload| - 4..]) then Some(body) else None
  }

  /** What WriteChunkSummed sends, ReadChunk and the check hand over, whether or not sums are required. */
  lemma SummedRoundTrip(crc: Crc, required: bool, h: Header, body: Data, rest: Data)
    requires |body| + 4 <= MAX_PAYLOAD
    ensures var hs, payload := SummedHeader(h, body), SummedPayload(crc, h, body);
            && ReadFrame(FrameBytes(hs, payload) + rest) == Chunk(hs, payload, rest)
            && CheckSum(crc, required, hs, payload) == Some(body)
  {
    var hs, payload := SummedHeader(h, body), SummedPayload(crc, h, body);
    FrameRoundTrip(hs, payload, rest);
    SumMatches(crc, required, h, body);
  }

  lemma SumMatches(crc: Crc, required: bool, h: Header, body: Data)
    requires |body| + 4 < TWO64
    ensures CheckSum(crc, required, SummedHeader(h, body), SummedPayload(crc, h, body)) == Some(body)
  {
    var hs, payload := SummedHeader(h, body), SummedPayload(crc, h, body);
    Spans();
    LittleRoundTrip(ChunkSum(crc, h, body), 4);
    assert payload[..|payload| - 4] == body && payload[|payload| - 4..] == LittleEndian(ChunkSum(crc, h, body), 4);
    assert hs.(flags := WithoutSum(hs.flags)).fileId == h.fileId;
  }

  // ---------------------------------------------------------------------------------------
  // Streams of frames

  datatype Outgoing = Plain(h: Header, payload: Data) | Summed(h: Header, body: Data)

  predicate Fits(o: Outgoing) {
    match o
    case Plain(h, payload) => |payload| == h.payloadLen && Acceptable(h) && !IsSummed(h.flags)
    case Summed(_, body) => |body| + 4 <= MAX_PAYLOAD
  }

  function HeaderOf(o: Outgoing): Header
    requires Fits(o)
  {
    if o.Plain? then o.h else SummedHeader(o.h, o.body)
  }

  function PayloadOf(crc: Crc, o: Outgoing): Data {
    if o.Plain? then o.payload else SummedPayload(crc, o.h, o.body)
  }

  function BodyOf(o: Outgoing): Data {
    if o.Plain? then o.payload else o.body
  }

  function Stream(crc: Crc, os: seq<Outgoing>): Data
    requires forall k :: 0 <= k < |os| ==> Fits(os[k])
  {
    if os == [] then [] else FrameBytes(HeaderOf(os[0]), PayloadOf(crc, os[0])) + Stream(crc, os[1..])
  }

  /** What the reader of a stream hands on, frame by frame, until something is refused or n are read. */
  function ReadStream(crc: Crc, required: bool, b: Data, n: nat): seq<(Header, Data)>
    decreases n
  {
    if n == 0 then []
    else
      match ReadFrame(b)
      case Bad => []
      case Chunk(h, payload, rest) =>
        match CheckSum(crc, required, h, payload)
        case None => []
        case Some(body) => [(h, body)] + ReadStream(crc, required, rest, n - 1)
  }

  function Expected(os: seq<Outgoing>): seq<(Header, Data)>
    requires forall k :: 0 <= k < |os| ==> Fits(os[k])
  {
    if os == [] then [] else [(HeaderOf(os[0]), BodyOf(os[0]))] + Expected(os[1..])
  }

  /** Any sequence of frames, plain or summed, reads back as the same headers and bodies in order, with
      every honest checksum accepted; summed ones also when the checksum was negotiated. */
  lemma {:induction false} StreamRoundTrip(crc: Crc, required: bool, os: seq<Outgoing>, rest: Data)
    requires forall k :: 0 <= k < |os| ==> Fits(os[k]) && (required ==> os[k].Summed?)
    ensures ReadStream(crc, required, Stream(crc, os) + rest, |os|) == Expected(os)
    decreases |os|
  {
    hide ReadFrame, FrameBytes, CheckSum;
    if os != [] {
      var h, payload, later := HeaderOf(os[0]), PayloadOf(crc, os[0]), Stream(crc, os[1..]) + rest;
      Associate(FrameBytes(h, payload), Stream(crc, os[1..]), rest);
      FrameRoundTrip(h, payload, later);
      OneChecked(crc, required, os[0]);
      StreamRoundTrip(crc, required, os[1..], rest);
    }
  }

  lemma OneChecked(crc: Crc, required: bool, o: Outgoing)
    requires Fits(o) && (required ==> o.Summed?)
    ensures |PayloadOf(crc, o)| == HeaderOf(o).payloadLen && Acceptable(HeaderOf(o))
    ensures CheckSum(crc, required, HeaderOf(o), PayloadOf(crc, o)) == Some(BodyOf(o))
  {
    if o.Summed? {
      SumMatches(crc, required, o.h, o.body);
    }
  }

  // ---------------------------------------------------------------------------------------
  // The stream object

  class DataStream {
    const crc: Crc
    var sent: Data
    var incoming: Data

    constructor (crc: Crc)
      ensures this.crc == crc && sent == [] && incoming == []
    {
      this.crc, sent, incoming := crc, [], [];
    }

    /** Small frames are copied into one write, large ones written in two. */
    method WriteChunk(h: Header, payload: Data) returns (ok: bool)
      modifies this`sent
      ensures ok <==> |payload| == h.payloadLen
      ensures sent == if ok then old(sent) + FrameBytes(h, payload) else old(sent)
    {
      if |payload| != h.payloadLen {
        return false;
      }
      var hdr := HeaderBytes(h);
      if 0 < |payload| <= COALESCE {
        sent := sent + (hdr + payload);
        return true;
      }
      ghost var before := sent;
      sent := sent + hdr;
      if |payload| > 0 {
        sent := sent + payload;
      }
      assert payload == [] ==> sent + payload == sent;
      Associate(before, hdr, payload);
      return true;
    }

    method WriteChunkSummed(h: Header, body: Data)
      requires |body| + 4 < TWO64
      modifies this`sent
      ensures sent == old(sent) + FrameBytes(SummedHeader(h, body), SummedPayload(crc, h, body))
    {
      var hs := SummedHeader(h, body);
      var trailer := LittleEndian(ChunkSum(crc, hs, body), 4);
      var hdr := HeaderBytes(hs);
      ghost var before := sent;
      Associate(before + hdr, body, trailer);
      Associate(before, hdr, body + trailer);
      Associate(hdr, body, trailer);
      if |body| <= COALESCE {
        sent := sent + (hdr + body + trailer);
        return;
      }
      sent := sent + hdr;
      sent := sent + body;
      sent := sent + trailer;
    }

    /** The next frame, which is consumed; after an error the stream is not read again. */
    method ReadChunk() returns (got: Received)
      modifies this`incoming
      ensures got == ReadFrame(old(incoming))
      ensures got.Chunk? ==> incoming == got.rest
    {
      hide Uv;
      var d := new Decoder(incoming);
      Spans();
      var t := d.TakeFixed(1);
      if d.err || t != FRAME_TYPE {
        return Bad;
      }
      var id := d.TakeUv();
      var idx := d.TakeUv();
      var flags := d.TakeFixed(1);
      var n := d.TakeUv();
      var h := Header(id % TWO32, idx, flags, n);
      assert ReadFrame(old(incoming)) == TakePayload(h, d.View());
      if d.err || n > MAX_PAYLOAD {
        return Bad;
      }
      if n == 0 {
        if !IsZero(flags) {
          return Bad;
        }
        incoming := d.b;
        return Chunk(h, [], d.b);
      }
      if |d.b| < n {
        return Bad;
      }
      incoming := d.b[n..];
      return Chunk(h, d.b[..n], d.b[n..]);
    }
  }

  method HeaderBytes(h: Header) returns (hdr: Data)
    ensures hdr == PutHeader(h)
  {
    var b := new Encoder();
    b.AddFixed(FRAME_TYPE, 1);
    b.AddUv(h.fileId);
    b.AddUv(h.idx);
    b.AddFixed(h.flags, 1);
    b.AddUv(h.payloadLen);
    hdr := b.b;
  }

}
