/** What lies where on the wire, in plain arithmetic on the bytes: the chunk headers, the binary messages and the
    messaging client's frames. Nothing here is stated by the coding functions that the other modules share between
    encoders and decoders, so no error can hide on both sides of a round trip. */
module WireFormat {
  import opened Bytes
  import opened ChunkHeader
  import Control
  import Cutting
  import Frames

  function Octet(b: seq<Byte>, k: nat): int
    requires k < |b|
  {
    b[k]
  }

  /** The numbers that the bytes from position k on stand for. */
  predicate Big16(b: seq<Byte>, k: nat, x: int) {
    k + 2 <= |b| && x == 256 * Octet(b, k) + Octet(b, k + 1)
  }

  predicate Big24(b: seq<Byte>, k: nat, x: int) {
    k + 3 <= |b| && x == 65536 * Octet(b, k) + 256 * Octet(b, k + 1) + Octet(b, k + 2)
  }

  predicate Big32(b: seq<Byte>, k: nat, x: int) {
    && k + 4 <= |b|
    && x == 16777216 * Octet(b, k) + 65536 * Octet(b, k + 1) + 256 * Octet(b, k + 2) + Octet(b, k + 3)
  }

  predicate Little32(b: seq<Byte>, k: nat, x: int) {
    && k + 4 <= |b|
    && x == Octet(b, k) + 256 * Octet(b, k + 1) + 65536 * Octet(b, k + 2) + 16777216 * Octet(b, k + 3)
  }

  predicate Big64(b: seq<Byte>, k: nat, x: int) {
    && k + 8 <= |b|
    && x == 72057594037927936 * Octet(b, k) + 281474976710656 * Octet(b, k + 1) + 1099511627776 * Octet(b, k + 2)
            + 4294967296 * Octet(b, k + 3) + 16777216 * Octet(b, k + 4) + 65536 * Octet(b, k + 5)
            + 256 * Octet(b, k + 6) + Octet(b, k + 7)
  }

  lemma PutsU24(x: U32)
    ensures Big24(PutU24(x), 0, x % 16777216)
  {
    U24RoundTrip(x);
  }

  lemma PutsU32(x: U32)
    ensures Big32(PutU32(x), 0, x) && Little32(PutU32LE(x), 0, x)
  {
    U32RoundTrip(x);
  }

  //
  // Chunk basic headers
  //

  /** One, two or three bytes: the fmt in the top two bits of the first, and the id in the other six, in the second byte
      less 64, or in the second and third, least significant first, less 64. */
  lemma BasicHeaderBytes(h: BasicHeader)
    ensures EncodeBasic(h).None? <==> h.chunkStreamID < 2 || h.chunkStreamID > 65599
    ensures EncodeBasic(h).Some? ==> BasicBytes(EncodeBasic(h).value, h.fmt, h.chunkStreamID)
  {
  }

  /** The bytes are a basic header. */
  predicate BasicBytes(b: seq<Byte>, fmt: int, id: int) {
    if id <= 63 then |b| == 1 && b[0] == 64 * fmt + id
    else if id <= 319 then |b| == 2 && b[0] == 64 * fmt && Octet(b, 1) + 64 == id
    else |b| == 3 && b[0] == 64 * fmt + 1 && Octet(b, 1) + 256 * Octet(b, 2) + 64 == id
  }

  /** Any bytes as a basic header: how many it has, by the low six bits of the first; it is refused if they are not
      there, and tells fmt and id so. */
  lemma BasicHeaderRead(b: seq<Byte>, over: nat)
    ensures var d := DecodeBasic(b, over);
            if |b| == 0 || (b[0] % 64 == 0 && |b| < 2) || (b[0] % 64 == 1 && |b| < 3) then d == None
            else
              && d.Some? && 64 * d.value.value.fmt + b[0] % 64 == b[0]
              && var id := d.value.value.chunkStreamID;
                 if b[0] % 64 == 0 then id == Octet(b, 1) + 64 && d.value.rest == b[2..]
                 else if b[0] % 64 == 1 then
                   && id == Octet(b, 1) + 256 * Octet(b, 2) + 64
                   && d.value.rest == b[(if 3 + over <= |b| then 3 + over else |b|)..]
                 else id == b[0] % 64 && d.value.rest == b[1..]
  {
  }

  //
  // Chunk message headers
  //

  /** A time from position 0: itself, or 0xFFFFFF and the time itself from position n on, which is the end otherwise. */
  predicate TimeBytes(b: seq<Byte>, n: nat, t: U32) {
    if t < 0xFFFFFF then Big24(b, 0, t) && |b| == n else Big24(b, 0, 0xFFFFFF) && Big32(b, n, t) && |b| == n + 4
  }

  /** Time, length, type id and, in fmt 0, the message stream id, least significant byte first. */
  lemma MessageHeaderBytes(mh: MsgHeader)
    ensures var b := EncodeMessage(0, mh);
            && TimeBytes(b, 11, mh.timestamp) && Big24(b, 3, mh.messageLength % 16777216)
            && b[6] == mh.messageTypeID && Little32(b, 7, mh.messageStreamID)
    ensures var b := EncodeMessage(1, mh);
            TimeBytes(b, 7, mh.timestampDelta) && Big24(b, 3, mh.messageLength % 16777216) && b[6] == mh.messageTypeID
    ensures TimeBytes(EncodeMessage(2, mh), 3, mh.timestampDelta)
    ensures EncodeMessage(3, mh) == []
  {
    TimePut(mh.timestamp);
    TimePut(mh.timestampDelta);
    PutsU24(mh.messageLength);
    PutsU32(mh.messageStreamID);
  }

  lemma TimePut(t: U32)
    ensures Big24(TimeField(t), 0, if t < 0xFFFFFF then t else 0xFFFFFF)
    ensures if t < 0xFFFFFF then Extension(t) == [] else |Extension(t)| == 4 && Big32(Extension(t), 0, t)
  {
    PutsU24(if t < 0xFFFFFF then t else 0xFFFFFF);
    PutsU32(t);
  }

  /** How many bytes a message header needs. */
  function HeaderSize(fmt: Fmt, b: seq<Byte>): nat {
    var n := if fmt == 0 then 11 else if fmt == 1 then 7 else if fmt == 2 then 3 else 0;
    if fmt < 3 && Big24(b, 0, 0xFFFFFF) then n + 4 else n
  }

  /** The time that a message header of so many bytes says: the first three, or the last four if those are all ones. */
  predicate TimeRead(b: seq<Byte>, size: nat, t: U32) {
    if Big24(b, 0, 0xFFFFFF) then size >= 4 && Big32(b, size - 4, t) else Big24(b, 0, t)
  }

  /** Any bytes as a message header: refused if too few, and read field by field so. */
  lemma MessageHeaderRead(fmt: Fmt, b: seq<Byte>)
    ensures var d, n := DecodeMessage(fmt, b), HeaderSize(fmt, b);
            && (d.None? <==> |b| < n)
            && (d.Some? ==> d.value.rest == b[n..] && FieldsRead(fmt, b, n, d.value.value))
  {
  }

  predicate FieldsRead(fmt: Fmt, b: seq<Byte>, n: nat, mh: MsgHeader) {
    && (fmt == 0 ==> TimeRead(b, n, mh.timestamp) && mh.timestampDelta == 0 && Little32(b, 7, mh.messageStreamID))
    && (fmt == 1 || fmt == 2 ==> mh.timestamp == 0 && TimeRead(b, n, mh.timestampDelta) && mh.messageStreamID == 0)
    && (fmt == 0 || fmt == 1 ==> Big24(b, 3, mh.messageLength) && |b| >= 7 && mh.messageTypeID == b[6])
    && (fmt == 2 ==> mh.messageLength == 0 && mh.messageTypeID == 0)
    && (fmt == 3 ==> mh == MsgHeader(0, 0, 0, 0, 0))
  }

  //
  // Binary messages
  //

  /** The bytes of a message's payload under its type id; of media that is the payload itself. */
  predicate PayloadBytes(m: Control.ControlMessage, ty: Byte, b: seq<Byte>) {
    match m
    case SetChunkSize(n) => ty == 1 && Word(b, n)
    case Abort(id) => ty == 2 && Word(b, id)
    case Ack(n) => ty == 3 && Word(b, n)
    case UserCtrl(event) => ty == 4 && EventBytes(b, event)
    case WinAckSize(n) => ty == 5 && SignedWord(b, n)
    case SetPeerBandwidth(n, limit) => ty == 6 && |b| == 5 && SignedWord(b[..4], n) && b[4] == limit
    case Audio(p) => ty == 8 && b == p
    case Video(p) => ty == 9 && b == p
  }

  /** What the encoder accepts, and the bytes it makes. */
  lemma MessageBytes(m: Control.ControlMessage)
    ensures Control.Encode(m).None? <==> m.SetChunkSize? && (m.chunkSize == 0 || m.chunkSize >= 2147483648)
    ensures Control.Encode(m).Some? ==> PayloadBytes(m, Control.TypeID(m), Control.Encode(m).value)
  {
    match m
    case SetChunkSize(n) => if Control.ValidChunkSize(n) { SizePut(n); }
    case Abort(id) => WordPut(id);
    case Ack(n) => WordPut(n);
    case UserCtrl(event) => EventPut(event);
    case WinAckSize(n) => SignedPut(n);
    case SetPeerBandwidth(n, limit) => BandwidthPut(n, limit);
    case _ =>
  }

  lemma WordPut(x: U32)
    ensures Word(PutU32(x), x)
  {
    PutsU32(x);
  }

  lemma SizePut(n: U32)
    requires Control.ValidChunkSize(n)
    ensures Control.Encode(Control.SetChunkSize(n)) == Some(PutU32(n)) && Word(PutU32(n), n)
  {
    Control.WordRoundTrip(Control.SetChunkSize(n), n);
    WordPut(n);
  }

  lemma SignedPut(x: I32)
    ensures SignedWord(PutU32(AsU32(x)), x)
  {
    PutsU32(AsU32(x));
  }

  lemma BandwidthPut(n: I32, limit: Byte)
    ensures var b := PutU32(AsU32(n)) + [limit]; |b| == 5 && SignedWord(b[..4], n) && b[4] == limit
  {
    SignedPut(n);
    assert (PutU32(AsU32(n)) + [limit])[..4] == PutU32(AsU32(n));
  }

  predicate Word(b: seq<Byte>, x: U32) {
    |b| == 4 && Big32(b, 0, x)
  }

  predicate SignedWord(b: seq<Byte>, x: I32) {
    |b| == 4 && Big32(b, 0, if x < 0 then x + 4294967296 else x)
  }

  /** Two bytes of event type, then one word, or two for a buffer length. */
  predicate EventBytes(b: seq<Byte>, e: Control.Event) {
    match e
    case StreamBegin(id) => |b| == 6 && Big16(b, 0, 0) && Big32(b, 2, id)
    case StreamEOF(id) => |b| == 6 && Big16(b, 0, 1) && Big32(b, 2, id)
    case StreamDry(id) => |b| == 6 && Big16(b, 0, 2) && Big32(b, 2, id)
    case SetBufferLength(id, ms) => |b| == 10 && Big16(b, 0, 3) && Big32(b, 2, id) && Big32(b, 6, ms)
    case StreamIsRecorded(id) => |b| == 6 && Big16(b, 0, 4) && Big32(b, 2, id)
    case PingRequest(t) => |b| == 6 && Big16(b, 0, 6) && Big32(b, 2, t)
    case PingResponse(t) => |b| == 6 && Big16(b, 0, 7) && Big32(b, 2, t)
  }

  lemma OneWord(ty: Byte, x: U32)
    ensures var b := PutU16(ty) + PutU32(x); |b| == 6 && Big16(b, 0, ty) && Big32(b, 2, x)
  {
    PutsU32(x);
  }

  lemma EventPut(e: Control.Event)
    ensures EventBytes(Control.EncodeEvent(e), e)
  {
    match e
    case StreamBegin(id) => OneWord(0, id);
    case StreamEOF(id) => OneWord(1, id);
    case StreamDry(id) => OneWord(2, id);
    case SetBufferLength(id, ms) => OneWord(3, id); PutsU32(ms);
    case StreamIsRecorded(id) => OneWord(4, id);
    case PingRequest(t) => OneWord(6, t);
    case PingResponse(t) => OneWord(7, t);
  }

  /** What the decoder takes: of type 1 a chunk size of 31 bits that is not 0, of 2, 3 and 5 any word, of 6 a word and
      a byte, of 4 an event of type 0 to 7 but 5, of 8 and 9 anything; and nothing else. More bytes may follow. */
  lemma MessageIsRead(typeID: Byte, b: seq<Byte>)
    ensures Control.Decode(typeID, b).Some? <==>
              || (typeID == 1 && |b| >= 4 && 1 <= Number32(b) < 2147483648)
              || ((typeID == 2 || typeID == 3 || typeID == 5) && |b| >= 4)
              || (typeID == 4 && EventIsRead(b))
              || (typeID == 6 && |b| >= 5)
              || typeID == 8 || typeID == 9
  {
    if |b| >= 4 { assert GetU32(b[..4]) == Number32(b); }
  }

  function Number32(b: seq<Byte>): int
    requires |b| >= 4
  {
    16777216 * Octet(b, 0) + 65536 * Octet(b, 1) + 256 * Octet(b, 2) + Octet(b, 3)
  }

  predicate EventIsRead(b: seq<Byte>) {
    && |b| >= 6 && b[0] == 0 && b[1] <= 7 && b[1] != 5
    && (b[1] == 3 ==> |b| >= 10)
  }

  /** And what it reads: the message of which the first of these bytes are the payload, all of them if it is media. */
  lemma MessageRead(typeID: Byte, b: seq<Byte>) returns (n: nat)
    requires Control.Decode(typeID, b).Some?
    ensures n <= |b| && PayloadBytes(Control.Decode(typeID, b).value, typeID, b[..n])
    ensures typeID == 8 || typeID == 9 ==> n == |b|
  {
    var m := Control.Decode(typeID, b).value;
    Control.Canonical(typeID, b);
    MessageBytes(m);
    n := |Control.Encode(m).value|;
    assert b[..n] == Control.Encode(m).value;
  }

  //
  // Frames of the messaging client
  //

  lemma PutsU64(x: U64)
    ensures Big64(PutU64(x), 0, x)
  {
    assert Power(8) == 0x1_0000_0000_0000_0000;
    GetAfterPut(x, 8);
    GetsU64(PutU64(x));
  }

  lemma GetsU64(b: seq<Byte>)
    requires |b| == 8
    ensures Big64(b, 0, Get(b))
  {
    var b7, b6, b5, b4, b3, b2, b1 := b[..7], b[..6], b[..5], b[..4], b[..3], b[..2], b[..1];
    assert b7[..6] == b6 && b6[..5] == b5 && b5[..4] == b4 && b4[..3] == b3 && b3[..2] == b2 && b2[..1] == b1;
    assert b1[..0] == [] && Get(b1) == b[0] as int;
    assert Get(b2) == Get(b1) * 256 + b[1] as int;
    assert Get(b3) == Get(b2) * 256 + b[2] as int;
    assert Get(b4) == Get(b3) * 256 + b[3] as int;
    assert Get(b5) == Get(b4) * 256 + b[4] as int;
    assert Get(b6) == Get(b5) * 256 + b[5] as int;
    assert Get(b7) == Get(b6) * 256 + b[6] as int;
  }

  lemma Shifts(b: seq<Byte>, k: nat, x: int)
    requires k + 8 <= |b| && Big64(b[k..k + 8], 0, x)
    ensures Big64(b, k, x)
  {
    var c := b[k..k + 8];
    assert forall i :: 0 <= i < 8 ==> c[i] == b[k + i];
  }

  lemma PutAt(b: seq<Byte>, k: nat, x: U64)
    requires k + 8 <= |b| && b[k..k + 8] == PutU64(x)
    ensures Big64(b, k, x)
  {
    PutsU64(x);
    Shifts(b, k, x);
  }

  /** 25 bytes of header, most significant bytes first: the type, the sequence number, the timestamp, and the length of
      the payload, which follows. */
  lemma FrameBytes(f: Frames.Frame)
    ensures var b := Frames.Encode(f);
            && |b| == 25 + |f.payload| && b[0] == f.frameType && b[25..] == f.payload
            && Big64(b, 1, f.sequenceNumber)
            && Big64(b, 9, if f.timestamp < 0 then f.timestamp + 18446744073709551616 else f.timestamp)
            && Big64(b, 17, |f.payload| % 18446744073709551616)
  {
    var b := Frames.Encode(f);
    PutAt(b, 1, f.sequenceNumber);
    PutAt(b, 9, Frames.AsU64(f.timestamp));
    PutAt(b, 17, |f.payload| % 0x1_0000_0000_0000_0000);
  }

  /** What DecodeFrame takes: 25 bytes at least, a length below 2^63 - 25, and as many bytes behind them. */
  lemma FrameIsRead(b: seq<Byte>, n: nat)
    requires Big64(b, 17, n)
    ensures Frames.Decode(b).Decoded? <==> n < 9223372036854775783 && |b| >= 25 + n
    ensures Frames.Decode(b).Decoded? ==> Frames.Encode(Frames.Decode(b).frame) == b[..25 + n]
  {
    Shifted(b, 17, n);
    GetsU64(b[17..25]);
    assert U64At(b, 17) == n;
    Frames.LengthField(U64At(b, 17));
    if Frames.Decode(b).Decoded? { Frames.FrameCanonical(b); }
  }

  lemma Shifted(b: seq<Byte>, k: nat, x: int)
    requires Big64(b, k, x)
    ensures Big64(b[k..k + 8], 0, x)
  {
    var c := b[k..k + 8];
    assert forall i :: 0 <= i < 8 ==> c[i] == b[k + i];
  }
}
