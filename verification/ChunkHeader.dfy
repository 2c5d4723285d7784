/** The chunk basic header and chunk message header (chunk_header.go), which code
    sections 5.3.1.1 to 5.3.1.3 of the RTMP 1.0 specification. */
module ChunkHeader {
  import opened Bytes

  type Fmt = x: int | 0 <= x < 4

  const TS_ESCAPE: U32 := 0xFF_FFFF

  datatype MsgHeader = MsgHeader(
    timestamp: U32,
    timestampDelta: U32,
    messageLength: U32,
    messageTypeID: Byte,
    messageStreamID: U32)

  const ZERO_HEADER := MsgHeader(0, 0, 0, 0, 0)

  datatype BasicHeader = BasicHeader(fmt: Fmt, chunkStreamID: int)

  /** What decoding consumed and what it left unread. */
  datatype Decoded<+T> = Decoded(value: T, rest: seq<Byte>)

  predicate ValidChunkStreamID(id: int) {
    2 <= id <= 65599
  }

  /** None is the encoder's "out of range" error. */
  function EncodeBasic(h: BasicHeader): (b: Option<seq<Byte>>)
    ensures b.Some? <==> ValidChunkStreamID(h.chunkStreamID)
    ensures b.Some? ==> 1 <= |b.value| <= 3
  {
    var tag := h.fmt * 64;
    var id := h.chunkStreamID;
    if 2 <= id <= 63 then Some([tag + id])
    else if 64 <= id <= 319 then Some([tag, id - 64])
    else if 320 <= id <= 65599 then Some([tag + 1, (id - 64) % 256, (id - 64) / 256])
    else None
  }

  /** How many bytes the basic header has, by the low six bits of its first. */
  function BasicLength(low: int): (n: nat)
    ensures 1 <= n <= 3
  {
    if low == 0 then 2 else if low == 1 then 3 else 1
  }

  /** The three-byte form asks for at least two further bytes but offers the whole rest of its
      buffer; `over` is how many bytes beyond those two the connection happened to hand out.
      With a three-byte buffer `over` is 0. */
  function DecodeBasic(input: seq<Byte>, over: nat): (d: Option<Decoded<BasicHeader>>)
    ensures d.Some? ==> 1 <= |input| - |d.value.rest| <= 3 + over
    ensures d.Some? ==> d.value.value.chunkStreamID >= 2
  {
    if |input| < 1 || |input| < BasicLength(input[0] % 64) then None
    else
      var low := input[0] % 64;
      var id :=
        if low == 0 then input[1] as int + 64
        else if low == 1 then input[2] as int * 256 + input[1] as int + 64
        else low;
      var taken := BasicLength(low) + if low == 1 then over else 0;
      Some(Decoded(BasicHeader(input[0] / 64, id), input[Min(taken, |input|)..]))
  }

  /** A 24-bit time field, escaped by 0xFFFFFF to a 32-bit one at the end of the header. */
  function TimeField(t: U32): (b: seq<Byte>)
    ensures |b| == 3
  {
    PutU24(if t >= TS_ESCAPE then TS_ESCAPE else t)
  }

  function Extension(t: U32): (b: seq<Byte>)
    ensures |b| <= 4
  {
    if t >= TS_ESCAPE then PutU32(t) else []
  }

  function EncodeMessage(fmt: Fmt, mh: MsgHeader): (b: seq<Byte>)
    ensures |b| <= 15
  {
    match fmt
    case 0 => TimeField(mh.timestamp) + PutU24(mh.messageLength) + [mh.messageTypeID]
      + PutU32LE(mh.messageStreamID) + Extension(mh.timestamp)
    case 1 => TimeField(mh.timestampDelta) + PutU24(mh.messageLength) + [mh.messageTypeID]
      + Extension(mh.timestampDelta)
    case 2 => TimeField(mh.timestampDelta) + Extension(mh.timestampDelta)
    case 3 => []
  }

  /** How many bytes the message header has before an extended time. */
  function MessageLength(fmt: Fmt): nat {
    if fmt == 0 then 11 else if fmt == 1 then 7 else if fmt == 2 then 3 else 0
  }

  /** The 24-bit time field holds the escape. */
  predicate Extended(fmt: Fmt, input: seq<Byte>) {
    fmt != 3 && |input| >= 3 && U24At(input, 0) == TS_ESCAPE
  }

  /** The fields of a message header of n bytes: the time is the 24-bit field, or the four bytes after
      the header when that holds the escape. */
  function Fields(fmt: Fmt, input: seq<Byte>): MsgHeader
    requires |input| >= MessageLength(fmt) + if Extended(fmt, input) then 4 else 0
  {
    var t: U32 :=
      if fmt == 3 then 0
      else if Extended(fmt, input) then U32At(input, MessageLength(fmt))
      else U24At(input, 0);
    match fmt
    case 0 => MsgHeader(t, 0, U24At(input, 3), input[6], U32LEAt(input, 7))
    case 1 => MsgHeader(0, t, U24At(input, 3), input[6], 0)
    case _ => MsgHeader(0, t, 0, 0, 0)
  }

  function DecodeMessage(fmt: Fmt, input: seq<Byte>): (d: Option<Decoded<MsgHeader>>)
    ensures d.Some? ==> 0 <= |input| - |d.value.rest| <= 15 && d.value.value.messageLength < 0x100_0000
  {
    var n := MessageLength(fmt) + if Extended(fmt, input) then 4 else 0;
    if |input| < n then None else Some(Decoded(Fields(fmt, input), input[n..]))
  }

  datatype Headers = Headers(basic: BasicHeader, message: MsgHeader)

  /** Both headers of a chunk, as readChunk decodes them. */
  function DecodeHeaders(input: seq<Byte>, over: nat): (d: Option<Decoded<Headers>>)
    ensures d.Some? ==> 1 <= |input| - |d.value.rest| <= 18 + over
    ensures d.Some? ==> d.value.value.message.messageLength < 0x100_0000
  {
    var b := DecodeBasic(input, over);
    if b.None? then None
    else
      var m := DecodeMessage(b.value.value.fmt, b.value.rest);
      if m.None? then None else Some(Decoded(Headers(b.value.value, m.value.value), m.value.rest))
  }

  /** The fields that a header of the given fmt carries; the others read as zero. */
  function Carried(fmt: Fmt, mh: MsgHeader): MsgHeader {
    match fmt
    case 0 => mh.(timestampDelta := 0, messageLength := mh.messageLength % 0x100_0000)
    case 1 => mh.(timestamp := 0, messageLength := mh.messageLength % 0x100_0000, messageStreamID := 0)
    case 2 => MsgHeader(0, mh.timestampDelta, 0, 0, 0)
    case 3 => ZERO_HEADER
  }

  /** Decoding an encoded basic header gives it back, whatever follows; and exactly the bytes that
      follow are left unless the three-byte form over-reads them. */
  lemma BasicRoundTrip(h: BasicHeader, rest: seq<Byte>, over: nat)
    requires ValidChunkStreamID(h.chunkStreamID)
    ensures var d := DecodeBasic(EncodeBasic(h).value + rest, over);
            && d.Some? && d.value.value == h
            && (d.value.rest == rest <==> h.chunkStreamID <= 319 || over == 0 || rest == [])
            && (h.chunkStreamID >= 320 ==> d.value.rest == rest[Min(over, |rest|)..])
  {
    var e := EncodeBasic(h).value;
    var n := |e|;
    assert (e + rest)[n..] == rest;
    assert forall i :: 0 <= i < n ==> (e + rest)[i] == e[i];
    if h.chunkStreamID >= 320 {
      var k := Min(over, |rest|);
      assert (e + rest)[n + k..] == rest[k..];
      assert n == 3 && Min(3 + over, |e + rest|) == n + k;
      assert |rest[k..]| == |rest| - k;
    }
  }

  lemma TimeFieldRoundTrip(t: U32)
    ensures GetU24(TimeField(t)) == if t >= TS_ESCAPE then TS_ESCAPE else t
  {
    U24RoundTrip(if t >= TS_ESCAPE then TS_ESCAPE else t);
  }

  /** The bytes of a message header, field by field. */
  lemma MessageBytes(fmt: Fmt, mh: MsgHeader, rest: seq<Byte>)
    ensures var e := EncodeMessage(fmt, mh);
            var t := if fmt == 0 then mh.timestamp else mh.timestampDelta;
            var input := e + rest;
            && (fmt != 3 ==> |input| >= 3 && U24At(input, 0) == GetU24(TimeField(t)))
            && (fmt < 2 ==>
                  |input| >= 7 && U24At(input, 3) == GetU24(PutU24(mh.messageLength)) && input[6] == mh.messageTypeID)
            && (fmt == 0 ==> |input| >= 11 && U32LEAt(input, 7) == GetU32LE(PutU32LE(mh.messageStreamID)))
            && (fmt != 3 && t >= TS_ESCAPE ==>
                  |e| == MessageLength(fmt) + 4 && U32At(input, MessageLength(fmt)) == GetU32(PutU32(t)))
            && (fmt == 3 || t < TS_ESCAPE ==> |e| == MessageLength(fmt))
            && input[|e|..] == rest
  {
  }

  /** Decoding an encoded message header gives the fields its fmt carries and leaves what follows. */
  lemma {:induction false} MessageRoundTrip(fmt: Fmt, mh: MsgHeader, rest: seq<Byte>)
    ensures DecodeMessage(fmt, EncodeMessage(fmt, mh) + rest) == Some(Decoded(Carried(fmt, mh), rest))
  {
    MessageBytes(fmt, mh, rest);
    var t := if fmt == 0 then mh.timestamp else mh.timestampDelta;
    TimeFieldRoundTrip(t);
    U24RoundTrip(mh.messageLength);
    U32RoundTrip(mh.messageStreamID);
    U32RoundTrip(t);
  }

  /** Both headers together, whatever follows, unless the three-byte form over-reads. */
  lemma {:induction false} HeadersRoundTrip(h: BasicHeader, mh: MsgHeader, rest: seq<Byte>, over: nat)
    requires ValidChunkStreamID(h.chunkStreamID)
    requires h.chunkStreamID <= 319 || over == 0 || EncodeMessage(h.fmt, mh) + rest == []
    ensures DecodeHeaders(EncodeBasic(h).value + EncodeMessage(h.fmt, mh) + rest, over) ==
            Some(Decoded(Headers(h, Carried(h.fmt, mh)), rest))
  {
    var b := EncodeBasic(h).value;
    var tail := EncodeMessage(h.fmt, mh) + rest;
    assert b + EncodeMessage(h.fmt, mh) + rest == b + tail;
    BasicRoundTrip(h, tail, over);
    MessageRoundTrip(h.fmt, mh, rest);
  }
}
