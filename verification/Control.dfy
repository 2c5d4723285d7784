/** The binary messages (message/encoder.go, message/decoder.go and the user control event codec):
    sections 5.4.1 to 5.4.5 and 7.1.7 of the RTMP 1.0 specification. */
module Control {
  import opened Bytes

  datatype Event =
    | StreamBegin(streamID: U32)
    | StreamEOF(streamID: U32)
    | StreamDry(streamID: U32)
    | SetBufferLength(streamID: U32, lengthMs: U32)
    | StreamIsRecorded(streamID: U32)
    | PingRequest(timestamp: U32)
    | PingResponse(timestamp: U32)

  datatype ControlMessage =
    | SetChunkSize(chunkSize: U32)
    | Abort(chunkStreamID: U32)
    | Ack(sequenceNumber: U32)
    | UserCtrl(event: Event)
    | WinAckSize(ackSize: I32)
    | SetPeerBandwidth(bandwidth: I32, limit: Byte)
    | Audio(payload: seq<Byte>)
    | Video(payload: seq<Byte>)

  const SET_CHUNK_SIZE: Byte := 1
  const WIN_ACK_SIZE: Byte := 5
  const DATA_AMF0: Byte := 18
  const COMMAND_AMF0: Byte := 20

  function TypeID(m: ControlMessage): Byte {
    match m
    case SetChunkSize(_) => SET_CHUNK_SIZE
    case Abort(_) => 2
    case Ack(_) => 3
    case UserCtrl(_) => 4
    case WinAckSize(_) => WIN_ACK_SIZE
    case SetPeerBandwidth(_, _) => 6
    case Audio(_) => 8
    case Video(_) => 9
  }

  /** The chunk sizes the protocol can say: 31 bits, not 0. */
  predicate ValidChunkSize(n: U32) {
    1 <= n <= 0x7FFF_FFFF
  }

  function EncodeEvent(e: Event): seq<Byte> {
    match e
    case StreamBegin(id) => PutU16(0) + PutU32(id)
    case StreamEOF(id) => PutU16(1) + PutU32(id)
    case StreamDry(id) => PutU16(2) + PutU32(id)
    case SetBufferLength(id, ms) => PutU16(3) + PutU32(id) + PutU32(ms)
    case StreamIsRecorded(id) => PutU16(4) + PutU32(id)
    case PingRequest(t) => PutU16(6) + PutU32(t)
    case PingResponse(t) => PutU16(7) + PutU32(t)
  }

  function DecodeEvent(b: seq<Byte>): Option<Event> {
    if |b| < 2 then None
    else
      var ty := GetU16(b[..2]);
      if ty == 3 then
        if |b| < 10 then None else Some(SetBufferLength(GetU32(b[2..6]), GetU32(b[6..10])))
      else if |b| < 6 then None
      else
        var v := GetU32(b[2..6]);
        match ty
        case 0 => Some(StreamBegin(v))
        case 1 => Some(StreamEOF(v))
        case 2 => Some(StreamDry(v))
        case 4 => Some(StreamIsRecorded(v))
        case 6 => Some(PingRequest(v))
        case 7 => Some(PingResponse(v))
        case _ => None
  }

  /** None is the encoder's error. */
  function Encode(m: ControlMessage): Option<seq<Byte>> {
    match m
    case SetChunkSize(n) => if ValidChunkSize(n) then Some(PutU32(n % 0x8000_0000)) else None
    case Abort(id) => Some(PutU32(id))
    case Ack(n) => Some(PutU32(n))
    case UserCtrl(e) => Some(EncodeEvent(e))
    case WinAckSize(n) => Some(PutU32(AsU32(n)))
    case SetPeerBandwidth(n, limit) => Some(PutU32(AsU32(n)) + [limit])
    case Audio(p) => Some(p)
    case Video(p) => Some(p)
  }

  /** The decoder for the type ids above; None is its error. Bytes beyond the fields are left unread. */
  function Decode(typeID: Byte, b: seq<Byte>): Option<ControlMessage> {
    if typeID == 4 then
      var e := DecodeEvent(b);
      if e.None? then None else Some(UserCtrl(e.value))
    else if typeID == 8 then Some(Audio(b))
    else if typeID == 9 then Some(Video(b))
    else if typeID == 6 then
      if |b| < 5 then None else Some(SetPeerBandwidth(AsI32(GetU32(b[..4])), b[4]))
    else if |b| < 4 then None
    else
      var v := GetU32(b[..4]);
      match typeID
      case 1 => if v >= 0x8000_0000 || v == 0 then None else Some(SetChunkSize(v))
      case 2 => Some(Abort(v))
      case 3 => Some(Ack(v))
      case 5 => Some(WinAckSize(AsI32(v)))
      case _ => None
  }

  lemma {:induction false} EventRoundTrip(e: Event)
    ensures DecodeEvent(EncodeEvent(e)) == Some(e)
  {
    var b := EncodeEvent(e);
    if e.SetBufferLength? {
      assert b[..2] == PutU16(3) && b[2..6] == PutU32(e.streamID) && b[6..10] == PutU32(e.lengthMs);
      U32RoundTrip(e.streamID);
      U32RoundTrip(e.lengthMs);
    } else {
      var v := if e.PingRequest? || e.PingResponse? then e.timestamp else e.streamID;
      assert b[2..6] == PutU32(v);
      U32RoundTrip(v);
    }
  }

  lemma {:induction false} WordRoundTrip(m: ControlMessage, n: U32)
    requires (m.SetChunkSize? && m.chunkSize == n && ValidChunkSize(n)) || m == Abort(n) || m == Ack(n)
          || (m.WinAckSize? && n == AsU32(m.ackSize))
    ensures Encode(m) == Some(PutU32(n)) && Decode(TypeID(m), PutU32(n)) == Some(m)
  {
    assert PutU32(n)[..4] == PutU32(n);
    U32RoundTrip(n);
  }

  lemma {:induction false} BandwidthRoundTrip(n: I32, limit: Byte)
    ensures Decode(6, PutU32(AsU32(n)) + [limit]) == Some(SetPeerBandwidth(n, limit))
  {
    assert (PutU32(AsU32(n)) + [limit])[..4] == PutU32(AsU32(n));
    U32RoundTrip(AsU32(n));
  }

  /** Every message the encoder accepts comes back under its type id; it rejects exactly the chunk
      sizes the protocol has no code for. */
  lemma {:induction false} RoundTrip(m: ControlMessage)
    ensures Encode(m).None? <==> m.SetChunkSize? && !ValidChunkSize(m.chunkSize)
    ensures Encode(m).Some? ==> Decode(TypeID(m), Encode(m).value) == Some(m)
  {
    match m {
      case SetChunkSize(n) => if ValidChunkSize(n) { WordRoundTrip(m, n); }
      case Abort(n) => WordRoundTrip(m, n);
      case Ack(n) => WordRoundTrip(m, n);
      case WinAckSize(n) => WordRoundTrip(m, AsU32(n));
      case SetPeerBandwidth(n, limit) => BandwidthRoundTrip(n, limit);
      case UserCtrl(e) => EventRoundTrip(e);
      case Audio(_) =>
      case Video(_) =>
    }
  }

  lemma {:induction false} EventCanonical(b: seq<Byte>)
    requires DecodeEvent(b).Some?
    ensures EncodeEvent(DecodeEvent(b).value) <= b
  {
    assert PutU16(GetU16(b[..2])) == b[..2];
    PutAfterGet(b[2..6]);
    if DecodeEvent(b).value.SetBufferLength? {
      PutAfterGet(b[6..10]);
      assert b[..10] == b[..2] + b[2..6] + b[6..10];
    } else {
      assert b[..6] == b[..2] + b[2..6];
    }
  }

  /** Conversely, whatever decodes is the encoding of what it decodes to, up to ignored trailing bytes:
      no two encodings mean the same message. */
  lemma {:induction false} Canonical(typeID: Byte, b: seq<Byte>)
    requires Decode(typeID, b).Some?
    ensures var m := Decode(typeID, b).value;
            TypeID(m) == typeID && Encode(m).Some? && Encode(m).value <= b
  {
    var m := Decode(typeID, b).value;
    if m.UserCtrl? {
      EventCanonical(b);
    } else if !m.Audio? && !m.Video? {
      PutAfterGet(b[..4]);
      if m.SetPeerBandwidth? {
        assert b[..5] == b[..4] + [b[4]];
      }
    }
  }
}
