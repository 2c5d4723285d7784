/** The codec of the binary messages as the source runs it: buffers filled in place and written to the held
    writer, fields read one after the other from the held reader. */
module MessageIO {
  import opened Bytes
  import opened Control
  import opened HeaderIO

  /** The buffer of a chunk stream: writes append to it, reads take from its front. */
  class Buffer {
    var data: seq<Byte>

    constructor (data: seq<Byte>)
      ensures this.data == data
    {
      this.data := data;
    }

    method Write(b: seq<Byte>)
      modifies this
      ensures data == old(data) + b
    {
      data := data + b;
    }

    /** io.ReadAtLeast of n bytes into a buffer of n. */
    method ReadAtLeast(n: nat) returns (b: Option<seq<Byte>>)
      modifies this
      ensures |old(data)| < n ==> b == None && data == []
      ensures |old(data)| >= n ==> b == Some(old(data)[..n]) && data == old(data)[n..]
    {
      if |data| < n {
        data := [];
        return None;
      }
      b := Some(data[..n]);
      data := data[n..];
    }
  }

  /** A four-byte word. */
  method WriteWord(w: Buffer, x: U32)
    modifies w
    ensures w.data == old(w.data) + PutU32(x)
  {
    var buf := new Byte[4](_ => 0);
    Copy(buf, 0, PutU32(x));
    w.Write(buf[..]);
  }

  method ReadWord(r: Buffer) returns (x: Option<U32>)
    modifies r
    ensures |old(r.data)| < 4 ==> x == None
    ensures |old(r.data)| >= 4 ==> x == Some(GetU32(old(r.data)[..4])) && r.data == old(r.data)[4..]
  {
    var b := r.ReadAtLeast(4);
    x := if b.None? then None else Some(GetU32(b.value));
  }

  /** An event of one word. */
  method WriteEvent(w: Buffer, ty: nat, x: U32)
    requires ty < 0x1_0000
    modifies w
    ensures w.data == old(w.data) + (PutU16(ty) + PutU32(x))
  {
    var buf := new Byte[6](_ => 0);
    Copy(buf, 0, PutU16(ty));
    Copy(buf, 2, PutU32(x));
    assert buf[..] == PutU16(ty) + PutU32(x);
    w.Write(buf[..]);
  }

  /** UserControlEventEncoder.Encode */
  method EncodeEventTo(w: Buffer, e: Event)
    modifies w
    ensures w.data == old(w.data) + EncodeEvent(e)
  {
    match e
    case StreamBegin(id) => WriteEvent(w, 0, id);
    case StreamEOF(id) => WriteEvent(w, 1, id);
    case StreamDry(id) => WriteEvent(w, 2, id);
    case SetBufferLength(id, ms) =>
      var buf := new Byte[10](_ => 0);
      Copy(buf, 0, PutU16(3));
      Copy(buf, 2, PutU32(id));
      Copy(buf, 6, PutU32(ms));
      assert buf[..] == PutU16(3) + PutU32(id) + PutU32(ms);
      w.Write(buf[..]);
    case StreamIsRecorded(id) => WriteEvent(w, 4, id);
    case PingRequest(t) => WriteEvent(w, 6, t);
    case PingResponse(t) => WriteEvent(w, 7, t);
  }

  /** UserControlEventDecoder.Decode */
  method DecodeEventFrom(r: Buffer) returns (e: Option<Event>)
    modifies r
    ensures e == DecodeEvent(old(r.data))
  {
    ghost var b := r.data;
    var ty := r.ReadAtLeast(2);
    if ty.None? { return None; }
    var eventType := GetU16(ty.value);
    if eventType == 3 {
      var c := r.ReadAtLeast(8);
      if c.None? { return None; }
      assert c.value[..4] == b[2..6] && c.value[4..] == b[6..10];
      return Some(SetBufferLength(GetU32(c.value[..4]), GetU32(c.value[4..])));
    }
    if eventType > 7 || eventType == 5 { return None; }
    var v := ReadWord(r);
    if v.None? { return None; }
    assert b[2..][..4] == b[2..6];
    match eventType
    case 0 => e := Some(StreamBegin(v.value));
    case 1 => e := Some(StreamEOF(v.value));
    case 2 => e := Some(StreamDry(v.value));
    case 4 => e := Some(StreamIsRecorded(v.value));
    case 6 => e := Some(PingRequest(v.value));
    case _ => e := Some(PingResponse(v.value));
  }

  /** Encoder.Encode; false is its error, on which nothing is written. */
  method EncodeTo(w: Buffer, m: ControlMessage) returns (ok: bool)
    modifies w
    ensures ok <==> Encode(m).Some?
    ensures w.data == if ok then old(w.data) + Encode(m).value else old(w.data)
  {
    ok := true;
    match m
    case SetChunkSize(n) =>
      if n < 1 || n > 0x7fffffff { return false; }
      WriteWord(w, n % 0x8000_0000);
    case Abort(id) => WriteWord(w, id);
    case Ack(n) => WriteWord(w, n);
    case UserCtrl(e) => EncodeEventTo(w, e);
    case WinAckSize(n) => WriteWord(w, AsU32(n));
    case SetPeerBandwidth(n, limit) =>
      var buf := new Byte[5](_ => 0);
      Copy(buf, 0, PutU32(AsU32(n)));
      buf[4] := limit;
      assert buf[..] == PutU32(AsU32(n)) + [limit];
      w.Write(buf[..]);
    case Audio(p) => w.Write(p);
    case Video(p) => w.Write(p);
  }

  /** Decoder.Decode; a media message shares the reader, so its payload is all that is left. */
  method DecodeFrom(r: Buffer, typeID: Byte) returns (m: Option<ControlMessage>)
    modifies r
    ensures m == Decode(typeID, old(r.data))
  {
    m := None;
    if typeID == SET_CHUNK_SIZE {
      var total := ReadWord(r);
      if total.None? || total.value / 0x8000_0000 != 0 || total.value % 0x8000_0000 == 0 { return None; }
      m := Some(SetChunkSize(total.value));
    } else if typeID == 2 {
      var v := ReadWord(r);
      if v.Some? { m := Some(Abort(v.value)); }
    } else if typeID == 3 {
      var v := ReadWord(r);
      if v.Some? { m := Some(Ack(v.value)); }
    } else if typeID == 4 {
      var e := DecodeEventFrom(r);
      if e.Some? { m := Some(UserCtrl(e.value)); }
    } else if typeID == 5 {
      var v := ReadWord(r);
      if v.Some? { m := Some(WinAckSize(AsI32(v.value))); }
    } else if typeID == 6 {
      var b := r.ReadAtLeast(5);
      if b.Some? {
        assert b.value[..4] == old(r.data)[..4];
        m := Some(SetPeerBandwidth(AsI32(GetU32(b.value[..4])), b.value[4]));
      }
    } else if typeID == 8 {
      m := Some(Audio(r.data));
    } else if typeID == 9 {
      m := Some(Video(r.data));
    }
  }
}
