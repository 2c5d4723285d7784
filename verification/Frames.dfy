/** The messaging client: its frames, and the receive buffer that Cutting describes. */
module Frames {
  import opened Bytes
  import opened Cutting

  type I64 = x: int | -0x8000_0000_0000_0000 <= x < 0x8000_0000_0000_0000

  /** protocol.go; the timestamp is in milliseconds since the epoch. */
  datatype Frame = Frame(frameType: Byte, payload: seq<Byte>, sequenceNumber: U64, timestamp: I64)

  /** int64 to uint64 and back, as Go converts them. */
  function AsU64(x: I64): U64 {
    if x < 0 then x + 0x1_0000_0000_0000_0000 else x
  }

  function AsI64(x: U64): I64 {
    if x < 0x8000_0000_0000_0000 then x else x - 0x1_0000_0000_0000_0000
  }

  /** int64 addition wraps around. */
  function AddI64(a: I64, b: I64): I64 {
    if a + b >= 0x8000_0000_0000_0000 then a + b - 0x1_0000_0000_0000_0000
    else if a + b < -0x8000_0000_0000_0000 then a + b + 0x1_0000_0000_0000_0000
    else a + b
  }

  /** Payloads that the length field describes rightly. */
  predicate Describable(f: Frame) {
    |f.payload| < 0x8000_0000_0000_0000 - HEADER_SIZE
  }

  function Encode(f: Frame): seq<Byte> {
    [f.frameType] + PutU64(f.sequenceNumber) + PutU64(AsU64(f.timestamp))
    + PutU64(|f.payload| % 0x1_0000_0000_0000_0000) + f.payload
  }

  /** What the header's length field makes processBuffer take for the size of the whole frame. */
  function TotalSize(b: seq<Byte>): I64
    requires |b| >= HEADER_SIZE
  {
    AddI64(HEADER_SIZE, AsI64(U64At(b, 17)))
  }

  /** DecodeFrame. It panics when the length field is beyond what a slice can have. */
  datatype Decoding = Decoded(frame: Frame) | TooShort | Incomplete | Panic

  function Decode(b: seq<Byte>): Decoding {
    if |b| < HEADER_SIZE then TooShort
    else if |b| < TotalSize(b) then Incomplete
    else if TotalSize(b) < HEADER_SIZE then Panic
    else Decoded(Frame(b[0], b[25..TotalSize(b)], U64At(b, 1), AsI64(U64At(b, 9))))
  }

  /** The format that processBuffer cuts. It decodes no bytes that would make DecodeFrame panic. */
  const MESSAGING: Format<Frame> := Format(
    b => if |b| >= HEADER_SIZE then TotalSize(b) else 0,
    b => if Decode(b).Decoded? then Some(Decode(b).frame) else None,
    Encode)

  //
  // The codec
  //

  lemma FieldAt(pre: seq<Byte>, x: U64, post: seq<Byte>)
    ensures U64At(pre + PutU64(x) + post, |pre|) == x
  {
    assert Power(8) == 0x1_0000_0000_0000_0000;
    GetAfterPut(x, 8);
    assert (pre + PutU64(x) + post)[|pre|..|pre| + 8] == PutU64(x);
  }

  lemma Fields(f: Frame)
    ensures var b := Encode(f);
            && U64At(b, 1) == f.sequenceNumber && U64At(b, 9) == AsU64(f.timestamp)
            && U64At(b, 17) == |f.payload| % 0x1_0000_0000_0000_0000
  {
    var t, s, ts, n := [f.frameType], f.sequenceNumber, AsU64(f.timestamp), |f.payload| % 0x1_0000_0000_0000_0000;
    var b := Encode(f);
    FieldAt(t, s, PutU64(ts) + PutU64(n) + f.payload);
    assert b == t + PutU64(s) + (PutU64(ts) + PutU64(n) + f.payload);
    FieldAt(t + PutU64(s), ts, PutU64(n) + f.payload);
    assert b == t + PutU64(s) + PutU64(ts) + (PutU64(n) + f.payload);
    FieldAt(t + PutU64(s) + PutU64(ts), n, f.payload);
  }

  lemma FrameRoundTrip(f: Frame)
    requires Describable(f)
    ensures Decode(Encode(f)) == Decoded(f) && TotalSize(Encode(f)) == |Encode(f)|
  {
    Fields(f);
    assert Encode(f)[25..] == f.payload;
  }

  /** Conversely, bytes that decode are the encoding of the frame they decode to, up to what follows it. */
  lemma FrameCanonical(b: seq<Byte>)
    requires Decode(b).Decoded?
    ensures Describable(Decode(b).frame) && Encode(Decode(b).frame) == b[..TotalSize(b)]
  {
    PutAfterGetWord(b[1..9]);
    PutAfterGetWord(b[9..17]);
    PutAfterGetWord(b[17..25]);
    LengthField(U64At(b, 17));
    assert b[..TotalSize(b)] == [b[0]] + b[1..9] + b[9..17] + b[17..25] + b[25..TotalSize(b)];
  }

  /** When the length field makes sense. */
  lemma LengthField(n: U64)
    ensures AddI64(HEADER_SIZE, AsI64(n)) >= HEADER_SIZE <==> n < 0x8000_0000_0000_0000 - HEADER_SIZE
    ensures n < 0x8000_0000_0000_0000 - HEADER_SIZE ==> AddI64(HEADER_SIZE, AsI64(n)) == n + HEADER_SIZE
    ensures AddI64(HEADER_SIZE, AsI64(n)) < 0 <==>
              0x8000_0000_0000_0000 - HEADER_SIZE <= n < 0x1_0000_0000_0000_0000 - HEADER_SIZE
  {
  }

  lemma Messaging()
    ensures SizedByHeader(MESSAGING)
  {
    forall a: seq<Byte>, b | |a| >= HEADER_SIZE ensures MESSAGING.size(a + b) == MESSAGING.size(a) {
      assert (a + b)[17..25] == a[17..25];
    }
  }

  /** A splitting of arbitrary bytes into reads makes no difference. */
  lemma ReadsDoNotMatter(pieces: seq<seq<Byte>>)
    ensures Agrees(Receive(MESSAGING, Parsed([], [], Waiting), pieces), Cut(MESSAGING, Joined(pieces)))
  {
    Messaging();
    ReadBoundaries(MESSAGING, Parsed([], [], Waiting), pieces);
    assert [] + Joined(pieces) == Joined(pieces);
  }

  /** Whatever frames are sent, in whatever pieces they arrive, and up to whatever point: handed over are
      exactly those that arrived whole, in order, and what waits is a strict prefix of the next. */
  lemma {:induction false} FramesDelivered(fs: seq<Frame>, pieces: seq<seq<Byte>>) returns (k: nat)
    requires (forall f :: f in fs ==> Describable(f)) && Joined(pieces) <= EncodeAll(MESSAGING, fs)
    ensures k <= |fs|
    ensures var r := Receive(MESSAGING, Parsed([], [], Waiting), pieces);
            && r.frames == fs[..k] && r.ending == Waiting && EncodeAll(MESSAGING, fs[..k]) + r.rest == Joined(pieces)
            && (r.rest == [] || (k < |fs| && r.rest < Encode(fs[k])))
            && (Joined(pieces) == EncodeAll(MESSAGING, fs) ==> k == |fs| && r.rest == [])
  {
    Messaging();
    forall f | f in fs ensures Transfers(MESSAGING, f) { FrameRoundTrip(f); }
    k := FramesArrive(MESSAGING, fs, pieces);
  }

  //
  // Length fields that no encoding has
  //

  /** The length fields that make the size of the frame negative. */
  predicate Overflows(n: U64) {
    0x8000_0000_0000_0000 - HEADER_SIZE <= n < 0x1_0000_0000_0000_0000 - HEADER_SIZE
  }

  /** The one that makes it zero. */
  const VANISHES: U64 := 0x1_0000_0000_0000_0000 - HEADER_SIZE

  /** Whatever 25 bytes follow frames that were encoded, and whatever follows them: processBuffer panics at them
      exactly if their length field is from 2^63-25 to 2^64-26, and loops there forever exactly if it is 2^64-25. */
  lemma BadLengths(fs: seq<Frame>, head: seq<Byte>, tail: seq<Byte>)
    requires |head| == HEADER_SIZE && forall f :: f in fs ==> Describable(f)
    ensures var p, n := Cut(MESSAGING, EncodeAll(MESSAGING, fs) + (head + tail)), U64At(head, 17);
            && (p == Parsed(fs, head + tail, Crashed) <==> Overflows(n))
            && (p == Parsed(fs, head + tail, Spinning) <==> n == VANISHES)
  {
    Messaging();
    forall f | f in fs ensures Transfers(MESSAGING, f) { FrameRoundTrip(f); }
    CutFrames(MESSAGING, fs, head + tail);
    assert fs + [] == fs;
    LengthField(U64At(head, 17));
    SizeIs(head, tail);
    StopsAtOnce(head + tail, fs);
  }

  lemma SizeIs(head: seq<Byte>, tail: seq<Byte>)
    requires |head| == HEADER_SIZE
    ensures MESSAGING.size(head + tail) == AddI64(HEADER_SIZE, AsI64(U64At(head, 17)))
  {
    assert (head + tail)[17..25] == head[17..25];
  }

  /** A buffer that is processed without taking anything off. */
  lemma StopsAtOnce(b: seq<Byte>, fs: seq<Frame>)
    requires |b| >= HEADER_SIZE
    ensures var p := Prepend(fs, Cut(MESSAGING, b));
            && (p == Parsed(fs, b, Crashed) <==> MESSAGING.size(b) < 0)
            && (p == Parsed(fs, b, Spinning) <==> MESSAGING.size(b) == 0)
  {
    if Moves(MESSAGING, b) {
      var e := EndExists(MESSAGING, b);
      EndIs(MESSAGING, b, e);
      assert e > 0 by { assert b[0..] == b; }
    } else {
      assert fs + [] == fs;
    }
  }

  /** An arbitrary buffer: it waits for more exactly if no header that processing comes to has such a length field. */
  lemma AnyBuffer(b: seq<Byte>)
    ensures var ending := Cut(MESSAGING, b).ending;
            && (ending == Crashed <==> exists k: nat :: ComesTo(MESSAGING, b, k) && Overflows(U64At(b[k..], 17)))
            && (ending == Spinning <==> exists k: nat :: ComesTo(MESSAGING, b, k) && U64At(b[k..], 17) == VANISHES)
            && (ending == Waiting <==>
                  forall k: nat :: ComesTo(MESSAGING, b, k) ==>
                    !Overflows(U64At(b[k..], 17)) && U64At(b[k..], 17) != VANISHES)
  {
    EndsIff(MESSAGING, b);
    forall k: nat | ComesTo(MESSAGING, b, k)
      ensures MESSAGING.size(b[k..]) == AddI64(HEADER_SIZE, AsI64(U64At(b[k..], 17)))
    {
      LengthField(U64At(b[k..], 17));
    }
  }

  /** EncodeFrame, appending field after field. */
  method EncodeFrame(f: Frame) returns (data: seq<Byte>)
    ensures data == Encode(f)
  {
    data := [f.frameType];
    data := data + PutU64(f.sequenceNumber);
    data := data + PutU64(AsU64(f.timestamp));
    data := data + PutU64(|f.payload| % 0x1_0000_0000_0000_0000);
    data := data + f.payload;
  }

  /** DecodeFrame, with its running offset. */
  method DecodeFrame(data: seq<Byte>) returns (d: Decoding)
    ensures d == Decode(data)
  {
    if |data| < HEADER_SIZE { return TooShort; }
    var offset := 0;
    var frameType := data[offset];
    offset := offset + 1;
    var sequenceNumber := U64At(data, offset);
    offset := offset + 8;
    var timestamp := AsI64(U64At(data, offset));
    offset := offset + 8;
    var payloadSize := U64At(data, offset);
    offset := offset + 8;
    var end := AddI64(offset, AsI64(payloadSize));
    if |data| < end { return Incomplete; }
    if end < offset { return Panic; }
    d := Decoded(Frame(frameType, data[offset..end], sequenceNumber, timestamp));
  }

  /** One turn of processBuffer's loop. */
  lemma {:induction false} Turn(handled: seq<Frame>, b: seq<Byte>)
    ensures var p := Prepend(handled, Cut(MESSAGING, b));
            if |b| < HEADER_SIZE || |b| < TotalSize(b) then p == Parsed(handled, b, Waiting)
            else if TotalSize(b) < 0 then p == Parsed(handled, b, Crashed)
            else if TotalSize(b) == 0 then p == Parsed(handled, b, Spinning)
            else
              var d := Decode(b[..TotalSize(b)]);
              p == Prepend(if d.Decoded? then handled + [d.frame] else handled, Cut(MESSAGING, b[TotalSize(b)..]))
  {
    assert handled + [] == handled;
    if |b| >= HEADER_SIZE && 0 < TotalSize(b) <= |b| {
      var d := Decode(b[..TotalSize(b)]);
      PrependTwice(handled, if d.Decoded? then [d.frame] else [], Cut(MESSAGING, b[TotalSize(b)..]));
    }
  }

  /** The part of client.go that receives, and the numbering of what it sends. */
  class Client {
    var receiveBuffer: seq<Byte>
    var handled: seq<Frame>
    var sequenceNum: U64

    constructor ()
      ensures receiveBuffer == [] && handled == [] && sequenceNum == 0
    {
      receiveBuffer, handled, sequenceNum := [], [], 0;
    }

    /** processBuffer. The endless loop of an empty frame is told instead of entered. */
    method ProcessBuffer() returns (ending: Ending)
      modifies this`receiveBuffer, this`handled
      ensures Parsed(handled, receiveBuffer, ending) == Prepend(old(handled), Cut(MESSAGING, old(receiveBuffer)))
    {
      ghost var goal := Prepend(handled, Cut(MESSAGING, receiveBuffer));
      while |receiveBuffer| >= HEADER_SIZE
        invariant Prepend(handled, Cut(MESSAGING, receiveBuffer)) == goal
        decreases |receiveBuffer|
      {
        var payloadSize := U64At(receiveBuffer, 17);
        var totalFrameSize := AddI64(HEADER_SIZE, AsI64(payloadSize));
        Turn(handled, receiveBuffer);
        if |receiveBuffer| < totalFrameSize { return Waiting; }
        if totalFrameSize < 0 { return Crashed; }
        if totalFrameSize == 0 { return Spinning; }
        var frameData := receiveBuffer[..totalFrameSize];
        receiveBuffer := receiveBuffer[totalFrameSize..];
        var d := DecodeFrame(frameData);
        if d.Decoded? { handled := handled + [d.frame]; }
      }
      Turn(handled, receiveBuffer);
      ending := Waiting;
    }

    /** receiveLoop over what the reads deliver, until a crash or an endless loop. */
    method ReceiveLoop(pieces: seq<seq<Byte>>) returns (ending: Ending)
      modifies this`receiveBuffer, this`handled
      ensures Parsed(handled, receiveBuffer, ending) ==
              Receive(MESSAGING, Parsed(old(handled), old(receiveBuffer), Waiting), pieces)
    {
      ghost var goal := Receive(MESSAGING, Parsed(handled, receiveBuffer, Waiting), pieces);
      ending := Waiting;
      var n := 0;
      while n < |pieces| && ending == Waiting
        invariant 0 <= n <= |pieces|
        invariant Receive(MESSAGING, Parsed(handled, receiveBuffer, ending), pieces[n..]) == goal
      {
        assert pieces[n..][1..] == pieces[n + 1..];
        receiveBuffer := receiveBuffer + pieces[n];
        ending := ProcessBuffer();
        n := n + 1;
      }
    }

    /** Send: the bytes of the next frame. */
    method Send(frameType: Byte, payload: seq<Byte>, now: I64) returns (data: seq<Byte>)
      modifies this`sequenceNum
      ensures data == Encode(Frame(frameType, payload, old(sequenceNum), now))
      ensures sequenceNum == if old(sequenceNum) == 0xffff_ffff_ffff_ffff then 0 else old(sequenceNum) + 1
    {
      var frame := Frame(frameType, payload, sequenceNum, now);
      sequenceNum := if sequenceNum == 0xffff_ffff_ffff_ffff then 0 else sequenceNum + 1;
      data := EncodeFrame(frame);
    }
  }
}
