/** The reading half of ChunkStreamer as the source writes it: one object per chunk stream, updated in
    place; each method is tied to the functions of Receiving and Acknowledging. */
module ReadSide {
  import opened Bytes
  import opened ChunkHeader
  import opened ChunkStream
  import opened HeaderIO
  import opened Receiving
  import opened Acknowledging
  import opened ControlState
  import Control

  /** chunk_stream_reader.go */
  class ChunkStreamReader {
    var timestamp: U32
    var timestampDelta: U32
    var messageLength: U32
    var messageTypeID: Byte
    var messageStreamID: U32
    var buf: Payload
    var completed: bool

    constructor ()
      ensures View() == FRESH_READER
    {
      timestamp, timestampDelta, messageLength, messageTypeID, messageStreamID := 0, 0, 0, 0, 0;
      buf, completed := [], false;
    }

    function View(): ReaderMem
      reads this
    {
      ReaderMem(timestamp, timestampDelta, messageLength, messageTypeID, messageStreamID, buf, completed)
    }

    /** The part of readChunk that enters a chunk's headers into the reader. */
    method Enter(fmt: Fmt, mh: MsgHeader)
      modifies this
      ensures View() == Absorb(old(View()), fmt, mh)
    {
      if completed {
        buf := [];
        completed := false;
      }
      if fmt == 0 {
        timestamp := mh.timestamp;
        timestampDelta := 0;
        messageLength := mh.messageLength;
        messageTypeID := mh.messageTypeID;
        messageStreamID := mh.messageStreamID;
      } else if fmt == 1 {
        timestampDelta := mh.timestampDelta;
        messageLength := mh.messageLength;
        messageTypeID := mh.messageTypeID;
      } else if fmt == 2 {
        timestampDelta := mh.timestampDelta;
      }
    }

    /** The part of readChunk that reads the payload; false is its panic. */
    method ReadPayload(r: ChunkStreamerReader, chunkSize: U32) returns (ok: bool)
      modifies this, r
      ensures var f := Fill(old(View()), old(r.input), chunkSize);
              && (ok <==> f.Some?)
              && (ok ==> View() == f.value.value)
              && r.input == if ok then f.value.rest else old(r.input)
      ensures r.Since(old(r.Counters()), old(r.input))
    {
      var expectLen: int := messageLength - |buf|;
      if expectLen <= 0 { return false; }
      if expectLen > chunkSize { expectLen := chunkSize; }
      var b := r.ReadFull(expectLen);
      buf := buf + b;
      if messageLength - |buf| == 0 {
        timestamp := AddU32(timestamp, timestampDelta);
        completed := true;
      }
      ok := true;
    }
  }

  datatype ChunkOutcome = Chunk(id: int) | NoChunk(reason: Failure)

  /** The outcome of reading a chunk, and what it leaves, are what the specification says. */
  ghost predicate Answers(d: Read, res: ChunkOutcome, R: Receiver, rest: seq<Byte>) {
    && rest == d.rest
    && if d.Got? then res == Chunk(d.chunkStreamID) && R == d.receiver else res == NoChunk(d.reason)
  }

  lemma DecodedSome(R: Receiver, over: nat -> nat, input: seq<Byte>, h: Option<Headers>, rest: seq<Byte>)
    requires DecodesAsSource(R.decode, over) && Decodes(DecodeHeaders(input, over(|input|)), h, rest)
    ensures Decodes(R.decode(input), h, rest) && (h.Some? ==> |rest| < |input|)
  {
    assert Unread(input);
  }

  lemma ReadChunkIs(R: Receiver, over: nat -> nat, input: seq<Byte>, h: Option<Headers>, rest: seq<Byte>)
    requires DecodesAsSource(R.decode, over) && Decodes(DecodeHeaders(input, over(|input|)), h, rest)
    ensures Receiving.ReadChunk(R, input) ==
            if h.None? then Failed(EndOfInput, []) else ReadBody(R, h.value.basic, h.value.message, rest)
  {
    DecodedSome(R, over, input, h, rest);
  }

  /** The two ways in which readChunk goes on after the headers. */
  lemma BodyRefused(R: Receiver, h: BasicHeader, mh: MsgHeader, input: seq<Byte>, R': Receiver)
    requires h.chunkStreamID !in R.readers && |R.readers| >= R.maxStreams
    ensures Answers(ReadBody(R, h, mh, input), NoChunk(TooManyChunkStreams), R', input)
  {
  }

  lemma BodyRead(R: Receiver, h: BasicHeader, mh: MsgHeader, input: seq<Byte>, f: Option<Decoded<ReaderMem>>,
                 R': Receiver, rest: seq<Byte>)
    requires h.chunkStreamID in R.readers || |R.readers| < R.maxStreams
    requires f == Fill(Absorb(ReaderOf(R, h.chunkStreamID), h.fmt, mh), input, R.chunkSize)
    requires f.Some? ==> R' == R.(readers := R.readers[h.chunkStreamID := f.value.value])
    requires rest == if f.Some? then f.value.rest else input
    ensures var res := if f.Some? then Chunk(h.chunkStreamID) else NoChunk(NothingToRead);
            Answers(ReadBody(R, h, mh, input), res, R', rest)
  {
  }

  /** Reading has gone from one state to another, and the counters with it: AfterChunk if a chunk was read. */
  ghost predicate OneRound(R: Receiver, a: AckState, input: seq<Byte>, res: ChunkOutcome,
                           R': Receiver, a': AckState, rest: seq<Byte>)
  {
    && Answers(Receiving.ReadChunk(R, input), res, R', rest) && |rest| <= |input|
    && a' == if res.Chunk? then AfterChunk(a, |input| - |rest|, R.window) else Later(a, |input| - |rest|)
  }

  /** One round of NewChunkReader. */
  lemma NextMessageIs(R: Receiver, a: AckState, input: seq<Byte>, res: ChunkOutcome, R': Receiver, a': AckState,
                      rest: seq<Byte>)
    requires OneRound(R, a, input, res, R', a', rest)
    ensures res.Chunk? ==> res.id in R'.readers && |rest| < |input|
    ensures NextMessage(R, a, input) ==
            if res.NoChunk? then Broken(res.reason, a', rest)
            else if R'.readers[res.id].completed then Complete(R', a', res.id, rest) else NextMessage(R', a', rest)
  {
    var d := Receiving.ReadChunk(R, input);
    if d.Failed? {
      assert res == NoChunk(d.reason) && rest == d.rest;
    } else {
      assert res == Chunk(d.chunkStreamID) && R' == d.receiver && rest == d.rest;
    }
  }

  datatype Delivery = More(parcel: Parcel) | Last(parcel: Parcel) | Nothing

  /** The whole session delivers `got`, then what `res` says, then what comes after it in the given state; that is
      nothing when it ends here. */
  ghost predicate Delivers(all: Session, got: seq<Parcel>, res: Delivery, R: Receiver, a: AckState, rest: seq<Byte>) {
    if res.More? then all == WholeSession(R, got + [res.parcel], a, rest)
    else
      && all.reading.got == (if res.Last? then got + [res.parcel] else got)
      && all.acks == a && all.rest == rest
  }

  /** Handling the message that NewChunkReader has returned is one delivery of the session. */
  lemma NextDelivery(R: Receiver, got: seq<Parcel>, a: AckState, input: seq<Byte>, m: MessageRead, res: Delivery,
                     R': Receiver)
    requires m == NextMessage(R, a, input) && m.Complete?
    requires var held := Held(m.receiver.readers[m.chunkStreamID]);
             var d := Dispatch(m.receiver, held);
             && res == (if d.Some? then More(Parcel(m.chunkStreamID, held)) else Last(Parcel(m.chunkStreamID, held)))
             && (d.Some? ==> R' == d.value)
    ensures Delivers(WholeSession(R, got, a, input), got, res, R', m.acks, m.rest) && |m.rest| < |input|
  {
    MessageByMessage(R, got, a, input);
  }

  /** The fields of ChunkStreamer that reading uses. `model` is the state of Receiving that they stand for. */
  class ReadSide {
    const r: ChunkStreamerReader
    const peerState: StreamControlState
    const maxChunkStreams: int
    const amf: AmfReader
    var readers: map<int, ChunkStreamReader>
    var acks: seq<U32>
    ghost var repr: set<ChunkStreamReader>
    ghost var model: Receiver

    constructor (r: ChunkStreamerReader, peerState: StreamControlState, maxChunkStreams: int, amf: AmfReader)
      ensures Valid() && fresh(repr) && this.r == r && this.peerState == peerState && acks == []
      ensures model ==
              Receiver(map[], peerState.chunkSize, peerState.ackWindowSize, peerState.maxChunkSize,
                       peerState.maxAckWindowSize, maxChunkStreams, SourceDecoder(r.over), amf)
    {
      this.r, this.peerState, this.maxChunkStreams, this.amf := r, peerState, maxChunkStreams, amf;
      readers, acks, repr := map[], [], {};
      model := Receiver(map[], peerState.chunkSize, peerState.ackWindowSize, peerState.maxChunkSize,
                        peerState.maxAckWindowSize, maxChunkStreams, SourceDecoder(r.over), amf);
    }

    ghost predicate Valid()
      reads this, peerState, repr
    {
      && readers.Keys == model.readers.Keys
      && (forall k :: k in readers ==> readers[k] in repr && readers[k].View() == model.readers[k])
      && TableValid()
    }

    /** Valid, but for the entry of one chunk stream, which the model may lack. */
    ghost predicate ValidBut(id: int)
      reads this, peerState, repr
    {
      && readers.Keys == model.readers.Keys + {id}
      && (forall k :: k in readers && k != id ==> readers[k] in repr && readers[k].View() == model.readers[k])
      && TableValid()
    }

    ghost predicate TableValid()
      reads this, peerState
    {
      && (forall k :: k in readers ==> readers[k] in repr)
      && (forall a, b :: a in readers && b in readers && a != b ==> readers[a] != readers[b])
      && model == Receiver(model.readers, peerState.chunkSize, peerState.ackWindowSize, peerState.maxChunkSize,
                           peerState.maxAckWindowSize, maxChunkStreams, model.decode, amf)
      && DecodesAsSource(model.decode, r.over)
    }

    function Acks(): AckState
      reads this`acks, r
    {
      AckState(r.Counters(), acks)
    }

    /** prepareChunkReader; null when the limit is exceeded. */
    method PrepareChunkReader(id: int) returns (reader: ChunkStreamReader?)
      requires Valid()
      modifies this`readers, this`repr
      ensures reader == null <==> id !in model.readers && |model.readers| >= maxChunkStreams
      ensures reader == null ==> Valid() && readers == old(readers) && repr == old(repr)
      ensures reader != null ==>
                && ValidBut(id) && id in readers && readers[id] == reader && reader.View() == ReaderOf(model, id)
                && reader in repr && fresh(repr - old(repr))
    {
      assert |readers| == |readers.Keys| && |model.readers| == |model.readers.Keys|;
      if id !in readers {
        if |readers| >= maxChunkStreams { return null; }
        reader := AddReader(id);
      } else {
        reader := readers[id];
      }
    }

    /** The part of prepareChunkReader that puts a new reader into the table. */
    method AddReader(id: int) returns (reader: ChunkStreamReader)
      requires Valid() && id !in readers
      modifies this`readers, this`repr
      ensures fresh(reader) && ValidBut(id) && id in readers && readers[id] == reader && reader.View() == FRESH_READER
      ensures repr == old(repr) + {reader}
    {
      reader := new ChunkStreamReader();
      readers := readers[id := reader];
      repr := repr + {reader};
    }

    /** readChunk once its reader is prepared: the headers are entered and the payload is read. */
    method ReceiveInto(reader: ChunkStreamReader, id: int, fmt: Fmt, mh: MsgHeader)
      returns (ok: bool, ghost f: Option<Decoded<ReaderMem>>)
      requires id in readers && readers[id] == reader && reader.View() == ReaderOf(model, id)
      requires ValidBut(id)
      modifies r, this`model, reader
      ensures Valid()
      ensures f == Fill(Absorb(ReaderOf(old(model), id), fmt, mh), old(r.input), peerState.chunkSize)
      ensures && (ok <==> f.Some?)
              && (ok ==> model == old(model).(readers := old(model).readers[id := f.value.value]))
              && r.input == if ok then f.value.rest else old(r.input)
      ensures r.Since(old(r.Counters()), old(r.input))
    {
      f := Fill(Absorb(ReaderOf(model, id), fmt, mh), r.input, peerState.chunkSize);
      reader.Enter(fmt, mh);
      ok := reader.ReadPayload(r, peerState.chunkSize);
      model := model.(readers := model.readers[id := reader.View()]);
    }

    /** readChunk from prepareChunkReader on. */
    method ReadChunkBody(bh: BasicHeader, mh: MsgHeader) returns (res: ChunkOutcome)
      requires Valid()
      modifies r, this`readers, this`repr, this`model, repr
      ensures Valid() && fresh(repr - old(repr))
      ensures Answers(ReadBody(old(model), bh, mh, old(r.input)), res, model, r.input)
      ensures r.Since(old(r.Counters()), old(r.input))
    {
      ghost var R, input, t := model, r.input, r.Counters();
      assert r.Since(t, input);
      var id := bh.chunkStreamID;
      var reader := PrepareChunkReader(id);
      if reader == null {
        BodyRefused(R, bh, mh, input, model);
        return NoChunk(TooManyChunkStreams);
      }
      var ok;
      ghost var f;
      ok, f := ReceiveInto(reader, id, bh.fmt, mh);
      BodyRead(R, bh, mh, input, f, model, r.input);
      res := if ok then Chunk(id) else NoChunk(NothingToRead);
    }

    /** readChunk */
    method ReadChunk() returns (res: ChunkOutcome)
      requires Valid()
      modifies r, this`readers, this`repr, this`model, repr
      ensures Valid() && fresh(repr - old(repr))
      ensures Answers(Receiving.ReadChunk(old(model), old(r.input)), res, model, r.input)
      ensures r.Since(old(r.Counters()), old(r.input))
    {
      ghost var R, input, t := model, r.input, r.Counters();
      var h := ReadHeaders(r);
      ghost var tail := r.input;
      if h.None? {
        res := NoChunk(EndOfInput);
      } else {
        res := ReadChunkBody(h.value.basic, h.value.message);
        r.SinceThen(t, input, tail);
      }
      ReadChunkIs(R, r.over, input, h, tail);
    }

    /** The check of NewChunkReader after every chunk. */
    method Acknowledge()
      modifies r`fragmentReadBytes, this`acks
      ensures Acks() == AckCheck(old(Acks()), peerState.ackWindowSize)
      ensures peerState.ackWindowSize >= 0 ==>
                if old(r.fragmentReadBytes) >= peerState.ackWindowSize / 2
                then acks == old(acks) + [r.totalReadBytes] && r.fragmentReadBytes == 0
                else acks == old(acks) && r.fragmentReadBytes == old(r.fragmentReadBytes)
    {
      var w: int := peerState.ackWindowSize;
      var half := if w < 0 then -((-w) / 2) else w / 2;
      if r.fragmentReadBytes >= AsU32(half) {
        acks := acks + [r.totalReadBytes];
        r.ResetFragmentReadBytes();
      }
    }

    /** One round of NewChunkReader: a chunk and the acknowledgement check. */
    method ReadAndAcknowledge() returns (res: ChunkOutcome)
      requires Valid()
      modifies r, this`readers, this`repr, this`model, this`acks, repr
      ensures Valid() && fresh(repr - old(repr))
      ensures OneRound(old(model), old(Acks()), old(r.input), res, model, Acks(), r.input)
    {
      res := ReadChunk();
      if res.Chunk? { Acknowledge(); }
    }

    /** NewChunkReader: reads chunks until a message is complete, acknowledging on the way. */
    method NewChunkReader() returns (res: ChunkOutcome)
      requires Valid()
      modifies r, this`readers, this`repr, this`model, this`acks, repr
      ensures Valid() && fresh(repr - old(repr))
      ensures ReadOn(NextMessage(old(model), old(Acks()), old(r.input)), res)
    {
      ghost var goal := NextMessage(model, Acks(), r.input);
      while true
        invariant Valid() && fresh(repr - old(repr))
        invariant NextMessage(model, Acks(), r.input) == goal
        decreases |r.input|
      {
        ghost var R, a, input := model, Acks(), r.input;
        res := ReadAndAcknowledge();
        NextMessageIs(R, a, input, res, model, Acks(), r.input);
        if res.NoChunk? { return; }
        assert res.id in readers.Keys;
        if readers[res.id].completed { return; }
      }
    }

    /** The state is what `m` says, and the outcome too. */
    ghost predicate ReadOn(m: MessageRead, res: ChunkOutcome)
      reads this, r
    {
      && Acks() == m.acks && r.input == m.rest
      && if m.Complete? then res == Chunk(m.chunkStreamID) && model == m.receiver else res == NoChunk(m.reason)
    }

    /** ChunkStreamer.Read up to the decoding: the next message and its chunk stream. */
    method Read() returns (p: Option<Parcel>)
      requires Valid()
      modifies r, this`readers, this`repr, this`model, this`acks, repr
      ensures Valid() && fresh(repr - old(repr))
      ensures Hands(NextMessage(old(model), old(Acks()), old(r.input)), p)
    {
      var c := NewChunkReader();
      if c.NoChunk? { return None; }
      assert c.id in readers.Keys;
      p := Some(Parcel(c.id, Held(readers[c.id].View())));
    }

    /** The state is what `m` says, and the message too. */
    ghost predicate Hands(m: MessageRead, p: Option<Parcel>)
      reads this, r
    {
      && Acks() == m.acks && r.input == m.rest
      && if m.Broken? then p == None
         else
           && m.chunkStreamID in m.receiver.readers && model == m.receiver
           && p == Some(Parcel(m.chunkStreamID, Held(m.receiver.readers[m.chunkStreamID])))
    }

    /** The decoding of a message, and its handling by a handler that refuses nothing: two messages change the reading
        state. */
    method Handle(m: Message) returns (ok: bool)
      requires Valid()
      modifies peerState, this`model
      ensures Valid()
      ensures ok == Dispatch(old(model), m).Some?
      ensures model == if ok then Dispatch(old(model), m).value else old(model)
    {
      if m.typeID == Control.DATA_AMF0 || m.typeID == Control.COMMAND_AMF0 {
        ok := amf(m.typeID, m.payload);
      } else {
        var c := Control.Decode(m.typeID, m.payload);
        ok := c.Some?;
        if ok && m.typeID == Control.SET_CHUNK_SIZE {
          ok := peerState.SetChunkSize(c.value.chunkSize);
        } else if ok && m.typeID == Control.WIN_ACK_SIZE {
          ok := peerState.SetAckWindowSize(c.value.ackSize);
        }
        model := model.(chunkSize := peerState.chunkSize, window := peerState.ackWindowSize);
      }
    }

    /** The peer's state was changed by the connection's handlers. */
    ghost method FollowPeer()
      requires ValidBefore(model.chunkSize, model.window)
      modifies this`model
      ensures Valid() && model == old(model).(chunkSize := peerState.chunkSize, window := peerState.ackWindowSize)
    {
      model := model.(chunkSize := peerState.chunkSize, window := peerState.ackWindowSize);
    }

    /** Valid, when the peer's state was this. */
    ghost predicate ValidBefore(chunkSize: U32, window: I32)
      reads this, peerState, repr
    {
      && readers.Keys == model.readers.Keys
      && (forall k :: k in readers ==> readers[k] in repr && readers[k].View() == model.readers[k])
      && (forall a, b :: a in readers && b in readers && a != b ==> readers[a] != readers[b])
      && model == Receiver(model.readers, chunkSize, window, peerState.maxChunkSize, peerState.maxAckWindowSize,
                           maxChunkStreams, model.decode, amf)
      && DecodesAsSource(model.decode, r.over)
    }

    /** One round of Conn.runHandleMessageLoop, after `got` was delivered. */
    method Deliver(ghost got: seq<Parcel>) returns (res: Delivery)
      requires Valid()
      modifies r, this`readers, this`repr, this`model, this`acks, peerState, repr
      ensures Valid() && fresh(repr - old(repr))
      ensures Delivers(WholeSession(old(model), got, old(Acks()), old(r.input)), got, res, model, Acks(), r.input)
      ensures res.More? ==> |r.input| < |old(r.input)|
    {
      ghost var R, a, input := model, Acks(), r.input;
      var p := Read();
      if p.None? {
        MessageByMessage(R, got, a, input);
        return Nothing;
      }
      var ok := Handle(p.value.message);
      res := if ok then More(p.value) else Last(p.value);
      NextDelivery(R, got, a, input, NextMessage(R, a, input), res, model);
    }

    ghost predicate EndsAs(s: Session, got: seq<Parcel>)
      reads this`acks, r
    {
      got == s.reading.got && Acks() == s.acks && r.input == s.rest
    }

    /** Conn.handleMessageLoop: delivers message after message until the input or the connection ends, a panic included.
        What it has delivered, acknowledged and counted then, and what it has left unread, is what the specification
        says; and if the counters added up before, they do then. */
    method HandleMessageLoop() returns (got: seq<Parcel>)
      requires Valid()
      modifies r, this`readers, this`repr, this`model, this`acks, peerState, repr
      ensures Valid()
      ensures EndsAs(WholeSession(old(model), [], old(Acks()), old(r.input)), got)
      ensures StillCounts(old(Acks()), |old(r.input)|, Acks(), |r.input|)
    {
      SessionStillCounts(model, [], Acks(), r.input);
      got := RunHandleMessageLoop();
    }

    /** Conn.runHandleMessageLoop. */
    method RunHandleMessageLoop() returns (got: seq<Parcel>)
      requires Valid()
      modifies r, this`readers, this`repr, this`model, this`acks, peerState, repr
      ensures Valid() && EndsAs(WholeSession(old(model), [], old(Acks()), old(r.input)), got)
    {
      ghost var goal := WholeSession(model, [], Acks(), r.input);
      got := [];
      while true
        invariant Valid() && fresh(repr - old(repr))
        invariant WholeSession(model, got, Acks(), r.input) == goal
        decreases |r.input|
      {
        var res := Deliver(got);
        if res.Nothing? { return; }
        got := got + [res.parcel];
        if res.Last? { return; }
      }
    }
  }
}
