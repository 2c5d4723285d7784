/** What one side sends the other receives: the sender's run and the receiver's reading of its bytes
    are kept in step, chunk by chunk, over every interleaving of chunk streams. */
module Lossless {
  import opened Bytes
  import opened ChunkHeader
  import opened ChunkStream
  import opened Receiving
  import opened Sending
  import Control

  /** The peer takes the message: what its handling does to the reading state succeeds. Messages that do
      something are on the control stream, which the peer has. */
  predicate Welcome(R: Receiver, m: Message) {
    && Dispatch(R, m).Some?
    && (m.typeID == Control.SET_CHUNK_SIZE || m.typeID == Control.WIN_ACK_SIZE ==> m.streamID == CONTROL_STREAM)
  }

  /** The writer's chunk size and the one last announced cut the same piece off the writer's buffer. */
  predicate CutAlike(S: Sender, w: WriterMem) {
    Min(|w.buf|, S.chunkSize) == Min(|w.buf|, PeerSize(S))
  }

  /** What the chunk layer asks of its caller. Messages of 1 to 0xFFFFFF bytes that the peer takes, on chunk
      streams whose headers the connection separates; and that a chunk is cut as the peer will cut it. The
      last can fail only between a change of the chunk size and the sending of its announcement: see
      Switching. */
  ghost predicate Transmittable(S: Sender, e: Event, R: Receiver) {
    match e
    case Acquire(id, m) => Separates(R.decode, id) && Acceptable(m) && Welcome(R, m)
    case Emit => S.flight.Taken? && S.flight.id in S.writers ==> CutAlike(S, S.writers[S.flight.id])
    case _ => true
  }

  ghost predicate Transmits(S: Sender, es: seq<Event>, R: Receiver)
    requires Runs(S, es)
    decreases |es|
  {
    es == [] || (Transmittable(S, es[0], R) && Transmits(Step(S, es[0]), es[1..], R))
  }

  /** The same connection and configuration, at another time. */
  ghost predicate SamePeer(R: Receiver, R': Receiver) {
    R' == R.(readers := R'.readers, chunkSize := R'.chunkSize, window := R'.window)
  }

  //
  // The relation between the two sides
  //

  /** Both memories of one chunk stream stand at the same point of its history. */
  ghost predicate Linked(S: Sender, R: Receiver, id: int) {
    var h := Hist(S.sent, id);
    if id !in S.writers then id !in R.readers && h == []
    else if id !in S.current then AtRest(S.mode, S.writers[id], ReaderOf(R, id), h)
    else InStep(S.mode, S.writers[id], ReaderOf(R, id), h, S.current[id])
  }

  /** Every message under way can be carried to the peer. */
  ghost predicate Carriable(current: map<int, Message>, R: Receiver) {
    forall id :: id in current ==> Separates(R.decode, id) && Acceptable(current[id]) && Welcome(R, current[id])
  }

  lemma CarriableAdd(current: map<int, Message>, R: Receiver, id: int, m: Message)
    requires Carriable(current, R) && Separates(R.decode, id) && Acceptable(m) && Welcome(R, m)
    ensures Carriable(current[id := m], R)
  {
  }

  lemma CarriableStill(current: map<int, Message>, current': map<int, Message>, R: Receiver, R': Receiver)
    requires Carriable(current, R) && SamePeer(R, R')
    requires forall k :: k in current' ==> k in current && current'[k] == current[k]
    ensures Carriable(current', R')
  {
    forall k | k in current' ensures Separates(R'.decode, k) && Acceptable(current'[k]) && Welcome(R', current'[k]) {
      assert k in current;
    }
  }

  /** The parcel delivered for the i-th one sent: it has the timestamp that the clock of its chunk stream's
      reader shows, and is the same otherwise. */
  function Delivered(mode: Mode, sent: seq<Parcel>, i: nat): Parcel
    requires i < |sent|
  {
    var p := sent[i];
    p.(message := p.message.(timestamp := ClockAfter(mode, Hist(sent[..i + 1], p.chunkStreamID)).timestamp))
  }

  predicate Matched(mode: Mode, sent: seq<Parcel>, got: seq<Parcel>) {
    |sent| == |got| && forall i :: 0 <= i < |sent| ==> got[i] == Delivered(mode, sent, i)
  }

  ghost predicate InSync(S: Sender, R: Receiver, got: seq<Parcel>) {
    && Owned(S)
    && R.readers.Keys <= S.writers.Keys
    && S.maxStreams <= R.maxStreams
    && (forall id :: Linked(S, R, id))
    && Carriable(S.current, R)
    && S.chunkSize > 0 && R.chunkSize == PeerSize(S)
    && Matched(S.mode, S.sent, got)
  }

  /** Reading the wire brings the receiver from R0 to R and whatever follows is read from there. */
  ghost predicate Parsed(R0: Receiver, wire: seq<Byte>, R: Receiver, got: seq<Parcel>) {
    forall input :: wire <= input ==> ReadAll(R0, [], input) == ReadAll(R, got, input[|wire|..])
  }

  /** The bytes are one chunk of the given chunk stream, whatever follows them. */
  ghost predicate ReadsChunk(R: Receiver, bytes: seq<Byte>, R': Receiver, id: int) {
    forall input :: bytes <= input ==> ReadChunk(R, input) == Got(R', id, input[|bytes|..])
  }

  /** The bytes are one turn of the receiver's loop, whatever follows them. */
  ghost predicate TurnsTo(R: Receiver, got: seq<Parcel>, bytes: seq<Byte>, R': Receiver, got': seq<Parcel>) {
    forall input :: bytes <= input ==> ReadTurn(R, got, input) == Turn(R', got', input[|bytes|..])
  }

  lemma ReadsTurn(R: Receiver, got: seq<Parcel>, bytes: seq<Byte>, R1: Receiver, id: int, R': Receiver)
    requires ReadsChunk(R, bytes, R1, id) && id in R1.readers
    requires if R1.readers[id].completed then Dispatch(R1, Held(R1.readers[id])) == Some(R') else R' == R1
    ensures TurnsTo(R, got, bytes, R',
              if R1.readers[id].completed then got + [Parcel(id, Held(R1.readers[id]))] else got)
  {
    var got' := if R1.readers[id].completed then got + [Parcel(id, Held(R1.readers[id]))] else got;
    forall input | bytes <= input
      ensures ReadTurn(R, got, input) == Turn(R', got', input[|bytes|..])
    {
      assert ReadChunk(R, input) == Got(R1, id, input[|bytes|..]);
    }
  }

  lemma ParsedNothing(R: Receiver)
    ensures Parsed(R, [], R, [])
  {
    forall input: seq<Byte> ensures ReadAll(R, [], input) == ReadAll(R, [], input[0..]) {
      assert input[0..] == input;
    }
  }

  lemma ParsedTurn(R: Receiver, got: seq<Parcel>, bytes: seq<Byte>, R': Receiver, got': seq<Parcel>,
                   input: seq<Byte>)
    requires TurnsTo(R, got, bytes, R', got') && bytes != [] && bytes <= input
    ensures ReadAll(R, got, input) == ReadAll(R', got', input[|bytes|..])
  {
    assert ReadTurn(R, got, input) == Turn(R', got', input[|bytes|..]);
  }

  lemma {:induction false} ParsedAppend(R0: Receiver, wire: seq<Byte>, R: Receiver, got: seq<Parcel>, bytes: seq<Byte>,
                     R': Receiver, got': seq<Parcel>)
    requires Parsed(R0, wire, R, got) && bytes != [] && TurnsTo(R, got, bytes, R', got')
    ensures Parsed(R0, wire + bytes, R', got')
  {
    forall input | wire + bytes <= input
      ensures ReadAll(R0, [], input) == ReadAll(R', got', input[|wire + bytes|..])
    {
      var tail := input[|wire|..];
      assert wire <= input && bytes <= tail && tail[|bytes|..] == input[|wire + bytes|..];
      ParsedTurn(R, got, bytes, R', got', tail);
    }
  }

  lemma ParsedEnd(R0: Receiver, wire: seq<Byte>, R: Receiver, got: seq<Parcel>)
    requires Parsed(R0, wire, R, got)
    ensures ReadAll(R0, [], wire) == Drained(R, got)
  {
    assert wire[|wire|..] == [];
  }

  //
  // Steps that send nothing
  //

  lemma AcquireLinked(S: Sender, R: Receiver, id: int, m: Message, k: int)
    requires CanAcquire(S, id, m) && Linked(S, R, k)
    requires WriterOf(S, id).buf == []
    ensures Linked(DoAcquire(S, id, m), R, k)
  {
    var S' := DoAcquire(S, id, m);
    if k == id {
      assert Loaded(S'.writers[id], m);
      assert AtRest(S.mode, S'.writers[id], ReaderOf(R, id), Hist(S.sent, id));
    } else {
      LinkedElsewhere(S, R, S', R, k);
    }
  }

  lemma IdleWriterIsEmpty(S: Sender, id: int)
    requires Owned(S) && id !in S.current
    ensures WriterOf(S, id).buf == []
  {
    assert Inside(0);
    assert id in S.writers ==> Carries(S, id);
  }

  lemma AcquireInSync(S: Sender, R: Receiver, got: seq<Parcel>, id: int, m: Message)
    requires InSync(S, R, got) && CanAcquire(S, id, m) && Transmittable(S, Acquire(id, m), R)
    ensures InSync(DoAcquire(S, id, m), R, got)
  {
    var S' := DoAcquire(S, id, m);
    AcquireOwned(S, id, m);
    IdleWriterIsEmpty(S, id);
    forall k ensures Linked(S', R, k) { AcquireLinked(S, R, id, m, k); }
    CarriableAdd(S.current, R, id, m);
  }

  lemma QueueInSync(S: Sender, R: Receiver, got: seq<Parcel>, e: Event)
    requires InSync(S, R, got) && Enabled(S, e) && (e.Enqueue? || e.Take? || e.Requeue? || e.SetSize?)
    ensures InSync(Step(S, e), R, got)
  {
    var S' := Step(S, e);
    StepOwned(S, e);
    forall k ensures Linked(S', R, k) { LinkedElsewhere(S, R, S', R, k); }
  }

  //
  // Sending a chunk
  //

  /** The receiver after the chunk that the writer in flight sends, whatever follows it on the wire. */
  lemma ChunkReceived(S: Sender, R: Receiver, got: seq<Parcel>)
    returns (w: WriterMem, c: WireChunk, r: ReaderMem)
    requires InSync(S, R, got) && Enabled(S, Emit) && Transmittable(S, Emit, R)
    ensures DoEmit(S) == Land(S, w, c) && ChunkBytes(c) != []
    ensures ReadsChunk(R, ChunkBytes(c), R.(readers := R.readers[S.flight.id := r]), S.flight.id)
    ensures var id := S.flight.id;
            if w.buf == [] then CompletedWith(S.mode, w, r, Hist(S.sent, id), S.current[id])
            else InMessage(S.mode, w, r, Hist(S.sent, id), S.current[id])
  {
    var id := S.flight.id;
    assert Linked(S, R, id);
    var w0, r0 := S.writers[id], ReaderOf(R, id);
    var (w1, fmt, payload) := SendChunk(S.mode, w0, S.chunkSize);
    w := w1;
    c := WireChunk(BasicHeader(fmt, id), w.header, payload);
    var r1, r2 := ChunkCarries(S.mode, w0, r0, Hist(S.sent, id), S.current[id], S.chunkSize, R.chunkSize);
    r := r2;
    RoomForReader(S, R, got);
    ReadsAs(R, c, r1);
  }

  /** The body of a chunk adds its payload to the reader that has absorbed its header. */
  lemma ReadsAs(R: Receiver, c: WireChunk, r1: ReaderMem)
    requires Separates(R.decode, c.basic.chunkStreamID)
    requires c.basic.chunkStreamID in R.readers || |R.readers| < R.maxStreams
    requires r1 == Absorb(ReaderOf(R, c.basic.chunkStreamID), c.basic.fmt, Carried(c.basic.fmt, c.header))
    requires 0 < |c.payload| == Min(r1.messageLength - |r1.buf|, R.chunkSize)
    ensures var id := c.basic.chunkStreamID;
            ReadsChunk(R, ChunkBytes(c), R.(readers := R.readers[id := Received(r1, c.payload)]), id)
  {
    var id := c.basic.chunkStreamID;
    var R' := R.(readers := R.readers[id := Received(r1, c.payload)]);
    var bytes := ChunkBytes(c);
    forall input | bytes <= input
      ensures ReadChunk(R, input) == Got(R', id, input[|bytes|..])
    {
      var rest := input[|bytes|..];
      assert input == bytes + rest;
      ReadChunkBytes(R, c, rest);
      FillPayload(r1, c.payload, rest, R.chunkSize);
    }
  }

  /** The peer's limit never stops a chunk: it has a memory only where the sender has one. */
  lemma RoomForReader(S: Sender, R: Receiver, got: seq<Parcel>)
    requires InSync(S, R, got) && Enabled(S, Emit)
    ensures S.flight.id in R.readers || |R.readers| < R.maxStreams
  {
    assert Inside(0);
    var id := S.flight.id;
    if id !in R.readers {
      SubsetCount(R.readers.Keys, S.writers.Keys - {id});
      assert |S.writers.Keys - {id}| == |S.writers.Keys| - 1;
    }
  }

  lemma DeliveredAppend(mode: Mode, sent: seq<Parcel>, p: Parcel, i: nat)
    requires i <= |sent|
    ensures Delivered(mode, sent + [p], i) ==
            if i < |sent| then Delivered(mode, sent, i)
            else
              var clock := ClockAfter(mode, Hist(sent, p.chunkStreamID) + [p.message]);
              p.(message := p.message.(timestamp := clock.timestamp))
  {
    if i < |sent| {
      assert (sent + [p])[..i + 1] == sent[..i + 1];
    } else {
      assert (sent + [p])[..i + 1] == sent + [p];
      HistAppend(sent, p, p.chunkStreamID);
    }
  }

  /** Completing a message extends what was sent and what was received by the same parcel, up to its
      timestamp. */
  lemma MatchedAppend(mode: Mode, sent: seq<Parcel>, got: seq<Parcel>, p: Parcel, t: U32)
    requires Matched(mode, sent, got)
    requires t == ClockAfter(mode, Hist(sent, p.chunkStreamID) + [p.message]).timestamp
    ensures Matched(mode, sent + [p], got + [p.(message := p.message.(timestamp := t))])
  {
    forall i | 0 <= i <= |sent|
      ensures (got + [p.(message := p.message.(timestamp := t))])[i] == Delivered(mode, sent + [p], i)
    {
      DeliveredAppend(mode, sent, p, i);
    }
  }

  /** A chunk stream that neither side touched is still linked. */
  lemma LinkedElsewhere(S: Sender, R: Receiver, S': Sender, R': Receiver, k: int)
    requires Linked(S, R, k)
    requires S'.mode == S.mode && Hist(S'.sent, k) == Hist(S.sent, k)
    requires k in S'.writers <==> k in S.writers
    requires k in S.writers ==> S'.writers[k] == S.writers[k]
    requires k in S'.current <==> k in S.current
    requires k in S.current ==> S'.current[k] == S.current[k]
    requires k in R'.readers <==> k in R.readers
    requires k in R.readers ==> R'.readers[k] == R.readers[k]
    ensures Linked(S', R', k)
  {
  }

  lemma ContinuationLinked(S: Sender, R: Receiver, S': Sender, R': Receiver, w: WriterMem, c: WireChunk, r: ReaderMem)
    requires Enabled(S, Emit)
    requires forall k :: Linked(S, R, k)
    requires S' == Land(S, w, c) && R' == R.(readers := R.readers[S.flight.id := r]) && w.buf != []
    requires InMessage(S.mode, w, r, Hist(S.sent, S.flight.id), S.current[S.flight.id])
    ensures forall k :: Linked(S', R', k)
  {
    forall k ensures Linked(S', R', k) {
      if k != S.flight.id { assert Linked(S, R, k); LinkedElsewhere(S, R, S', R', k); }
    }
  }

  /** A chunk that leaves its message unfinished. */
  lemma ContinuationInSync(S: Sender, R: Receiver, got: seq<Parcel>, w: WriterMem, c: WireChunk, r: ReaderMem)
    requires InSync(S, R, got) && Enabled(S, Emit) && Owned(Land(S, w, c)) && w.buf != []
    requires InMessage(S.mode, w, r, Hist(S.sent, S.flight.id), S.current[S.flight.id])
    ensures InSync(Land(S, w, c), R.(readers := R.readers[S.flight.id := r]), got)
  {
    var R' := R.(readers := R.readers[S.flight.id := r]);
    ContinuationLinked(S, R, Land(S, w, c), R', w, c, r);
    CarriableStill(S.current, S.current, R, R');
  }

  lemma CompletionLinked(S: Sender, R: Receiver, S': Sender, R': Receiver, w: WriterMem, c: WireChunk, r: ReaderMem)
    requires Enabled(S, Emit)
    requires forall k :: Linked(S, R, k)
    requires S' == Land(S, w, c) && R'.readers == R.readers[S.flight.id := r] && w.buf == []
    requires CompletedWith(S.mode, w, r, Hist(S.sent, S.flight.id), S.current[S.flight.id])
    ensures forall k :: Linked(S', R', k)
  {
    var id := S.flight.id;
    forall k ensures Linked(S', R', k) {
      HistAppend(S.sent, Parcel(id, S.current[id]), k);
      if k != id { assert Linked(S, R, k); LinkedElsewhere(S, R, S', R', k); }
    }
  }

  /** The peer handles a message it takes: its chunk size becomes the one announced, if the message does. */
  lemma DispatchAgrees(R: Receiver, m: Message, announced: U32) returns (R': Receiver)
    requires Welcome(R, m) && R.chunkSize == Min(announced, MAX_CHUNK_SIZE)
    ensures Dispatch(R, m) == Some(R') && R' == R.(chunkSize := R'.chunkSize, window := R'.window)
    ensures R'.chunkSize == Min(AnnouncedBy(m, announced), MAX_CHUNK_SIZE)
  {
    R' := Dispatch(R, m).value;
  }

  lemma CompletionInSync(S: Sender, R: Receiver, got: seq<Parcel>, w: WriterMem, c: WireChunk, r: ReaderMem)
    returns (R': Receiver, got': seq<Parcel>)
    requires InSync(S, R, got) && Enabled(S, Emit) && Owned(Land(S, w, c)) && w.buf == []
    requires CompletedWith(S.mode, w, r, Hist(S.sent, S.flight.id), S.current[S.flight.id])
    ensures got' == got + [Parcel(S.flight.id, Held(r))]
    ensures Dispatch(R.(readers := R.readers[S.flight.id := r]), Held(r)) == Some(R')
    ensures SamePeer(R, R')
    ensures InSync(Land(S, w, c), R', got')
  {
    var S' := Land(S, w, c);
    var id, m := S.flight.id, S.current[S.flight.id];
    var R1 := R.(readers := R.readers[id := r]);
    got' := got + [Parcel(id, Held(r))];
    MatchedAppend(S.mode, S.sent, got, Parcel(id, m), r.timestamp);
    CarriableStill(S.current, S.current, R, R1);
    R' := DispatchAgrees(R1, Held(r), S.announced);
    assert AnnouncedBy(Held(r), S.announced) == AnnouncedBy(m, S.announced);
    CompletionLinked(S, R, S', R', w, c, r);
    CarriableStill(S.current, S'.current, R, R');
  }

  /** One chunk sent is one turn of the receiver's loop, and the two sides are in step again. */
  lemma {:induction false} EmitInSync(S: Sender, R: Receiver, got: seq<Parcel>)
    returns (c: WireChunk, R': Receiver, got': seq<Parcel>)
    requires InSync(S, R, got) && Enabled(S, Emit) && Transmittable(S, Emit, R)
    ensures DoEmit(S).wire == S.wire + [c] && ChunkBytes(c) != []
    ensures TurnsTo(R, got, ChunkBytes(c), R', got')
    ensures InSync(DoEmit(S), R', got') && SamePeer(R, R')
  {
    var w, chunk, r := ChunkReceived(S, R, got);
    c := chunk;
    EmitOwned(S);
    if w.buf == [] {
      R', got' := CompletionInSync(S, R, got, w, c, r);
      ReadsTurn(R, got, ChunkBytes(c), R.(readers := R.readers[S.flight.id := r]), S.flight.id, R');
    } else {
      R', got' := R.(readers := R.readers[S.flight.id := r]), got;
      ContinuationInSync(S, R, got, w, c, r);
      ReadsTurn(R, got, ChunkBytes(c), R', S.flight.id, R');
    }
  }

  //
  // Whole runs
  //

  lemma InitialInSync(mode: Mode, n: U32, maxStreams: int, R: Receiver)
    requires n > 0 && maxStreams >= 0
    requires R.readers == map[] && R.chunkSize == Min(n, MAX_CHUNK_SIZE) && maxStreams <= R.maxStreams
    ensures InSync(Initial(mode, n, maxStreams), R, [])
  {
  }

  lemma StepInSync(S: Sender, R0: Receiver, R: Receiver, got: seq<Parcel>, e: Event)
    returns (R': Receiver, got': seq<Parcel>)
    requires InSync(S, R, got) && Enabled(S, e) && Transmittable(S, e, R)
    requires Parsed(R0, WireBytes(S.wire), R, got)
    ensures InSync(Step(S, e), R', got') && SamePeer(R, R')
    ensures Parsed(R0, WireBytes(Step(S, e).wire), R', got')
  {
    R', got' := R, got;
    match e {
      case Acquire(id, m) => AcquireInSync(S, R, got, id, m);
      case Emit =>
        var c, R1, got1 := EmitInSync(S, R, got);
        R', got' := R1, got1;
        WireBytesAppend(S.wire, c);
        ParsedAppend(R0, WireBytes(S.wire), R, got, ChunkBytes(c), R', got');
      case _ => QueueInSync(S, R, got, e);
    }
  }

  lemma TransmittableTo(S: Sender, e: Event, R: Receiver, R': Receiver)
    requires SamePeer(R, R')
    ensures Transmittable(S, e, R') <==> Transmittable(S, e, R)
  {
  }

  lemma {:induction false} RunInSync(S: Sender, R0: Receiver, R: Receiver, got: seq<Parcel>, es: seq<Event>)
    returns (R': Receiver, got': seq<Parcel>)
    requires InSync(S, R, got) && Parsed(R0, WireBytes(S.wire), R, got)
    requires Runs(S, es) && Transmits(S, es, R0) && SamePeer(R0, R)
    ensures InSync(Run(S, es), R', got') && Parsed(R0, WireBytes(Run(S, es).wire), R', got')
    decreases |es|
  {
    R', got' := R, got;
    if es != [] {
      TransmittableTo(S, es[0], R0, R);
      var R1, got1 := StepInSync(S, R0, R, got, es[0]);
      R', got' := RunInSync(Step(S, es[0]), R0, R1, got1, es[1..]);
    }
  }

  /** The peer of a sender that starts with chunk size n and allows maxStreams chunk streams. */
  predicate FreshPeer(R: Receiver, n: U32, maxStreams: int) {
    R.readers == map[] && R.chunkSize == Min(n, MAX_CHUNK_SIZE) && maxStreams <= R.maxStreams
  }

  /** Lossless multiplexing. Whatever messages are written on whatever chunk streams, however the writes
      interleave with the turns of Run and with changes of the chunk size: the receiver reads the sent
      bytes to their end and gets the messages in the order they were completed, each whole and with its type
      and stream; it has its own timestamp if and only if it does not drift; so all have exactly when no chunk
      stream's history loses one. */
  lemma LosslessMultiplexing(mode: Mode, n: U32, maxStreams: int, R: Receiver, es: seq<Event>)
    requires n > 0 && maxStreams >= 0 && FreshPeer(R, n, maxStreams)
    requires Runs(Initial(mode, n, maxStreams), es) && Transmits(Initial(mode, n, maxStreams), es, R)
    ensures var S := Run(Initial(mode, n, maxStreams), es);
            var res := ReadAll(R, [], WireBytes(S.wire));
            && res.Drained?
            && Matched(S.mode, S.sent, res.got)
            && (forall i :: 0 <= i < |S.sent| ==> (res.got[i] == S.sent[i] <==> OwnTime(S.mode, S.sent, i)))
            && (res.got == S.sent <==> AllFaithful(S.mode, S.sent))
            && res.receiver.chunkSize == PeerSize(S)
  {
    var R', got' := RunReads(mode, n, maxStreams, R, es);
    var S := Run(Initial(mode, n, maxStreams), es);
    MatchedEach(S.mode, S.sent, got');
    MatchedMeans(S.mode, S.sent, got');
  }

  lemma RunReads(mode: Mode, n: U32, maxStreams: int, R: Receiver, es: seq<Event>)
    returns (R': Receiver, got': seq<Parcel>)
    requires n > 0 && maxStreams >= 0 && FreshPeer(R, n, maxStreams)
    requires Runs(Initial(mode, n, maxStreams), es) && Transmits(Initial(mode, n, maxStreams), es, R)
    ensures var S := Run(Initial(mode, n, maxStreams), es);
            InSync(S, R', got') && ReadAll(R, [], WireBytes(S.wire)) == Drained(R', got')
  {
    var S0 := Initial(mode, n, maxStreams);
    InitialInSync(mode, n, maxStreams, R);
    ParsedNothing(R);
    R', got' := RunInSync(S0, R, R, [], es);
    ParsedEnd(R, WireBytes(Run(S0, es).wire), R', got');
  }

  //
  // Which timestamps are right
  //

  /** The i-th message sent does not drift in the history of its chunk stream. */
  ghost predicate OwnTime(mode: Mode, sent: seq<Parcel>, i: nat)
    requires i < |sent|
  {
    var h := Hist(sent[..i + 1], sent[i].chunkStreamID);
    mode == Compressed ==> h != [] && !Drifts(h, |h| - 1)
  }

  lemma DeliveredOwn(mode: Mode, sent: seq<Parcel>, i: nat)
    requires i < |sent|
    ensures Delivered(mode, sent, i) == sent[i] <==> OwnTime(mode, sent, i)
  {
    var p := sent[i];
    HistAppend(sent[..i], p, p.chunkStreamID);
    assert sent[..i + 1] == sent[..i] + [p];
    if mode == Compressed {
      ClockShows(Hist(sent[..i + 1], p.chunkStreamID));
    }
  }

  lemma FaithfulSnoc(mode: Mode, h: seq<Message>, m: Message)
    ensures Faithful(mode, h + [m]) <==> Faithful(mode, h) && (mode == Compressed ==> !Drifts(h + [m], |h|))
  {
    FaithfulMeans(h);
    FaithfulMeans(h + [m]);
    forall i | 0 <= i < |h| ensures Drifts(h + [m], i) == Drifts(h, i) {
      PrefixDrifts(h + [m], |h|, i);
      assert (h + [m])[..|h|] == h;
    }
  }

  ghost predicate AllFaithful(mode: Mode, sent: seq<Parcel>) {
    forall id :: Faithful(mode, Hist(sent, id))
  }

  ghost predicate AllOwn(mode: Mode, sent: seq<Parcel>) {
    forall i :: 0 <= i < |sent| ==> OwnTime(mode, sent, i)
  }

  lemma AllOwnSnoc(mode: Mode, sent: seq<Parcel>)
    requires sent != []
    ensures var n := |sent| - 1; AllOwn(mode, sent) <==> AllOwn(mode, sent[..n]) && OwnTime(mode, sent, n)
  {
    var n := |sent| - 1;
    forall i | 0 <= i < n ensures OwnTime(mode, sent, i) == OwnTime(mode, sent[..n], i) {
      assert sent[..i + 1] == sent[..n][..i + 1];
    }
    if AllOwn(mode, sent) {
      forall i | 0 <= i < n ensures OwnTime(mode, sent[..n], i) { assert OwnTime(mode, sent, i); }
    }
  }

  lemma AllFaithfulSnoc(mode: Mode, s: seq<Parcel>, p: Parcel)
    ensures var h := Hist(s, p.chunkStreamID);
            AllFaithful(mode, s + [p]) <==>
              AllFaithful(mode, s) && (mode == Compressed ==> !Drifts(h + [p.message], |h|))
  {
    var id := p.chunkStreamID;
    forall k ensures Hist(s + [p], k) == Hist(s, k) + (if id == k then [p.message] else []) { HistAppend(s, p, k); }
    FaithfulSnoc(mode, Hist(s, id), p.message);
    forall k | k != id ensures Faithful(mode, Hist(s + [p], k)) == Faithful(mode, Hist(s, k)) {
      assert Hist(s + [p], k) == Hist(s, k);
    }
    if AllFaithful(mode, s + [p]) {
      forall k ensures Faithful(mode, Hist(s, k)) { assert Faithful(mode, Hist(s + [p], k)); }
    }
  }

  lemma {:induction false} AllOwnTimes(mode: Mode, sent: seq<Parcel>)
    ensures AllOwn(mode, sent) <==> AllFaithful(mode, sent)
  {
    if sent != [] {
      var n := |sent| - 1;
      AllOwnTimes(mode, sent[..n]);
      AllOwnSnoc(mode, sent);
      AllFaithfulSnoc(mode, sent[..n], sent[n]);
      LastIsOwn(mode, sent);
      assert sent == sent[..n] + [sent[n]];
    }
  }

  /** The last message of all has its own time exactly if it does not make its history unfaithful. */
  lemma LastIsOwn(mode: Mode, sent: seq<Parcel>)
    requires sent != []
    ensures var n, p := |sent| - 1, sent[|sent| - 1];
            var h := Hist(sent[..n], p.chunkStreamID);
            OwnTime(mode, sent, n) <==> (mode == Compressed ==> !Drifts(h + [p.message], |h|))
  {
    var n, p := |sent| - 1, sent[|sent| - 1];
    assert sent[..n + 1] == sent[..n] + [p];
    HistAppend(sent[..n], p, p.chunkStreamID);
  }

  lemma MatchedEach(mode: Mode, sent: seq<Parcel>, got: seq<Parcel>)
    requires Matched(mode, sent, got)
    ensures forall i :: 0 <= i < |sent| ==> (got[i] == sent[i] <==> OwnTime(mode, sent, i))
  {
    forall i | 0 <= i < |sent| ensures got[i] == sent[i] <==> OwnTime(mode, sent, i) {
      DeliveredOwn(mode, sent, i);
    }
  }

  lemma MatchedMeans(mode: Mode, sent: seq<Parcel>, got: seq<Parcel>)
    requires Matched(mode, sent, got)
    ensures got == sent <==> AllFaithful(mode, sent)
  {
    MatchedEach(mode, sent, got);
    AllOwnTimes(mode, sent);
    if AllOwn(mode, sent) {
      forall i | 0 <= i < |sent| ensures got[i] == sent[i] { assert OwnTime(mode, sent, i); }
    } else {
      var i :| 0 <= i < |sent| && !OwnTime(mode, sent, i);
      assert got[i] != sent[i];
    }
  }
}
