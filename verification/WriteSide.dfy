/** The writing half of ChunkStreamer as the source writes it: one object per chunk stream, updated in
    place, and the scheduler's queue of them; each method is tied to the state machine of Sending. */
module WriteSide {
  import opened Bytes
  import opened ChunkHeader
  import opened ChunkStream
  import opened HeaderIO
  import opened Receiving
  import opened Sending
  import opened Switching
  import Control
  import Scheduling

  /** chunk_stream_writer.go; `done` says that doneCh is closed. */
  class ChunkStreamWriter {
    const chunkStreamID: int
    var header: MsgHeader
    var timestamp: U32
    var timestampDelta: U32
    var messageLength: U32
    var messageTypeID: Byte
    var messageStreamID: U32
    var buf: Payload
    var newChunk: bool
    var done: bool

    constructor (id: int)
      ensures chunkStreamID == id && View() == FRESH_WRITER && done
    {
      chunkStreamID := id;
      header := MsgHeader(MAX_U32, 0, 0, 0, 0);
      timestamp, timestampDelta, messageLength, messageTypeID, messageStreamID := 0, 0, 0, 0, 0;
      buf, newChunk, done := [], true, true;
    }

    function View(): WriterMem
      reads this
    {
      WriterMem(header, timestamp, timestampDelta, messageLength, messageTypeID, messageStreamID, buf, newChunk)
    }

    /** updateWriterHeader */
    method UpdateWriterHeader() returns (fmt: Fmt)
      modifies this
      ensures (View(), fmt) == UpdateHeader(old(View())) && done == old(done)
    {
      fmt := 2;
      if header.messageLength != messageLength || messageTypeID != header.messageTypeID {
        header := header.(messageLength := messageLength, messageTypeID := messageTypeID);
        fmt := 1;
      }
      if timestamp != header.timestamp || newChunk {
        if timestamp >= header.timestamp {
          timestampDelta := timestamp - header.timestamp;
        } else {
          fmt := 0;
          timestampDelta := 0;
        }
      }
      newChunk := false;
      if timestampDelta == header.timestampDelta && fmt == 2 {
        fmt := 3;
      }
      header := header.(timestampDelta := timestampDelta, timestamp := timestamp);
      if header.messageStreamID != messageStreamID {
        fmt := 0;
        header := header.(messageStreamID := messageStreamID);
      }
    }

    /** The fields that ChunkStreamer.Write sets on the writer it has acquired. */
    method Accept(m: Message)
      requires |buf| + |m.payload| <= MAX_U32
      modifies this
      ensures View() == Load(old(View()), m) && !done
    {
      done := false;
      buf := buf + m.payload;
      timestamp := m.timestamp;
      messageLength := |buf|;
      messageTypeID := m.typeID;
      messageStreamID := m.streamID;
      newChunk := true;
    }

    /** Reads up to n bytes off the buffer. */
    method Drain(n: nat) returns (b: seq<Byte>)
      requires n <= |buf|
      modifies this`buf
      ensures b == old(buf)[..n] && buf == old(buf)[n..]
    {
      b := buf[..n];
      buf := buf[n..];
    }
  }

  lemma WriteIsPossible(S: Sender, id: int, m: Message)
    requires Owned(S)
    ensures id in S.current ==> id in S.writers
    ensures WriterOf(S, id).buf == [] || id in S.current
    ensures id !in S.current && (id in S.writers || |S.writers| < S.maxStreams) ==> CanAcquire(S, id, m)
  {
    assert Inside(0);
    assert id in S.current ==> id in S.current.Keys;
    assert id in S.writers ==> Carries(S, id);
  }

  /** A whole turn of Run, in one piece: `w` is the served writer afterwards and `c` its chunk. */
  function AfterTurn(S: Sender, id: int, w: WriterMem, c: WireChunk): Sender
    requires S.queue != [] && id in S.current
  {
    var S1 := S.(writers := S.writers[id := w], wire := S.wire + [c], chunks := S.chunks + [id]);
    if w.buf == []
    then S1.(queue := S.queue[1..], current := S.current - {id}, sent := S.sent + [Parcel(id, S.current[id])],
             announced := AnnouncedBy(S.current[id], S.announced))
    else S1.(queue := S.queue[1..] + [id])
  }

  lemma RunTurnIs(S: Sender, w: WriterMem, c: WireChunk)
    requires Scheduling.Between(S) && S.queue != [] && ValidChunkStreamID(S.queue[0])
    requires S.mode == Compressed && S.queue[0] in S.writers && S.queue[0] in S.current
    requires var (w', fmt, payload) := SendChunk(S.mode, S.writers[S.queue[0]], S.chunkSize);
             w == w' && c == WireChunk(BasicHeader(fmt, S.queue[0]), w.header, payload)
    ensures Scheduling.RunTurn(S) == AfterTurn(S, S.queue[0], w, c)
  {
  }

  /** The events are a run from one state to the other. */
  ghost predicate Reached(S: Sender, es: seq<Event>, S': Sender) {
    forall n {:trigger Inside(n)} :: Inside(n) ==> Runs(S, es) && Run(S, es) == S'
  }

  lemma ReachedOn(S: Sender, es: seq<Event>, S': Sender, e: Event)
    requires Reached(S, es, S') && Enabled(S', e)
    ensures Reached(S, es + [e], Step(S', e))
  {
    assert Inside(0);
    RunExtends(S, es, e);
  }

  lemma ReachedTurn(S: Sender, es: seq<Event>, S': Sender) returns (more: bool)
    requires Reached(S, es, S') && Scheduling.Between(S') && S'.queue != [] && ValidChunkStreamID(S'.queue[0])
    ensures Reached(S, es + Scheduling.TurnEvents(more), Scheduling.RunTurn(S'))
  {
    assert Inside(0);
    Scheduling.TurnIsRun(S');
    var b :| Runs(S', Scheduling.TurnEvents(b)) && Run(S', Scheduling.TurnEvents(b)) == Scheduling.RunTurn(S');
    more := b;
    RunThen(S, es, Scheduling.TurnEvents(b));
  }

  /** The state that a writing half stands in between two turns of Run, and the run that has led to it. A Write may be
      waiting for a place in the queue. */
  ghost predicate Stands(n0: U32, max: int, S: Sender, es: seq<Event>, out: seq<Byte>) {
    forall n {:trigger Inside(n)} :: Inside(n) ==>
      && n0 > 0 && max >= 0
      && Owned(S) && S.mode == Compressed && S.flight == Grounded && S.chunkSize > 0 && S.maxStreams == max
      && out == WireBytes(S.wire) && Reached(Initial(Compressed, n0, max), es, S)
  }

  lemma StandsMeans(n0: U32, max: int, S: Sender, es: seq<Event>, out: seq<Byte>)
    requires Stands(n0, max, S, es, out)
    ensures Owned(S) && S.mode == Compressed && S.flight == Grounded && S.chunkSize > 0 && S.maxStreams == max
    ensures out == WireBytes(S.wire) && Reached(Initial(Compressed, n0, max), es, S)
  {
    assert Inside(0);
  }

  lemma StandsAtFirst(n0: U32, max: int)
    requires n0 > 0 && max >= 0
    ensures Stands(n0, max, Initial(Compressed, n0, max), [], [])
  {
    InitialOwned(Compressed, n0, max);
  }

  /** A step of a Write, or the change of the chunk size. */
  lemma StandsAfter(n0: U32, max: int, S: Sender, es: seq<Event>, out: seq<Byte>, e: Event)
    requires Stands(n0, max, S, es, out) && Enabled(S, e) && (e.Acquire? || e.Enqueue? || e.SetSize?)
    ensures Stands(n0, max, Step(S, e), es + [e], out)
  {
    StandsMeans(n0, max, S, es, out);
    StepOwned(S, e);
    ReachedOn(Initial(Compressed, n0, max), es, S, e);
  }

  /** A turn of Run. */
  lemma StandsAfterTurn(n0: U32, max: int, S: Sender, es: seq<Event>, out: seq<Byte>, w: WriterMem, c: WireChunk)
    returns (more: bool)
    requires Stands(n0, max, S, es, out) && S.queue != [] && ValidChunkStreamID(S.queue[0])
    requires S.queue[0] in S.writers && S.queue[0] in S.current
    requires var (w', fmt, payload) := SendChunk(Compressed, S.writers[S.queue[0]], S.chunkSize);
             w == w' && c == WireChunk(BasicHeader(fmt, S.queue[0]), w.header, payload)
    ensures var S' := AfterTurn(S, S.queue[0], w, c);
            && Scheduling.Between(S) && S' == Scheduling.RunTurn(S)
            && Stands(n0, max, S', es + Scheduling.TurnEvents(more), out + ChunkBytes(c))
  {
    StandsMeans(n0, max, S, es, out);
    RunTurnIs(S, w, c);
    WireBytesAppend(S.wire, c);
    more := ReachedTurn(Initial(Compressed, n0, max), es, S);
  }

  /** Scheduled: the writer is in the queue. Waiting: it is loaded, and waits for a place in the full queue. */
  datatype WriteOutcome = Scheduled | Waiting | LimitExceeded | TimedOut
  datatype SwitchOutcome = Unchanged | OutOfRange | Announced(outcome: WriteOutcome)

  /** How a Write ends, or goes on to wait. */
  function WriteResult(S: Sender, id: int): WriteOutcome {
    if id !in S.writers && |S.writers| >= S.maxStreams then LimitExceeded
    else if id in S.current then TimedOut
    else if |S.queue| < QUEUE_SIZE then Scheduled else Waiting
  }

  /** What a Write has changed: it is the step Acquire, and Enqueue if it has got that far. */
  ghost predicate Wrote(S: Sender, es: seq<Event>, id: int, m: Message, res: WriteOutcome,
                        S': Sender, es': seq<Event>)
  {
    match res
    case Scheduled =>
      CanAcquire(S, id, m) && S' == DoEnqueue(DoAcquire(S, id, m), id) && es' == es + [Acquire(id, m), Enqueue(id)]
    case Waiting => CanAcquire(S, id, m) && S' == DoAcquire(S, id, m) && es' == es + [Acquire(id, m)]
    case _ => S' == S && es' == es
  }

  /** What a switch has changed: the size, even if its announcement is refused. */
  ghost predicate SwitchWrote(S: Sender, es: seq<Event>, n: U32, res: SwitchOutcome, S': Sender, es': seq<Event>) {
    match res
    case Unchanged => S' == S && es' == es
    case OutOfRange => S' == S.(chunkSize := n) && es' == es + [SetSize(n)]
    case Announced(o) => Wrote(S.(chunkSize := n), es + [SetSize(n)], CONTROL_CHUNK_STREAM, SizeMessage(n), o, S', es')
  }

  /** A message under way on chunk stream 2 tells the peer of the size: type 1, on message stream 0. */
  predicate Tells(S: Sender, n: U32) {
    && 2 in S.current && S.current[2].typeID == 1 && S.current[2].streamID == 0
    && Control.Decode(1, S.current[2].payload) == Some(Control.SetChunkSize(n))
  }

  /** One whose announcement is scheduled is the switch of Switching. */
  lemma SwitchIs(S: Sender, es: seq<Event>, n: U32, o: WriteOutcome, S': Sender, es': seq<Event>)
    requires n > 0 && Owned(S.(chunkSize := n))
    requires Wrote(S.(chunkSize := n), es + [SetSize(n)], CONTROL_CHUNK_STREAM, SizeMessage(n), o, S', es')
    requires o == WriteResult(S.(chunkSize := n), CONTROL_CHUNK_STREAM)
    ensures o == Scheduled <==> CanSwitch(S, n)
    ensures o == Scheduled ==> S' == Switched(S, n) && es' == es + Switch(n)
    ensures o == Scheduled && n <= 0x7fffffff ==> S'.chunkSize == n && Tells(S', n)
  {
    if n <= 0x7fffffff { AnnouncementIs(n); }
    WriteIsPossible(S.(chunkSize := n), CONTROL_CHUNK_STREAM, SizeMessage(n));
  }

  /** The fields of ChunkStreamer that writing uses. `model` is the state of Sending that they stand for, `events`
      the run that has led to it. */
  class WriteSide {
    const maxChunkStreams: int
    const initialSize: U32
    var writers: map<int, ChunkStreamWriter>
    var queue: seq<ChunkStreamWriter>
    var selfChunkSize: U32
    var out: seq<Byte>
    ghost var repr: set<ChunkStreamWriter>
    ghost var model: Sender
    ghost var events: seq<Event>

    constructor (chunkSize: U32, maxChunkStreams: int)
      requires maxChunkStreams >= 0 && chunkSize > 0
      ensures Valid() && fresh(repr) && model == Initial(Compressed, chunkSize, maxChunkStreams) && events == []
      ensures initialSize == chunkSize && this.maxChunkStreams == maxChunkStreams
    {
      this.maxChunkStreams, initialSize := maxChunkStreams, chunkSize;
      writers, queue, selfChunkSize, out := map[], [], chunkSize, [];
      repr, model, events := {}, Initial(Compressed, chunkSize, maxChunkStreams), [];
      new;
      StandsAtFirst(chunkSize, maxChunkStreams);
    }

    /** Each entry of the table is its own object, in the state that the model says and done exactly when it
        carries no message; the queue holds the entries that the model says. */
    ghost predicate WritersLinked()
      reads this`writers, this`repr, this`queue, this`model, repr
    {
      && writers.Keys == model.writers.Keys
      && (forall id :: id in writers ==> writers[id] in repr && Linked(writers[id], id))
      && |queue| == |model.queue|
      && (forall i :: 0 <= i < |queue| ==> model.queue[i] in writers && writers[model.queue[i]] == queue[i])
    }

    ghost predicate Linked(writer: ChunkStreamWriter, id: int)
      requires id in model.writers
      reads this`model, writer
    {
      writer.chunkStreamID == id && writer.View() == model.writers[id] && (writer.done <==> id !in model.current)
    }

    /** The writing half is in the state `model`, between two turns of Run; a Write may be waiting. */
    ghost predicate Valid()
      reads this, repr
    {
      WritersLinked() && model.chunkSize == selfChunkSize && Stands(initialSize, maxChunkStreams, model, events, out)
    }

    /** prepareChunkWriter; null when the limit is exceeded. */
    method PrepareChunkWriter(id: int) returns (writer: ChunkStreamWriter?)
      requires WritersLinked()
      requires id in model.current ==> id in model.writers
      modifies this`writers, this`repr
      ensures writer == null <==> id !in old(writers) && |old(writers)| >= maxChunkStreams
      ensures writer == null ==> WritersLinked()
      ensures writer != null ==>
                && LinkedBut(id) && id in writers && writers[id] == writer
                && writer.chunkStreamID == id && writer.View() == WriterOf(model, id)
                && (writer.done <==> id !in model.current)
      ensures fresh(repr - old(repr))
    {
      if id !in writers {
        if |writers| >= maxChunkStreams { return null; }
        writer := AddWriter(id);
      } else {
        writer := writers[id];
        assert Linked(writer, id);
      }
    }

    /** The part of prepareChunkWriter that puts a new writer into the table. */
    method AddWriter(id: int) returns (writer: ChunkStreamWriter)
      requires WritersLinked() && id !in writers
      modifies this`writers, this`repr
      ensures fresh(writer) && LinkedBut(id) && id in writers && writers[id] == writer
      ensures writer.chunkStreamID == id && writer.View() == FRESH_WRITER && writer.done
      ensures repr == old(repr) + {writer}
    {
      writer := new ChunkStreamWriter(id);
      forall k | k in writers ensures writers[k] != writer && Linked(writers[k], k) {
        assert old(Linked(writers[k], k));
      }
      writers := writers[id := writer];
      repr := repr + {writer};
    }

    /** WritersLinked, but for the entry of one chunk stream. */
    ghost predicate LinkedBut(id: int)
      reads this`writers, this`repr, this`queue, this`model, repr
    {
      && writers.Keys == model.writers.Keys + {id}
      && (forall k :: k in writers ==> writers[k] in repr)
      && (forall k :: k in writers && k != id ==> Linked(writers[k], k))
      && |queue| == |model.queue|
      && (forall i :: 0 <= i < |queue| ==> model.queue[i] in writers && writers[model.queue[i]] == queue[i])
    }

    /** The acquired writer is loaded. */
    method Fill(writer: ChunkStreamWriter, m: Message)
      requires var id := writer.chunkStreamID;
               && LinkedBut(id) && id in writers && writers[id] == writer
               && writer.View() == WriterOf(model, id) && CanAcquire(model, id, m)
      modifies this`model, this`events, writer
      ensures WritersLinked()
      ensures CanAcquire(old(model), writer.chunkStreamID, m) && model == DoAcquire(old(model), writer.chunkStreamID, m)
      ensures events == old(events) + [Event.Acquire(writer.chunkStreamID, m)]
    {
      ghost var id, S := writer.chunkStreamID, model;
      writer.Accept(m);
      model, events := DoAcquire(S, id, m), events + [Event.Acquire(id, m)];
      assert writers.Keys == model.writers.Keys;
      forall k | k in writers ensures Linked(writers[k], k) {
        if k != id {
          assert old(Linked(writers[k], k));
          assert model.writers[k] == S.writers[k] && writers[k].View() == old(writers[k].View());
        }
      }
    }

    /** NewChunkWriter. A busy writer makes the call wait until its context expires. */
    method NewChunkWriter(id: int) returns (writer: ChunkStreamWriter?, res: WriteOutcome)
      requires WritersLinked() && model.maxStreams == maxChunkStreams
      requires id in model.current ==> id in model.writers
      modifies this`writers, this`repr
      ensures fresh(repr - old(repr))
      ensures res == (if id !in model.writers && |model.writers| >= maxChunkStreams then LimitExceeded
                      else if id in model.current then TimedOut else Waiting)
      ensures res != Waiting ==> WritersLinked()
      ensures res == Waiting ==>
                && writer != null && LinkedBut(id) && id in writers && writers[id] == writer
                && writer.chunkStreamID == id && writer.View() == WriterOf(model, id)
    {
      assert |writers| == |writers.Keys| && |model.writers| == |model.writers.Keys|;
      writer := PrepareChunkWriter(id);
      if writer == null { return null, LimitExceeded; }
      if !writer.done { return null, TimedOut; }
      res := Waiting;
    }

    /** NewChunkWriter and, when it succeeds, the loading of the writer. */
    method AcquireWriter(id: int, m: Message) returns (writer: ChunkStreamWriter?, res: WriteOutcome)
      requires WritersLinked() && model.maxStreams == maxChunkStreams
      requires id in model.current ==> id in model.writers
      requires id !in model.current && (id in model.writers || |model.writers| < maxChunkStreams) ==>
                 CanAcquire(model, id, m)
      modifies this`writers, this`repr, this`model, this`events, repr
      ensures WritersLinked() && fresh(repr - old(repr))
      ensures res == (if id !in old(model).writers && |old(model).writers| >= maxChunkStreams then LimitExceeded
                      else if id in old(model).current then TimedOut else Waiting)
      ensures Wrote(old(model), old(events), id, m, res, model, events)
      ensures res == Waiting ==> id in writers && writer == writers[id]
    {
      writer, res := NewChunkWriter(id);
      if res == Waiting { Fill(writer, m); }
    }

    /** The same, as a step of the run. */
    method Acquire(id: int, m: Message) returns (writer: ChunkStreamWriter?, res: WriteOutcome)
      requires Valid()
      modifies this`writers, this`repr, this`model, this`events, repr
      ensures Valid() && fresh(repr - old(repr))
      ensures res == (if id !in old(model).writers && |old(model).writers| >= maxChunkStreams then LimitExceeded
                      else if id in old(model).current then TimedOut else Waiting)
      ensures Wrote(old(model), old(events), id, m, res, model, events)
      ensures res == Waiting ==> id in writers && writer == writers[id]
    {
      ghost var S, es := model, events;
      StandsMeans(initialSize, maxChunkStreams, S, es, out);
      WriteIsPossible(S, id, m);
      writer, res := AcquireWriter(id, m);
      if res == Waiting {
        StandsAfter(initialSize, maxChunkStreams, S, es, out, Event.Acquire(id, m));
      }
    }

    /** chunkStreamerWriterSched.Sched when there is a place in the queue. */
    method Sched(writer: ChunkStreamWriter)
      requires Valid() && |queue| < QUEUE_SIZE
      requires var id := writer.chunkStreamID; id in model.held && id in writers && writers[id] == writer
      modifies this`queue, this`model, this`events
      ensures Valid() && queue == old(queue) + [writer]
      ensures model == DoEnqueue(old(model), writer.chunkStreamID)
      ensures events == old(events) + [Enqueue(writer.chunkStreamID)]
    {
      ghost var S, id := model, writer.chunkStreamID;
      StandsAfter(initialSize, maxChunkStreams, S, events, out, Enqueue(id));
      queue := queue + [writer];
      model := DoEnqueue(S, id);
      events := events + [Enqueue(id)];
    }

    /** ChunkStreamer.Write with the message already encoded: acquires the chunk stream's writer, loads it
        and schedules it. While the queue is full the call waits there, and then goes on with Sched. */
    method Write(id: int, m: Message) returns (res: WriteOutcome)
      requires Valid()
      modifies this`writers, this`repr, this`queue, this`model, this`events, repr
      ensures Valid() && fresh(repr - old(repr))
      ensures res == WriteResult(old(model), id)
      ensures Wrote(old(model), old(events), id, m, res, model, events)
    {
      StandsMeans(initialSize, maxChunkStreams, model, events, out);
      var writer;
      writer, res := Acquire(id, m);
      if res == Waiting && |queue| < QUEUE_SIZE {
        assert Linked(writer, id);
        Sched(writer);
        res := Scheduled;
      }
    }

    method SetSelfChunkSize(n: U32)
      requires Valid() && n > 0
      modifies this`selfChunkSize, this`model, this`events
      ensures Valid() && model == old(model).(chunkSize := n) && events == old(events) + [SetSize(n)]
    {
      StandsAfter(initialSize, maxChunkStreams, model, events, out, SetSize(n));
      selfChunkSize := n;
      model := model.(chunkSize := n);
      events := events + [SetSize(n)];
    }

    /** The start of Stream.CreateStream, with WriteSetChunkSize: the size changes before the message that
        announces it is built, and stays changed when that message is refused. */
    method SwitchChunkSize(n: U32) returns (res: SwitchOutcome)
      requires Valid()
      modifies this`selfChunkSize, this`writers, this`repr, this`queue, this`model, this`events, repr
      ensures Valid() && fresh(repr - old(repr))
      ensures res == Unchanged <==> n == 0 || n == old(model).chunkSize
      ensures res == OutOfRange <==> n != old(model).chunkSize && n > 0x7fffffff
      ensures SwitchWrote(old(model), old(events), n, res, model, events)
      ensures res == Announced(Scheduled) <==> CanSwitch(old(model), n) && n != old(model).chunkSize && n <= 0x7fffffff
      ensures res == Announced(Scheduled) ==> model == Switched(old(model), n) && events == old(events) + Switch(n)
      ensures res == Announced(Scheduled) ==> model.chunkSize == n && Tells(model, n)
    {
      if n == 0 || n == selfChunkSize { return Unchanged; }
      ghost var S, es := model, events;
      SetSelfChunkSize(n);
      if n > 0x7fffffff { return OutOfRange; }
      StandsMeans(initialSize, maxChunkStreams, model, events, out);
      var o := Write(CONTROL_CHUNK_STREAM, SizeMessage(n));
      SwitchIs(S, es, n, o, model, events);
      res := Announced(o);
    }

    /** writeChunk; false if the chunk stream id has no encoding. */
    method WriteChunk(writer: ChunkStreamWriter) returns (ok: bool, completed: bool, ghost c: WireChunk)
      modifies this`out, writer
      ensures ok <==> ValidChunkStreamID(writer.chunkStreamID)
      ensures !ok ==> out == old(out)
      ensures ok ==>
                var (w, fmt, payload) := SendChunk(Compressed, old(writer.View()), selfChunkSize);
                && writer.View() == w && writer.done == old(writer.done)
                && c == WireChunk(BasicHeader(fmt, writer.chunkStreamID), w.header, payload)
                && (completed <==> w.buf == [])
                && out == old(out) + ChunkBytes(c)
    {
      var fmt := writer.UpdateWriterHeader();
      var expectLen: int := |writer.buf|;
      if expectLen > selfChunkSize { expectLen := selfChunkSize; }
      var basic := BasicHeader(fmt, writer.chunkStreamID);
      c := WireChunk(basic, writer.header, []);
      var b := EncodeChunkBasicHeader(basic);
      if b.None? { return false, false, c; }
      var h := EncodeChunkMessageHeader(fmt, writer.header);
      var payload := writer.Drain(expectLen);
      c := WireChunk(basic, writer.header, payload);
      assert ChunkBytes(c) == b.value + h + payload;
      out := out + (b.value + h + payload);
      ok, completed := true, |writer.buf| == 0;
    }

    /** Run after writeChunk: the writer it took off the queue is done, or goes to the back. */
    method Settle(writer: ChunkStreamWriter, completed: bool, ghost c: WireChunk)
      requires writers.Keys == model.writers.Keys
      requires forall k :: k in writers ==> writers[k] in repr && writers[k].chunkStreamID == k
      requires var id := writer.chunkStreamID;
               && id in writers && writers[id] == writer && id in model.current && !writer.done
               && (completed <==> writer.View().buf == [])
               && model.queue != [] && model.queue[0] == id
      requires forall k :: k in writers && k != writer.chunkStreamID ==> Linked(writers[k], k)
      requires |queue| == |model.queue| - 1
      requires forall j :: 1 <= j < |model.queue| ==>
                 model.queue[j] in writers && writers[model.queue[j]] == queue[j - 1]
      modifies this`queue, this`model, writer`done
      ensures WritersLinked() && model == AfterTurn(old(model), writer.chunkStreamID, writer.View(), c)
    {
      ghost var id := writer.chunkStreamID;
      if completed {
        writer.done := true;
      } else {
        queue := queue + [writer];
      }
      ghost var S := model;
      model := AfterTurn(S, id, writer.View(), c);
      assert model.writers.Keys == S.writers.Keys;
      forall i | 0 <= i < |S.queue| - 1 ensures model.queue[i] in writers && writers[model.queue[i]] == queue[i] {
        assert model.queue[i] == S.queue[i + 1];
      }
      forall k | k in writers ensures Linked(writers[k], k) {
        assert k != id ==> writers[k].chunkStreamID != id;
      }
    }

    /** The head of the queue sends one chunk, if its chunk stream id has an encoding. */
    method ServeHead() returns (ok: bool, ghost c: WireChunk)
      requires WritersLinked() && queue != []
      requires model.queue[0] in model.current
      modifies this`queue, this`out, this`model, repr
      ensures ok <==> ValidChunkStreamID(old(model).queue[0])
      ensures !ok ==> out == old(out)
      ensures ok ==> WritersLinked() && out == old(out) + ChunkBytes(c)
      ensures ok ==>
                var S, id := old(model), old(model.queue[0]);
                var (w, fmt, payload) := SendChunk(Compressed, S.writers[id], selfChunkSize);
                && c == WireChunk(BasicHeader(fmt, id), w.header, payload)
                && model == AfterTurn(S, id, w, c)
    {
      ghost var id := model.queue[0];
      var writer := queue[0];
      assert Linked(writer, id);
      queue := queue[1..];
      var completed;
      ok, completed, c := WriteChunk(writer);
      if !ok { return; }
      forall k | k in writers && k != id ensures Linked(writers[k], k) {
        assert writers[k].chunkStreamID != id;
      }
      Settle(writer, completed, c);
    }

    /** One turn of the loop of chunkStreamerWriterSched.Run. If the head's chunk stream id has no encoding the loop
        ends, and nothing was put out. */
    method RunTurn() returns (ok: bool)
      requires Valid() && queue != []
      modifies this`queue, this`out, this`model, this`events, repr
      ensures ok <==> ValidChunkStreamID(old(model).queue[0])
      ensures !ok ==> out == old(out)
      ensures ok ==>
                && Valid()
                && Scheduling.Between(old(model)) && old(model).queue != [] && model == Scheduling.RunTurn(old(model))
                && exists more :: events == old(events) + Scheduling.TurnEvents(more)
    {
      ghost var S, c, before := model, *, out;
      StandsMeans(initialSize, maxChunkStreams, S, events, out);
      Scheduling.HeadIsBusy(S);
      ok, c := ServeHead();
      if !ok { return; }
      ghost var more := StandsAfterTurn(initialSize, maxChunkStreams, S, events, before, model.writers[S.queue[0]], c);
      events := events + Scheduling.TurnEvents(more);
    }
  }
}
