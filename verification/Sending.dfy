/** The writing half of ChunkStreamer as a state machine: Write acquires a writer and schedules it,
    Run takes writers from a bounded queue, sends one chunk of each and queues it again. */
module Sending {
  import opened Bytes
  import opened ChunkHeader
  import opened ChunkStream
  import opened Receiving
  import Control

  const QUEUE_SIZE := 64
  const CONTROL_CHUNK_STREAM := 2
  const CONTROL_STREAM: U32 := 0

  /** What Run has in its hands: nothing, a writer it took from the queue, or a writer whose chunk it
      has sent and which it must queue again. */
  datatype Flight = Grounded | Taken(id: int) | Unfinished(id: int)

  /** `wire` holds the chunks written so far. The last five fields are history: the message each busy
      writer carries, all messages handed to Write, all messages completely sent, the chunk stream of each
      chunk sent, and the chunk size last announced by a completely sent message. */
  datatype Sender = Sender(
    mode: Mode,
    writers: map<int, WriterMem>,
    held: set<int>,
    queue: seq<int>,
    flight: Flight,
    chunkSize: U32,
    maxStreams: int,
    wire: seq<WireChunk>,
    current: map<int, Message>,
    written: seq<Parcel>,
    sent: seq<Parcel>,
    chunks: seq<int>,
    announced: U32)

  /** Acquire and Enqueue are the two halves of Write; Take, Emit and Requeue those of one turn of Run;
      SetSize is the start of CreateStream, which then writes a SetChunkSize message like any other. */
  datatype Event =
    | Acquire(id: int, message: Message)
    | Enqueue(id: int)
    | Take
    | Emit
    | Requeue
    | SetSize(chunkSize: U32)

  function Initial(mode: Mode, chunkSize: U32, maxStreams: int): Sender {
    Sender(mode, map[], {}, [], Grounded, chunkSize, maxStreams, [], map[], [], [], [], chunkSize)
  }

  function WriterOf(S: Sender, id: int): WriterMem {
    if id in S.writers then S.writers[id] else FRESH_WRITER
  }

  /** The message of WriteSetChunkSize, which CreateStream writes on the control stream. */
  function SizeMessage(n: U32): Message {
    Message(0, Control.SET_CHUNK_SIZE, CONTROL_STREAM, PutU32(n))
  }

  /** The chunk size announced after a message, if `before` was. */
  function AnnouncedBy(m: Message, before: U32): U32 {
    if m.typeID != Control.SET_CHUNK_SIZE then before
    else
      var c := Control.Decode(m.typeID, m.payload);
      if c.None? then before else c.value.chunkSize
  }

  /** What a peer that has read everything sent cuts by. */
  function PeerSize(S: Sender): U32 {
    Min(S.announced, MAX_CHUNK_SIZE)
  }

  /** Write gets past prepareChunkWriter and Wait: the limit allows the writer and its last message is done.
      Whether its id has an encoding is seen only when its first chunk is written. */
  predicate CanAcquire(S: Sender, id: int, m: Message) {
    && (id in S.writers || |S.writers| < S.maxStreams)
    && id !in S.current
    && |WriterOf(S, id).buf| + |m.payload| <= MAX_U32
  }

  predicate Enabled(S: Sender, e: Event) {
    match e
    case Acquire(id, m) => CanAcquire(S, id, m)
    case Enqueue(id) => id in S.held && |S.queue| < QUEUE_SIZE
    case Take => S.flight == Grounded && S.queue != []
    case Emit =>
      && S.flight.Taken? && S.flight.id in S.writers && S.flight.id in S.current
      && ValidChunkStreamID(S.flight.id)
    case Requeue => S.flight.Unfinished? && |S.queue| < QUEUE_SIZE
    case SetSize(n) => n > 0
  }

  function DoAcquire(S: Sender, id: int, m: Message): Sender
    requires CanAcquire(S, id, m)
  {
    S.(writers := S.writers[id := Load(WriterOf(S, id), m)],
       held := S.held + {id},
       current := S.current[id := m],
       written := S.written + [Parcel(id, m)])
  }

  function DoEnqueue(S: Sender, id: int): Sender {
    S.(held := S.held - {id}, queue := S.queue + [id])
  }

  /** Run after writeChunk: `w` is the writer in flight afterwards and chunk `c` went out. */
  function Land(S: Sender, w: WriterMem, c: WireChunk): Sender
    requires Enabled(S, Emit)
  {
    var id := S.flight.id;
    var S' := S.(writers := S.writers[id := w], wire := S.wire + [c], chunks := S.chunks + [id]);
    if w.buf == []
    then S'.(flight := Grounded, current := S.current - {id}, sent := S.sent + [Parcel(id, S.current[id])],
             announced := AnnouncedBy(S.current[id], S.announced))
    else S'.(flight := Unfinished(id))
  }

  function DoEmit(S: Sender): Sender
    requires Enabled(S, Emit)
  {
    var id := S.flight.id;
    var (w, fmt, payload) := SendChunk(S.mode, S.writers[id], S.chunkSize);
    Land(S, w, WireChunk(BasicHeader(fmt, id), w.header, payload))
  }

  function Step(S: Sender, e: Event): Sender
    requires Enabled(S, e)
  {
    match e
    case Acquire(id, m) => DoAcquire(S, id, m)
    case Enqueue(id) => DoEnqueue(S, id)
    case Take => S.(flight := Taken(S.queue[0]), queue := S.queue[1..])
    case Emit => DoEmit(S)
    case Requeue => S.(flight := Grounded, queue := S.queue + [S.flight.id])
    case SetSize(n) => S.(chunkSize := n)
  }

  ghost predicate Runs(S: Sender, es: seq<Event>)
    decreases |es|
  {
    es == [] || (Enabled(S, es[0]) && Runs(Step(S, es[0]), es[1..]))
  }

  function Run(S: Sender, es: seq<Event>): Sender
    requires Runs(S, es)
    decreases |es|
  {
    if es == [] then S else Run(Step(S, es[0]), es[1..])
  }

  /** The messages of one chunk stream. */
  function Hist(ps: seq<Parcel>, id: int): seq<Message> {
    if ps == [] then []
    else
      var p := ps[|ps| - 1];
      Hist(ps[..|ps| - 1], id) + (if p.chunkStreamID == id then [p.message] else [])
  }

  lemma HistAppend(ps: seq<Parcel>, p: Parcel, id: int)
    ensures Hist(ps + [p], id) == Hist(ps, id) + (if p.chunkStreamID == id then [p.message] else [])
  {
    assert (ps + [p])[..|ps|] == ps;
  }

  lemma SubsetCount(a: set<int>, b: set<int>)
    requires a <= b
    ensures |a| <= |b|
  {
    assert b == a + (b - a) && a !! (b - a);
    assert |a + (b - a)| == |a| + |b - a|;
  }

  //
  // Ownership
  //

  function Flying(f: Flight): set<int> {
    if f.Grounded? then {} else {f.id}
  }

  predicate Distinct(q: seq<int>) {
    forall i, j :: 0 <= i < j < |q| ==> q[i] != q[j]
  }

  /** A busy writer is held by a Write, queued once, or in Run's hands, and in one of these only. */
  ghost predicate Partitioned(S: Sender) {
    && Distinct(S.queue)
    && (forall id :: id in S.queue ==> id !in S.held && id !in Flying(S.flight))
    && S.held !! Flying(S.flight)
    && (forall id :: id in S.current <==> id in S.held || id in S.queue || id in Flying(S.flight))
  }

  /** What the writer of a chunk stream contains: nothing when idle; otherwise the unsent end of its
      message, all of it until Run first takes it. */
  ghost predicate Carries(S: Sender, id: int)
    requires id in S.writers
  {
    var w := S.writers[id];
    if id !in S.current then w.buf == []
    else
      var m := S.current[id];
      && Describes(w, m)
      && |w.buf| <= |m.payload| && w.buf == m.payload[|m.payload| - |w.buf|..]
      && (w.newChunk ==> w.buf == m.payload)
      && (id in S.held ==> w.newChunk)
      && (S.flight == Unfinished(id) ==> !w.newChunk && w.buf != [])
  }

  /** What holds of every reachable state (Owns). */
  ghost predicate Owned(S: Sender) {
    forall n {:trigger Inside(n)} :: Inside(n) ==> Owns(S)
  }

  ghost predicate Owns(S: Sender) {
    && Partitioned(S)
    && S.current.Keys <= S.writers.Keys
    && |S.writers| <= S.maxStreams
    && |S.queue| <= QUEUE_SIZE
    && (forall id :: id in S.writers ==> Carries(S, id))
    && (forall id :: OneMore(S.written, S.sent, S.current, id))
  }

  /** Of the messages written on a chunk stream all are sent but the one in progress, if any. */
  predicate OneMore(written: seq<Parcel>, sent: seq<Parcel>, current: map<int, Message>, id: int) {
    Hist(written, id) == Hist(sent, id) + (if id in current then [current[id]] else [])
  }

  lemma AllSent(S: Sender, id: int)
    requires OneMore(S.written, S.sent, S.current, id) && S.current == map[]
    ensures Hist(S.written, id) == Hist(S.sent, id)
  {
    assert Hist(S.sent, id) + [] == Hist(S.sent, id);
  }

  lemma InitialOwned(mode: Mode, chunkSize: U32, maxStreams: int)
    requires maxStreams >= 0
    ensures Owned(Initial(mode, chunkSize, maxStreams))
  {
  }

  lemma AcquirePartitioned(S: Sender, id: int, m: Message)
    requires Partitioned(S) && CanAcquire(S, id, m)
    ensures Partitioned(DoAcquire(S, id, m))
  {
  }

  lemma AcquireCarries(S: Sender, id: int, m: Message, k: int)
    requires CanAcquire(S, id, m) && k in DoAcquire(S, id, m).writers
    requires k in S.writers ==> Carries(S, k)
    requires k in S.current ==> k in S.writers
    requires id !in Flying(S.flight)
    ensures Carries(DoAcquire(S, id, m), k)
  {
  }

  lemma AcquireOneMore(S: Sender, id: int, m: Message, k: int)
    requires CanAcquire(S, id, m) && OneMore(S.written, S.sent, S.current, k)
    ensures var S' := DoAcquire(S, id, m); OneMore(S'.written, S'.sent, S'.current, k)
  {
    HistAppend(S.written, Parcel(id, m), k);
  }

  lemma AllAcquireCarries(S: Sender, id: int, m: Message)
    requires CanAcquire(S, id, m) && S.current.Keys <= S.writers.Keys && id !in Flying(S.flight)
    requires forall k :: k in S.writers ==> Carries(S, k)
    ensures forall k :: k in DoAcquire(S, id, m).writers ==> Carries(DoAcquire(S, id, m), k)
  {
    forall k | k in DoAcquire(S, id, m).writers ensures Carries(DoAcquire(S, id, m), k) {
      assert k in S.current ==> k in S.current.Keys;
      AcquireCarries(S, id, m, k);
    }
  }

  lemma AllAcquireOneMore(S: Sender, id: int, m: Message)
    requires CanAcquire(S, id, m) && forall k :: OneMore(S.written, S.sent, S.current, k)
    ensures var S' := DoAcquire(S, id, m); forall k :: OneMore(S'.written, S'.sent, S'.current, k)
  {
    var S' := DoAcquire(S, id, m);
    forall k ensures OneMore(S'.written, S'.sent, S'.current, k) { AcquireOneMore(S, id, m, k); }
  }

  lemma AcquireTable(S: Sender, id: int, m: Message)
    requires CanAcquire(S, id, m) && S.current.Keys <= S.writers.Keys && |S.writers| <= S.maxStreams
    ensures var S' := DoAcquire(S, id, m); S'.current.Keys <= S'.writers.Keys && |S'.writers| <= S'.maxStreams
  {
    assert DoAcquire(S, id, m).writers.Keys == S.writers.Keys + {id};
  }

  lemma AcquireOwned(S: Sender, id: int, m: Message)
    requires Owned(S) && CanAcquire(S, id, m)
    ensures Owned(DoAcquire(S, id, m))
  {
    assert Inside(0);
    AcquirePartitioned(S, id, m);
    AcquireTable(S, id, m);
    AllAcquireCarries(S, id, m);
    AllAcquireOneMore(S, id, m);
  }

  /** Moving writers between the places they can be in. */
  lemma MovedOwned(S: Sender, S': Sender)
    requires Owned(S) && Partitioned(S') && |S'.queue| <= QUEUE_SIZE && S'.held <= S.held
    requires S' == S.(queue := S'.queue, held := S'.held, flight := S'.flight, chunkSize := S'.chunkSize)
    requires S'.flight.Unfinished? ==> S'.flight == S.flight
    ensures Owned(S')
  {
    assert Inside(0);
    forall k | k in S'.writers ensures Carries(S', k) { assert Carries(S, k); }
  }

  lemma EnqueueOwned(S: Sender, id: int)
    requires Owned(S) && id in S.held && |S.queue| < QUEUE_SIZE
    ensures Owned(DoEnqueue(S, id))
  {
    assert Inside(0);
    var S' := DoEnqueue(S, id);
    assert forall k :: k in S'.queue <==> k in S.queue || k == id;
    MovedOwned(S, S');
  }

  lemma TakeOwned(S: Sender)
    requires Owned(S) && Enabled(S, Take)
    ensures Owned(Step(S, Take))
  {
    assert Inside(0);
    var S' := Step(S, Take);
    assert forall k :: k in S.queue <==> k in S'.queue || k == S.queue[0];
    MovedOwned(S, S');
  }

  lemma RequeueOwned(S: Sender)
    requires Owned(S) && Enabled(S, Requeue)
    ensures Owned(Step(S, Requeue))
  {
    assert Inside(0);
    var S' := Step(S, Requeue);
    assert forall k :: k in S'.queue <==> k in S.queue || k == S.flight.id;
    MovedOwned(S, S');
  }

  lemma LandPartitioned(S: Sender, w: WriterMem, c: WireChunk)
    requires Partitioned(S) && Enabled(S, Emit)
    ensures Partitioned(Land(S, w, c))
  {
  }

  lemma LandCarries(S: Sender, w: WriterMem, c: WireChunk, n: nat, k: int)
    requires Enabled(S, Emit) && k in S.writers && Carries(S, k) && S.flight.id !in S.held
    requires var w0 := S.writers[S.flight.id];
             n <= |w0.buf| && !w.newChunk && w.buf == w0.buf[n..] && Describes(w, S.current[S.flight.id])
    ensures Carries(Land(S, w, c), k)
  {
    var id := S.flight.id;
    if k == id {
      var w0, m := S.writers[id], S.current[id];
      assert w.buf == m.payload[|m.payload| - |w0.buf| + n..];
    }
  }

  lemma LandOwned(S: Sender, w: WriterMem, c: WireChunk, n: nat)
    requires Owned(S) && Enabled(S, Emit)
    requires var w0 := S.writers[S.flight.id];
             n <= |w0.buf| && !w.newChunk && w.buf == w0.buf[n..] && Describes(w, S.current[S.flight.id])
    ensures Owned(Land(S, w, c))
  {
    assert Inside(0);
    var S' := Land(S, w, c);
    var id := S.flight.id;
    LandPartitioned(S, w, c);
    assert S'.writers.Keys == S.writers.Keys;
    forall k ensures OneMore(S'.written, S'.sent, S'.current, k) {
      assert OneMore(S.written, S.sent, S.current, k);
      HistAppend(S.sent, Parcel(id, S.current[id]), k);
    }
    forall k | k in S'.writers ensures Carries(S', k) {
      LandCarries(S, w, c, n, k);
    }
  }

  lemma {:induction false} EmitOwned(S: Sender)
    requires Owned(S) && Enabled(S, Emit)
    ensures Owned(DoEmit(S))
  {
    assert Inside(0);
    var id := S.flight.id;
    assert Carries(S, id);
    var w0 := S.writers[id];
    var (w, fmt, payload) := SendChunk(S.mode, w0, S.chunkSize);
    LandOwned(S, w, WireChunk(BasicHeader(fmt, id), w.header, payload), Min(|w0.buf|, S.chunkSize));
  }

  lemma SetSizeOwned(S: Sender, n: U32)
    requires Owned(S)
    ensures Owned(S.(chunkSize := n))
  {
    assert Inside(0);
    assert Partitioned(S.(chunkSize := n));
    MovedOwned(S, S.(chunkSize := n));
  }

  /** A busy writer is as it was, unless it was Run that sent a chunk of it. */
  ghost predicate Untouched(S: Sender, e: Event, S': Sender) {
    forall id :: id in S.current && id in S.writers && !(e.Emit? && S.flight == Taken(id)) ==>
      id in S'.writers && S'.writers[id] == S.writers[id]
  }

  /** What every step keeps: exclusive ownership, and the header fields and buffer of every busy writer but the
      one whose chunk is written. */
  lemma {:induction false} StepOwned(S: Sender, e: Event)
    requires Owned(S) && Enabled(S, e)
    ensures Owned(Step(S, e))
    ensures Untouched(S, e, Step(S, e))
  {
    match e
    case Acquire(id, m) => AcquireOwned(S, id, m);
    case Enqueue(id) => EnqueueOwned(S, id);
    case Take => TakeOwned(S);
    case Emit => EmitOwned(S);
    case Requeue => RequeueOwned(S);
    case SetSize(n) => SetSizeOwned(S, n);
  }

  /** Every reachable state: ownership is exclusive, and on each chunk stream the messages handed to
      Write are the completed ones, in order, and at most one more in progress. */
  lemma {:induction false} RunOwned(S: Sender, es: seq<Event>)
    requires Owned(S) && Runs(S, es)
    ensures Owned(Run(S, es))
    decreases |es|
  {
    if es != [] {
      StepOwned(S, es[0]);
      RunOwned(Step(S, es[0]), es[1..]);
    }
  }

  /** Going on from a run. */
  lemma {:induction false} RunExtends(S: Sender, es: seq<Event>, e: Event)
    requires Runs(S, es) && Enabled(Run(S, es), e)
    ensures Runs(S, es + [e]) && Run(S, es + [e]) == Step(Run(S, es), e)
    decreases |es|
  {
    if es == [] {
      assert [e][1..] == [] && Runs(Step(S, e), []);
    } else {
      assert (es + [e])[1..] == es[1..] + [e];
      RunExtends(Step(S, es[0]), es[1..], e);
    }
  }

  lemma {:induction false} RunThen(S: Sender, a: seq<Event>, b: seq<Event>)
    requires Runs(S, a) && Runs(Run(S, a), b)
    ensures Runs(S, a + b) && Run(S, a + b) == Run(Run(S, a), b)
    decreases |a|
  {
    if a == [] {
      assert a + b == b;
    } else {
      assert (a + b)[1..] == a[1..] + b;
      RunThen(Step(S, a[0]), a[1..], b);
    }
  }
}
