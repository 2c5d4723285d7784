/** The server on bytes: the message loop reads a message off the chunks, decodes it and hands it to its stream's
    handler, and what the handler makes of the peer's state is what the next chunk is read by. */
module Service {
  import opened Bytes
  import opened ChunkStream
  import opened ControlState
  import opened HeaderIO
  import opened Receiving
  import opened Acknowledging
  import opened ReadSide
  import opened ServerConn
  import opened Sending
  import opened Lossless
  import Compression
  import Control
  import Server
  import ServerLog
  import Streams
  import WireFormat

  /** What the decoders make of a command message: a request with its body, or an answer to one. */
  datatype Spoken = Ask(body: Server.Body<Server.Command>) | Result

  /** The AMF part of the decoders, by payload; None is the message decoder's error. */
  datatype Bodies = Bodies(data: seq<Byte> -> Option<Server.Body<()>>, command: seq<Byte> -> Option<Spoken>)

  /** The decoders, and how the world takes part in handling the k-th message. */
  datatype Environment = Environment(bodies: Bodies, worlds: nat -> Server.World)

  /** Which of them the message decoder takes. */
  function AmfOf(b: Bodies): AmfReader {
    (typeID: Byte, p: seq<Byte>) => if typeID == Control.DATA_AMF0 then b.data(p).Some? else b.command(p).Some?
  }

  /** A message as its handler gets it; None is the decoder's error. */
  function Interpret(m: Message, b: Bodies): Option<Server.Incoming> {
    if m.typeID == Control.DATA_AMF0 then
      var d := b.data(m.payload);
      if d.None? then None else Some(Server.Data(d.value))
    else if m.typeID == Control.COMMAND_AMF0 then
      var d := b.command(m.payload);
      if d.None? then None else Some(if d.value.Ask? then Server.Request(d.value.body) else Server.Answer)
    else
      var d := Control.Decode(m.typeID, m.payload);
      if d.None? then None else Some(Kind(d.value))
  }

  function Kind(m: Control.ControlMessage): Server.Incoming {
    match m
    case SetChunkSize(n) => Server.ChunkSize(n)
    case WinAckSize(w) => Server.AckWindowSize(w)
    case Audio(_) => Server.Audio
    case Video(_) => Server.Video
    case _ => Server.Other
  }

  /** What the handlers get by the type ids of the wire: 18 is data, 20 a command, 8 audio, 9 video, 1 and 5 say the
      peer's chunk size and window in the first four bytes. */
  lemma InterpretIs(m: Message, b: Bodies)
    ensures m.typeID == 18 ==>
              Interpret(m, b) == var d := b.data(m.payload); if d.None? then None else Some(Server.Data(d.value))
    ensures m.typeID == 20 ==>
              Interpret(m, b) == var d := b.command(m.payload);
                                 if d.None? then None
                                 else Some(if d.value.Ask? then Server.Request(d.value.body) else Server.Answer)
    ensures m.typeID == 8 ==> Interpret(m, b) == Some(Server.Audio)
    ensures m.typeID == 9 ==> Interpret(m, b) == Some(Server.Video)
    ensures m.typeID == 1 && |m.payload| >= 4 && 1 <= WireFormat.Number32(m.payload) < 2147483648 ==>
              Interpret(m, b) == Some(Server.ChunkSize(WireFormat.Number32(m.payload)))
    ensures m.typeID == 5 && |m.payload| >= 4 ==>
              var n := WireFormat.Number32(m.payload);
              Interpret(m, b) == Some(Server.AckWindowSize(if n < 2147483648 then n else n - 4294967296))
    ensures m.typeID == 2 || m.typeID == 3 || m.typeID == 4 || m.typeID == 6 ==>
              Interpret(m, b) == None || Interpret(m, b) == Some(Server.Other)
    ensures m.typeID == 0 || m.typeID == 7 || 10 <= m.typeID <= 17 || m.typeID == 19 || m.typeID > 20 ==>
              Interpret(m, b) == None
  {
    if |m.payload| >= 4 { assert GetU32(m.payload[..4]) == WireFormat.Number32(m.payload); }
  }

  /** The reading half refuses exactly the messages of which the handlers get nothing. */
  lemma DecodableIff(R: Receiver, m: Message, b: Bodies)
    requires forall typeID, p :: R.amf(typeID, p) == AmfOf(b)(typeID, p)
    ensures Decodable(R, m) <==> Interpret(m, b).Some?
  {
  }

  /** A connection on its way: the server's state, the reading state and the counters, the number of messages handled
      and what is unread. */
  datatype Service = Service(
    connection: Server.Connection,
    reader: Receiver,
    acks: AckState,
    handled: nat,
    unread: seq<Byte>)

  /** The reading state after a message was handled: the peer's state is the handlers'. */
  function Follow(R: Receiver, S: Server.Connection): Receiver {
    R.(chunkSize := S.chunkSize, window := S.window)
  }

  /** Conn.handleMessage behind the decoder: what the handler got, if the message could be decoded, what it made of the
      connection, and whether that goes on. */
  ghost function Handled(c: Server.Config, S: Server.Connection, m: Message, env: Environment, k: nat)
    : (Option<Server.Input>, Server.Connection, bool)
  {
    var i := Interpret(m, env.bodies);
    if i.None? then (None, S, false)
    else
      var input := Server.Input(m.streamID, i.value, env.worlds(k));
      var (S', ok) := Server.HandleMessage(c, S, input);
      (Some(input), S', ok)
  }

  /** The next message, as it comes from the chunks. */
  function Next(v: Service): MessageRead {
    NextMessage(v.reader, v.acks, v.unread)
  }

  function MessageOf(n: MessageRead): Message
    requires n.Complete? && n.chunkStreamID in n.receiver.readers
  {
    Held(n.receiver.readers[n.chunkStreamID])
  }

  /** When it was read, and when the server has made S of it. */
  function Fetched(v: Service, n: MessageRead): Service
    requires n.Complete?
  {
    v.(reader := n.receiver, acks := n.acks, unread := n.rest)
  }

  function Answered(v: Service, S: Server.Connection): Service {
    v.(connection := S, reader := Follow(v.reader, S), handled := v.handled + 1)
  }

  function After(v: Service, n: MessageRead, S: Server.Connection): Service
    requires n.Complete?
  {
    Answered(Fetched(v, n), S)
  }

  /** Conn.runHandleMessageLoop: the server's state, the counters and what is unread when it ends. */
  ghost function ServeAll(c: Server.Config, env: Environment, v: Service): (Server.Connection, AckState, seq<Byte>)
    decreases |v.unread|
  {
    var n := Next(v);
    if n.Broken? then (v.connection, n.acks, n.rest)
    else
      var (_, S', ok) := Handled(c, v.connection, MessageOf(n), env, v.handled);
      if ok then ServeAll(c, env, After(v, n, S')) else (S', n.acks, n.rest)
  }

  /** The streamer's part of a round. */
  ghost predicate Fetches(v: Service, p: Option<Parcel>, v': Service) {
    forall k {:trigger Inside(k)} :: Inside(k) ==>
      var n := Next(v);
      if n.Broken? then p == None && v' == v.(reader := v'.reader, acks := n.acks, unread := n.rest)
      else p == Some(Parcel(n.chunkStreamID, MessageOf(n))) && v' == Fetched(v, n)
  }

  /** The handlers' part. */
  ghost predicate Responds(c: Server.Config, env: Environment, v: Service, m: Message, ok: bool, v': Service) {
    forall k {:trigger Inside(k)} :: Inside(k) ==>
      var (_, S', ok') := Handled(c, v.connection, m, env, v.handled);
      ok == ok' && v' == Answered(v, S')
  }

  /** After one round the rest of the loop does the rest, if there is one. */
  ghost predicate GoesOnAs(c: Server.Config, env: Environment, v: Service, ok: bool, v': Service) {
    && ServeAll(c, env, v) == (if ok then ServeAll(c, env, v') else (v'.connection, v'.acks, v'.unread))
    && (ok ==> |v'.unread| < |v.unread|)
  }

  lemma RoundServes(c: Server.Config, env: Environment, v: Service, p: Option<Parcel>, v1: Service, ok: bool,
                    v': Service)
    requires Fetches(v, p, v1)
    requires if p.None? then !ok && v' == v1 else Responds(c, env, v1, p.value.message, ok, v')
    ensures GoesOnAs(c, env, v, ok, v')
  {
    assert Inside(0);
  }

  //
  // Every byte sequence
  //

  /** The messages that the handlers get. */
  ghost function Arrivals(c: Server.Config, env: Environment, v: Service): seq<Server.Input>
    decreases |v.unread|
  {
    var n := Next(v);
    if n.Broken? then []
    else
      var (i, S', ok) := Handled(c, v.connection, MessageOf(n), env, v.handled);
      (if i.Some? then [i.value] else []) + if ok then Arrivals(c, env, After(v, n, S')) else []
  }

  /** The connection is as the loop over those messages leaves it. */
  lemma {:induction false} ServedIsLoop(c: Server.Config, env: Environment, v: Service)
    ensures ServeAll(c, env, v).0 == Server.Loop(c, v.connection, Arrivals(c, env, v)).0
    decreases |v.unread|
  {
    var n := Next(v);
    if n.Complete? {
      var (i, S', ok) := Handled(c, v.connection, MessageOf(n), env, v.handled);
      if ok { ServedIsLoop(c, env, After(v, n, S')); }
      if i.Some? {
        Server.LoopFirst(c, v.connection, i.value, if ok then Arrivals(c, env, After(v, n, S')) else []);
      }
    }
  }

  /** What Server.ServerHistorySafety says of every run. */
  ghost predicate Safe(c: Server.Config, S: Server.Connection) {
    && ServerLog.SafeLog(S.trace.log)
    && Server.InOrder(S.trace.past.table)
    && |S.trace.past.table| <= Streams.Room(c.maxStreams)
    && S.ignored <= c.threshold
  }

  /** At the start of the message loop. */
  ghost predicate Begins(c: Server.Config, v: Service) {
    Server.Serve(c, v.reader.chunkSize, v.reader.window) == Some(v.connection)
  }

  /** A server, whatever bytes arrive and in whatever state the reading starts, whatever their AMF parts mean, and
      however the application and the writes turn out: its log is safe and its streams are as they may be. */
  lemma BytesAreSafe(c: Server.Config, env: Environment, v: Service)
    requires Begins(c, v)
    ensures Safe(c, ServeAll(c, env, v).0)
  {
    ServedIsLoop(c, env, v);
    Server.ServerHistorySafety(c, v.reader.chunkSize, v.reader.window, Arrivals(c, env, v));
  }

  /** And its counters make up the bytes read. */
  lemma {:induction false} ServedCounts(c: Server.Config, env: Environment, v: Service, total: nat)
    requires Counts(v.acks, |v.unread|, total)
    ensures var end := ServeAll(c, env, v); Counts(end.1, |end.2|, total)
    decreases |v.unread|
  {
    var n := Next(v);
    NextAddsUp(v.reader, v.acks, v.unread, total);
    if n.Complete? {
      var (_, S', ok) := Handled(c, v.connection, MessageOf(n), env, v.handled);
      if ok { ServedCounts(c, env, After(v, n, S'), total); }
    }
  }

  /** The server is safe, and has counted what it has read of n bytes. */
  ghost predicate Ended(c: Server.Config, end: (Server.Connection, AckState, seq<Byte>), n: nat) {
    Safe(c, end.0) && |end.2| <= n && AddsUp(end.1, n - |end.2|)
  }

  /** A connection from its start. */
  lemma FromTheStart(c: Server.Config, env: Environment, v: Service)
    requires Begins(c, v) && v.acks == NO_ACKS
    ensures Ended(c, ServeAll(c, env, v), |v.unread|)
  {
    BytesAreSafe(c, env, v);
    assert AddsUp(v.acks, 0);
    ServedCounts(c, env, v, |v.unread|);
    assert Inside(0);
  }

  //
  // What the server handles is what the reading delivers
  //

  /** The reading is of this connection: the same limits, the same state of the peer, the same AMF. */
  ghost predicate Fits(c: Server.Config, S: Server.Connection, R: Receiver, b: Bodies) {
    && R.chunkSize == S.chunkSize && R.window == S.window
    && R.maxChunkSize == c.maxChunkSize && R.maxWindow == c.maxWindow
    && forall typeID, p :: R.amf(typeID, p) == AmfOf(b)(typeID, p)
  }

  predicate SetsState(m: Message) {
    m.typeID == Control.SET_CHUNK_SIZE || m.typeID == Control.WIN_ACK_SIZE
  }

  /** A message that sets the peer's state comes on a stream that exists. */
  predicate OnStream(S: Server.Connection, m: Message) {
    SetsState(m) ==> m.streamID in S.trace.past.table
  }

  /** Then a message that the server handles without an error is dispatched as the reading has it. */
  lemma HandledAsDispatched(c: Server.Config, S: Server.Connection, R: Receiver, m: Message, env: Environment, k: nat)
    requires Fits(c, S, R, env.bodies) && OnStream(S, m)
    ensures var (_, S', ok) := Handled(c, S, m, env, k);
            ok ==> Dispatch(R, m) == Some(Follow(R, S'))
  {
  }

  /** The messages handed over. */
  ghost function Handed(c: Server.Config, env: Environment, v: Service): seq<Parcel>
    decreases |v.unread|
  {
    var n := Next(v);
    if n.Broken? then []
    else
      var (_, S', ok) := Handled(c, v.connection, MessageOf(n), env, v.handled);
      [Parcel(n.chunkStreamID, MessageOf(n))] + if ok then Handed(c, env, After(v, n, S')) else []
  }

  /** All of them are so. */
  ghost predicate Heeded(c: Server.Config, env: Environment, v: Service)
    decreases |v.unread|
  {
    var n := Next(v);
    n.Complete? ==>
      var (_, S', ok) := Handled(c, v.connection, MessageOf(n), env, v.handled);
      OnStream(v.connection, MessageOf(n)) && (ok ==> Heeded(c, env, After(v, n, S')))
  }

  /** Reading a message changes the readers only. */
  lemma {:induction false} NextFits(R: Receiver, a: AckState, input: seq<Byte>)
    ensures var n := NextMessage(R, a, input); n.Complete? ==> n.receiver == R.(readers := n.receiver.readers)
    decreases |input|
  {
    var d := ReadChunk(R, input);
    if d.Got? && !d.receiver.readers[d.chunkStreamID].completed {
      NextFits(d.receiver, AfterChunk(a, |input| - |d.rest|, R.window), d.rest);
    }
  }

  /** A delivered message stays delivered. */
  lemma OnwardsKeeps(R: Receiver, got: seq<Parcel>, a: AckState, id: int, rest: seq<Byte>)
    requires id in R.readers
    ensures got + [Parcel(id, Held(R.readers[id]))] <= Onwards(R, got, a, id, rest).reading.got
  {
    var p, d := Parcel(id, Held(R.readers[id])), Dispatch(R, Held(R.readers[id]));
    if d.Some? {
      SessionReads(d.value, got + [p], a, rest);
      GotGrows(d.value, got + [p], rest);
    }
  }

  /** The whole session from the next message on. */
  lemma SessionNext(v: Service, got: seq<Parcel>)
    requires Next(v).Complete?
    ensures var n := Next(v);
            WholeSession(v.reader, got, v.acks, v.unread) == Onwards(n.receiver, got, n.acks, n.chunkStreamID, n.rest)
  {
    MessageByMessage(v.reader, got, v.acks, v.unread);
  }

  /** A message that is handled without an error is one of the session, which goes on from what the server makes of
      it. */
  lemma SessionFollows(c: Server.Config, env: Environment, v: Service, got: seq<Parcel>)
    requires Fits(c, v.connection, v.reader, env.bodies)
    requires Next(v).Complete? && OnStream(v.connection, MessageOf(Next(v)))
    requires Handled(c, v.connection, MessageOf(Next(v)), env, v.handled).2
    ensures var n := Next(v);
            var v' := After(v, n, Handled(c, v.connection, MessageOf(n), env, v.handled).1);
            var got' := got + [Parcel(n.chunkStreamID, MessageOf(n))];
            && Fits(c, v'.connection, v'.reader, env.bodies)
            && WholeSession(v.reader, got, v.acks, v.unread) == WholeSession(v'.reader, got', v'.acks, v'.unread)
  {
    var n := Next(v);
    SessionNext(v, got);
    NextFits(v.reader, v.acks, v.unread);
    HandledAsDispatched(c, v.connection, n.receiver, MessageOf(n), env, v.handled);
  }

  /** The server hands `handed` over where the reading, that has delivered `got`, delivers `all` in the end. */
  ghost predicate Serving(c: Server.Config, env: Environment, v: Service, got: seq<Parcel>, handed: seq<Parcel>,
                          all: seq<Parcel>)
  {
    forall n {:trigger Inside(n)} :: Inside(n) ==>
      && Fits(c, v.connection, v.reader, env.bodies) && Heeded(c, env, v)
      && handed == Handed(c, env, v) && all == WholeSession(v.reader, got, v.acks, v.unread).reading.got
  }

  /** One message further, if it is not refused. */
  lemma ServingStep(c: Server.Config, env: Environment, v: Service, got: seq<Parcel>, handed: seq<Parcel>,
                    all: seq<Parcel>)
    returns (v': Service, p: seq<Parcel>)
    requires Serving(c, env, v, got, handed, all)
    ensures p <= handed && got + p <= all
    ensures p != handed ==> |v'.unread| < |v.unread| && Serving(c, env, v', got + p, handed[|p|..], all)
  {
    assert Inside(0);
    var n := Next(v);
    v', p := v, [];
    if n.Broken? {
      MessageByMessage(v.reader, got, v.acks, v.unread);
    } else {
      p := [Parcel(n.chunkStreamID, MessageOf(n))];
      SessionNext(v, got);
      OnwardsKeeps(n.receiver, got, n.acks, n.chunkStreamID, n.rest);
      var (_, S', ok) := Handled(c, v.connection, MessageOf(n), env, v.handled);
      v' := After(v, n, S');
      if ok {
        SessionFollows(c, env, v, got);
        assert handed == p + Handed(c, env, v');
      } else {
        assert handed == p;
      }
    }
  }

  lemma {:induction false} ServingPrefix(c: Server.Config, env: Environment, v: Service, got: seq<Parcel>,
                                         handed: seq<Parcel>, all: seq<Parcel>)
    requires Serving(c, env, v, got, handed, all)
    ensures got + handed <= all
    decreases |v.unread|
  {
    var v', p := ServingStep(c, env, v, got, handed, all);
    if p != handed {
      ServingPrefix(c, env, v', got + p, handed[|p|..], all);
      assert got + p + handed[|p|..] == got + handed;
    }
  }

  /** What the server handles is what the reading delivers, until a message is refused. */
  lemma ServesReading(c: Server.Config, env: Environment, v: Service)
    requires Fits(c, v.connection, v.reader, env.bodies) && Heeded(c, env, v)
    ensures Handed(c, env, v) <= ReadAll(v.reader, [], v.unread).got
  {
    ServingPrefix(c, env, v, [], Handed(c, env, v), WholeSession(v.reader, [], v.acks, v.unread).reading.got);
    SessionReads(v.reader, [], v.acks, v.unread);
    assert [] + Handed(c, env, v) == Handed(c, env, v);
  }

  /** A client and the server. Of the messages that a client's chunk layer has completely sent, the server handles the
      first ones, in order and whole, with the timestamps that the reader's clocks show, until it refuses one. */
  lemma ClientIsServed(mode: Mode, n: U32, maxStreams: int, es: seq<Sending.Event>, c: Server.Config, env: Environment,
                       v: Service)
    requires n > 0 && maxStreams >= 0 && FreshPeer(v.reader, n, maxStreams)
    requires Runs(Initial(mode, n, maxStreams), es) && Transmits(Initial(mode, n, maxStreams), es, v.reader)
    requires v.unread == WireBytes(Run(Initial(mode, n, maxStreams), es).wire)
    requires Fits(c, v.connection, v.reader, env.bodies) && Heeded(c, env, v)
    ensures var sent, handed := Run(Initial(mode, n, maxStreams), es).sent, Handed(c, env, v);
            |handed| <= |sent| && forall i :: 0 <= i < |handed| ==> handed[i] == Delivered(mode, sent, i)
  {
    LosslessMultiplexing(mode, n, maxStreams, v.reader, es);
    Compression.ModeKept(Initial(mode, n, maxStreams), es);
    ServesReading(c, env, v);
  }

  //
  // The source's form
  //

  /** A Conn with its streamer: both hold the one state of the peer. `handled` counts the messages. */
  class ServerSession {
    const conn: Conn
    const streamer: ReadSide
    var handled: nat

    constructor (conn: Conn, streamer: ReadSide)
      requires conn.Valid() && streamer.Valid() && conn.peerState == streamer.peerState
      ensures this.conn == conn && this.streamer == streamer && handled == 0 && Valid()
    {
      this.conn, this.streamer, handled := conn, streamer, 0;
    }

    ghost predicate Valid()
      reads this, conn, conn.streams, conn.streams.repr, conn.peerState, streamer, streamer.repr, streamer.peerState
    {
      conn.Valid() && streamer.Valid() && conn.peerState == streamer.peerState
    }

    ghost function View(): Service
      reads this, conn, conn.peerState, streamer, streamer.r
    {
      Service(conn.View(), streamer.model, streamer.Acks(), handled, streamer.r.input)
    }

    /** The connection, the counters and what is unread. */
    ghost function Stand(): (Server.Connection, AckState, seq<Byte>)
      reads this, conn, conn.peerState, streamer, streamer.r
    {
      (conn.View(), streamer.Acks(), streamer.r.input)
    }

    /** The handlers' part. */
    method Answer(m: Message, env: Environment) returns (ok: bool)
      requires Valid()
      modifies conn, conn.peerState, conn.streams, conn.streams.repr, streamer`model
      ensures Valid() && fresh(conn.streams.repr - old(conn.streams.repr))
      ensures var (_, S', ok') := Handled(conn.config, old(conn.View()), m, env, handled);
              && ok == ok' && conn.View() == S' && streamer.model == Follow(old(streamer.model), S')
    {
      var i := Interpret(m, env.bodies);
      if i.None? { return false; }
      ok := conn.HandleOne(Server.Input(m.streamID, i.value, env.worlds(handled)));
      streamer.FollowPeer();
    }

    /** Conn.handleMessage, behind the decoder. */
    method HandleMessage(m: Message, env: Environment) returns (ok: bool)
      requires Valid()
      modifies this`handled, conn, conn.peerState, conn.streams, conn.streams.repr, streamer`model
      ensures Valid() && fresh(conn.streams.repr - old(conn.streams.repr)) && streamer.repr == old(streamer.repr)
      ensures Responds(conn.config, env, old(View()), m, ok, View())
    {
      ok := Answer(m, env);
      handled := handled + 1;
    }

    /** The streamer's part of a round; nothing of the connection is touched. */
    method ReadNext() returns (p: Option<Parcel>)
      requires Valid()
      modifies streamer, streamer.r, streamer.repr
      ensures Valid() && fresh(streamer.repr - old(streamer.repr)) && conn.View() == old(conn.View())
      ensures Fetches(old(View()), p, View())
    {
      p := streamer.Read();
    }

    /** One round of the loop. */
    method Serve(env: Environment) returns (ok: bool)
      requires Valid()
      modifies this`handled, conn, conn.peerState, conn.streams, conn.streams.repr, streamer, streamer.r, streamer.repr
      ensures Valid() && fresh(conn.streams.repr - old(conn.streams.repr)) && fresh(streamer.repr - old(streamer.repr))
      ensures GoesOnAs(conn.config, env, old(View()), ok, View())
    {
      var p := ReadNext();
      ghost var v := View();
      if p.None? {
        ok := false;
      } else {
        ok := HandleMessage(p.value.message, env);
      }
      RoundServes(conn.config, env, old(View()), p, v, ok, View());
    }

    /** Conn.runHandleMessageLoop. */
    method RunHandleMessageLoop(env: Environment)
      requires Valid()
      modifies this`handled, conn, conn.peerState, conn.streams, conn.streams.repr, streamer, streamer.r, streamer.repr
      ensures Valid() && Stand() == ServeAll(conn.config, env, old(View()))
    {
      ghost var goal := ServeAll(conn.config, env, View());
      while true
        invariant Valid() && fresh(conn.streams.repr - old(conn.streams.repr))
        invariant fresh(streamer.repr - old(streamer.repr)) && ServeAll(conn.config, env, View()) == goal
        decreases |streamer.r.input|
      {
        var ok := Serve(env);
        if !ok { return; }
      }
    }
  }

  /** serverConn.Serve up to the message loop, with the connection's streamer. */
  method Start(c: Server.Config, peerState: StreamControlState, maxChunkStreams: int, r: ChunkStreamerReader,
               amf: AmfReader)
    returns (s: ServerSession?)
    requires peerState.maxChunkSize == c.maxChunkSize && peerState.maxAckWindowSize == c.maxWindow
    requires r.Counters() == Tally(0, 0)
    ensures s == null <==> c.maxStreams <= 0
    ensures s != null ==>
              && s.Valid() && s.conn.config == c && s.streamer.r == r && s.conn.peerState == peerState
              && fresh(s) && fresh(s.conn) && fresh(s.conn.streams) && fresh(s.conn.streams.repr)
              && fresh(s.streamer) && fresh(s.streamer.repr)
              && Begins(c, s.View()) && s.View().acks == NO_ACKS && s.View().unread == r.input
  {
    var conn := new Conn(c, peerState);
    var ok := conn.Open();
    if !ok { return null; }
    var streamer := new ReadSide(r, peerState, maxChunkStreams, amf);
    s := new ServerSession(conn, streamer);
  }

  /** Whatever bytes arrive and whatever else happens, the log is safe when the loop has ended, and every byte read is
      counted. */
  method ServeConnection(c: Server.Config, peerState: StreamControlState, maxChunkStreams: int, r: ChunkStreamerReader,
                         env: Environment)
    returns (s: ServerSession?)
    requires peerState.maxChunkSize == c.maxChunkSize && peerState.maxAckWindowSize == c.maxWindow
    requires r.Counters() == Tally(0, 0)
    modifies r, peerState
    ensures s == null <==> c.maxStreams <= 0
    ensures s != null ==> s.streamer.r == r && Ended(c, s.Stand(), |old(r.input)|)
  {
    s := Start(c, peerState, maxChunkStreams, r, AmfOf(env.bodies));
    if s != null {
      FromTheStart(c, env, s.View());
      s.RunHandleMessageLoop(env);
    }
  }
}
