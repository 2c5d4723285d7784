/** A client and the server, from the messages that the client writes to what the application on the server is called
    with: nothing is lost on the way, and the message loop does not end early. */
module EndToEnd {
  import opened Bytes
  import opened ChunkStream
  import opened Receiving
  import opened Acknowledging
  import opened Sending
  import opened Lossless
  import opened Service
  import Server
  import ServerLog
  import Streams
  import Transcripts
  import WireFormat

  /** The server takes the k-th message, and makes S' of its state; one that sets the peer's state is on a stream that
      exists. */
  ghost predicate Takes(c: Server.Config, env: Environment, k: nat, S: Server.Connection, m: Message,
                        S': Server.Connection)
  {
    forall n {:trigger Inside(n)} :: Inside(n) ==>
      var (_, S1, ok) := Handled(c, S, m, env, k);
      ok && S1 == S' && OnStream(S, m)
  }

  /** It takes these messages, one after the other from the k-th on, and goes through these states. */
  ghost predicate TakesAll(c: Server.Config, env: Environment, k: nat, states: seq<Server.Connection>,
                           ps: seq<Parcel>)
  {
    && |states| == |ps| + 1
    && forall i :: 0 <= i < |ps| ==> Takes(c, env, k + i, states[i], ps[i].message, states[i + 1])
  }

  /** The reading fits the connection, has delivered `got` and will deliver `ps` more. */
  ghost predicate Awaits(c: Server.Config, env: Environment, v: Service, got: seq<Parcel>, ps: seq<Parcel>) {
    forall n {:trigger Inside(n)} :: Inside(n) ==>
      && Fits(c, v.connection, v.reader, env.bodies)
      && WholeSession(v.reader, got, v.acks, v.unread).reading.got == got + ps
  }

  /** The next message is the next of them. */
  lemma NextIs(c: Server.Config, env: Environment, v: Service, got: seq<Parcel>, ps: seq<Parcel>)
    requires Awaits(c, env, v, got, ps)
    ensures Next(v).Complete? <==> ps != []
    ensures ps != [] ==> ps[0] == Parcel(Next(v).chunkStreamID, MessageOf(Next(v)))
  {
    assert Inside(0);
    var n := Next(v);
    MessageByMessage(v.reader, got, v.acks, v.unread);
    assert |got + ps| == |got| + |ps|;
    if n.Complete? {
      SessionNext(v, got);
      OnwardsKeeps(n.receiver, got, n.acks, n.chunkStreamID, n.rest);
      assert (got + ps)[|got|] == Parcel(n.chunkStreamID, MessageOf(n));
    }
  }

  /** The message loop hands over p and then does what it does from v'. */
  ghost predicate HandsOver(c: Server.Config, env: Environment, v: Service, p: Parcel, v': Service) {
    forall n {:trigger Inside(n)} :: Inside(n) ==>
      ServeAll(c, env, v) == ServeAll(c, env, v') && Handed(c, env, v) == [p] + Handed(c, env, v')
  }

  /** A round that goes on. */
  lemma RoundTakes(c: Server.Config, env: Environment, v: Service, S': Server.Connection)
    requires Next(v).Complete? && Takes(c, env, v.handled, v.connection, MessageOf(Next(v)), S')
    ensures HandsOver(c, env, v, Parcel(Next(v).chunkStreamID, MessageOf(Next(v))), After(v, Next(v), S'))
  {
    assert Inside(0);
  }

  lemma FirstMoves(got: seq<Parcel>, ps: seq<Parcel>)
    requires ps != []
    ensures got + [ps[0]] + ps[1..] == got + ps
  {
  }

  lemma AwaitsRest(c: Server.Config, env: Environment, v: Service, got: seq<Parcel>, ps: seq<Parcel>,
                   S': Server.Connection)
    requires Awaits(c, env, v, got, ps) && Next(v).Complete? && ps != []
    requires ps[0] == Parcel(Next(v).chunkStreamID, MessageOf(Next(v)))
    requires Takes(c, env, v.handled, v.connection, ps[0].message, S')
    ensures Awaits(c, env, After(v, Next(v), S'), got + [ps[0]], ps[1..])
  {
    assert Inside(0);
    SessionFollows(c, env, v, got);
    FirstMoves(got, ps);
  }

  /** What is handed over, and what becomes of the connection. */
  ghost predicate ComesTo(c: Server.Config, env: Environment, v: Service, ps: seq<Parcel>, S: Server.Connection) {
    forall n {:trigger Inside(n)} :: Inside(n) ==> Handed(c, env, v) == ps && ServeAll(c, env, v).0 == S
  }

  lemma ComesBack(c: Server.Config, env: Environment, v: Service, v': Service, ps: seq<Parcel>, S: Server.Connection)
    requires ps != [] && ComesTo(c, env, v', ps[1..], S)
    requires HandsOver(c, env, v, ps[0], v')
    ensures ComesTo(c, env, v, ps, S)
  {
    assert Inside(0);
    assert [ps[0]] + ps[1..] == ps;
  }

  lemma ServesOne(c: Server.Config, env: Environment, v: Service, got: seq<Parcel>, ps: seq<Parcel>,
                  S': Server.Connection)
    returns (v': Service)
    requires Awaits(c, env, v, got, ps) && ps != []
    requires Takes(c, env, v.handled, v.connection, ps[0].message, S')
    ensures Awaits(c, env, v', got + [ps[0]], ps[1..]) && v'.connection == S' && v'.handled == v.handled + 1
    ensures HandsOver(c, env, v, ps[0], v')
  {
    NextIs(c, env, v, got, ps);
    v' := After(v, Next(v), S');
    RoundTakes(c, env, v, S');
    AwaitsRest(c, env, v, got, ps, S');
  }

  lemma ServesNone(c: Server.Config, env: Environment, v: Service, got: seq<Parcel>)
    requires Awaits(c, env, v, got, [])
    ensures ComesTo(c, env, v, [], v.connection)
  {
    NextIs(c, env, v, got, []);
  }

  lemma TakesRest(c: Server.Config, env: Environment, k: nat, states: seq<Server.Connection>, ps: seq<Parcel>)
    requires TakesAll(c, env, k, states, ps) && ps != []
    ensures Takes(c, env, k, states[0], ps[0].message, states[1])
    ensures TakesAll(c, env, k + 1, states[1..], ps[1..])
  {
    assert Takes(c, env, k + 0, states[0], ps[0].message, states[1]);
    forall i | 0 <= i < |ps| - 1
      ensures Takes(c, env, k + 1 + i, states[1..][i], ps[1..][i].message, states[1..][i + 1])
    {
      assert Takes(c, env, k + (i + 1), states[i + 1], ps[i + 1].message, states[i + 2]);
    }
  }

  /** The server will take what the reading is about to deliver. */
  ghost predicate Ahead(c: Server.Config, env: Environment, v: Service, got: seq<Parcel>, ps: seq<Parcel>,
                        states: seq<Server.Connection>)
  {
    forall n {:trigger Inside(n)} :: Inside(n) ==>
      && Awaits(c, env, v, got, ps) && TakesAll(c, env, v.handled, states, ps) && states[0] == v.connection
  }

  lemma AheadIs(c: Server.Config, env: Environment, v: Service, got: seq<Parcel>, ps: seq<Parcel>,
                states: seq<Server.Connection>)
    ensures Ahead(c, env, v, got, ps, states) <==>
            Awaits(c, env, v, got, ps) && TakesAll(c, env, v.handled, states, ps) && states[0] == v.connection
  {
    assert Inside(0);
  }

  lemma AheadOne(c: Server.Config, env: Environment, v: Service, got: seq<Parcel>, ps: seq<Parcel>,
                 states: seq<Server.Connection>)
    returns (v': Service)
    requires Ahead(c, env, v, got, ps, states) && ps != [] && states != []
    ensures Ahead(c, env, v', got + [ps[0]], ps[1..], states[1..])
    ensures HandsOver(c, env, v, ps[0], v')
  {
    AheadIs(c, env, v, got, ps, states);
    TakesRest(c, env, v.handled, states, ps);
    v' := ServesOne(c, env, v, got, ps, states[1]);
    AheadIs(c, env, v', got + [ps[0]], ps[1..], states[1..]);
  }

  lemma {:induction false} ServesFrom(c: Server.Config, env: Environment, v: Service, got: seq<Parcel>, ps: seq<Parcel>,
                                      states: seq<Server.Connection>)
    requires Ahead(c, env, v, got, ps, states) && |states| == |ps| + 1
    ensures ComesTo(c, env, v, ps, states[|ps|])
    decreases |ps|
  {
    if ps == [] {
      AheadIs(c, env, v, got, ps, states);
      ServesNone(c, env, v, got);
    } else {
      var v' := AheadOne(c, env, v, got, ps, states);
      ServesFrom(c, env, v', got + [ps[0]], ps[1..], states[1..]);
      ComesBack(c, env, v, v', ps, states[|ps|]);
    }
  }

  /** If the server takes what the reading delivers it handles all of it, in order, and nothing else. */
  lemma ServesAll(c: Server.Config, env: Environment, v: Service, states: seq<Server.Connection>)
    requires Fits(c, v.connection, v.reader, env.bodies)
    requires TakesAll(c, env, v.handled, states, ReadAll(v.reader, [], v.unread).got)
    requires states[0] == v.connection
    ensures var ps := ReadAll(v.reader, [], v.unread).got; ComesTo(c, env, v, ps, states[|ps|])
  {
    var ps := ReadAll(v.reader, [], v.unread).got;
    SessionReads(v.reader, [], v.acks, v.unread);
    assert [] + ps == ps;
    AheadIs(c, env, v, [], ps, states);
    ServesFrom(c, env, v, [], ps, states);
  }

  //
  // A client
  //

  /** What a client may send: media and what the peer's decoders take; a chunk size or window on message stream 0 and
      within the peer's limits. */
  lemma WelcomeIff(R: Receiver, m: Message)
    ensures var p := m.payload;
            var n := if |p| >= 4 then WireFormat.Number32(p) else 0;
            Welcome(R, m) <==>
              || m.typeID == 8 || m.typeID == 9
              || ((m.typeID == 18 || m.typeID == 20) && R.amf(m.typeID, p))
              || ((m.typeID == 2 || m.typeID == 3) && |p| >= 4)
              || (m.typeID == 4 && WireFormat.EventIsRead(p))
              || (m.typeID == 6 && |p| >= 5)
              || (m.typeID == 1 && m.streamID == 0 && |p| >= 4 && 1 <= n < 2147483648
                  && (if n < 16777215 then n else 16777215) <= R.maxChunkSize)
              || (m.typeID == 5 && m.streamID == 0 && |p| >= 4
                  && (if n < 2147483648 then n else n - 4294967296) <= R.maxWindow)
  {
    WireFormat.MessageIsRead(m.typeID, m.payload);
    if |m.payload| >= 4 { assert GetU32(m.payload[..4]) == WireFormat.Number32(m.payload); }
  }

  /** The same but for the timestamps. */
  predicate Alike(a: seq<Parcel>, b: seq<Parcel>) {
    && |a| == |b|
    && forall i :: 0 <= i < |a| ==> b[i].message == a[i].message.(timestamp := b[i].message.timestamp)
  }

  /** The server does not look at timestamps. */
  lemma TimesDoNotMatter(c: Server.Config, env: Environment, k: nat, S: Server.Connection, m: Message, t: U32,
                         S': Server.Connection)
    requires Takes(c, env, k, S, m, S')
    ensures Takes(c, env, k, S, m.(timestamp := t), S')
  {
    assert Inside(0);
    assert Interpret(m.(timestamp := t), env.bodies) == Interpret(m, env.bodies);
  }

  lemma TakesAlike(c: Server.Config, env: Environment, k: nat, states: seq<Server.Connection>, a: seq<Parcel>,
                   b: seq<Parcel>)
    requires Alike(a, b) && TakesAll(c, env, k, states, a)
    ensures TakesAll(c, env, k, states, b)
  {
    forall i | 0 <= i < |b| ensures Takes(c, env, k + i, states[i], b[i].message, states[i + 1]) {
      TimesDoNotMatter(c, env, k + i, states[i], a[i].message, b[i].message.timestamp, states[i + 1]);
    }
  }

  /** Of all that a client's chunk layer has completely sent, over every interleaving: if the server takes it, it
      handles all of it, in the order in which it was completed, and nothing else. */
  lemma ClientIsHeard(mode: Mode, n: U32, maxStreams: int, es: seq<Sending.Event>, c: Server.Config, env: Environment,
                      v: Service, states: seq<Server.Connection>)
    requires n > 0 && maxStreams >= 0 && FreshPeer(v.reader, n, maxStreams)
    requires Runs(Initial(mode, n, maxStreams), es) && Transmits(Initial(mode, n, maxStreams), es, v.reader)
    requires v.unread == WireBytes(Run(Initial(mode, n, maxStreams), es).wire)
    requires Fits(c, v.connection, v.reader, env.bodies)
    requires TakesAll(c, env, v.handled, states, Run(Initial(mode, n, maxStreams), es).sent)
    requires states[0] == v.connection
    ensures var sent := Run(Initial(mode, n, maxStreams), es).sent;
            |Handed(c, env, v)| == |sent| && ServeAll(c, env, v).0 == states[|sent|]
  {
    LosslessMultiplexing(mode, n, maxStreams, v.reader, es);
    var sent, got := Run(Initial(mode, n, maxStreams), es).sent, ReadAll(v.reader, [], v.unread).got;
    TakesAlike(c, env, v.handled, states, sent, got);
    ServesAll(c, env, v, states);
    assert Inside(0);
  }

  /** A command message on a message stream. */
  predicate Commands(m: Message, streamID: U32, b: Bodies, command: Server.Command) {
    m.typeID == 20 && m.streamID == streamID && b.command(m.payload) == Some(Ask(Server.Known(command)))
  }

  /** The message is handled without an error. */
  ghost predicate Answered(c: Server.Config, S: Server.Connection, i: Server.Input, S': Server.Connection) {
    forall n {:trigger Inside(n)} :: Inside(n) ==> Server.HandleMessage(c, S, i) == (S', true)
  }

  lemma TakesCommand(c: Server.Config, env: Environment, k: nat, S: Server.Connection, m: Message, streamID: U32,
                     command: Server.Command, S': Server.Connection)
    requires Commands(m, streamID, env.bodies, command)
    requires Answered(c, S, Transcripts.Asked(streamID, command, env.worlds(k)), S')
    ensures Takes(c, env, k, S, m, S')
  {
    assert Inside(0);
    InterpretIs(m, env.bodies);
  }

  lemma TakesAudio(c: Server.Config, env: Environment, k: nat, S: Server.Connection, m: Message, S': Server.Connection)
    requires m.typeID == 8
    requires Answered(c, S, Server.Input(m.streamID, Server.Incoming.Audio, env.worlds(k)), S')
    ensures Takes(c, env, k, S, m, S')
  {
    assert Inside(0);
    InterpretIs(m, env.bodies);
  }

  /** connect and createStream on message stream 0, publish and audio on 1. */
  predicate Publishing(sent: seq<Parcel>, b: Bodies) {
    && |sent| == 4
    && Commands(sent[0].message, 0, b, Server.Connect) && Commands(sent[1].message, 0, b, Server.CreateStream)
    && Commands(sent[2].message, 1, b, Server.Publish) && sent[3].message.typeID == 8 && sent[3].message.streamID == 1
  }

  lemma PublisherIsAnswered(c: Server.Config, env: Environment, S: Server.Connection)
    returns (S1: Server.Connection, S2: Server.Connection, S3: Server.Connection, S4: Server.Connection)
    requires S.trace.past.table == map[0 := Streams.NotConnected] && c.maxStreams >= 2
    requires forall k: nat :: k < 4 ==> Transcripts.Willing(env.worlds(k))
    ensures Answered(c, S, Transcripts.Asked(0, Server.Connect, env.worlds(0)), S1)
    ensures Answered(c, S1, Transcripts.Asked(0, Server.CreateStream, env.worlds(1)), S2)
    ensures Answered(c, S2, Transcripts.Asked(1, Server.Publish, env.worlds(2)), S3)
    ensures Answered(c, S3, Server.Input(1, Server.Incoming.Audio, env.worlds(3)), S4)
    ensures S4.trace.log ==
            S.trace.log + Transcripts.Connecting(0) + Transcripts.Creating(0, 1) + Transcripts.StartingToPublish(1)
            + [ServerLog.Called(1, ServerLog.OnAudio, true)]
  {
    S1, S2, S3, S4 :=
      Transcripts.PublisherIsHeard(c, S, env.worlds(0), env.worlds(1), env.worlds(2), env.worlds(3));
  }

  lemma TakesFour(c: Server.Config, env: Environment, states: seq<Server.Connection>, ps: seq<Parcel>)
    requires |ps| == 4 && |states| == 5
    requires Takes(c, env, 0, states[0], ps[0].message, states[1])
    requires Takes(c, env, 1, states[1], ps[1].message, states[2])
    requires Takes(c, env, 2, states[2], ps[2].message, states[3])
    requires Takes(c, env, 3, states[3], ps[3].message, states[4])
    ensures TakesAll(c, env, 0, states, ps)
  {
    forall i | 0 <= i < 4 ensures Takes(c, env, 0 + i, states[i], ps[i].message, states[i + 1]) {
      if i == 0 {} else if i == 1 {} else if i == 2 {} else { assert i == 3; }
    }
  }

  lemma PublisherIsTaken(c: Server.Config, env: Environment, S: Server.Connection, sent: seq<Parcel>)
    returns (states: seq<Server.Connection>)
    requires Publishing(sent, env.bodies) && S.trace.past.table == map[0 := Streams.NotConnected] && c.maxStreams >= 2
    requires forall k: nat :: k < 4 ==> Transcripts.Willing(env.worlds(k))
    ensures TakesAll(c, env, 0, states, sent) && states[0] == S
    ensures states[4].trace.log ==
            S.trace.log + Transcripts.Connecting(0) + Transcripts.Creating(0, 1) + Transcripts.StartingToPublish(1)
            + [ServerLog.Called(1, ServerLog.OnAudio, true)]
  {
    var S1, S2, S3, S4 := PublisherIsAnswered(c, env, S);
    TakesCommand(c, env, 0, S, sent[0].message, 0, Server.Connect, S1);
    TakesCommand(c, env, 1, S1, sent[1].message, 0, Server.CreateStream, S2);
    TakesCommand(c, env, 2, S2, sent[2].message, 1, Server.Publish, S3);
    TakesAudio(c, env, 3, S3, sent[3].message, S4);
    states := [S, S1, S2, S3, S4];
    TakesFour(c, env, states, sent);
  }

  /** A client that connects, creates a stream, publishes and sends audio, whatever its chunk sizes, its chunk streams
      and the interleaving of its writes with its scheduler: the bytes that it has put out make a new server call the
      application with the audio, on stream 1, after everything that must come before. */
  lemma AudioArrives(mode: Mode, n: U32, maxStreams: int, es: seq<Sending.Event>, c: Server.Config, env: Environment,
                     v: Service)
    requires n > 0 && maxStreams >= 0 && FreshPeer(v.reader, n, maxStreams)
    requires Runs(Initial(mode, n, maxStreams), es) && Transmits(Initial(mode, n, maxStreams), es, v.reader)
    requires v.unread == WireBytes(Run(Initial(mode, n, maxStreams), es).wire)
    requires Publishing(Run(Initial(mode, n, maxStreams), es).sent, env.bodies)
    requires Begins(c, v) && v.handled == 0 && Fits(c, v.connection, v.reader, env.bodies) && c.maxStreams >= 2
    requires forall k: nat :: k < 4 ==> Transcripts.Willing(env.worlds(k))
    ensures ServeAll(c, env, v).0.trace.log ==
            [ServerLog.Created(0), ServerLog.Changed(0, Streams.NotConnected)] + Transcripts.Connecting(0)
            + Transcripts.Creating(0, 1) + Transcripts.StartingToPublish(1)
            + [ServerLog.Called(1, ServerLog.OnAudio, true)]
  {
    var sent := Run(Initial(mode, n, maxStreams), es).sent;
    Transcripts.Starts(c, v.reader.chunkSize, v.reader.window);
    var states := PublisherIsTaken(c, env, v.connection, sent);
    ClientIsHeard(mode, n, maxStreams, es, c, env, v, states);
  }
}
