/** What the server does on each message, entry by entry: the callbacks, replies and changes that are added to the log,
    the table of streams afterwards, and whether the connection goes on. */
module Transcripts {
  import opened Bytes
  import opened Streams
  import opened ServerLog
  import opened Server

  /** Handling the message adds exactly these entries to the log, leaves the streams so, and changes nothing else. */
  ghost predicate Does(c: Config, S: Connection, i: Input, entries: seq<Entry>, table: Table, ok: bool) {
    forall n {:trigger Inside(n)} :: Inside(n) ==>
      var (S', ok') := HandleMessage(c, S, i);
      && ok' == ok && S'.trace.log == S.trace.log + entries && S'.trace.past.table == table
      && S'.ignored == S.ignored && S'.chunkSize == S.chunkSize && S'.window == S.window
  }

  function Asked(id: U32, command: Command, w: World): Input {
    Input(id, Request(Known(command)), w)
  }

  /** What is added when all goes well: by a connect, a createStream that takes id n, and a publish. */
  function Connecting(id: U32): seq<Entry> {
    [Called(id, OnConnect, true), Sent(id, AckWindow, true), Sent(id, PeerBandwidth, true), Sent(id, StreamBegin, true),
     Sent(id, ConnectSuccess, true), Changed(id, Connected)]
  }

  function Creating(id: U32, n: U32): seq<Entry> {
    [Called(id, OnCreateStream, true), Created(n), Changed(n, Inactive), Sent(id, CreateStreamSuccess(n), true)]
  }

  function StartingToPublish(id: U32): seq<Entry> {
    [Called(id, OnPublish, true), Sent(id, PublishStart, true), Changed(id, Publishing)]
  }

  //
  // connect
  //

  /** An accepted connect whose answers all go through: the stream becomes Connected. */
  lemma ConnectSucceeds(c: Config, S: Connection, id: U32, w: World)
    requires Is(S.trace.past, id, NotConnected) && w.accepts
    requires w.writes(0) && w.writes(1) && w.writes(2) && w.writes(3)
    ensures Does(c, S, Asked(id, Connect, w), Connecting(id), S.trace.past.table[id := Connected], true)
  {
    GreetIs(Call(S.trace, id, OnConnect, w), id, w, 4);
  }

  lemma ConnectRefused(c: Config, S: Connection, id: U32, w: World)
    requires Is(S.trace.past, id, NotConnected) && !w.accepts
    ensures Does(c, S, Asked(id, Connect, w),
                 [Called(id, OnConnect, false), Sent(id, ConnectError, w.writes(0))], S.trace.past.table, false)
  {
  }

  /** The k-th answer fails: an error reply is attempted, and nothing changes. */
  lemma ConnectFails(c: Config, S: Connection, id: U32, w: World, k: nat)
    requires Is(S.trace.past, id, NotConnected) && w.accepts
    requires k < 4 && !w.writes(k) && forall j: nat :: j < k ==> w.writes(j)
    ensures Does(c, S, Asked(id, Connect, w),
                 [Called(id, OnConnect, true)] + Greeted(id, k) + [Sent(id, ConnectError, w.writes(k + 1))],
                 S.trace.past.table, false)
  {
    GreetIs(Call(S.trace, id, OnConnect, w), id, w, k);
  }

  /** The answers to a connect, the k-th of which fails if it is one of them. */
  function Greeted(id: U32, k: nat): seq<Entry> {
    if k == 0 then [Sent(id, AckWindow, false)]
    else if k == 1 then [Sent(id, AckWindow, true), Sent(id, PeerBandwidth, false)]
    else if k == 2 then
      [Sent(id, AckWindow, true), Sent(id, PeerBandwidth, true), Sent(id, StreamBegin, false)]
    else if k == 3 then
      [Sent(id, AckWindow, true), Sent(id, PeerBandwidth, true), Sent(id, StreamBegin, true),
       Sent(id, ConnectSuccess, false)]
    else
      [Sent(id, AckWindow, true), Sent(id, PeerBandwidth, true), Sent(id, StreamBegin, true),
       Sent(id, ConnectSuccess, true)]
  }

  lemma GreetIs(t: Trace, id: U32, w: World, k: nat)
    requires k <= 4 && (forall j: nat :: j < k ==> w.writes(j)) && (k < 4 ==> !w.writes(k))
    ensures var o := Greet(t, id, w, 0);
            var end := if k < 4 then Sent(id, ConnectError, w.writes(k + 1)) else Changed(id, Connected);
            && o.trace.log == t.log + Greeted(id, k) + [end] && o.ok == (k == 4)
            && o.trace.past.table == if k < 4 then t.past.table else t.past.table[id := Connected]
  {
    var t1 := Send(t, id, AckWindow, w, 0);
    var t2 := Send(t1, id, PeerBandwidth, w, 1);
    var t3 := Send(t2, id, StreamBegin, w, 2);
    var t4 := Send(t3, id, ConnectSuccess, w, 3);
    if k > 0 { assert Greet(t, id, w, 0) == Greet(t1, id, w, 1); }
    if k > 1 { assert Greet(t1, id, w, 1) == Greet(t2, id, w, 2); }
    if k > 2 { assert Greet(t2, id, w, 2) == Greet(t3, id, w, 3); }
    if k > 3 { assert Greet(t3, id, w, 3) == Greet(t4, id, w, 4); }
  }

  //
  // createStream and deleteStream
  //

  /** With fewer streams than the limit, and than there are ids, the least id that is not in use is taken. */
  lemma CreateStreamSucceeds(c: Config, S: Connection, id: U32, w: World, n: U32)
    requires Is(S.trace.past, id, Connected) && w.accepts && w.writes(0)
    requires |S.trace.past.table| < c.maxStreams && n !in S.trace.past.table
    requires forall k: U32 :: k < n ==> k in S.trace.past.table
    ensures Does(c, S, Asked(id, CreateStream, w), Creating(id, n), S.trace.past.table[n := Inactive], true)
  {
    LeastIs(S.trace.past.table, c.maxStreams, n);
  }

  /** If the reply fails the new stream is deleted again. */
  lemma CreateStreamFails(c: Config, S: Connection, id: U32, w: World, n: U32)
    requires Is(S.trace.past, id, Connected) && w.accepts && !w.writes(0)
    requires |S.trace.past.table| < c.maxStreams && n !in S.trace.past.table
    requires forall k: U32 :: k < n ==> k in S.trace.past.table
    ensures Does(c, S, Asked(id, CreateStream, w),
                 [Called(id, OnCreateStream, true), Created(n), Changed(n, Inactive),
                  Sent(id, CreateStreamSuccess(n), false), Deleted(n), Sent(id, CreateStreamError, w.writes(1))],
                 S.trace.past.table, false)
  {
    LeastIs(S.trace.past.table, c.maxStreams, n);
    SpawnFails(Call(S.trace, id, OnCreateStream, w), id, w, n);
  }

  lemma FiveMore(log: seq<Entry>, a: Entry, b: Entry, c: Entry, d: Entry, e: Entry)
    ensures log + [a] + [b] + [c] + [d] + [e] == log + [a, b, c, d, e]
  {
  }

  lemma SpawnFails(t: Trace, id: U32, w: World, n: U32)
    requires |t.past.table| < 0x1_0000_0000 && LeastFree(t.past.table) == n && !w.writes(0)
    ensures var o := SpawnStream(t, id, w);
            && o.trace.log == t.log + [Created(n), Changed(n, Inactive), Sent(id, CreateStreamSuccess(n), false),
                                       Deleted(n), Sent(id, CreateStreamError, w.writes(1))]
            && o.trace.past.table == t.past.table && !o.ok
  {
    FiveMore(t.log, Created(n), Changed(n, Inactive), Sent(id, CreateStreamSuccess(n), false), Deleted(n),
             Sent(id, CreateStreamError, w.writes(1)));
    SpawnedGone(t, id, w, n);
  }

  /** The table is as before. */
  lemma SpawnedGone(t: Trace, id: U32, w: World, n: U32)
    requires |t.past.table| < 0x1_0000_0000 && LeastFree(t.past.table) == n && !w.writes(0)
    ensures SpawnStream(t, id, w).trace.past.table == t.past.table
  {
    assert t.past.table[n := Unset][n := Inactive] - {n} == t.past.table;
  }

  lemma LeastIs(t: Table, max: int, n: U32)
    requires |t| < max && n !in t && forall k: U32 :: k < n ==> k in t
    ensures |t| < Room(max) && LeastFree(t) == n
  {
    HasRoom(t, max, n);
    assert Least(t, n);
  }

  /** At the limit, or with every id in use, it is refused; the connection goes on if that can be said. */
  lemma CreateStreamRefused(c: Config, S: Connection, id: U32, w: World)
    requires Is(S.trace.past, id, Connected)
    requires !w.accepts || |S.trace.past.table| >= c.maxStreams || forall k: U32 :: k in S.trace.past.table
    ensures Does(c, S, Asked(id, CreateStream, w),
                 if !w.accepts then [Called(id, OnCreateStream, false), Sent(id, CreateStreamError, w.writes(0))]
                 else if w.writes(0) then [Called(id, OnCreateStream, true), Sent(id, CreateStreamError, true)]
                 else
                   [Called(id, OnCreateStream, true), Sent(id, CreateStreamError, false),
                    Sent(id, CreateStreamError, w.writes(1))],
                 S.trace.past.table, w.accepts && w.writes(0))
  {
    if w.accepts { Crowded(S.trace.past.table, c.maxStreams); }
  }

  lemma DeletesStream(c: Config, S: Connection, id: U32, target: U32, w: World)
    requires Is(S.trace.past, id, Connected)
    ensures w.accepts && target in S.trace.past.table ==>
              Does(c, S, Asked(id, DeleteStream(target), w),
                   [Called(id, OnDeleteStream, true), Deleted(target)], S.trace.past.table - {target}, true)
    ensures !w.accepts || target !in S.trace.past.table ==>
              Does(c, S, Asked(id, DeleteStream(target), w),
                   [Called(id, OnDeleteStream, w.accepts)], S.trace.past.table, false)
  {
  }

  //
  // publish and play
  //

  lemma Publishes(c: Config, S: Connection, id: U32, w: World)
    requires Is(S.trace.past, id, Inactive)
    ensures var t := S.trace.past.table;
            && (w.accepts && w.writes(0) ==>
                  Does(c, S, Asked(id, Publish, w), StartingToPublish(id), t[id := Publishing], true))
            && (w.accepts && !w.writes(0) ==>
                  Does(c, S, Asked(id, Publish, w),
                       [Called(id, OnPublish, true), Sent(id, PublishStart, false)], t, false))
            && (!w.accepts ==>
                  Does(c, S, Asked(id, Publish, w),
                       [Called(id, OnPublish, false), Sent(id, PublishFailed, w.writes(0))], t, false))
  {
  }

  lemma Plays(c: Config, S: Connection, id: U32, w: World)
    requires Is(S.trace.past, id, Inactive)
    ensures var t := S.trace.past.table;
            && (w.accepts && w.writes(0) ==>
                  Does(c, S, Asked(id, Play, w),
                       [Called(id, OnPlay, true), Sent(id, PlayStart, true), Changed(id, Playing)],
                       t[id := Playing], true))
            && (w.accepts && !w.writes(0) ==>
                  Does(c, S, Asked(id, Play, w), [Called(id, OnPlay, true), Sent(id, PlayStart, false)], t, false))
            && (!w.accepts ==>
                  Does(c, S, Asked(id, Play, w),
                       [Called(id, OnPlay, false), Sent(id, PlayFailed, w.writes(0))], t, false))
  {
  }

  //
  // What only calls the application
  //

  /** One callback, whose answer decides whether the connection goes on. */
  ghost predicate Calls(c: Config, S: Connection, id: U32, m: Incoming, w: World, callback: Callback) {
    Does(c, S, Input(id, m, w), [Called(id, callback, w.accepts)], S.trace.past.table, w.accepts)
  }

  lemma ConnectedCalls(c: Config, S: Connection, id: U32, w: World)
    requires Is(S.trace.past, id, Connected)
    ensures Calls(c, S, id, Request(Known(ReleaseStream)), w, OnReleaseStream)
    ensures Calls(c, S, id, Request(Known(FCPublish)), w, OnFCPublish)
    ensures Calls(c, S, id, Request(Known(FCUnpublish)), w, OnFCUnpublish)
  {
  }

  /** The commands that each state of a stream knows. */
  predicate Knows(state: State, command: Command) {
    match state
    case NotConnected => command == Connect
    case Connected =>
      || command == CreateStream || command.DeleteStream? || command == ReleaseStream || command == FCPublish
      || command == FCUnpublish
    case Inactive => command == Publish || command == Play
    case _ => false
  }

  lemma UnknownCommands(c: Config, S: Connection, id: U32, command: Command, w: World)
    requires id in S.trace.past.table && S.trace.past.table[id] != Unset && !Knows(S.trace.past.table[id], command)
    ensures Calls(c, S, id, Request(Known(command)), w, OnUnknownCommand)
  {
  }

  /** Media and metadata reach their own callbacks on a stream that is Publishing, and the unknown ones elsewhere. */
  lemma ContentCalls(c: Config, S: Connection, id: U32, w: World)
    requires id in S.trace.past.table && S.trace.past.table[id] != Unset
    ensures var publishing := S.trace.past.table[id] == Publishing;
            && Calls(c, S, id, Incoming.Audio, w, if publishing then OnAudio else OnUnknownMessage)
            && Calls(c, S, id, Incoming.Video, w, if publishing then OnVideo else OnUnknownMessage)
            && Calls(c, S, id, Data(Known(())), w, if publishing then OnSetDataFrame else OnUnknownData)
            && Calls(c, S, id, Other, w, OnUnknownMessage)
  {
  }

  /** Bodies that are not known are passed over; those that cannot be decoded, and answers that nobody waits for, end
      the connection. */
  lemma OtherBodies(c: Config, S: Connection, id: U32, w: World)
    requires id in S.trace.past.table
    ensures forall m :: m == Data(UnknownBody) || m == Request(UnknownBody) ==>
              Does(c, S, Input(id, m, w), [], S.trace.past.table, true)
    ensures forall m :: m == Data(MalformedBody) || m == Request(MalformedBody) || m == Answer ==>
              Does(c, S, Input(id, m, w), [], S.trace.past.table, false)
  {
  }

  /** The peer's chunk size, capped at 0xFFFFFF, and its window are taken up to the configured limits. */
  lemma PeerStates(c: Config, S: Connection, id: U32, n: U32, window: I32, w: World)
    requires id in S.trace.past.table
    ensures var capped := if n > 16777215 then 16777215 else n;
            HandleMessage(c, S, Input(id, ChunkSize(n), w)) ==
            if capped <= c.maxChunkSize then (S.(chunkSize := capped), true) else (S, false)
    ensures HandleMessage(c, S, Input(id, AckWindowSize(window), w)) ==
            if window <= c.maxWindow then (S.(window := window), true) else (S, false)
  {
  }

  //
  // A whole run
  //

  /** Everything is accepted and every write goes through. */
  predicate Willing(w: World) {
    w.accepts && w.writes(0) && w.writes(1) && w.writes(2) && w.writes(3)
  }

  lemma Next(c: Config, S: Connection, i: Input, entries: seq<Entry>, table: Table) returns (S': Connection)
    requires Does(c, S, i, entries, table, true)
    ensures HandleMessage(c, S, i) == (S', true)
    ensures S'.trace.log == S.trace.log + entries && S'.trace.past.table == table
  {
    assert Inside(0);
    S' := HandleMessage(c, S, i).0;
  }

  lemma IsConnected(c: Config, S: Connection, w: World) returns (S': Connection)
    requires S.trace.past.table == map[0 := NotConnected] && Willing(w)
    ensures HandleMessage(c, S, Asked(0, Connect, w)) == (S', true)
    ensures S'.trace.past.table == map[0 := Connected] && S'.trace.log == S.trace.log + Connecting(0)
  {
    ConnectSucceeds(c, S, 0, w);
    assert map[0 := NotConnected][0 := Connected] == map[0 := Connected];
    S' := Next(c, S, Asked(0, Connect, w), Connecting(0), map[0 := Connected]);
  }

  lemma FirstIsCreated(c: Config, S: Connection, w: World) returns (S': Connection)
    requires S.trace.past.table == map[0 := Connected] && c.maxStreams >= 2 && Willing(w)
    ensures HandleMessage(c, S, Asked(0, CreateStream, w)) == (S', true)
    ensures S'.trace.past.table == map[0 := Connected, 1 := Inactive] && S'.trace.log == S.trace.log + Creating(0, 1)
  {
    CreateStreamSucceeds(c, S, 0, w, 1);
    assert map[0 := Connected][1 := Inactive] == map[0 := Connected, 1 := Inactive];
    S' := Next(c, S, Asked(0, CreateStream, w), Creating(0, 1), map[0 := Connected, 1 := Inactive]);
  }

  lemma FirstIsPublished(c: Config, S: Connection, w: World) returns (S': Connection)
    requires S.trace.past.table == map[0 := Connected, 1 := Inactive] && Willing(w)
    ensures HandleMessage(c, S, Asked(1, Publish, w)) == (S', true)
    ensures S'.trace.past.table == map[0 := Connected, 1 := Publishing]
    ensures S'.trace.log == S.trace.log + StartingToPublish(1)
  {
    Publishes(c, S, 1, w);
    assert map[0 := Connected, 1 := Inactive][1 := Publishing] == map[0 := Connected, 1 := Publishing];
    S' := Next(c, S, Asked(1, Publish, w), StartingToPublish(1), map[0 := Connected, 1 := Publishing]);
  }

  lemma AudioIsHeard(c: Config, S: Connection, w: World) returns (S': Connection)
    requires S.trace.past.table == map[0 := Connected, 1 := Publishing] && Willing(w)
    ensures HandleMessage(c, S, Input(1, Incoming.Audio, w)) == (S', true)
    ensures S'.trace.past.table == S.trace.past.table && S'.trace.log == S.trace.log + [Called(1, OnAudio, true)]
  {
    ContentCalls(c, S, 1, w);
    S' := Next(c, S, Input(1, Incoming.Audio, w), [Called(1, OnAudio, true)], S.trace.past.table);
  }

  /** A new connection has stream 0, and nothing but its creation behind it; there is none without room for it. */
  lemma Starts(c: Config, chunkSize: U32, window: I32)
    ensures Serve(c, chunkSize, window).None? <==> c.maxStreams <= 0
    ensures c.maxStreams > 0 ==>
              var S := Serve(c, chunkSize, window).value;
              && S.trace.log == [Created(0), Changed(0, NotConnected)] && S.trace.past.table == map[0 := NotConnected]
              && S.ignored == 0 && S.chunkSize == chunkSize && S.window == window
  {
    assert map[0 := Unset][0 := NotConnected] == map[0 := NotConnected];
  }

  /** A publisher: connect, createStream, publish, audio. Each is handled without an error, and the audio reaches its
      callback, on stream 1. */
  lemma PublisherIsHeard(c: Config, S: Connection, w1: World, w2: World, w3: World, w4: World)
    returns (S1: Connection, S2: Connection, S3: Connection, S4: Connection)
    requires S.trace.past.table == map[0 := NotConnected] && c.maxStreams >= 2
    requires Willing(w1) && Willing(w2) && Willing(w3) && Willing(w4)
    ensures HandleMessage(c, S, Asked(0, Connect, w1)) == (S1, true)
    ensures HandleMessage(c, S1, Asked(0, CreateStream, w2)) == (S2, true)
    ensures HandleMessage(c, S2, Asked(1, Publish, w3)) == (S3, true)
    ensures HandleMessage(c, S3, Input(1, Incoming.Audio, w4)) == (S4, true)
    ensures S4.trace.past.table == map[0 := Connected, 1 := Publishing]
    ensures S4.trace.log ==
            S.trace.log + Connecting(0) + Creating(0, 1) + StartingToPublish(1) + [Called(1, OnAudio, true)]
  {
    S1 := IsConnected(c, S, w1);
    S2 := FirstIsCreated(c, S1, w2);
    S3 := FirstIsPublished(c, S2, w3);
    S4 := AudioIsHeard(c, S3, w4);
  }

  /** So it is in the message loop of a new connection. */
  lemma PublisherLoop(c: Config, chunkSize: U32, window: I32, w1: World, w2: World, w3: World, w4: World)
    requires c.maxStreams >= 2 && Willing(w1) && Willing(w2) && Willing(w3) && Willing(w4)
    ensures Serve(c, chunkSize, window).Some?
    ensures var inputs := [Asked(0, Connect, w1), Asked(0, CreateStream, w2), Asked(1, Publish, w3),
                           Input(1, Incoming.Audio, w4)];
            var (S, ok) := Loop(c, Serve(c, chunkSize, window).value, inputs);
            && ok && S.trace.past.table == map[0 := Connected, 1 := Publishing]
            && S.trace.log == [Created(0), Changed(0, NotConnected)] + Connecting(0) + Creating(0, 1)
                              + StartingToPublish(1) + [Called(1, OnAudio, true)]
  {
    Starts(c, chunkSize, window);
    var S := Serve(c, chunkSize, window).value;
    var S1, S2, S3, S4 := PublisherIsHeard(c, S, w1, w2, w3, w4);
    var i1, i2, i3, i4 := Asked(0, Connect, w1), Asked(0, CreateStream, w2), Asked(1, Publish, w3),
                          Input(1, Incoming.Audio, w4);
    LoopFirst(c, S, i1, [i2, i3, i4]);
    LoopFirst(c, S1, i2, [i3, i4]);
    LoopFirst(c, S2, i3, [i4]);
    LoopFirst(c, S3, i4, []);
    assert [i1] + [i2, i3, i4] == [i1, i2, i3, i4] && [i2] + [i3, i4] == [i2, i3, i4];
    assert [i3] + [i4] == [i3, i4] && [i4] + [] == [i4];
  }
}
