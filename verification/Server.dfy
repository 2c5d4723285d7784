/** The server side of a connection: the message loop, the handlers of every stream state, and what all runs
    of them keep. */
module Server {
  import opened Bytes
  import opened Streams
  import opened ServerLog

  datatype Config = Config(maxStreams: int, ignore: bool, threshold: U32, maxChunkSize: U32, maxWindow: I32)

  /** The state of a connection: its streams with the log so far, the messages ignored, and the peer's chunk
      size and acknowledgement window. */
  datatype Connection = Connection(trace: Trace, ignored: U32, chunkSize: U32, window: I32)

  /** A body as its decoder leaves it. The unknown ones are ignored by the message loop. */
  datatype Body<T> = Known(value: T) | UnknownBody | MalformedBody

  datatype Command =
    | Connect | CreateStream | DeleteStream(target: U32) | ReleaseStream | FCPublish | FCUnpublish
    | Publish | Play | GetStreamLength | Ping | CloseStream

  /** A message, decoded. Answer is a "_result" or "_error" command. Other are the remaining kinds. */
  datatype Incoming =
    | Data(data: Body<()>)
    | Request(command: Body<Command>)
    | Answer
    | ChunkSize(n: U32)
    | AckWindowSize(w: I32)
    | Audio
    | Video
    | Other

  /** How the world takes part in handling one message: whether the application accepts the callback, and
      whether the k-th write goes through. */
  datatype World = World(accepts: bool, writes: nat -> bool)

  datatype Input = Input(streamID: U32, message: Incoming, world: World)

  /** The trace after a handler, and whether it returned without an error. */
  datatype Outcome = Outcome(trace: Trace, ok: bool)

  function Call(t: Trace, id: U32, callback: Callback, w: World): Trace {
    Note(t, Called(id, callback, w.accepts))
  }

  function Send(t: Trace, id: U32, reply: Reply, w: World, k: nat): Trace {
    Note(t, Sent(id, reply, w.writes(k)))
  }

  /** A callback whose error is the handler's. */
  function Plainly(t: Trace, id: U32, callback: Callback, w: World): Outcome {
    Outcome(Call(t, id, callback, w), w.accepts)
  }

  /** What a connect is answered with, one write after the other. */
  function Greeting(k: nat): Reply {
    if k == 0 then AckWindow else if k == 1 then PeerBandwidth else if k == 2 then StreamBegin else ConnectSuccess
  }

  /** From the k-th write of the greeting on: a failure is followed by the attempt to send an error reply. */
  function Greet(t: Trace, id: U32, w: World, k: nat): Outcome
    decreases 4 - k
  {
    if k >= 4 then Outcome(Note(t, Changed(id, Connected)), true)
    else
      var t' := Send(t, id, Greeting(k), w, k);
      if w.writes(k) then Greet(t', id, w, k + 1) else Outcome(Send(t', id, ConnectError, w, k + 1), false)
  }

  function OnConnectCommand(t: Trace, id: U32, w: World): Outcome {
    var t1 := Call(t, id, OnConnect, w);
    if w.accepts then Greet(t1, id, w, 0) else Outcome(Send(t1, id, ConnectError, w, 0), false)
  }

  ghost function OnCreateStreamCommand(t: Trace, id: U32, max: int, w: World): Outcome {
    var t1 := Call(t, id, OnCreateStream, w);
    if !w.accepts then Outcome(Send(t1, id, CreateStreamError, w, 0), false)
    else if |t1.past.table| >= Room(max) then RefuseStream(t1, id, w)
    else SpawnStream(t1, id, w)
  }

  /** A refusal for lack of room keeps the connection if its reply goes through, else it is sent again. */
  function RefuseStream(t: Trace, id: U32, w: World): Outcome {
    var t1 := Send(t, id, CreateStreamError, w, 0);
    if w.writes(0) then Outcome(t1, true) else Outcome(Send(t1, id, CreateStreamError, w, 1), false)
  }

  /** A new stream that its creator cannot be told of is deleted again. */
  ghost function SpawnStream(t: Trace, id: U32, w: World): Outcome
    requires |t.past.table| < 0x1_0000_0000
  {
    var newID := LeastFree(t.past.table);
    var t1 := Note(Note(t, Created(newID)), Changed(newID, Inactive));
    var t2 := Send(t1, id, CreateStreamSuccess(newID), w, 0);
    if w.writes(0) then Outcome(t2, true)
    else Outcome(Send(Note(t2, Deleted(newID)), id, CreateStreamError, w, 1), false)
  }

  function OnDeleteStreamCommand(t: Trace, id: U32, target: U32, w: World): Outcome {
    var t1 := Call(t, id, OnDeleteStream, w);
    if w.accepts && target in t1.past.table then Outcome(Note(t1, Deleted(target)), true) else Outcome(t1, false)
  }

  function OnStartCommand(t: Trace, id: U32, publish: bool, w: World): Outcome {
    var t1 := Call(t, id, if publish then OnPublish else OnPlay, w);
    if !w.accepts then Outcome(Send(t1, id, if publish then PublishFailed else PlayFailed, w, 0), false)
    else
      var t2 := Send(t1, id, if publish then PublishStart else PlayStart, w, 0);
      if w.writes(0) then Outcome(Note(t2, Changed(id, if publish then Publishing else Playing)), true)
      else Outcome(t2, false)
  }

  ghost function OnConnectedCommand(t: Trace, id: U32, max: int, command: Command, w: World): Outcome {
    match command
    case CreateStream => OnCreateStreamCommand(t, id, max, w)
    case DeleteStream(target) => OnDeleteStreamCommand(t, id, target, w)
    case ReleaseStream => Plainly(t, id, OnReleaseStream, w)
    case FCPublish => Plainly(t, id, OnFCPublish, w)
    case FCUnpublish => Plainly(t, id, OnFCUnpublish, w)
    case _ => Plainly(t, id, OnUnknownCommand, w)
  }

  /** onCommand of the handler that the stream's state selects. */
  ghost function OnCommand(t: Trace, id: U32, max: int, command: Command, w: World): Outcome
    requires id in t.past.table
  {
    match t.past.table[id]
    case NotConnected => if command == Connect then OnConnectCommand(t, id, w) else Plainly(t, id, OnUnknownCommand, w)
    case Connected => OnConnectedCommand(t, id, max, command, w)
    case Inactive =>
      if command == Publish || command == Play then OnStartCommand(t, id, command == Publish, w)
      else Plainly(t, id, OnUnknownCommand, w)
    case Publishing => Plainly(t, id, OnUnknownCommand, w)
    case Playing => Plainly(t, id, OnUnknownCommand, w)
    case Unset => Outcome(t, false)
  }

  /** onMessage or onData of the handler: only a publishing stream has a callback of its own for it. */
  function OnContent(t: Trace, id: U32, own: Option<Callback>, unknown: Callback, w: World): Outcome
    requires id in t.past.table
  {
    if t.past.table[id] == Unset then Outcome(t, false)
    else if t.past.table[id] == Publishing && own.Some? then Plainly(t, id, own.value, w)
    else Plainly(t, id, unknown, w)
  }

  /** streamHandler.Handle but for the two messages that set the peer's state. */
  ghost function HandleOnStream(t: Trace, id: U32, max: int, m: Incoming, w: World): Outcome
    requires id in t.past.table
  {
    match m
    case Data(UnknownBody) => Outcome(t, true)
    case Data(MalformedBody) => Outcome(t, false)
    case Data(Known(_)) => OnContent(t, id, Some(OnSetDataFrame), OnUnknownData, w)
    case Request(UnknownBody) => Outcome(t, true)
    case Request(MalformedBody) => Outcome(t, false)
    case Request(Known(command)) => OnCommand(t, id, max, command, w)
    case Answer => Outcome(t, false)
    case Audio => OnContent(t, id, Some(OnAudio), OnUnknownMessage, w)
    case Video => OnContent(t, id, Some(OnVideo), OnUnknownMessage, w)
    case _ => OnContent(t, id, None, OnUnknownMessage, w)
  }

  /** Conn.handleMessage; false ends the connection. */
  ghost function HandleMessage(c: Config, S: Connection, i: Input): (Connection, bool) {
    var id := i.streamID;
    if id !in S.trace.past.table then
      if c.ignore && S.ignored < c.threshold then (S.(ignored := S.ignored + 1), true) else (S, false)
    else if i.message.ChunkSize? then
      var n := Min(i.message.n, MAX_CHUNK_SIZE);
      if n > c.maxChunkSize then (S, false) else (S.(chunkSize := n), true)
    else if i.message.AckWindowSize? then
      if i.message.w > c.maxWindow then (S, false) else (S.(window := i.message.w), true)
    else
      var o := HandleOnStream(S.trace, id, c.maxStreams, i.message, i.world);
      (S.(trace := o.trace), o.ok)
  }

  /** The message loop over the messages that arrive; false if one of them ends the connection. */
  ghost function Loop(c: Config, S: Connection, inputs: seq<Input>): (Connection, bool)
    decreases |inputs|
  {
    if inputs == [] then (S, true)
    else
      var (S', ok) := HandleMessage(c, S, inputs[0]);
      if ok then Loop(c, S', inputs[1..]) else (S', false)
  }

  lemma LoopFirst(c: Config, S: Connection, i: Input, more: seq<Input>)
    ensures var (S', ok) := HandleMessage(c, S, i);
            Loop(c, S, [i] + more) == if ok then Loop(c, S', more) else (S', false)
  {
    assert ([i] + more)[1..] == more;
  }

  /** serverConn.Serve up to the message loop; None if there is no room for the control stream. */
  function Serve(c: Config, chunkSize: U32, window: I32): Option<Connection> {
    if c.maxStreams <= 0 then None
    else Some(Connection(Note(Note(NOTHING, Created(0)), Changed(0, NotConnected)), 0, chunkSize, window))
  }

  //
  // What every run keeps
  //

  /** No stream is without a handler. */
  predicate Assigned(t: Table) {
    forall id :: id in t ==> t[id] != Unset
  }

  /** The states a stream may be in between two messages. */
  predicate InOrder(t: Table) {
    forall id :: id in t ==>
      if id == 0 then t[id] == NotConnected || t[id] == Connected
      else t[id] == Inactive || t[id] == Publishing || t[id] == Playing
  }

  ghost predicate Keeps(c: Config, S: Connection) {
    && Sound(S.trace) && Assigned(S.trace.past.table) && |S.trace.past.table| <= Room(c.maxStreams)
    && S.ignored <= c.threshold
  }

  /** An outcome is as good as the trace it came from. */
  ghost predicate Good(t: Trace, o: Outcome, max: int) {
    && Sound(o.trace) && Assigned(o.trace.past.table)
    && (|t.past.table| <= Room(max) ==> |o.trace.past.table| <= Room(max))
  }

  lemma {:induction false} CallSound(t: Trace, id: U32, callback: Callback, w: World)
    requires Sound(t) && id in t.past.table && Permitted(callback, t.past.table[id])
    ensures Sound(Call(t, id, callback, w)) && Call(t, id, callback, w).past.table == t.past.table
  {
    NoteSound(t, Called(id, callback, w.accepts));
  }

  lemma SendSound(t: Trace, id: U32, reply: Reply, w: World, k: nat)
    requires Sound(t) && id in t.past.table && Truthful(t.past, id, reply)
    ensures Sound(Send(t, id, reply, w, k)) && Send(t, id, reply, w, k).past == t.past.(time := t.past.time + 1)
  {
    NoteSound(t, Sent(id, reply, w.writes(k)));
  }

  lemma {:induction false} ChangeSound(t: Trace, id: U32, state: State)
    requires Sound(t) && id in t.past.table && MayBecome(t.past, id, state)
    ensures Sound(Note(t, Changed(id, state)))
    ensures Note(t, Changed(id, state)).past.table == t.past.table[id := state]
    ensures |t.past.table[id := state]| == |t.past.table|
  {
    NoteSound(t, Changed(id, state));
    assert t.past.table[id := state].Keys == t.past.table.Keys;
    assert |t.past.table| == |t.past.table.Keys| && |t.past.table[id := state]| == |t.past.table[id := state].Keys|;
  }

  lemma {:induction false} PlainlyGood(t: Trace, id: U32, callback: Callback, w: World, max: int)
    requires Sound(t) && Assigned(t.past.table) && id in t.past.table && Permitted(callback, t.past.table[id])
    ensures Good(t, Plainly(t, id, callback, w), max)
  {
    CallSound(t, id, callback, w);
  }

  /** A connect is accepted and not answered yet. */
  ghost predicate Greetable(t: Trace, id: U32) {
    Sound(t) && Assigned(t.past.table) && id == 0 && Is(t.past, id, NotConnected) && t.past.connect.Some?
  }

  lemma StillGreetable(t: Trace, id: U32, reply: Reply, w: World, k: nat)
    requires Greetable(t, id) && (reply == Greeting(k) || reply == ConnectError)
    ensures Greetable(Send(t, id, reply, w, k), id) && Send(t, id, reply, w, k).past.table == t.past.table
  {
    SendSound(t, id, reply, w, k);
  }

  lemma {:induction false} GreetGood(t: Trace, id: U32, w: World, k: nat, max: int)
    requires Greetable(t, id)
    ensures Good(t, Greet(t, id, w, k), max)
    decreases 4 - k
  {
    if k >= 4 {
      ChangeSound(t, id, Connected);
    } else {
      StillGreetable(t, id, Greeting(k), w, k);
      var t' := Send(t, id, Greeting(k), w, k);
      if w.writes(k) {
        GreetGood(t', id, w, k + 1, max);
      } else {
        StillGreetable(t', id, ConnectError, w, k + 1);
      }
    }
  }

  lemma {:induction false} OnConnectGood(t: Trace, id: U32, w: World, max: int)
    requires Sound(t) && Assigned(t.past.table) && Is(t.past, id, NotConnected)
    ensures Good(t, OnConnectCommand(t, id, w), max)
  {
    ControlStream(t, id);
    CallSound(t, id, OnConnect, w);
    var t1 := Call(t, id, OnConnect, w);
    if w.accepts { GreetGood(t1, id, w, 0, max); } else { SendSound(t1, id, ConnectError, w, 0); }
  }

  lemma {:induction false} CreatedGood(t: Trace, id: U32, newID: U32, w: World)
    requires Sound(t) && Assigned(t.past.table) && Is(t.past, 0, Connected) && id in t.past.table
    requires Least(t.past.table, newID)
    ensures var t2 := Note(Note(t, Created(newID)), Changed(newID, Inactive));
            && Sound(t2) && Assigned(t2.past.table) && t2.past.table == t.past.table[newID := Inactive]
            && |t2.past.table| == |t.past.table| + 1
            && Is(t2.past, 0, Connected)
  {
    NoteSound(t, Created(newID));
    var t1 := Note(t, Created(newID));
    ChangeSound(t1, newID, Inactive);
    assert t.past.table[newID := Unset][newID := Inactive] == t.past.table[newID := Inactive];
    assert t.past.table[newID := Inactive].Keys == t.past.table.Keys + {newID};
  }

  lemma {:induction false} DeletedGood(t: Trace, id: U32)
    requires Sound(t) && Assigned(t.past.table) && Is(t.past, 0, Connected) && id in t.past.table
    ensures var t' := Note(t, Deleted(id));
            && Sound(t') && Assigned(t'.past.table) && t'.past.table == t.past.table - {id}
            && |t'.past.table| == |t.past.table| - 1
  {
    NoteSound(t, Deleted(id));
    Shrinks(t.past.table, id);
  }

  lemma {:induction false} OnCreateStreamGood(t: Trace, id: U32, max: int, w: World)
    requires Sound(t) && Assigned(t.past.table) && Is(t.past, id, Connected)
    ensures Good(t, OnCreateStreamCommand(t, id, max, w), max)
  {
    ControlStream(t, id);
    CallSound(t, id, OnCreateStream, w);
    var t1 := Call(t, id, OnCreateStream, w);
    if !w.accepts || |t1.past.table| >= Room(max) {
      SendSound(t1, id, CreateStreamError, w, 0);
      var t2 := Send(t1, id, CreateStreamError, w, 0);
      SendSound(t2, id, CreateStreamError, w, 1);
    } else {
      var newID := LeastFree(t1.past.table);
      CreatedGood(t1, id, newID, w);
      var t2 := Note(Note(t1, Created(newID)), Changed(newID, Inactive));
      SendSound(t2, id, CreateStreamSuccess(newID), w, 0);
      var t3 := Send(t2, id, CreateStreamSuccess(newID), w, 0);
      DeletedGood(t3, newID);
      SendSound(Note(t3, Deleted(newID)), id, CreateStreamError, w, 1);
    }
  }

  lemma OnDeleteStreamGood(t: Trace, id: U32, target: U32, w: World, max: int)
    requires Sound(t) && Assigned(t.past.table) && Is(t.past, id, Connected)
    ensures Good(t, OnDeleteStreamCommand(t, id, target, w), max)
  {
    ControlStream(t, id);
    CallSound(t, id, OnDeleteStream, w);
    if target in t.past.table { DeletedGood(Call(t, id, OnDeleteStream, w), target); }
  }

  lemma {:induction false} OnStartGood(t: Trace, id: U32, publish: bool, w: World, max: int)
    requires Sound(t) && Assigned(t.past.table) && Is(t.past, id, Inactive)
    ensures Good(t, OnStartCommand(t, id, publish, w), max)
  {
    CallSound(t, id, if publish then OnPublish else OnPlay, w);
    var t1 := Call(t, id, if publish then OnPublish else OnPlay, w);
    if w.accepts {
      SendSound(t1, id, if publish then PublishStart else PlayStart, w, 0);
      var t2 := Send(t1, id, if publish then PublishStart else PlayStart, w, 0);
      ChangeSound(t2, id, if publish then Publishing else Playing);
    } else {
      SendSound(t1, id, if publish then PublishFailed else PlayFailed, w, 0);
    }
  }

  lemma OnConnectedGood(t: Trace, id: U32, max: int, command: Command, w: World)
    requires Sound(t) && Assigned(t.past.table) && Is(t.past, id, Connected)
    ensures Good(t, OnCommand(t, id, max, command, w), max)
  {
    match command
    case CreateStream => OnCreateStreamGood(t, id, max, w);
    case DeleteStream(target) => OnDeleteStreamGood(t, id, target, w, max);
    case ReleaseStream => PlainlyGood(t, id, OnReleaseStream, w, max);
    case FCPublish => PlainlyGood(t, id, OnFCPublish, w, max);
    case FCUnpublish => PlainlyGood(t, id, OnFCUnpublish, w, max);
    case _ => PlainlyGood(t, id, OnUnknownCommand, w, max);
  }

  lemma {:induction false} OnCommandGood(t: Trace, id: U32, max: int, command: Command, w: World)
    requires Sound(t) && Assigned(t.past.table) && id in t.past.table
    ensures Good(t, OnCommand(t, id, max, command, w), max)
  {
    match t.past.table[id]
    case NotConnected =>
      if command == Connect { OnConnectGood(t, id, w, max); } else { PlainlyGood(t, id, OnUnknownCommand, w, max); }
    case Connected => OnConnectedGood(t, id, max, command, w);
    case Inactive =>
      if command == Publish || command == Play { OnStartGood(t, id, command == Publish, w, max); }
      else { PlainlyGood(t, id, OnUnknownCommand, w, max); }
    case _ => PlainlyGood(t, id, OnUnknownCommand, w, max);
  }

  lemma OnContentGood(t: Trace, id: U32, own: Option<Callback>, unknown: Callback, w: World, max: int)
    requires Sound(t) && Assigned(t.past.table) && id in t.past.table
    requires OfUnknown(unknown) && (own.Some? ==> OfMedia(own.value))
    ensures Good(t, OnContent(t, id, own, unknown, w), max)
  {
    if t.past.table[id] == Publishing && own.Some? {
      PlainlyGood(t, id, own.value, w, max);
    } else {
      PlainlyGood(t, id, unknown, w, max);
    }
  }

  lemma {:induction false} HandleOnStreamGood(t: Trace, id: U32, max: int, m: Incoming, w: World)
    requires Sound(t) && Assigned(t.past.table) && id in t.past.table
    ensures Good(t, HandleOnStream(t, id, max, m, w), max)
  {
    match m
    case Data(Known(_)) => OnContentGood(t, id, Some(OnSetDataFrame), OnUnknownData, w, max);
    case Request(Known(command)) => OnCommandGood(t, id, max, command, w);
    case Audio => OnContentGood(t, id, Some(OnAudio), OnUnknownMessage, w, max);
    case Video => OnContentGood(t, id, Some(OnVideo), OnUnknownMessage, w, max);
    case _ => OnContentGood(t, id, None, OnUnknownMessage, w, max);
  }

  lemma {:induction false} HandleMessageKeeps(c: Config, S: Connection, i: Input)
    requires Keeps(c, S)
    ensures Keeps(c, HandleMessage(c, S, i).0)
  {
    if i.streamID in S.trace.past.table && !i.message.ChunkSize? && !i.message.AckWindowSize? {
      HandleOnStreamGood(S.trace, i.streamID, c.maxStreams, i.message, i.world);
    }
  }

  lemma {:induction false} LoopKeeps(c: Config, S: Connection, inputs: seq<Input>)
    requires Keeps(c, S)
    ensures Keeps(c, Loop(c, S, inputs).0)
    decreases |inputs|
  {
    if inputs != [] {
      HandleMessageKeeps(c, S, inputs[0]);
      var (S', ok) := HandleMessage(c, S, inputs[0]);
      if ok { LoopKeeps(c, S', inputs[1..]); }
    }
  }

  /** Every run of the message loop, whatever messages come and however the application and the writes turn
      out: the log is safe, the live streams are in the states they may be in, no more than allowed. */
  lemma {:induction false} ServerHistorySafety(c: Config, chunkSize: U32, window: I32, inputs: seq<Input>)
    requires Serve(c, chunkSize, window).Some?
    ensures var S := Loop(c, Serve(c, chunkSize, window).value, inputs).0;
            && SafeLog(S.trace.log)
            && InOrder(S.trace.past.table)
            && |S.trace.past.table| <= Room(c.maxStreams)
            && S.ignored <= c.threshold
  {
    NothingSound();
    NoteSound(NOTHING, Created(0));
    var t := Note(NOTHING, Created(0));
    ChangeSound(t, 0, NotConnected);
    assert t.past.table == map[0 := Unset];
    LoopKeeps(c, Serve(c, chunkSize, window).value, inputs);
    SoundMeans(Loop(c, Serve(c, chunkSize, window).value, inputs).0.trace);
  }

  /** Messages to streams that do not exist end the connection, unless it is configured to ignore them; then
      exactly as many are ignored as the threshold has left, and the next one ends it. */
  lemma {:induction false} IgnoresExactly(c: Config, S: Connection, inputs: seq<Input>)
    requires S.ignored <= c.threshold && forall i :: 0 <= i < |inputs| ==> inputs[i].streamID !in S.trace.past.table
    ensures var left := if c.ignore then c.threshold - S.ignored else 0;
            Loop(c, S, inputs) == (S.(ignored := S.ignored + Min(|inputs|, left)), |inputs| <= left)
    decreases |inputs|
  {
    if inputs != [] {
      var (S', ok) := HandleMessage(c, S, inputs[0]);
      if ok { IgnoresExactly(c, S', inputs[1..]); }
    }
  }
}
