/** The server side of a connection as the source writes it: handlers that call the application, write
    replies and change the table of streams in place, each tied to the transitions of Server. */
module ServerConn {
  import opened Bytes
  import opened Streams
  import opened ServerLog
  import opened Server
  import opened ControlState

  /** The fields of Conn and of its stream handlers. `trace` records what the application and the peer see of them. */
  class Conn {
    const config: Config
    const streams: StreamTable
    const peerState: StreamControlState
    var ignoredMessages: U32
    ghost var trace: Trace

    constructor (config: Config, peerState: StreamControlState)
      requires peerState.maxChunkSize == config.maxChunkSize && peerState.maxAckWindowSize == config.maxWindow
      ensures Valid() && fresh(streams) && fresh(streams.repr) && this.config == config && this.peerState == peerState
      ensures View() == Connection(NOTHING, 0, peerState.chunkSize, peerState.ackWindowSize)
    {
      this.config, this.peerState := config, peerState;
      streams := new StreamTable(config.maxStreams);
      ignoredMessages, trace := 0, NOTHING;
    }

    ghost function View(): Connection
      reads this, peerState
    {
      Connection(trace, ignoredMessages, peerState.chunkSize, peerState.ackWindowSize)
    }

    ghost predicate Valid()
      reads this, streams, streams.repr
    {
      && streams.Valid() && streams.table == trace.past.table && streams.max == config.maxStreams
      && peerState.maxChunkSize == config.maxChunkSize && peerState.maxAckWindowSize == config.maxWindow
    }

    /** s is the table's stream of its id. */
    ghost predicate Live(s: Stream)
      reads this, streams, s
    {
      s.streamID in streams.streams && streams.streams[s.streamID] == s
    }

    /** serverConn.Serve up to the message loop. */
    method Open() returns (ok: bool)
      requires Valid() && trace == NOTHING && ignoredMessages == 0
      modifies this`trace, streams
      ensures Valid() && fresh(streams.repr - old(streams.repr))
      ensures var start := Serve(config, peerState.chunkSize, peerState.ackWindowSize);
              ok == start.Some? && (ok ==> View() == start.value)
    {
      var s := streams.Create(0);
      if s == null { return false; }
      trace := Note(trace, Created(0));
      streams.ChangeState(s, NotConnected);
      trace := Note(trace, Changed(0, NotConnected));
      ok := true;
    }

    /** The application's callback. */
    method Callback(s: Stream, callback: ServerLog.Callback, w: World) returns (ok: bool)
      requires Valid()
      modifies this`trace
      ensures Valid() && trace.past.table == old(trace).past.table
      ensures Outcome(trace, ok) == Plainly(old(trace), s.streamID, callback, w)
    {
      ok := w.accepts;
      trace := Call(trace, s.streamID, callback, w);
    }

    /** The k-th write of the message being handled. */
    method Reply(s: Stream, reply: ServerLog.Reply, w: World, k: nat) returns (ok: bool)
      requires Valid()
      modifies this`trace
      ensures Valid() && trace.past.table == old(trace).past.table
      ensures trace == Send(old(trace), s.streamID, reply, w, k) && ok == w.writes(k)
    {
      ok := w.writes(k);
      trace := Send(trace, s.streamID, reply, w, k);
    }

    method ChangeState(s: Stream, state: State)
      requires Valid() && Live(s) && state != Unset
      modifies this`trace, streams`table, s`state
      ensures Valid() && trace == Note(old(trace), Changed(s.streamID, state))
    {
      streams.ChangeState(s, state);
      trace := Note(trace, Changed(s.streamID, state));
    }

    /** serverControlNotConnectedHandler.onCommand */
    method OnConnectCommand(s: Stream, w: World) returns (ok: bool)
      requires Valid() && Live(s)
      modifies this`trace, streams`table, s`state
      ensures Valid() && Outcome(trace, ok) == Server.OnConnectCommand(old(trace), s.streamID, w)
    {
      var k := 0;
      ok := Callback(s, OnConnect, w);
      if ok {
        ghost var goal := Greet(trace, s.streamID, w, 0);
        ok := Reply(s, AckWindow, w, 0);
        k := 1;
        if ok {
          assert goal == Greet(trace, s.streamID, w, 1);
          ok := Reply(s, PeerBandwidth, w, 1);
          k := 2;
          if ok {
            assert goal == Greet(trace, s.streamID, w, 2);
            ok := Reply(s, StreamBegin, w, 2);
            k := 3;
            if ok {
              assert goal == Greet(trace, s.streamID, w, 3);
              ok := Reply(s, ConnectSuccess, w, 3);
              k := 4;
              if ok { ChangeState(s, Connected); }
            }
          }
        }
      }
      if !ok { var _ := Reply(s, ConnectError, w, k); }
    }

    /** CreateIfAvailable, and the state of the stream it created. */
    method NewStream() returns (s: Stream?)
      requires Valid()
      modifies this`trace, streams
      ensures Valid()
      ensures s == null <==> |old(trace).past.table| >= Room(config.maxStreams)
      ensures s == null ==>
                trace == old(trace) && streams.repr == old(streams.repr) && streams.streams == old(streams.streams)
      ensures s != null ==>
                && s.streamID == LeastFree(old(trace).past.table) && fresh(s) && streams.repr == old(streams.repr) + {s}
                && streams.streams == old(streams.streams)[s.streamID := s]
                && trace == Note(Note(old(trace), Created(s.streamID)), Changed(s.streamID, Inactive))
    {
      s := streams.CreateIfAvailable();
      if s != null {
        trace := Note(trace, Created(s.streamID));
        ChangeState(s, Inactive);
      }
    }

    method Remove(id: U32) returns (ok: bool)
      requires Valid()
      modifies this`trace, streams
      ensures Valid() && streams.repr == old(streams.repr)
      ensures ok == (id in old(trace).past.table) && trace == if ok then Note(old(trace), Deleted(id)) else old(trace)
    {
      ok := streams.Delete(id);
      if ok { trace := Note(trace, Deleted(id)); }
      else { assert streams.table == old(streams.table); }
    }

    /** createStream in serverControlConnectedHandler.onCommand, with its deferred error reply. */
    method OnCreateStreamCommand(s: Stream, w: World) returns (ok: bool)
      requires Valid() && Live(s)
      modifies this`trace, streams
      ensures Valid() && fresh(streams.repr - old(streams.repr))
      ensures Outcome(trace, ok) == Server.OnCreateStreamCommand(old(trace), s.streamID, config.maxStreams, w)
    {
      ok := Callback(s, OnCreateStream, w);
      if !ok {
        var _ := Reply(s, CreateStreamError, w, 0);
        return;
      }
      ok := SpawnStream(s, w);
    }

    /** createStream once the application accepts it. */
    method SpawnStream(s: Stream, w: World) returns (ok: bool)
      requires Valid()
      modifies this`trace, streams
      ensures Valid() && fresh(streams.repr - old(streams.repr))
      ensures Outcome(trace, ok) ==
              if |old(trace).past.table| >= Room(config.maxStreams) then RefuseStream(old(trace), s.streamID, w)
              else Server.SpawnStream(old(trace), s.streamID, w)
    {
      var newStream := NewStream();
      if newStream == null {
        ok := Reply(s, CreateStreamError, w, 0);
        if !ok { var _ := Reply(s, CreateStreamError, w, 1); }
      } else {
        ok := Announce(s, newStream, w);
      }
    }

    /** The success reply, and what happens if it fails. */
    method Announce(s: Stream, newStream: Stream, w: World) returns (ok: bool)
      requires Valid() && newStream.streamID in trace.past.table
      modifies this`trace, streams
      ensures Valid() && streams.repr == old(streams.repr) && ok == w.writes(0)
      ensures var t := Send(old(trace), s.streamID, CreateStreamSuccess(newStream.streamID), w, 0);
              trace == if ok then t else Send(Note(t, Deleted(newStream.streamID)), s.streamID, CreateStreamError, w, 1)
    {
      ok := Reply(s, CreateStreamSuccess(newStream.streamID), w, 0);
      if !ok {
        var _ := Remove(newStream.streamID);
        var _ := Reply(s, CreateStreamError, w, 1);
      }
    }

    method OnDeleteStreamCommand(s: Stream, target: U32, w: World) returns (ok: bool)
      requires Valid() && Live(s)
      modifies this`trace, streams
      ensures Valid() && streams.repr == old(streams.repr)
      ensures Outcome(trace, ok) == Server.OnDeleteStreamCommand(old(trace), s.streamID, target, w)
    {
      ok := Callback(s, OnDeleteStream, w);
      if ok { ok := Remove(target); }
    }

    /** publish and play in serverDataInactiveHandler.onCommand. */
    method OnStartCommand(s: Stream, publish: bool, w: World) returns (ok: bool)
      requires Valid() && Live(s)
      modifies this`trace, streams`table, s`state
      ensures Valid() && Outcome(trace, ok) == Server.OnStartCommand(old(trace), s.streamID, publish, w)
    {
      ok := Callback(s, if publish then OnPublish else OnPlay, w);
      if !ok {
        var _ := Reply(s, if publish then PublishFailed else PlayFailed, w, 0);
        return;
      }
      ok := Reply(s, if publish then PublishStart else PlayStart, w, 0);
      if ok { ChangeState(s, if publish then Publishing else Playing); }
    }

    /** onCommand of the stream's handler. */
    method OnCommand(s: Stream, command: Command, w: World) returns (ok: bool)
      requires Valid() && Live(s)
      modifies this`trace, streams, streams.repr
      ensures Valid() && fresh(streams.repr - old(streams.repr))
      ensures s.streamID in old(trace).past.table
      ensures Outcome(trace, ok) == Server.OnCommand(old(trace), s.streamID, config.maxStreams, command, w)
    {
      assert s.state == streams.table[s.streamID];
      if s.state == Connected {
        ok := OnConnectedCommand(s, command, w);
      } else {
        ok := OnOtherCommand(s, command, w);
      }
    }

    /** onCommand of the handlers that do not change the table's streams. */
    method OnOtherCommand(s: Stream, command: Command, w: World) returns (ok: bool)
      requires Valid() && Live(s) && s.state != Connected
      modifies this`trace, streams`table, s`state
      ensures Valid() && s.streamID in old(trace).past.table
      ensures Outcome(trace, ok) == Server.OnCommand(old(trace), s.streamID, config.maxStreams, command, w)
    {
      assert s.state == streams.table[s.streamID];
      if s.state == NotConnected && command == Connect {
        ok := OnConnectCommand(s, w);
      } else if s.state == Inactive && (command == Publish || command == Play) {
        ok := OnStartCommand(s, command == Publish, w);
      } else if s.state == Unset {
        ok := false;
      } else {
        ok := Callback(s, OnUnknownCommand, w);
      }
    }

    /** serverControlConnectedHandler.onCommand */
    method OnConnectedCommand(s: Stream, command: Command, w: World) returns (ok: bool)
      requires Valid() && Live(s)
      modifies this`trace, streams
      ensures Valid() && fresh(streams.repr - old(streams.repr))
      ensures Outcome(trace, ok) == Server.OnConnectedCommand(old(trace), s.streamID, config.maxStreams, command, w)
    {
      match command
      case CreateStream => ok := OnCreateStreamCommand(s, w);
      case DeleteStream(target) => ok := OnDeleteStreamCommand(s, target, w);
      case ReleaseStream => ok := Callback(s, OnReleaseStream, w);
      case FCPublish => ok := Callback(s, OnFCPublish, w);
      case FCUnpublish => ok := Callback(s, OnFCUnpublish, w);
      case _ => ok := Callback(s, OnUnknownCommand, w);
    }

    /** onMessage and onData of the stream's handler. */
    method OnContent(s: Stream, own: Option<ServerLog.Callback>, unknown: ServerLog.Callback,
                     w: World) returns (ok: bool)
      requires Valid() && Live(s)
      modifies this`trace
      ensures Valid() && s.streamID in old(trace).past.table
      ensures Outcome(trace, ok) == Server.OnContent(old(trace), s.streamID, own, unknown, w)
    {
      assert s.state == streams.table[s.streamID];
      if s.state == Unset {
        ok := false;
      } else if s.state == Publishing && own.Some? {
        ok := Callback(s, own.value, w);
      } else {
        ok := Callback(s, unknown, w);
      }
    }

    /** streamHandler.Handle */
    method Handle(s: Stream, m: Incoming, w: World) returns (ok: bool)
      requires Valid() && Live(s)
      modifies this`trace, peerState, streams, streams.repr
      ensures Valid() && fresh(streams.repr - old(streams.repr))
      ensures s.streamID in old(trace).past.table
      ensures (View(), ok) == HandleMessage(config, old(View()), Input(s.streamID, m, w))
    {
      assert s.streamID in streams.table;
      ok := true;
      match m
      case Data(UnknownBody) =>
      case Data(MalformedBody) => ok := false;
      case Data(Known(_)) => ok := OnContent(s, Some(OnSetDataFrame), OnUnknownData, w);
      case Request(UnknownBody) =>
      case Request(MalformedBody) => ok := false;
      case Request(Known(command)) => ok := OnCommand(s, command, w);
      case Answer => ok := false;
      case ChunkSize(n) => ok := peerState.SetChunkSize(n);
      case AckWindowSize(window) => ok := peerState.SetAckWindowSize(window);
      case Audio => ok := OnContent(s, Some(OnAudio), OnUnknownMessage, w);
      case Video => ok := OnContent(s, Some(OnVideo), OnUnknownMessage, w);
      case Other => ok := OnContent(s, None, OnUnknownMessage, w);
    }

    /** Conn.handleMessage */
    method HandleOne(i: Input) returns (ok: bool)
      requires Valid()
      modifies this, peerState, streams, streams.repr
      ensures Valid() && fresh(streams.repr - old(streams.repr))
      ensures (View(), ok) == HandleMessage(config, old(View()), i)
    {
      var s := streams.At(i.streamID);
      if s == null {
        if config.ignore && ignoredMessages < config.threshold {
          ignoredMessages := ignoredMessages + 1;
          return true;
        }
        return false;
      }
      ok := Handle(s, i.message, i.world);
    }

    /** Conn.runHandleMessageLoop over the messages that arrive. */
    method RunHandleMessageLoop(inputs: seq<Input>) returns (ok: bool)
      requires Valid()
      modifies this, peerState, streams, streams.repr
      ensures Valid() && (View(), ok) == Loop(config, old(View()), inputs)
    {
      ghost var goal := Loop(config, View(), inputs);
      var n := 0;
      while n < |inputs|
        invariant 0 <= n <= |inputs| && Valid() && fresh(streams.repr - old(streams.repr))
        invariant Loop(config, View(), inputs[n..]) == goal
      {
        assert inputs[n..][1..] == inputs[n + 1..];
        ok := HandleOne(inputs[n]);
        if !ok { return; }
        n := n + 1;
      }
      ok := true;
    }
  }
}
