/** What a server connection does, as a log: the callbacks of the application and their answers, the replies
    written, and the changes of the stream table. Which entries may follow which, and what every log made so
    keeps. */
module ServerLog {
  import opened Bytes
  import opened Streams

  datatype Callback =
    | OnConnect | OnCreateStream | OnDeleteStream | OnReleaseStream | OnFCPublish | OnFCUnpublish
    | OnPublish | OnPlay | OnSetDataFrame | OnAudio | OnVideo
    | OnUnknownMessage | OnUnknownData | OnUnknownCommand

  datatype Reply =
    | AckWindow | PeerBandwidth | StreamBegin | ConnectSuccess | ConnectError
    | CreateStreamSuccess(id: U32) | CreateStreamError
    | PublishStart | PublishFailed | PlayStart | PlayFailed

  /** `accepted` is the application's answer, `written` says whether the write went through. */
  datatype Entry =
    | Called(on: U32, callback: Callback, accepted: bool)
    | Sent(on: U32, reply: Reply, written: bool)
    | Created(id: U32)
    | Deleted(id: U32)
    | Changed(id: U32, state: State)

  /** The stream table after a log, and where in the log it came about: the accepted connect, the change to
      Connected, and of each live stream its creation, its accepted publish and its change to Publishing or
      Playing. */
  datatype Past = Past(
    table: Table,
    time: nat,
    connect: Option<nat>,
    connected: Option<nat>,
    created: map<U32, nat>,
    accepted: map<U32, nat>,
    settled: map<U32, nat>)

  datatype Trace = Trace(past: Past, log: seq<Entry>)

  const NOTHING := Trace(Past(map[], 0, None, None, map[], map[], map[]), [])

  function Note(t: Trace, e: Entry): Trace {
    Trace(After(t.past, e), t.log + [e])
  }

  function After(p: Past, e: Entry): Past {
    var now := p.time;
    match e
    case Called(id, callback, accepted) =>
      p.(time := now + 1,
         connect := if accepted && callback == OnConnect then Some(now) else p.connect,
         accepted := if accepted && callback == OnPublish then p.accepted[id := now] else p.accepted)
    case Sent(_, _, _) => p.(time := now + 1)
    case Created(id) => p.(time := now + 1, table := p.table[id := Unset], created := p.created[id := now])
    case Deleted(id) =>
      p.(time := now + 1, table := p.table - {id}, created := p.created - {id}, accepted := p.accepted - {id},
         settled := p.settled - {id})
    case Changed(id, state) =>
      p.(time := now + 1, table := p.table[id := state],
         connected := if state == Connected then Some(now) else p.connected,
         settled := if Final(state) then p.settled[id := now] else p.settled)
  }

  predicate Is(p: Past, id: U32, state: State) {
    id in p.table && p.table[id] == state
  }

  predicate Final(state: State) {
    state == Publishing || state == Playing
  }

  /** Which entries may come next. */
  predicate Allowed(p: Past, e: Entry) {
    match e
    case Created(id) => id !in p.table && if id == 0 then p.time == 0 else Is(p, 0, Connected)
    case Deleted(id) => id in p.table && Is(p, 0, Connected)
    case Changed(id, state) => id in p.table && MayBecome(p, id, state)
    case Called(id, callback, _) => id in p.table && Permitted(callback, p.table[id])
    case Sent(id, reply, _) => id in p.table && Truthful(p, id, reply)
  }

  /** What a success reply says has happened. */
  predicate Truthful(p: Past, id: U32, reply: Reply) {
    match reply
    case ConnectSuccess => p.connect.Some?
    case CreateStreamSuccess(n) => n in p.table
    case PublishStart => id in p.accepted
    case _ => true
  }

  predicate MayBecome(p: Past, id: U32, state: State)
    requires id in p.table
  {
    if state == NotConnected then id == 0 && p.table[id] == Unset
    else if state == Connected then id == 0 && p.table[id] == NotConnected && p.connect.Some?
    else if state == Inactive then id != 0 && p.table[id] == Unset
    else if state == Publishing then p.table[id] == Inactive && id in p.accepted
    else state == Playing && p.table[id] == Inactive
  }

  /** In which state of its stream a callback may come. */
  predicate Permitted(callback: Callback, state: State) {
    if callback == OnConnect then state == NotConnected
    else if callback == OnPublish || callback == OnPlay then state == Inactive
    else if OfMedia(callback) then state == Publishing
    else if OfUnknown(callback) then state != Unset
    else state == Connected
  }

  predicate OfMedia(callback: Callback) {
    callback == OnAudio || callback == OnVideo || callback == OnSetDataFrame
  }

  predicate OfUnknown(callback: Callback) {
    callback == OnUnknownMessage || callback == OnUnknownData || callback == OnUnknownCommand
  }

  //
  // What a log keeps
  //

  predicate At(log: seq<Entry>, i: int, e: Entry) {
    0 <= i < |log| && log[i] == e
  }

  /** No entry deletes the stream after position i and before position j. */
  predicate Undeleted(log: seq<Entry>, id: U32, i: int, j: nat) {
    forall k :: i < k < j ==> !At(log, k, Deleted(id))
  }

  /** Where a media callback comes from. */
  datatype Story = Story(connect: nat, connected: nat, created: nat, accepted: nat, published: nat)

  /** Before position i: a connect was accepted, the connection became Connected, the stream was created, its
      publish was accepted and it became Publishing, in this order, and since its creation it was not deleted. */
  predicate Tells(log: seq<Entry>, i: nat, id: U32, s: Story) {
    && s.connect < s.connected < s.created < s.accepted < s.published < i
    && At(log, s.connect, Called(0, OnConnect, true))
    && At(log, s.connected, Changed(0, Connected))
    && At(log, s.created, Created(id))
    && At(log, s.accepted, Called(id, OnPublish, true))
    && At(log, s.published, Changed(id, Publishing))
    && Undeleted(log, id, s.created, i)
  }

  ghost predicate Justified(log: seq<Entry>, i: nat, id: U32) {
    exists s :: Tells(log, i, id, s)
  }

  predicate IsMedia(log: seq<Entry>, i: int, id: U32) {
    0 <= i < |log| && log[i].Called? && OfMedia(log[i].callback) && log[i].on == id
  }

  predicate IsChange(log: seq<Entry>, i: int, id: U32, state: State) {
    At(log, i, Changed(id, state))
  }

  /** Stream 0 becomes Connected at most once and no other stream does. */
  ghost predicate ConnectedOnce(log: seq<Entry>) {
    forall i, j, a, b :: IsChange(log, i, a, Connected) && IsChange(log, j, b, Connected) ==> i == j && a == 0
  }

  /** Once a stream is Publishing or Playing it does not change again unless it is deleted first. */
  ghost predicate FinalStates(log: seq<Entry>) {
    forall i, j, id, s, s' :: i < j && Final(s) && IsChange(log, i, id, s) && IsChange(log, j, id, s') ==>
      !Undeleted(log, id, i, j)
  }

  /** Every callback with audio, video or metadata is justified. */
  ghost predicate MediaJustified(log: seq<Entry>) {
    forall i: nat, id :: IsMedia(log, i, id) ==> Justified(log, i, id)
  }

  predicate IsReply(log: seq<Entry>, i: int, id: U32, reply: Reply) {
    0 <= i < |log| && log[i].Sent? && log[i].on == id && log[i].reply == reply
  }

  /** The entry came before position i, and the stream was not deleted in between. */
  ghost predicate Since(log: seq<Entry>, i: nat, id: U32, e: Entry) {
    exists k: nat :: k < i && At(log, k, e) && Undeleted(log, id, k, i)
  }

  /** No success reply is attempted for what has not happened: a connect or a publish was accepted, and a stream
      that is announced was created and still exists. */
  ghost predicate HonestReplies(log: seq<Entry>) {
    HonestConnects(log) && HonestCreations(log) && HonestPublishes(log)
  }

  ghost predicate HonestConnects(log: seq<Entry>) {
    forall i: nat, id :: IsReply(log, i, id, ConnectSuccess) ==>
      exists k: nat :: k < i && At(log, k, Called(0, OnConnect, true))
  }

  ghost predicate HonestCreations(log: seq<Entry>) {
    forall i: nat, id, n :: IsReply(log, i, id, CreateStreamSuccess(n)) ==> Since(log, i, n, Created(n))
  }

  ghost predicate HonestPublishes(log: seq<Entry>) {
    forall i: nat, id :: IsReply(log, i, id, PublishStart) ==> Since(log, i, id, Called(id, OnPublish, true))
  }

  /** Stream 0 is created at the start only, so never again after it was deleted. */
  ghost predicate ControlFirst(log: seq<Entry>) {
    forall i :: At(log, i, Created(0)) ==> i == 0
  }

  ghost predicate SafeLog(log: seq<Entry>) {
    ConnectedOnce(log) && FinalStates(log) && MediaJustified(log) && HonestReplies(log) && ControlFirst(log)
  }

  ghost predicate Phases(p: Past) {
    && (0 in p.table ==> p.table[0] == Unset || p.table[0] == NotConnected || p.table[0] == Connected)
    && (forall id :: id in p.table && id != 0 ==> p.table[id] == Unset || p.table[id] == Inactive || Final(p.table[id]))
    && (p.connected.Some? <==> p.time > 0 && (0 !in p.table || p.table[0] == Connected))
    && (p.time == 0 ==> p.table == map[])
    && (p.connected.Some? ==> p.connect.Some?)
    && (forall id :: id in p.created <==> id in p.table)
    && (forall id :: id in p.accepted ==> id in p.table)
    && (forall id :: id in p.settled <==> id in p.table && Final(p.table[id]))
  }

  ghost predicate Recorded(t: Trace) {
    var p, log := t.past, t.log;
    && p.time == |log|
    && (p.connect.Some? ==> At(log, p.connect.value, Called(0, OnConnect, true)))
    && (p.connected.Some? ==>
          p.connect.Some? && p.connect.value < p.connected.value && At(log, p.connected.value, Changed(0, Connected)))
    && (forall id :: id in p.created ==> RecordedStream(p, log, id))
  }

  /** The positions kept for one live stream. */
  predicate RecordedStream(p: Past, log: seq<Entry>, id: U32)
    requires id in p.created
  {
    var b := p.created[id];
    && At(log, b, Created(id)) && Undeleted(log, id, b, |log|)
    && (id != 0 ==> p.connected.Some? && p.connected.value < b)
    && (id in p.accepted ==> b < p.accepted[id] && At(log, p.accepted[id], Called(id, OnPublish, true)))
    && (id in p.settled && id in p.table ==>
          && b < p.settled[id] && At(log, p.settled[id], Changed(id, p.table[id]))
          && (p.table[id] == Publishing ==> id in p.accepted && p.accepted[id] < p.settled[id]))
  }

  /** The log's changes to Connected and to final states are those that the positions speak of, unless the
      stream was deleted since. */
  ghost predicate Lasting(t: Trace) {
    && (forall i, id :: IsChange(t.log, i, id, Connected) ==> id == 0 && t.past.connected == Some(i))
    && (forall i, id, s :: IsChange(t.log, i, id, s) && Final(s) ==> SettledOrGone(t, i, id))
  }

  predicate SettledOrGone(t: Trace, i: int, id: U32) {
    (id in t.past.settled && t.past.settled[id] == i) || !Undeleted(t.log, id, i, |t.log|)
  }

  /** Everything kept. */
  ghost predicate Sound(t: Trace) {
    forall n {:trigger Inside(n)} :: Inside(n) ==> Phases(t.past) && Recorded(t) && Lasting(t) && SafeLog(t.log)
  }

  lemma NothingSound()
    ensures Sound(NOTHING)
  {
  }

  lemma SoundMeans(t: Trace)
    requires Sound(t)
    ensures Phases(t.past) && SafeLog(t.log)
  {
    assert Inside(0);
  }

  /** Only stream 0 controls the connection. */
  lemma ControlStream(t: Trace, id: U32)
    requires Sound(t) && (Is(t.past, id, NotConnected) || Is(t.past, id, Connected))
    ensures id == 0
  {
    assert Inside(0);
  }

  lemma AtAppend(log: seq<Entry>, e: Entry)
    ensures forall i, x :: At(log + [e], i, x) <==> At(log, i, x) || (i == |log| && x == e)
    ensures forall i, id, s :: IsChange(log + [e], i, id, s) <==>
                               IsChange(log, i, id, s) || (i == |log| && e == Changed(id, s))
  {
  }

  lemma UndeletedAppend(log: seq<Entry>, e: Entry, id: U32, i: int, j: nat)
    requires j <= |log|
    ensures Undeleted(log + [e], id, i, j) <==> Undeleted(log, id, i, j)
    ensures i < |log| ==>
              (Undeleted(log + [e], id, i, |log| + 1) <==> Undeleted(log, id, i, |log|) && e != Deleted(id))
  {
    AtAppend(log, e);
    forall k | i < k < |log| ensures At(log + [e], k, Deleted(id)) <==> At(log, k, Deleted(id)) {}
    if i < |log| && e == Deleted(id) { assert At(log + [e], |log|, Deleted(id)); }
  }

  lemma CreatedPhases(p: Past, id: U32)
    requires Phases(p) && Allowed(p, Created(id))
    ensures Phases(After(p, Created(id)))
  {
  }

  lemma DeletedPhases(p: Past, id: U32)
    requires Phases(p) && Allowed(p, Deleted(id))
    ensures Phases(After(p, Deleted(id)))
  {
  }

  lemma ChangedPhases(p: Past, id: U32, state: State)
    requires Phases(p) && Allowed(p, Changed(id, state))
    ensures Phases(After(p, Changed(id, state)))
  {
  }

  lemma NotePhases(p: Past, e: Entry)
    requires Phases(p) && Allowed(p, e)
    ensures Phases(After(p, e))
  {
    match e
    case Created(id) => CreatedPhases(p, id);
    case Deleted(id) => DeletedPhases(p, id);
    case Changed(id, state) => ChangedPhases(p, id, state);
    case _ =>
  }

  lemma NoteStream(p: Past, log: seq<Entry>, e: Entry, id: U32)
    requires Phases(p) && Allowed(p, e) && p.time == |log| && id in p.created && e != Deleted(id)
    requires RecordedStream(p, log, id)
    ensures RecordedStream(After(p, e), log + [e], id)
  {
    AtAppend(log, e);
    UndeletedAppend(log, e, id, p.created[id], |log|);
  }

  lemma {:induction false} NoteRecorded(t: Trace, e: Entry)
    requires Phases(t.past) && Recorded(t) && Allowed(t.past, e)
    ensures Recorded(Note(t, e))
  {
    AtAppend(t.log, e);
    forall id | id in After(t.past, e).created ensures RecordedStream(After(t.past, e), t.log + [e], id) {
      if id in t.past.created { NoteStream(t.past, t.log, e, id); }
    }
  }

  lemma NoteSettled(t: Trace, e: Entry, i: nat, id: U32)
    requires Phases(t.past) && Allowed(t.past, e) && i < |t.log| && SettledOrGone(t, i, id)
    ensures SettledOrGone(Note(t, e), i, id)
  {
    UndeletedAppend(t.log, e, id, i, |t.log|);
  }

  lemma NoteLasting(t: Trace, e: Entry)
    requires Phases(t.past) && t.past.time == |t.log| && Lasting(t) && Allowed(t.past, e)
    ensures Lasting(Note(t, e))
  {
    AtAppend(t.log, e);
    forall i, id, s | IsChange(t.log + [e], i, id, s) && Final(s) ensures SettledOrGone(Note(t, e), i, id) {
      if i < |t.log| { NoteSettled(t, e, i, id); }
    }
  }

  /** A media callback is justified by the positions kept. */
  lemma NoteJustified(t: Trace, id: U32)
    requires Phases(t.past) && Recorded(t) && Is(t.past, id, Publishing)
    ensures Justified(t.log, |t.log|, id)
  {
    var p := t.past;
    assert RecordedStream(p, t.log, id);
    var s := Story(p.connect.value, p.connected.value, p.created[id], p.accepted[id], p.settled[id]);
    assert Tells(t.log, |t.log|, id, s);
  }

  lemma StillJustified(log: seq<Entry>, e: Entry, i: nat, id: U32)
    requires i <= |log| && Justified(log, i, id)
    ensures Justified(log + [e], i, id)
  {
    var s :| Tells(log, i, id, s);
    AtAppend(log, e);
    UndeletedAppend(log, e, id, s.created, i);
    assert Tells(log + [e], i, id, s);
  }

  lemma MediaAppend(log: seq<Entry>, e: Entry, i: nat, id: U32)
    ensures IsMedia(log + [e], i, id) <==>
            IsMedia(log, i, id) || (i == |log| && e.Called? && OfMedia(e.callback) && e.on == id)
  {
  }

  lemma NoteMedia(t: Trace, e: Entry)
    requires Phases(t.past) && Recorded(t) && Allowed(t.past, e) && MediaJustified(t.log)
    ensures MediaJustified(t.log + [e])
  {
    forall i: nat, id | IsMedia(t.log + [e], i, id) ensures Justified(t.log + [e], i, id) {
      MediaAppend(t.log, e, i, id);
      if i == |t.log| { NoteJustified(t, id); }
      StillJustified(t.log, e, i, id);
    }
  }

  lemma StillSince(log: seq<Entry>, e: Entry, i: nat, id: U32, x: Entry)
    requires i <= |log| && Since(log, i, id, x)
    ensures Since(log + [e], i, id, x)
  {
    var k: nat :| k < i && At(log, k, x) && Undeleted(log, id, k, i);
    AtAppend(log, e);
    UndeletedAppend(log, e, id, k, i);
    assert At(log + [e], k, x);
  }

  /** The positions kept are the causes of the replies that may come next. */
  lemma Causes(t: Trace, id: U32)
    requires Phases(t.past) && Recorded(t) && id in t.past.table
    ensures Since(t.log, |t.log|, id, Created(id))
    ensures id in t.past.accepted ==> Since(t.log, |t.log|, id, Called(id, OnPublish, true))
  {
    var p, log := t.past, t.log;
    assert RecordedStream(p, log, id);
    var b := p.created[id];
    assert At(log, b, Created(id));
    if id in p.accepted {
      assert At(log, p.accepted[id], Called(id, OnPublish, true));
      assert Undeleted(log, id, p.accepted[id], |log|);
    }
  }

  lemma ReplyAppend(log: seq<Entry>, e: Entry, i: nat, id: U32, reply: Reply)
    ensures IsReply(log + [e], i, id, reply) <==>
            IsReply(log, i, id, reply) || (i == |log| && e.Sent? && e.on == id && e.reply == reply)
  {
  }

  lemma NoteConnects(t: Trace, e: Entry)
    requires Phases(t.past) && Recorded(t) && Allowed(t.past, e) && HonestConnects(t.log)
    ensures HonestConnects(t.log + [e])
  {
    var log := t.log;
    forall i: nat, id | IsReply(log + [e], i, id, ConnectSuccess)
      ensures exists k: nat :: k < i && At(log + [e], k, Called(0, OnConnect, true))
    {
      ReplyAppend(log, e, i, id, ConnectSuccess);
      if i < |log| {
        var k: nat :| k < i && At(log, k, Called(0, OnConnect, true));
        assert At(log + [e], k, Called(0, OnConnect, true));
      } else {
        assert At(log + [e], t.past.connect.value, Called(0, OnConnect, true));
      }
    }
  }

  lemma NoteCreations(t: Trace, e: Entry)
    requires Phases(t.past) && Recorded(t) && Allowed(t.past, e) && HonestCreations(t.log)
    ensures HonestCreations(t.log + [e])
  {
    var log := t.log;
    forall i: nat, id, n | IsReply(log + [e], i, id, CreateStreamSuccess(n))
      ensures Since(log + [e], i, n, Created(n))
    {
      ReplyAppend(log, e, i, id, CreateStreamSuccess(n));
      if i == |log| { Causes(t, n); }
      StillSince(log, e, i, n, Created(n));
    }
  }

  lemma NotePublishes(t: Trace, e: Entry)
    requires Phases(t.past) && Recorded(t) && Allowed(t.past, e) && HonestPublishes(t.log)
    ensures HonestPublishes(t.log + [e])
  {
    var log := t.log;
    forall i: nat, id | IsReply(log + [e], i, id, PublishStart)
      ensures Since(log + [e], i, id, Called(id, OnPublish, true))
    {
      ReplyAppend(log, e, i, id, PublishStart);
      if i == |log| { Causes(t, id); }
      StillSince(log, e, i, id, Called(id, OnPublish, true));
    }
  }

  lemma NoteHonest(t: Trace, e: Entry)
    requires Phases(t.past) && Recorded(t) && Allowed(t.past, e) && HonestReplies(t.log)
    ensures HonestReplies(t.log + [e])
  {
    NoteConnects(t, e);
    NoteCreations(t, e);
    NotePublishes(t, e);
  }

  lemma NoteFinal(t: Trace, e: Entry)
    requires Phases(t.past) && Lasting(t) && Allowed(t.past, e) && FinalStates(t.log)
    ensures FinalStates(t.log + [e])
  {
    var log := t.log;
    AtAppend(log, e);
    forall i, j, id, s, s' | i < j && Final(s) && IsChange(log + [e], i, id, s) && IsChange(log + [e], j, id, s')
      ensures !Undeleted(log + [e], id, i, j)
    {
      assert IsChange(log, i, id, s);
      UndeletedAppend(log, e, id, i, j);
      if j == |log| { assert SettledOrGone(t, i, id); }
    }
  }

  lemma NoteConnected(t: Trace, e: Entry)
    requires Phases(t.past) && t.past.time == |t.log| && Lasting(t) && Allowed(t.past, e) && ConnectedOnce(t.log)
    ensures ConnectedOnce(t.log + [e])
  {
    AtAppend(t.log, e);
  }

  lemma NoteControl(t: Trace, e: Entry)
    requires t.past.time == |t.log| && Allowed(t.past, e) && ControlFirst(t.log)
    ensures ControlFirst(t.log + [e])
  {
    AtAppend(t.log, e);
  }

  /** Any allowed entry keeps all of it. */
  lemma {:induction false} NoteSound(t: Trace, e: Entry)
    requires Sound(t) && Allowed(t.past, e)
    ensures Sound(Note(t, e))
  {
    assert Inside(0);
    NotePhases(t.past, e);
    NoteRecorded(t, e);
    NoteLasting(t, e);
    NoteConnected(t, e);
    NoteFinal(t, e);
    NoteMedia(t, e);
    NoteHonest(t, e);
    NoteControl(t, e);
  }
}
