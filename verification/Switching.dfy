/** Changing the chunk size while messages are in progress: between the change and the delivery of its
    announcement the two sides cut by different sizes. When that is seamless, and what it breaks otherwise. */
module Switching {
  import opened Bytes
  import opened ChunkHeader
  import opened ChunkStream
  import opened Receiving
  import opened Sending
  import opened Lossless
  import opened Scheduling
  import Control

  predicate IsSize(m: Message) {
    m.typeID == Control.SET_CHUNK_SIZE
  }

  /** The chunk size that is announced after a turn of the writer, if `before` was: a message that fits into the
      chunk is complete then. */
  function AnnouncedAfter(S: Sender, id: int, before: U32): U32 {
    if id in S.writers && id in S.current && |S.writers[id].buf| <= S.chunkSize
    then AnnouncedBy(S.current[id], before) else before
  }

  /** The chunk size that will be announced when the j-th in line has its turn. */
  function AnnouncedThen(S: Sender, j: nat): U32
    requires j <= |Line(S)|
  {
    if j == 0 then S.announced else AnnouncedAfter(S, Line(S)[j - 1], AnnouncedThen(S, j - 1))
  }

  /** The sender, and a peer that was announced the given size, cut the same piece off the writer's buffer. */
  predicate AlikeUnder(S: Sender, id: int, announced: U32) {
    id in S.writers ==>
      var len := |S.writers[id].buf|; Min(len, S.chunkSize) == Min(len, Min(announced, MAX_CHUNK_SIZE))
  }

  predicate AlikeInLine(S: Sender, j: nat)
    requires j < |Line(S)|
  {
    AlikeUnder(S, Line(S)[j], AnnouncedThen(S, j))
  }

  /** Everyone in line will send a chunk that the peer cuts alike by then. */
  predicate LineAlike(S: Sender) {
    forall j :: 0 <= j < |Line(S)| ==> AlikeInLine(S, j)
  }

  /** So will the writer, if it joins the line now. */
  predicate MayJoin(S: Sender, id: int) {
    AlikeUnder(S, id, AnnouncedThen(S, |Line(S)|))
  }

  ghost predicate Ready(S: Sender) {
    Owned(S) && S.chunkSize > 0 && LineAlike(S)
  }

  //
  // What to check before a step
  //

  /** Nothing of most steps. Who joins the line must be cut alike when its turn comes: by a Write, that of an
      announcement included, or by Run, that queues the writer in its hands again. A change of the size must leave
      everyone in line cut alike. */
  ghost predicate SafeStep(S: Sender, e: Event, R: Receiver) {
    match e
    case Acquire(id, m) => Separates(R.decode, id) && Acceptable(m) && Welcome(R, m)
    case Enqueue(id) => MayJoin(S, id)
    case Requeue => S.flight.Unfinished? ==> MayJoin(S, S.flight.id)
    case SetSize(n) => LineAlike(S.(chunkSize := n))
    case _ => true
  }

  //
  // Every safe step keeps ready
  //

  /** Nothing about the chunk stream has changed that its turn depends on. */
  predicate SameAt(S: Sender, S': Sender, id: int) {
    && (id in S.writers <==> id in S'.writers)
    && (id in S.writers ==> S'.writers[id] == S.writers[id])
    && (id in S.current <==> id in S'.current)
    && (id in S.current ==> S'.current[id] == S.current[id])
  }

  /** The sizes, and everyone in line, are as before. */
  predicate LineStill(S: Sender, S': Sender) {
    && S'.chunkSize == S.chunkSize && S'.announced == S.announced && Line(S) <= Line(S')
    && forall i :: 0 <= i < |Line(S)| ==> SameAt(S, S', Line(S)[i])
  }

  lemma {:induction false} StillThen(S: Sender, S': Sender, j: nat)
    requires LineStill(S, S') && j <= |Line(S)|
    ensures AnnouncedThen(S', j) == AnnouncedThen(S, j)
  {
    if j > 0 {
      StillThen(S, S', j - 1);
      assert Line(S')[j - 1] == Line(S)[j - 1] && SameAt(S, S', Line(S)[j - 1]);
    }
  }

  /** Whether someone in line is cut alike is then as before. */
  lemma StillAlike(S: Sender, S': Sender, j: nat)
    requires LineStill(S, S') && j < |Line(S)|
    ensures AlikeInLine(S', j) <==> AlikeInLine(S, j)
  {
    StillThen(S, S', j);
    assert Line(S')[j] == Line(S)[j] && SameAt(S, S', Line(S)[j]);
  }

  /** Who may join, and joins the line, is cut alike in it; and only then. */
  lemma JoinedAlike(S: Sender, S': Sender, id: int)
    requires LineStill(S, S') && Line(S') == Line(S) + [id] && SameAt(S, S', id)
    ensures AlikeInLine(S', |Line(S)|) <==> MayJoin(S, id)
  {
    StillThen(S, S', |Line(S)|);
  }

  lemma BusyInLine(S: Sender, j: nat)
    requires Partitioned(S) && S.current.Keys <= S.writers.Keys && j < |Line(S)|
    ensures var id := Line(S)[j]; id in S.current && id in S.writers && id !in S.held
  {
    var id, k := Line(S)[j], if S.flight.Taken? then 1 else 0;
    if j < k {
      assert id in Flying(S.flight) && id !in S.held;
    } else {
      assert id == S.queue[j - k] && id in S.queue;
    }
    assert id in S.current.Keys;
  }

  lemma LineIsBusy(S: Sender)
    requires Owned(S)
    ensures Distinct(Line(S))
    ensures forall j :: 0 <= j < |Line(S)| ==>
              Line(S)[j] in S.current && Line(S)[j] in S.writers && Line(S)[j] !in S.held
  {
    assert Inside(0);
    assert Distinct(Line(S)) by {
      if S.flight.Taken? { assert S.flight.id in Flying(S.flight); }
    }
    forall j | 0 <= j < |Line(S)|
      ensures Line(S)[j] in S.current && Line(S)[j] in S.writers && Line(S)[j] !in S.held
    {
      BusyInLine(S, j);
    }
  }

  /** Who joins the line by a step. */
  function Joining(S: Sender, e: Event): seq<int> {
    if e.Enqueue? then [e.id] else if e.Requeue? && S.flight.Unfinished? then [S.flight.id] else []
  }

  /** Steps that send nothing and do not change the size leave the line as it is or lengthen it at its end. */
  lemma LineGrows(S: Sender, e: Event)
    requires Owned(S) && Enabled(S, e) && !e.Emit? && !e.SetSize?
    ensures LineStill(S, Step(S, e)) && Line(Step(S, e)) == Line(S) + Joining(S, e)
    ensures forall id :: id in Joining(S, e) ==> SameAt(S, Step(S, e), id)
  {
    var S' := Step(S, e);
    LineIsBusy(S);
    assert Line(S') == Line(S) + Joining(S, e);
  }

  lemma GrowsAlike(S: Sender, e: Event)
    requires Ready(S) && Enabled(S, e) && !e.Emit? && !e.SetSize?
    requires forall id :: id in Joining(S, e) ==> MayJoin(S, id)
    ensures Ready(Step(S, e))
  {
    var S' := Step(S, e);
    StepOwned(S, e);
    LineGrows(S, e);
    forall j | 0 <= j < |Line(S')| ensures AlikeInLine(S', j) {
      if j < |Line(S)| { StillAlike(S, S', j); } else { JoinedAlike(S, S', Joining(S, e)[0]); }
    }
  }

  /** The head of the line has had its turn, and all others are as before. */
  predicate HeadServed(S: Sender, S': Sender) {
    && Line(S) != [] && Line(S') == Line(S)[1..] && S'.chunkSize == S.chunkSize
    && S'.announced == AnnouncedAfter(S, Line(S)[0], S.announced)
    && forall i :: 0 < i < |Line(S)| ==> SameAt(S, S', Line(S)[i])
  }

  lemma EmitFrame(S: Sender)
    requires Enabled(S, Emit)
    ensures var S', id := DoEmit(S), S.flight.id;
            && Line(S) == [id] + S.queue && Line(S') == S.queue && S'.chunkSize == S.chunkSize
            && S'.announced == AnnouncedAfter(S, id, S.announced)
            && forall k :: k != id ==> SameAt(S, S', k)
  {
  }

  lemma EmitServes(S: Sender)
    requires Owned(S) && Enabled(S, Emit)
    ensures HeadServed(S, DoEmit(S))
  {
    LineIsBusy(S);
    EmitFrame(S);
    assert Line(S)[0] == S.flight.id;
  }

  lemma {:induction false} ServedThen(S: Sender, S': Sender, j: nat)
    requires HeadServed(S, S') && j < |Line(S)|
    ensures AnnouncedThen(S', j) == AnnouncedThen(S, j + 1)
  {
    if j == 0 {
      assert AnnouncedThen(S, 0) == S.announced;
    } else {
      ServedThen(S, S', j - 1);
      assert Line(S')[j - 1] == Line(S)[j] && SameAt(S, S', Line(S)[j]);
    }
  }

  /** Whether someone behind the head is cut alike is then as before. */
  lemma ServedAlike(S: Sender, S': Sender, j: nat)
    requires HeadServed(S, S') && j < |Line(S')|
    ensures AlikeInLine(S', j) <==> AlikeInLine(S, j + 1)
  {
    ServedThen(S, S', j);
    assert Line(S')[j] == Line(S)[j + 1] && SameAt(S, S', Line(S)[j + 1]);
  }

  lemma HeadCut(S: Sender)
    requires Enabled(S, Emit)
    ensures AlikeInLine(S, 0) <==> CutAlike(S, S.writers[S.flight.id])
  {
    assert Line(S)[0] == S.flight.id;
  }

  /** A chunk sent changes nothing for those still in line: what the peer cuts by when their turn comes was reckoned
      with. */
  lemma EmitReady(S: Sender)
    requires Ready(S) && Enabled(S, Emit)
    ensures Ready(DoEmit(S))
  {
    var S' := DoEmit(S);
    EmitOwned(S);
    EmitServes(S);
    forall j | 0 <= j < |Line(S')| ensures AlikeInLine(S', j) { ServedAlike(S, S', j); }
  }

  lemma SafeStepReady(S: Sender, e: Event, R: Receiver)
    requires Ready(S) && Enabled(S, e) && SafeStep(S, e, R)
    ensures Transmittable(S, e, R) && Ready(Step(S, e))
  {
    if e.Emit? {
      HeadCut(S);
      EmitReady(S);
    } else if e.SetSize? {
      SetSizeOwned(S, e.chunkSize);
    } else {
      GrowsAlike(S, e);
    }
  }

  /** A run that changes the chunk size safely, whatever happens between a change, the Write of its announcement and the
      sending of that. */
  ghost predicate SwitchesSafely(S: Sender, es: seq<Event>, R: Receiver)
    decreases |es|
  {
    es == [] || (Enabled(S, es[0]) && SafeStep(S, es[0], R) && SwitchesSafely(Step(S, es[0]), es[1..], R))
  }

  /** Such a run transmits, so that everything is delivered; and everyone in line is cut alike at its end. */
  lemma {:induction false} SafeSwitchesAreSeamless(S: Sender, es: seq<Event>, R: Receiver)
    requires Ready(S) && SwitchesSafely(S, es, R)
    ensures Runs(S, es) && Transmits(S, es, R) && Ready(Run(S, es))
    decreases |es|
  {
    if es != [] {
      SafeStepReady(S, es[0], R);
      SafeSwitchesAreSeamless(Step(S, es[0]), es[1..], R);
    }
  }

  lemma InitialReady(mode: Mode, n: U32, maxStreams: int)
    requires n > 0 && maxStreams >= 0
    ensures Ready(Initial(mode, n, maxStreams))
  {
    InitialOwned(mode, n, maxStreams);
  }

  /** From the start of a connection such a run delivers everything it has sent. */
  lemma SafeRunsAreLossless(mode: Mode, n: U32, maxStreams: int, R: Receiver, es: seq<Event>)
    requires n > 0 && maxStreams >= 0 && FreshPeer(R, n, maxStreams)
    requires SwitchesSafely(Initial(mode, n, maxStreams), es, R)
    ensures Runs(Initial(mode, n, maxStreams), es)
    ensures var S := Run(Initial(mode, n, maxStreams), es);
            var res := ReadAll(R, [], WireBytes(S.wire));
            && res.Drained?
            && |res.got| == |S.sent|
            && (forall i :: 0 <= i < |S.sent| ==> (res.got[i] == S.sent[i] <==> OwnTime(S.mode, S.sent, i)))
            && (res.got == S.sent <==> AllFaithful(S.mode, S.sent))
  {
    InitialReady(mode, n, maxStreams);
    SafeSwitchesAreSeamless(Initial(mode, n, maxStreams), es, R);
    LosslessMultiplexing(mode, n, maxStreams, R, es);
  }

  //
  // When there is nothing to check
  //

  /** Both sides cut by the same size, and no announcement is under way. */
  predicate Settled(S: Sender) {
    && Min(S.chunkSize, MAX_CHUNK_SIZE) == PeerSize(S)
    && forall id :: id in S.current ==> Acceptable(S.current[id]) && !IsSize(S.current[id])
  }

  lemma {:induction false} NothingAnnounced(S: Sender, j: nat)
    requires j <= |Line(S)| && forall id :: id in S.current ==> !IsSize(S.current[id])
    ensures AnnouncedThen(S, j) == S.announced
  {
    if j > 0 { NothingAnnounced(S, j - 1); }
  }

  lemma SettledAlike(S: Sender, id: int)
    requires Owned(S) && Settled(S)
    ensures AlikeUnder(S, id, S.announced)
  {
    assert Inside(0);
    if id in S.writers { assert Carries(S, id); }
  }

  /** Then everyone in line is cut alike and everyone may join. */
  lemma SettledReady(S: Sender, id: int)
    requires Owned(S) && S.chunkSize > 0 && Settled(S)
    ensures Ready(S) && MayJoin(S, id)
  {
    forall j | 0 <= j < |Line(S)| ensures AlikeInLine(S, j) {
      NothingAnnounced(S, j);
      SettledAlike(S, Line(S)[j]);
    }
    NothingAnnounced(S, |Line(S)|);
    SettledAlike(S, id);
  }

  //
  // The switch in one piece
  //

  /** The peer can be told of the size and is configured to accept it. */
  ghost predicate Announceable(n: U32, R: Receiver) {
    Control.ValidChunkSize(n) && Separates(R.decode, CONTROL_CHUNK_STREAM) && Min(n, MAX_CHUNK_SIZE) <= R.maxChunkSize
  }

  /** Of everyone in line, and of the four bytes of the announcement behind them, n and the size announced by then cut
      the same piece next. */
  predicate SizesSafe(S: Sender, n: U32) {
    var S1 := S.(chunkSize := n);
    LineAlike(S1) && Min(4, n) == Min(4, Min(AnnouncedThen(S1, |Line(S1)|), MAX_CHUNK_SIZE))
  }

  /** What CreateStream announces: a SetChunkSize message, type 1 on message stream 0 and chunk stream 2, whose four
      bytes are the new size, most significant first, and which the peer decodes as that. */
  lemma AnnouncementIs(n: U32)
    requires 1 <= n < 2147483648
    ensures CONTROL_CHUNK_STREAM == 2 && SizeMessage(n).typeID == 1 && SizeMessage(n).streamID == 0
    ensures var b := SizeMessage(n).payload;
            && |b| == 4 && Control.Decode(1, b) == Some(Control.SetChunkSize(n))
            && n == 16777216 * b[0] as int + 65536 * b[1] as int + 256 * b[2] as int + b[3] as int
  {
    Control.WordRoundTrip(Control.SetChunkSize(n), n);
    U32RoundTrip(n);
  }

  /** CreateStream's switch with nothing in between: the size is changed and its announcement written. */
  function Switch(n: U32): seq<Event> {
    [SetSize(n), Acquire(CONTROL_CHUNK_STREAM, SizeMessage(n)), Enqueue(CONTROL_CHUNK_STREAM)]
  }

  predicate CanSwitch(S: Sender, n: U32) {
    n > 0 && CanAcquire(S.(chunkSize := n), CONTROL_CHUNK_STREAM, SizeMessage(n)) && |S.queue| < QUEUE_SIZE
  }

  /** Between the change and the queueing of the announcement. */
  function Changed(S: Sender, n: U32): Sender
    requires CanSwitch(S, n)
  {
    DoAcquire(S.(chunkSize := n), CONTROL_CHUNK_STREAM, SizeMessage(n))
  }

  function Switched(S: Sender, n: U32): Sender
    requires CanSwitch(S, n)
  {
    DoEnqueue(Changed(S, n), CONTROL_CHUNK_STREAM)
  }

  lemma SizeIsWelcome(R: Receiver, n: U32)
    requires Control.ValidChunkSize(n) && Min(n, MAX_CHUNK_SIZE) <= R.maxChunkSize
    ensures Welcome(R, SizeMessage(n)) && Acceptable(SizeMessage(n)) && |SizeMessage(n).payload| == 4
  {
    Control.WordRoundTrip(Control.SetChunkSize(n), n);
  }

  /** The condition, checked before the change, is what its three steps need. */
  lemma ChangedAlike(S: Sender, n: U32, R: Receiver)
    requires Owned(S) && CanSwitch(S, n) && Announceable(n, R)
    ensures SizesSafe(S, n) <==> LineAlike(S.(chunkSize := n)) && MayJoin(Changed(S, n), CONTROL_CHUNK_STREAM)
  {
    var id, S1 := CONTROL_CHUNK_STREAM, S.(chunkSize := n);
    SetSizeOwned(S, n);
    SizeIsWelcome(R, n);
    IdleWriterIsEmpty(S, id);
    LineGrows(S1, Acquire(id, SizeMessage(n)));
    assert |Changed(S, n).writers[id].buf| == 4;
    StillThen(S1, Changed(S, n), |Line(S1)|);
  }

  /** So it can be checked once, before the change: it makes all three steps safe. */
  lemma SwitchIsSafe(S: Sender, n: U32, R: Receiver)
    requires Owned(S) && CanSwitch(S, n) && Announceable(n, R) && SizesSafe(S, n)
    ensures SwitchesSafely(S, Switch(n), R)
  {
    var id, S1, S2, es := CONTROL_CHUNK_STREAM, S.(chunkSize := n), Changed(S, n), Switch(n);
    ChangedAlike(S, n, R);
    SizeIsWelcome(R, n);
    assert es[1..][1..] == [Enqueue(id)] && es[1..][1..][1..] == [];
    assert SwitchesSafely(Step(S2, Enqueue(id)), [], R);
    assert SwitchesSafely(S2, es[1..][1..], R);
    assert SwitchesSafely(S1, es[1..], R);
  }

  //
  // An unsafe step
  //

  /** The chunk that Run sends next, and the reader that has absorbed its header. */
  function NextChunk(S: Sender): WireChunk
    requires Enabled(S, Emit)
  {
    var (w, fmt, payload) := SendChunk(S.mode, S.writers[S.flight.id], S.chunkSize);
    WireChunk(BasicHeader(fmt, S.flight.id), w.header, payload)
  }

  function HeaderRead(S: Sender, R: Receiver): ReaderMem
    requires Enabled(S, Emit)
  {
    var c := NextChunk(S);
    Absorb(ReaderOf(R, S.flight.id), c.basic.fmt, Carried(c.basic.fmt, c.header))
  }

  /** The peer reads the next chunk as it was sent, whatever follows it. */
  ghost predicate ReadAsSent(S: Sender, R: Receiver)
    requires Enabled(S, Emit)
  {
    var r, c, id := HeaderRead(S, R), NextChunk(S), S.flight.id;
    && |r.buf| + |c.payload| <= r.messageLength
    && ReadsChunk(R, ChunkBytes(c), R.(readers := R.readers[id := Received(r, c.payload)]), id)
  }

  lemma NextExpected(S: Sender, R: Receiver, got: seq<Parcel>)
    requires InSync(S, R, got) && Enabled(S, Emit)
    ensures var r, w := HeaderRead(S, R), S.writers[S.flight.id];
            && r.messageLength - |r.buf| == |w.buf| > 0
            && NextChunk(S).payload == w.buf[..Min(|w.buf|, S.chunkSize)]
            && (S.flight.id in R.readers || |R.readers| < R.maxStreams)
  {
    var id := S.flight.id;
    assert Linked(S, R, id);
    HeaderCarries(S.mode, S.writers[id], ReaderOf(R, id), Hist(S.sent, id), S.current[id]);
    RoomForReader(S, R, got);
  }

  /** Between two sides that are in step, the next chunk is read as it was sent if and only if both cut it alike. */
  lemma ReadAsSentIff(S: Sender, R: Receiver, got: seq<Parcel>)
    requires InSync(S, R, got) && Enabled(S, Emit)
    ensures ReadAsSent(S, R) <==> CutAlike(S, S.writers[S.flight.id])
  {
    var id, r, c, w := S.flight.id, HeaderRead(S, R), NextChunk(S), S.writers[S.flight.id];
    NextExpected(S, R, got);
    if CutAlike(S, w) {
      ReadsAs(R, c, r);
    } else {
      PiecesMustAgree(r, w.buf, S.chunkSize, R.chunkSize);
      var rest :| !TakesPiece(r, c.payload, rest, R.chunkSize);
      ReadChunkBytes(R, c, rest);
      var input := ChunkBytes(c) + rest;
      assert input[|ChunkBytes(c)|..] == rest && ChunkBytes(c) <= input;
      Misread(R, c, r, rest);
    }
  }

  lemma Misread(R: Receiver, c: WireChunk, r: ReaderMem, rest: seq<Byte>)
    requires r == Absorb(ReaderOf(R, c.basic.chunkStreamID), c.basic.fmt, Carried(c.basic.fmt, c.header))
    requires |r.buf| + |c.payload| <= r.messageLength && !TakesPiece(r, c.payload, rest, R.chunkSize)
    ensures var id := c.basic.chunkStreamID;
            ReadBody(R, c.basic, Carried(c.basic.fmt, c.header), c.payload + rest) !=
            Got(R.(readers := R.readers[id := Received(r, c.payload)]), id, rest)
  {
    var id, f := c.basic.chunkStreamID, Fill(r, c.payload + rest, R.chunkSize);
    if f.Some? {
      var R' := R.(readers := R.readers[id := f.value.value]);
      var R'' := R.(readers := R.readers[id := Received(r, c.payload)]);
      if R' == R'' { assert R'.readers[id] == R''.readers[id]; }
    }
  }

  lemma SeparatesValid(R: Receiver, id: int)
    requires Separates(R.decode, id)
    ensures ValidChunkStreamID(id)
  {
    var c := WireChunk(BasicHeader(3, id), ZERO_HEADER, []);
    assert SeparatesAt(R.decode, c, []);
  }

  /** The j-th in line is the first whose next chunk will not be cut alike. */
  predicate FirstUnlike(S: Sender, j: nat) {
    j < |Line(S)| && !AlikeInLine(S, j) && forall i :: 0 <= i < j ==> AlikeInLine(S, i)
  }

  lemma {:induction false} LeastUnlike(S: Sender, k: nat) returns (j: nat)
    requires k < |Line(S)| && !AlikeInLine(S, k)
    ensures j <= k && FirstUnlike(S, j)
    decreases k
  {
    if i :| 0 <= i < k && !AlikeInLine(S, i) { j := LeastUnlike(S, i); } else { j := k; }
  }

  /** Run never has to wait for a place in the queue: it has nothing in its hands, or there is one. */
  predicate Unblocked(S: Sender) {
    S.flight == Grounded || |S.queue| < QUEUE_SIZE
  }

  lemma FewNeverBlock(S: Sender)
    requires Owned(S) && S.maxStreams <= 64
    ensures Unblocked(S)
  {
    BusyCount(S);
  }

  /** What Run does next. */
  function NextEvent(S: Sender): Event {
    if S.flight.Unfinished? then Requeue else if S.flight.Taken? then Emit else Take
  }

  /** How many steps Run needs until it sends for the j-th in line. */
  function StepsTo(S: Sender, j: nat): nat {
    3 * j + if S.flight.Unfinished? then 2 else if S.flight.Taken? then 0 else 1
  }

  lemma FlightIsBusy(S: Sender, R: Receiver, got: seq<Parcel>)
    requires InSync(S, R, got) && S.flight.Taken?
    ensures Enabled(S, Emit)
  {
    LineIsBusy(S);
    assert Line(S)[0] == S.flight.id;
    SeparatesValid(R, S.flight.id);
  }

  /** One step of Run towards the first that is not cut alike. */
  lemma OneStep(S: Sender, R: Receiver, got: seq<Parcel>, j: nat)
    returns (R': Receiver, got': seq<Parcel>, j': nat)
    requires InSync(S, R, got) && Unblocked(S) && FirstUnlike(S, j) && StepsTo(S, j) > 0
    ensures Enabled(S, NextEvent(S)) && InSync(Step(S, NextEvent(S)), R', got') && Unblocked(Step(S, NextEvent(S)))
    ensures FirstUnlike(Step(S, NextEvent(S)), j') && StepsTo(Step(S, NextEvent(S)), j') < StepsTo(S, j)
  {
    if S.flight.Taken? {
      R', got' := SendAlike(S, R, got, j);
      j' := j - 1;
    } else {
      R', got', j' := R, got, j;
      WaitAlike(S, R, got, j);
    }
  }

  /** Run sends for someone who is cut alike. */
  lemma SendAlike(S: Sender, R: Receiver, got: seq<Parcel>, j: nat) returns (R': Receiver, got': seq<Parcel>)
    requires InSync(S, R, got) && S.flight.Taken? && FirstUnlike(S, j) && j > 0
    ensures Enabled(S, Emit) && InSync(DoEmit(S), R', got') && FirstUnlike(DoEmit(S), j - 1)
  {
    FlightIsBusy(S, R, got);
    HeadCut(S);
    assert AlikeInLine(S, 0);
    var c, R1, got1 := EmitInSync(S, R, got);
    R', got' := R1, got1;
    var S' := DoEmit(S);
    EmitServes(S);
    forall i | 0 <= i < j ensures AlikeInLine(S', i) <==> AlikeInLine(S, i + 1) { ServedAlike(S, S', i); }
  }

  /** Run takes the next writer or queues the last one again. */
  lemma WaitAlike(S: Sender, R: Receiver, got: seq<Parcel>, j: nat)
    requires InSync(S, R, got) && Unblocked(S) && FirstUnlike(S, j) && !S.flight.Taken?
    ensures Enabled(S, NextEvent(S)) && InSync(Step(S, NextEvent(S)), R, got) && FirstUnlike(Step(S, NextEvent(S)), j)
    ensures Unblocked(Step(S, NextEvent(S)))
  {
    var e := NextEvent(S);
    QueueInSync(S, R, got, e);
    LineGrows(S, e);
    if e.Take? { HeadIsBusy(S); }
    forall i | 0 <= i <= j ensures AlikeInLine(Step(S, e), i) <==> AlikeInLine(S, i) { StillAlike(S, Step(S, e), i); }
  }

  /** Run alone goes on to the first that is not cut alike. */
  lemma {:induction false} ServeUntil(S: Sender, R: Receiver, got: seq<Parcel>, j: nat)
    returns (es: seq<Event>, S': Sender, R': Receiver, got': seq<Parcel>)
    requires InSync(S, R, got) && Unblocked(S) && FirstUnlike(S, j)
    ensures Runs(S, es) && Run(S, es) == S' && RunAlone(es)
    ensures InSync(S', R', got') && Enabled(S', Emit) && !ReadAsSent(S', R')
    decreases StepsTo(S, j)
  {
    if StepsTo(S, j) == 0 {
      es, S', R', got' := [], S, R, got;
      FlightIsBusy(S, R, got);
      HeadCut(S);
      ReadAsSentIff(S, R, got);
    } else {
      var R1, got1, j1 := OneStep(S, R, got, j);
      var rest;
      rest, S', R', got' := ServeUntil(Step(S, NextEvent(S)), R1, got1, j1);
      es := [NextEvent(S)] + rest;
      assert es[1..] == rest;
    }
  }

  /** Only steps of Run. */
  predicate RunAlone(es: seq<Event>) {
    forall i :: 0 <= i < |es| ==> es[i].Take? || es[i].Emit? || es[i].Requeue?
  }

  /** A state that is not ready leads to a chunk that the peer, in step so far, does not read as it was sent. */
  lemma UnreadyMisreads(S: Sender, R: Receiver, got: seq<Parcel>)
    returns (es: seq<Event>, S': Sender, R': Receiver, got': seq<Parcel>)
    requires InSync(S, R, got) && !LineAlike(S) && Unblocked(S)
    ensures Runs(S, es) && Run(S, es) == S' && RunAlone(es)
    ensures InSync(S', R', got') && Enabled(S', Emit) && !ReadAsSent(S', R')
  {
    var k :| 0 <= k < |Line(S)| && !AlikeInLine(S, k);
    var j := LeastUnlike(S, k);
    es, S', R', got' := ServeUntil(S, R, got, j);
  }

  /** Only these steps can be unsafe for the line. */
  predicate Risky(e: Event) {
    e.Enqueue? || e.Requeue? || e.SetSize?
  }

  lemma UnsafeStepUnlike(S: Sender, e: Event, R: Receiver)
    requires Owned(S) && Enabled(S, e) && Risky(e) && !SafeStep(S, e, R)
    ensures !LineAlike(Step(S, e))
  {
    if !e.SetSize? {
      LineGrows(S, e);
      JoinedAlike(S, Step(S, e), Joining(S, e)[0]);
    }
  }

  /** The conditions are exact: after a step that does not meet its condition, Run alone goes on to a chunk that the
      peer, in step so far, does not read as it was sent. */
  lemma UnsafeStepMisreads(S: Sender, R: Receiver, got: seq<Parcel>, e: Event)
    returns (es: seq<Event>, S': Sender, R': Receiver, got': seq<Parcel>)
    requires InSync(S, R, got) && Enabled(S, e) && Risky(e) && !SafeStep(S, e, R) && Unblocked(Step(S, e))
    ensures Runs(Step(S, e), es) && Run(Step(S, e), es) == S' && RunAlone(es)
    ensures InSync(S', R', got') && Enabled(S', Emit) && !ReadAsSent(S', R')
  {
    QueueInSync(S, R, got, e);
    UnsafeStepUnlike(S, e, R);
    es, S', R', got' := UnreadyMisreads(Step(S, e), R, got);
  }

  lemma SwitchInSync(S: Sender, R: Receiver, got: seq<Parcel>, n: U32)
    requires InSync(S, R, got) && CanSwitch(S, n) && Announceable(n, R)
    ensures InSync(Changed(S, n), R, got) && InSync(Switched(S, n), R, got)
  {
    SizeIsWelcome(R, n);
    QueueInSync(S, R, got, SetSize(n));
    AcquireInSync(S.(chunkSize := n), R, got, CONTROL_CHUNK_STREAM, SizeMessage(n));
    QueueInSync(Changed(S, n), R, got, Enqueue(CONTROL_CHUNK_STREAM));
  }

  lemma SwitchedUnlike(S: Sender, n: U32, R: Receiver)
    requires Owned(S) && CanSwitch(S, n) && Owned(Changed(S, n)) && Announceable(n, R) && !SizesSafe(S, n)
    ensures !LineAlike(Switched(S, n))
  {
    var S1, S2 := S.(chunkSize := n), Changed(S, n);
    ChangedAlike(S, n, R);
    if MayJoin(S2, CONTROL_CHUNK_STREAM) {
      var k :| 0 <= k < |Line(S1)| && !AlikeInLine(S1, k);
      SetSizeOwned(S, n);
      LineGrows(S1, Acquire(CONTROL_CHUNK_STREAM, SizeMessage(n)));
      LineGrows(S2, Enqueue(CONTROL_CHUNK_STREAM));
      StillAlike(S1, S2, k);
      StillAlike(S2, Switched(S, n), k);
    } else {
      UnsafeStepUnlike(S2, Enqueue(CONTROL_CHUNK_STREAM), R);
    }
  }

  /** So is the condition of the whole switch. */
  lemma UnsafeSwitchMisreads(S: Sender, R: Receiver, got: seq<Parcel>, n: U32)
    returns (es: seq<Event>, S': Sender, R': Receiver, got': seq<Parcel>)
    requires InSync(S, R, got) && CanSwitch(S, n) && Announceable(n, R) && !SizesSafe(S, n)
    requires Unblocked(Switched(S, n))
    ensures Runs(Switched(S, n), es) && Run(Switched(S, n), es) == S' && RunAlone(es)
    ensures InSync(S', R', got') && Enabled(S', Emit) && !ReadAsSent(S', R')
  {
    SwitchInSync(S, R, got, n);
    SwitchedUnlike(S, n, R);
    es, S', R', got' := UnreadyMisreads(Switched(S, n), R, got);
  }

  //
  // An unsafe switch that loses a message for good
  //

  /** A message of one byte more than the peer's size is in the queue when the size grows: it leaves in one chunk,
      of which the peer takes too little and the rest for the next header. The message is sent and never
      delivered. */
  lemma UnsafeSwitchLoses(n0: U32, n: U32, maxStreams: int, R: Receiver, over: nat -> nat) returns (es: seq<Event>)
    requires 0 < n0 < n && n0 < MAX_CHUNK_SIZE && maxStreams >= 2 && FreshPeer(R, n0, maxStreams)
    requires Announceable(n, R) && DecodesAsSource(R.decode, over) && Separates(R.decode, 3)
    ensures var S := Initial(Compressed, n0, maxStreams);
            && Runs(S, es) && |Run(S, es).sent| == 1
            && ReadAll(R, [], WireBytes(Run(S, es).wire)) == Stopped(EndOfInput, [])
  {
    var S := Initial(Compressed, n0, maxStreams);
    var m := Message(0, 9, 1, seq(n0 + 1, _ => 0));
    InitialInSync(Compressed, n0, maxStreams, R);
    var S2 := LongMessageQueued(S, R, m);
    var S4 := LongMessageLost(S2, R, m, n, over);
    RunsTo(S, S2, Switched(S2, n), S4, m, n);
    es := [Acquire(3, m), Enqueue(3)] + Switch(n) + [Take, Emit];
  }

  lemma LongMessageLost(S: Sender, R: Receiver, m: Message, n: U32, over: nat -> nat) returns (S': Sender)
    requires InSync(S, R, []) && CanSwitch(S, n) && Announceable(n, R) && Separates(R.decode, 3)
    requires S.queue == [3] && S.flight == Grounded && 3 in S.writers && 3 in S.current && S.writers[3].buf == m.payload
    requires S.wire == [] && S.sent == [] && 0 < R.chunkSize < |m.payload| == R.chunkSize + 1 <= n
    requires m.payload[R.chunkSize] == 0 && DecodesAsSource(R.decode, over)
    ensures Enabled(Switched(S, n), Take) && S' == Step(Switched(S, n), Take) && Enabled(S', Emit)
    ensures |DoEmit(S').sent| == 1 && ReadAll(R, [], WireBytes(DoEmit(S').wire)) == Stopped(EndOfInput, [])
  {
    S' := SwitchedAndTaken(S, R, n);
    SentInOneChunk(S', R, m, over);
  }

  lemma SwitchedAndTaken(S: Sender, R: Receiver, n: U32) returns (S': Sender)
    requires InSync(S, R, []) && CanSwitch(S, n) && Announceable(n, R) && Separates(R.decode, 3)
    requires S.queue == [3] && S.flight == Grounded && 3 in S.writers && 3 in S.current
    ensures Enabled(Switched(S, n), Take) && S' == Step(Switched(S, n), Take) && InSync(S', R, [])
    ensures S'.flight == Taken(3) && Enabled(S', Emit) && S'.writers[3] == S.writers[3]
    ensures S'.chunkSize == n && S'.wire == S.wire && S'.sent == S.sent
  {
    SwitchInSync(S, R, [], n);
    QueueInSync(Switched(S, n), R, [], Take);
    S' := Step(Switched(S, n), Take);
    SeparatesValid(R, 3);
  }

  lemma LongMessageQueued(S: Sender, R: Receiver, m: Message) returns (S2: Sender)
    requires S == Initial(Compressed, S.chunkSize, S.maxStreams) && S.maxStreams >= 2 && InSync(S, R, [])
    requires Acceptable(m) && m.typeID == 9 && Separates(R.decode, 3)
    ensures Enabled(S, Acquire(3, m)) && Enabled(Step(S, Acquire(3, m)), Enqueue(3))
    ensures S2 == Step(Step(S, Acquire(3, m)), Enqueue(3)) && InSync(S2, R, [])
    ensures S2.queue == [3] && S2.flight == Grounded && S2.wire == [] && S2.sent == [] && S2.current == map[3 := m]
    ensures S2.writers.Keys == {3} && S2.writers[3].buf == m.payload && S2.maxStreams == S.maxStreams
    ensures forall n: U32 :: n > 0 ==> CanSwitch(S2, n)
  {
    var S1 := Step(S, Acquire(3, m));
    AcquireInSync(S, R, [], 3, m);
    QueueInSync(S1, R, [], Enqueue(3));
    S2 := Step(S1, Enqueue(3));
    assert [] + m.payload == m.payload;
    assert |S2.writers| == |S2.writers.Keys| == |{3}|;
  }

  /** The whole message in one chunk, to a peer that takes all of it but one byte, which is 0. */
  lemma SentInOneChunk(S: Sender, R: Receiver, m: Message, over: nat -> nat)
    requires InSync(S, R, []) && Enabled(S, Emit) && S.wire == [] && S.sent == []
    requires S.writers[S.flight.id].buf == m.payload && |m.payload| == R.chunkSize + 1 <= S.chunkSize
    requires m.payload[R.chunkSize] == 0 && R.chunkSize > 0 && DecodesAsSource(R.decode, over)
    ensures |DoEmit(S).sent| == 1 && ReadAll(R, [], WireBytes(DoEmit(S).wire)) == Stopped(EndOfInput, [])
  {
    var c, r, p := NextChunk(S), HeaderRead(S, R), R.chunkSize;
    NextExpected(S, R, []);
    assert c.payload == m.payload;
    assert WireBytes([c]) == ChunkBytes(c) by { assert [c][..0] == [] && [] + ChunkBytes(c) == ChunkBytes(c); }
    assert Separates(R.decode, S.flight.id);
    ReadChunkBytes(R, c, []);
    assert ChunkBytes(c) + [] == ChunkBytes(c) && c.payload + [] == c.payload;
    assert m.payload[p..] == [0];
    LastByteStops(R, ChunkBytes(c), over);
  }

  lemma LastByteStops(R: Receiver, input: seq<Byte>, over: nat -> nat)
    requires DecodesAsSource(R.decode, over)
    requires var d := ReadChunk(R, input);
             d.Got? && d.rest == [0] && !d.receiver.readers[d.chunkStreamID].completed && d.receiver.decode == R.decode
    ensures ReadAll(R, [], input) == Stopped(EndOfInput, [])
  {
    var R1 := ReadChunk(R, input).receiver;
    assert Unread([0]);
    assert ReadTurn(R, [], input) == Turn(R1, [], [0]);
    assert ReadTurn(R1, [], [0]) == Halt(EndOfInput, [], []);
  }

  lemma RunsTo(S: Sender, S2: Sender, S3: Sender, S4: Sender, m: Message, n: U32)
    requires Enabled(S, Acquire(3, m)) && Enabled(Step(S, Acquire(3, m)), Enqueue(3))
    requires S2 == Step(Step(S, Acquire(3, m)), Enqueue(3)) && CanSwitch(S2, n) && S3 == Switched(S2, n)
    requires Enabled(S3, Take) && S4 == Step(S3, Take) && Enabled(S4, Emit)
    ensures var es := [Acquire(3, m), Enqueue(3)] + Switch(n) + [Take, Emit];
            Runs(S, es) && Run(S, es) == DoEmit(S4)
  {
    var a, b, c := [Acquire(3, m), Enqueue(3)], Switch(n), [Take, Emit];
    RunsInTwo(S, Acquire(3, m), Enqueue(3));
    RunsInTwo(S3, Take, Emit);
    SwitchRuns(S2, n);
    RunThen(S, a, b);
    RunThen(S, a + b, c);
  }

  lemma RunsInTwo(S: Sender, e1: Event, e2: Event)
    requires Enabled(S, e1) && Enabled(Step(S, e1), e2)
    ensures Runs(S, [e1, e2]) && Run(S, [e1, e2]) == Step(Step(S, e1), e2)
  {
    RunTwo(S, e1, e2, []);
    assert [e1, e2] + [] == [e1, e2];
  }

  lemma SwitchRuns(S: Sender, n: U32)
    requires CanSwitch(S, n)
    ensures Runs(S, Switch(n)) && Run(S, Switch(n)) == Switched(S, n)
  {
    var S1 := S.(chunkSize := n);
    RunsInTwo(S1, Switch(n)[1], Switch(n)[2]);
    assert Switch(n)[1..] == [Switch(n)[1], Switch(n)[2]];
  }
}
