/** How a change of the chunk size comes to its end: once its announcement is in line nothing needs to be checked any
    more, and when that is sent both sides cut by the new size. */
module Settling {
  import opened Bytes
  import opened ChunkHeader
  import opened ChunkStream
  import opened Receiving
  import opened Sending
  import opened Lossless
  import opened Scheduling
  import opened Switching

  /** A run between two states in which the chunk layer's caller keeps its part. */
  ghost predicate Leads(S: Sender, es: seq<Event>, S': Sender, R: Receiver) {
    Runs(S, es) && Transmits(S, es, R) && Run(S, es) == S'
  }

  lemma LeadsStep(S: Sender, e: Event, R: Receiver)
    requires Enabled(S, e) && Transmittable(S, e, R)
    ensures Leads(S, [e], Step(S, e), R)
  {
    assert [e][1..] == [];
    assert Runs(Step(S, e), []);
  }

  lemma {:induction false} LeadsThen(S: Sender, a: seq<Event>, S1: Sender, b: seq<Event>, S2: Sender, R: Receiver)
    requires Leads(S, a, S1, R) && Leads(S1, b, S2, R)
    ensures Leads(S, a + b, S2, R)
    decreases |a|
  {
    if a == [] {
      assert a + b == b;
    } else {
      assert (a + b)[1..] == a[1..] + b;
      LeadsThen(Step(S, a[0]), a[1..], S1, b, S2, R);
    }
  }

  //
  // Nothing left to check
  //

  /** Whoever stands behind the line will be cut by a size, a, that the peer was announced by then and that is the
      sender's; and no message under way announces another. */
  ghost predicate Settling(S: Sender, a: U32) {
    && Ready(S) && AnnouncedThen(S, |Line(S)|) == a && Min(a, MAX_CHUNK_SIZE) == Min(S.chunkSize, MAX_CHUNK_SIZE)
    && forall id :: id in S.current ==> Plain(S.current[id], a)
  }

  /** A message that announces no other size. */
  predicate Plain(m: Message, a: U32) {
    Acceptable(m) && AnnouncedBy(m, a) == a
  }

  /** Then anyone may join the line. */
  lemma AnyoneMayJoin(S: Sender, a: U32, id: int)
    requires Settling(S, a)
    ensures MayJoin(S, id)
  {
    assert Inside(0);
    if id in S.writers { assert Carries(S, id); }
  }

  /** A step that changes no size. */
  ghost predicate PlainStep(e: Event, a: U32, R: Receiver) {
    match e
    case Acquire(id, m) => Separates(R.decode, id) && Welcome(R, m) && Plain(m, a)
    case SetSize(_) => false
    case _ => true
  }

  lemma EmitSettles(S: Sender, a: U32)
    requires Settling(S, a) && Enabled(S, Emit)
    ensures Settling(DoEmit(S), a)
  {
    EmitReady(S);
    EmitServes(S);
    Switching.ServedThen(S, DoEmit(S), |Line(S)| - 1);
  }

  /** Who joins the line announces nothing else. */
  lemma JoinAnnounces(S: Sender, S': Sender, id: int, a: U32)
    requires LineStill(S, S') && Line(S') == Line(S) + [id] && AnnouncedThen(S, |Line(S)|) == a
    requires id in S'.current ==> Plain(S'.current[id], a)
    ensures AnnouncedThen(S', |Line(S')|) == a
  {
    StillThen(S, S', |Line(S)|);
  }

  lemma JoinSettles(S: Sender, e: Event, a: U32, R: Receiver)
    requires Settling(S, a) && Enabled(S, e) && !e.Emit? && PlainStep(e, a, R) && SafeStep(S, e, R)
    ensures Settling(Step(S, e), a)
  {
    var S' := Step(S, e);
    SafeStepReady(S, e, R);
    LineGrows(S, e);
    if Joining(S, e) == [] { StillThen(S, S', |Line(S)|); } else { JoinAnnounces(S, S', Joining(S, e)[0], a); }
  }

  /** So no step but a change of the size has any condition on sizes, and it stays so. */
  lemma SettlingStep(S: Sender, e: Event, a: U32, R: Receiver)
    requires Settling(S, a) && Enabled(S, e) && PlainStep(e, a, R)
    ensures SafeStep(S, e, R) && Transmittable(S, e, R) && Settling(Step(S, e), a)
  {
    if e.Enqueue? { AnyoneMayJoin(S, a, e.id); }
    if e.Requeue? { AnyoneMayJoin(S, a, S.flight.id); }
    SafeStepReady(S, e, R);
    if e.Emit? { EmitSettles(S, a); } else { JoinSettles(S, e, a, R); }
  }

  ghost predicate PlainRun(es: seq<Event>, a: U32, R: Receiver) {
    forall i :: 0 <= i < |es| ==> PlainStep(es[i], a, R)
  }

  lemma {:induction false} SettlingRun(S: Sender, es: seq<Event>, a: U32, R: Receiver)
    requires Settling(S, a) && Runs(S, es) && PlainRun(es, a, R)
    ensures SwitchesSafely(S, es, R) && Settling(Run(S, es), a)
    decreases |es|
  {
    if es != [] {
      SettlingStep(S, es[0], a, R);
      SettlingRun(Step(S, es[0]), es[1..], a, R);
    }
  }

  lemma InitialSettles(mode: Mode, n: U32, maxStreams: int)
    requires n > 0 && maxStreams >= 0
    ensures Settling(Initial(mode, n, maxStreams), n)
  {
    InitialReady(mode, n, maxStreams);
  }

  /** The announcement stands behind whoever was in line. */
  lemma SwitchJoins(S: Sender, n: U32)
    requires Owned(S) && CanSwitch(S, n)
    ensures var S1, S3, id := S.(chunkSize := n), Switched(S, n), CONTROL_CHUNK_STREAM;
            && Line(S1) == Line(S) && LineStill(S1, S3) && Line(S3) == Line(S1) + [id]
            && id in S3.writers && S3.writers[id].buf == SizeMessage(n).payload
            && id in S3.current && S3.current[id] == SizeMessage(n)
  {
    var S1, S2, id := S.(chunkSize := n), Changed(S, n), CONTROL_CHUNK_STREAM;
    SetSizeOwned(S, n);
    AcquireOwned(S1, id, SizeMessage(n));
    IdleWriterIsEmpty(S, id);
    LineGrows(S1, Acquire(id, SizeMessage(n)));
    LineGrows(S2, Enqueue(id));
  }

  /** So it has its turn with whatever is announced by then. */
  lemma SwitchThen(S: Sender, n: U32)
    requires Owned(S) && CanSwitch(S, n)
    ensures var S1, S3 := S.(chunkSize := n), Switched(S, n);
            AnnouncedThen(S3, |Line(S3)|) ==
            if 4 <= n then AnnouncedBy(SizeMessage(n), AnnouncedThen(S1, |Line(S1)|))
            else AnnouncedThen(S1, |Line(S1)|)
  {
    var S1, S3, id := S.(chunkSize := n), Switched(S, n), CONTROL_CHUNK_STREAM;
    SwitchJoins(S, n);
    StillThen(S1, S3, |Line(S1)|);
    assert Line(S3)[|Line(S1)|] == id;
    assert |SizeMessage(n).payload| == 4;
  }

  /** The announcement is as long as four bytes; where that is more than a chunk the peer knows the size already. */
  lemma SwitchAnnounces(S: Sender, n: U32, R: Receiver)
    requires Owned(S) && Settled(S) && CanSwitch(S, n) && Announceable(n, R) && SizesSafe(S, n)
    ensures AnnouncedThen(Switched(S, n), |Line(Switched(S, n))|) == n
  {
    AnnouncementIs(n);
    SwitchThen(S, n);
    NothingAnnounced(S.(chunkSize := n), |Line(S)|);
  }

  /** A safe switch: as soon as its announcement is in line. */
  lemma SwitchSettles(S: Sender, n: U32, R: Receiver)
    requires Owned(S) && S.chunkSize > 0 && Settled(S) && CanSwitch(S, n) && Announceable(n, R) && SizesSafe(S, n)
    ensures Settling(Switched(S, n), n)
  {
    AnnouncementIs(n);
    SwitchIsReady(S, n, R);
    SwitchAnnounces(S, n, R);
  }

  lemma SwitchIsReady(S: Sender, n: U32, R: Receiver)
    requires Owned(S) && S.chunkSize > 0 && Settled(S) && CanSwitch(S, n) && Announceable(n, R) && SizesSafe(S, n)
    ensures Leads(S, Switch(n), Switched(S, n), R) && Ready(Switched(S, n))
  {
    SettledReady(S, 0);
    SwitchIsSafe(S, n, R);
    SafeSwitchesAreSeamless(S, Switch(n), R);
    SwitchRuns(S, n);
  }

  //
  // To the end
  //

  /** A state in which nothing new arrives and nothing is left to check. */
  ghost predicate Calm(S: Sender, a: U32) {
    Quiet(S) && Settling(S, a)
  }

  /** One step of Run. */
  lemma LeadsOrdinary(S: Sender, e: Event, a: U32, R: Receiver) returns (S': Sender)
    requires Settling(S, a) && Enabled(S, e) && (e.Take? || e.Emit? || e.Requeue?)
    ensures S' == Step(S, e) && Leads(S, [e], S', R) && Settling(S', a)
  {
    S' := Step(S, e);
    SettlingStep(S, e, a, R);
    LeadsStep(S, e, R);
  }

  lemma LeadsTurn(S: Sender, a: U32, R: Receiver) returns (es: seq<Event>)
    requires Calm(S, a) && S.queue != []
    ensures ValidChunkStreamID(S.queue[0]) && Leads(S, es, RunTurn(S), R) && Calm(RunTurn(S), a) && RunAlone(es)
    ensures var S' := RunTurn(S);
            S'.written == S.written && S'.writers.Keys == S.writers.Keys && S'.maxStreams == S.maxStreams
  {
    HeadIsBusy(S);
    QuietTurn(S);
    var S1 := LeadsOrdinary(S, Take, a, R);
    var S2 := LeadsOrdinary(S1, Emit, a, R);
    LeadsThen(S, [Take], S1, [Emit], S2, R);
    es := [Take] + [Emit];
    if S2.flight.Unfinished? {
      var S3 := LeadsOrdinary(S2, Requeue, a, R);
      LeadsThen(S, es, S2, [Requeue], S3, R);
      es := es + [Requeue];
    }
  }

  /** Turns of Run until the queue is empty. */
  lemma {:induction false} LeadsToEmptyQueue(S: Sender, a: U32, R: Receiver) returns (es: seq<Event>, S': Sender)
    requires Calm(S, a) && HaveWriters(S.writers, S.queue)
    ensures Leads(S, es, S', R) && Calm(S', a) && S'.queue == [] && S'.chunkSize == S.chunkSize && RunAlone(es)
    ensures S'.written == S.written && S'.writers.Keys == S.writers.Keys && S'.maxStreams == S.maxStreams
    decreases TurnsNeeded(S.writers, S.queue, S.chunkSize)
  {
    es, S' := [], S;
    if S.queue != [] {
      var turn := LeadsTurn(S, a, R);
      QuietTurn(S);
      TurnCounts(S);
      var rest, S2 := LeadsToEmptyQueue(RunTurn(S), a, R);
      LeadsThen(S, turn, RunTurn(S), rest, S2, R);
      es, S' := turn + rest, S2;
    }
  }

  /** When the queue is empty, what was to be announced is announced, and both sides cut by the same size. */
  lemma CalmEnds(S: Sender, a: U32)
    requires Calm(S, a) && S.queue == []
    ensures S.announced == a && S.current == map[] && Settled(S)
  {
    NothingLeft(S);
    assert AnnouncedThen(S, |Line(S)|) == S.announced;
  }

  /** A switch of the chunk size takes effect. After any run, with nothing being written and both sizes agreeing, a safe
      switch to n and then turns of Run until the queue is empty: both sides cut by n, the peer by at most 0xFFFFFF; and
      from then on any messages may be written with no regard to sizes (SettlingRun). */
  lemma SwitchTakesEffect(mode: Mode, n0: U32, maxStreams: int, R: Receiver, before: seq<Event>, n: U32)
    returns (turns: seq<Event>)
    requires n0 > 0 && maxStreams >= 0 && FreshPeer(R, n0, maxStreams)
    requires Runs(Initial(mode, n0, maxStreams), before) && Transmits(Initial(mode, n0, maxStreams), before, R)
    requires var S := Run(Initial(mode, n0, maxStreams), before);
             Quiet(S) && Settled(S) && CanSwitch(S, n) && Announceable(n, R) && SizesSafe(S, n)
    ensures RunAlone(turns) && Runs(Initial(mode, n0, maxStreams), before + Switch(n) + turns)
    ensures var S' := Run(Initial(mode, n0, maxStreams), before + Switch(n) + turns);
            var res := ReadAll(R, [], WireBytes(S'.wire));
            && S'.queue == [] && S'.current == map[] && S'.chunkSize == n && S'.announced == n
            && Settled(S') && Settling(S', n)
            && res.Drained? && res.receiver.chunkSize == if n < 16777215 then n else 16777215
  {
    var S0 := Initial(mode, n0, maxStreams);
    var S := Run(S0, before);
    SwitchIsReady(S, n, R);
    SwitchSettles(S, n, R);
    SwitchedQuiet(S, n);
    QueuedHaveWriters(Switched(S, n));
    var es, S' := LeadsToEmptyQueue(Switched(S, n), n, R);
    turns := es;
    CalmEnds(S', n);
    LeadsThen(S0, before, S, Switch(n), Switched(S, n), R);
    LeadsThen(S0, before + Switch(n), Switched(S, n), turns, S', R);
    LosslessMultiplexing(mode, n0, maxStreams, R, before + Switch(n) + turns);
  }

  lemma SwitchedQuiet(S: Sender, n: U32)
    requires Quiet(S) && CanSwitch(S, n) && Owned(Switched(S, n))
    ensures Quiet(Switched(S, n))
  {
  }
}
