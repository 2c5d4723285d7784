/** The scheduler of the writing half: when it can block on its own queue, in what order it serves the
    chunk streams, how many turns it needs, and how it cuts a message. */
module Scheduling {
  import opened Bytes
  import opened ChunkHeader
  import opened ChunkStream
  import opened Receiving
  import opened Sending

  //
  // Blocking
  //

  /** Run is about to queue a writer again and the queue is full. Run alone empties the queue. */
  predicate Blocked(S: Sender) {
    S.flight.Unfinished? && |S.queue| == QUEUE_SIZE
  }

  ghost predicate Blocks(S: Sender, es: seq<Event>) {
    Runs(S, es) && Blocked(Run(S, es))
  }

  lemma {:induction false} DistinctCount(q: seq<int>)
    requires Distinct(q)
    ensures |set x | x in q| == |q|
  {
    if q != [] {
      var n := |q| - 1;
      DistinctCount(q[..n]);
      assert q == q[..n] + [q[n]];
      assert (set x | x in q) == (set x | x in q[..n]) + {q[n]};
    }
  }

  /** Queued, held and flying writers are different writers. */
  lemma BusyCount(S: Sender)
    requires Owned(S)
    ensures |S.queue| + |S.held| + |Flying(S.flight)| <= S.maxStreams
  {
    assert Inside(0);
    var q := set x | x in S.queue;
    DistinctCount(S.queue);
    assert |q + S.held| == |q| + |S.held|;
    assert |q + S.held + Flying(S.flight)| == |q + S.held| + |Flying(S.flight)|;
    forall id | id in q + S.held + Flying(S.flight) ensures id in S.writers.Keys { assert id in S.current.Keys; }
    SubsetCount(q + S.held + Flying(S.flight), S.writers.Keys);
  }

  /** A blocked scheduler stays blocked and nothing is ever sent again. */
  lemma {:induction false} BlockedForever(S: Sender, es: seq<Event>)
    requires Blocked(S) && Runs(S, es)
    requires S.flight.id in S.current
    ensures Blocked(Run(S, es)) && Run(S, es).wire == S.wire
    decreases |es|
  {
    if es != [] {
      BlockedForever(Step(S, es[0]), es[1..]);
    }
  }

  predicate KeepsSize(es: seq<Event>) {
    forall i :: 0 <= i < |es| ==> !es[i].SetSize?
  }

  /** Writes on new chunk streams, one for every free place in the queue. */
  lemma {:induction false} FillQueue(S: Sender) returns (es: seq<Event>)
    requires S.flight.Unfinished? && |S.queue| <= QUEUE_SIZE < S.maxStreams
    requires |S.writers| == 1 + |S.queue| && S.held == {}
    requires forall id :: id in S.writers || id in S.current ==> id < 3 + |S.queue|
    ensures Runs(S, es) && Blocked(Run(S, es)) && KeepsSize(es)
    decreases QUEUE_SIZE - |S.queue|
  {
    if |S.queue| == QUEUE_SIZE {
      es := [];
    } else {
      var id := 3 + |S.queue|;
      var m := Message(0, 9, 1, [0]);
      var S1 := Step(S, Acquire(id, m));
      assert S1.writers.Keys == S.writers.Keys + {id};
      var S2 := Step(S1, Enqueue(id));
      assert S2.held == {};
      var rest := FillQueue(S2);
      es := [Acquire(id, m), Enqueue(id)] + rest;
      RunTwo(S, Acquire(id, m), Enqueue(id), rest);
    }
  }

  lemma RunTwo(S: Sender, e1: Event, e2: Event, rest: seq<Event>)
    requires Enabled(S, e1) && Enabled(Step(S, e1), e2) && Runs(Step(Step(S, e1), e2), rest)
    ensures Runs(S, [e1, e2] + rest) && Run(S, [e1, e2] + rest) == Run(Step(Step(S, e1), e2), rest)
  {
    assert ([e1, e2] + rest)[1..] == [e2] + rest;
    assert ([e2] + rest)[1..] == rest;
  }

  /** From the start, a scheduler with more chunk streams than queue places can be driven to block: one
      writer in Run's hands with part of its message unsent, 64 others queued meanwhile. No change of the chunk
      size is needed unless it is as long as a message can be. */
  lemma CanBlock(mode: Mode, n: U32, maxStreams: int) returns (es: seq<Event>)
    requires n > 0 && maxStreams > QUEUE_SIZE
    ensures Blocks(Initial(mode, n, maxStreams), es)
    ensures n < MAX_U32 ==> KeepsSize(es)
  {
    var S := Initial(mode, n, maxStreams);
    if n < MAX_U32 {
      es := BlockBy(S, Message(0, 9, 1, seq(n + 1, _ => 0)));
    } else {
      var S1 := Step(S, SetSize(1));
      var rest := BlockBy(S1, Message(0, 9, 1, [0, 0]));
      es := [SetSize(1)] + rest;
      assert es[1..] == rest;
    }
  }

  /** The message is longer than a chunk. */
  lemma BlockBy(S: Sender, m: Message) returns (es: seq<Event>)
    requires S == Initial(S.mode, S.announced, S.maxStreams).(chunkSize := S.chunkSize) && S.maxStreams > QUEUE_SIZE
    requires |m.payload| > S.chunkSize
    ensures Blocks(S, es) && KeepsSize(es)
  {
    var S2 := Queued(S, m);
    var rest := TakeAndFill(S2);
    RunTwo(S, Acquire(2, m), Enqueue(2), [Take, Emit] + rest);
    es := [Acquire(2, m), Enqueue(2)] + ([Take, Emit] + rest);
  }

  lemma Queued(S: Sender, m: Message) returns (S': Sender)
    requires S == Initial(S.mode, S.announced, S.maxStreams).(chunkSize := S.chunkSize) && S.maxStreams > 0
    ensures Enabled(S, Acquire(2, m)) && Enabled(Step(S, Acquire(2, m)), Enqueue(2))
    ensures S' == Step(Step(S, Acquire(2, m)), Enqueue(2))
    ensures S'.queue == [2] && S'.held == {} && S'.flight == Grounded
    ensures S'.writers.Keys == {2} && S'.current.Keys == {2} && S'.writers[2].buf == m.payload
    ensures S'.maxStreams == S.maxStreams && S'.chunkSize == S.chunkSize
  {
    S' := Step(Step(S, Acquire(2, m)), Enqueue(2));
    assert [] + m.payload == m.payload;
  }

  lemma TakeAndFill(S: Sender) returns (rest: seq<Event>)
    requires S.queue == [2] && S.held == {} && S.flight == Grounded && S.maxStreams > QUEUE_SIZE
    requires S.writers.Keys == {2} && S.current.Keys == {2} && |S.writers[2].buf| > S.chunkSize
    ensures Blocks(S, [Take, Emit] + rest) && KeepsSize(rest)
  {
    var S1 := Step(S, Take);
    var S2 := LongEmit(S1);
    assert |S2.writers| == |S2.writers.Keys| == |{2}|;
    rest := FillQueue(S2);
    RunTwo(S, Take, Emit, rest);
  }

  /** A chunk that does not exhaust the buffer leaves its writer in flight. */
  lemma LongEmit(S: Sender) returns (S': Sender)
    requires Enabled(S, Emit) && |S.writers[S.flight.id].buf| > S.chunkSize
    ensures S' == Step(S, Emit) && S'.flight == Unfinished(S.flight.id)
    ensures S'.queue == S.queue && S'.held == S.held && S'.maxStreams == S.maxStreams
    ensures S'.writers.Keys == S.writers.Keys && S'.current == S.current
  {
    S' := Step(S, Emit);
    var w := S.writers[S.flight.id];
    var (w', _, _) := SendChunk(S.mode, w, S.chunkSize);
    assert |w'.buf| == |w.buf| - S.chunkSize;
  }

  /** The scheduler can block on itself if and only if more than 64 chunk streams are allowed. */
  lemma BlocksIff(mode: Mode, n: U32, maxStreams: int)
    requires n > 0 && maxStreams >= 0
    ensures (exists es :: Blocks(Initial(mode, n, maxStreams), es)) <==> maxStreams > 64
  {
    var S := Initial(mode, n, maxStreams);
    if maxStreams > QUEUE_SIZE {
      var es := CanBlock(mode, n, maxStreams);
    } else {
      forall es | Runs(S, es) ensures !Blocks(S, es) {
        InitialOwned(mode, n, maxStreams);
        RunOwned(S, es);
        LimitKept(S, es);
        BusyCount(Run(S, es));
      }
    }
  }

  lemma {:induction false} LimitKept(S: Sender, es: seq<Event>)
    requires Runs(S, es)
    ensures Run(S, es).maxStreams == S.maxStreams
    decreases |es|
  {
    if es != [] { LimitKept(Step(S, es[0]), es[1..]); }
  }

  /** Up to 64 chunk streams, a Write never waits for a place in the queue either. */
  lemma WritesNeverWait(S: Sender, id: int)
    requires Owned(S) && S.maxStreams <= 64 && id in S.held
    ensures Enabled(S, Enqueue(id))
  {
    BusyCount(S);
    assert {id} <= S.held;
    SubsetCount({id}, S.held);
  }

  //
  // Order of service
  //

  /** The chunk streams whose chunks come next, in order. */
  function Line(S: Sender): seq<int> {
    (if S.flight.Taken? then [S.flight.id] else []) + S.queue
  }

  /** The chunk streams of the chunks sent between two states. */
  function SentBetween(S: Sender, S': Sender): seq<int>
    requires S.chunks <= S'.chunks
  {
    S'.chunks[|S.chunks|..]
  }

  /** Chunks come out in the order of the line, and newcomers stand behind it. */
  ghost predicate Served(line: seq<int>, out: seq<int>, line': seq<int>) {
    if |out| <= |line| then out == line[..|out|] && line[|out|..] <= line' else line <= out
  }

  lemma StepServes(S: Sender, e: Event)
    requires Enabled(S, e)
    ensures S.chunks <= Step(S, e).chunks
    ensures var o, l := SentBetween(S, Step(S, e)), Line(S);
            |o| <= |l| && o == l[..|o|] && l[|o|..] <= Line(Step(S, e))
  {
    var S', l := Step(S, e), Line(S);
    if e.Emit? {
      assert S'.chunks == S.chunks + [S.flight.id] && SentBetween(S, S') == [S.flight.id];
      assert l == [S.flight.id] + S.queue && l[1..] == S.queue == Line(S');
    } else {
      assert S'.chunks == S.chunks && SentBetween(S, S') == [];
      assert l[0..] == l && l <= Line(S');
    }
  }

  /** First come, first served, over every run. */
  lemma {:induction false} FirstComeFirstServed(S: Sender, es: seq<Event>)
    requires Runs(S, es)
    ensures S.chunks <= Run(S, es).chunks
    ensures Served(Line(S), SentBetween(S, Run(S, es)), Line(Run(S, es)))
    decreases |es|
  {
    if es != [] {
      var S1, S' := Step(S, es[0]), Run(S, es);
      StepServes(S, es[0]);
      FirstComeFirstServed(S1, es[1..]);
      BetweenThen(S, S1, S');
      ServedThen(Line(S), SentBetween(S, S1), Line(S1), SentBetween(S1, S'), Line(S'));
    }
  }

  lemma BetweenThen(S: Sender, S1: Sender, S': Sender)
    requires S.chunks <= S1.chunks <= S'.chunks
    ensures S.chunks <= S'.chunks && SentBetween(S, S') == SentBetween(S, S1) + SentBetween(S1, S')
  {
    assert S1.chunks == S'.chunks[..|S1.chunks|];
  }

  lemma ServedThen(l0: seq<int>, o1: seq<int>, l1: seq<int>, o2: seq<int>, l2: seq<int>)
    requires |o1| <= |l0| && o1 == l0[..|o1|] && l0[|o1|..] <= l1
    requires Served(l1, o2, l2)
    ensures Served(l0, o1 + o2, l2)
  {
    var tail := l0[|o1|..];
    assert l0 == o1 + tail && tail == l1[..|tail|];
    if |o1 + o2| <= |l0| {
      assert o2 == tail[..|o2|];
      assert l0[|o1 + o2|..] == tail[|o2|..];
      assert tail[|o2|..] <= l1[|o2|..];
    } else {
      assert tail == o2[..|tail|];
    }
  }

  /** Round robin: when a writer has just been queued again, every writer queued before it sends exactly
      one chunk, in queue order, and then comes its own next chunk. */
  lemma {:induction false} RoundRobin(S: Sender, es: seq<Event>)
    requires Owned(S) && S.flight == Grounded && S.queue != [] && Runs(S, es)
    ensures S.chunks <= Run(S, es).chunks
    ensures var q, out := S.queue, SentBetween(S, Run(S, es));
            q[|q| - 1] in out ==> q <= out && Distinct(out[..|q|])
  {
    assert Inside(0);
    FirstComeFirstServed(S, es);
    assert Line(S) == S.queue;
    ServedWhole(S.queue, SentBetween(S, Run(S, es)), Line(Run(S, es)));
  }

  lemma ServedWhole(q: seq<int>, out: seq<int>, line: seq<int>)
    requires Distinct(q) && q != [] && Served(q, out, line)
    ensures q[|q| - 1] in out ==> q <= out && Distinct(out[..|q|])
  {
    LastNotEarlier(q, Min(|out|, |q| - 1));
    if q <= out { assert out[..|q|] == q; }
  }

  lemma LastNotEarlier(q: seq<int>, k: nat)
    requires Distinct(q) && k < |q|
    ensures q[|q| - 1] !in q[..k]
  {
  }

  //
  // Draining
  //

  /** The turns a buffer of this length takes. */
  function TurnsFor(len: nat, n: U32): nat
    requires n > 0
  {
    if len <= n then 1 else 1 + TurnsFor(len - n, n)
  }

  /** That is max(1, ceil(len / n)). */
  lemma {:induction false} TurnsForIsCeiling(len: nat, n: U32)
    requires n > 0
    ensures len > 0 ==> (TurnsFor(len, n) - 1) * n < len <= TurnsFor(len, n) * n
    ensures len == 0 ==> TurnsFor(len, n) == 1
  {
    if len > n {
      TurnsForIsCeiling(len - n, n);
      var k := TurnsFor(len - n, n);
      assert (k + 1) * n == k * n + n && k * n == (k - 1) * n + n;
    }
  }

  predicate HaveWriters(writers: map<int, WriterMem>, q: seq<int>) {
    forall i :: 0 <= i < |q| ==> q[i] in writers
  }

  /** The sum over the queue. */
  function TurnsNeeded(writers: map<int, WriterMem>, q: seq<int>, n: U32): nat
    requires n > 0 && HaveWriters(writers, q)
  {
    if q == [] then 0
    else
      TurnsFor(|writers[q[0]].buf|, n) + TurnsNeeded(writers, q[1..], n)
  }

  /** Run stands between two turns. */
  ghost predicate Between(S: Sender) {
    Owned(S) && S.flight == Grounded && S.chunkSize > 0
  }

  /** Nothing new arrives: no Write is under way; and all messages are on chunk streams that can be encoded. */
  ghost predicate Quiet(S: Sender) {
    Between(S) && S.held == {} && forall id :: id in S.current ==> ValidChunkStreamID(id)
  }

  lemma HeadIsBusy(S: Sender)
    requires Owned(S) && S.queue != []
    ensures S.queue[0] in S.writers && S.queue[0] in S.current && |S.queue| <= QUEUE_SIZE
  {
    var id := S.queue[0];
    QueuedHaveWriters(S);
    assert id in S.queue;
    assert |S.queue| <= QUEUE_SIZE by { assert Inside(0); }
  }

  /** One whole turn of Run's loop. The place of the writer it took is still free. */
  ghost function RunTurn(S: Sender): (S': Sender)
    requires Between(S) && S.queue != [] && ValidChunkStreamID(S.queue[0])
    ensures Between(S') && S'.chunkSize == S.chunkSize
  {
    HeadIsBusy(S);
    StepOwned(S, Take);
    var S1 := Step(S, Take);
    StepOwned(S1, Emit);
    var S2 := Step(S1, Emit);
    if S2.flight.Unfinished? then StepOwned(S2, Requeue); Step(S2, Requeue) else S2
  }

  /** A turn is a run of two or three steps. */
  function TurnEvents(more: bool): seq<Event> {
    if more then [Take, Emit, Requeue] else [Take, Emit]
  }

  lemma RequeueIsRun(S: Sender, more: bool)
    requires more ==> Enabled(S, Requeue)
    ensures var rest := if more then [Requeue] else [];
            Runs(S, rest) && Run(S, rest) == if more then Step(S, Requeue) else S
  {
    if more { assert [Requeue][1..] == [] && Runs(Step(S, Requeue), []); }
  }

  lemma TurnIsRun(S: Sender)
    requires Between(S) && S.queue != [] && ValidChunkStreamID(S.queue[0])
    ensures exists more :: Runs(S, TurnEvents(more)) && Run(S, TurnEvents(more)) == RunTurn(S)
  {
    HeadIsBusy(S);
    StepOwned(S, Take);
    var S1 := Step(S, Take);
    StepOwned(S1, Emit);
    var S2 := Step(S1, Emit);
    var more := S2.flight.Unfinished?;
    var rest := if more then [Requeue] else [];
    RequeueIsRun(S2, more);
    RunTwo(S, Take, Emit, rest);
    assert [Take, Emit] + rest == TurnEvents(more);
  }

  lemma QuietTurn(S: Sender)
    requires Quiet(S) && S.queue != []
    ensures ValidChunkStreamID(S.queue[0]) && Quiet(RunTurn(S))
  {
    HeadIsBusy(S);
  }

  lemma {:induction false} TurnsNeededAppend(writers: map<int, WriterMem>, q: seq<int>, id: int, n: U32)
    requires n > 0 && id in writers && HaveWriters(writers, q)
    ensures HaveWriters(writers, q + [id])
    ensures TurnsNeeded(writers, q + [id], n) == TurnsNeeded(writers, q, n) + TurnsFor(|writers[id].buf|, n)
  {
    if q == [] {
      assert TurnsNeeded(writers, [id][1..], n) == 0;
    } else {
      assert (q + [id])[1..] == q[1..] + [id];
      TurnsNeededAppend(writers, q[1..], id, n);
    }
  }

  lemma {:induction false} TurnsNeededElsewhere(writers: map<int, WriterMem>, writers': map<int, WriterMem>,
                                                q: seq<int>, n: U32)
    requires n > 0 && HaveWriters(writers, q) && HaveWriters(writers', q)
    requires forall i :: 0 <= i < |q| ==> writers'[q[i]] == writers[q[i]]
    ensures TurnsNeeded(writers', q, n) == TurnsNeeded(writers, q, n)
  {
    if q != [] { TurnsNeededElsewhere(writers, writers', q[1..], n); }
  }

  lemma QueuedHaveWriters(S: Sender)
    requires Owned(S)
    ensures HaveWriters(S.writers, S.queue)
    ensures forall id :: id in S.queue ==> id in S.current
  {
    assert Inside(0);
    assert Partitioned(S);
    forall id | id in S.queue ensures id in S.current && id in S.writers {
      assert id in S.current.Keys;
    }
  }

  lemma RunTurnShape(S: Sender)
    requires Between(S) && S.queue != [] && ValidChunkStreamID(S.queue[0])
    ensures var id, S' := S.queue[0], RunTurn(S);
            && id in S.writers
            && (|S.writers[id].buf| <= S.chunkSize ==> S'.queue == S.queue[1..])
            && (|S.writers[id].buf| > S.chunkSize ==>
                  && S'.queue == S.queue[1..] + [id] && id in S'.writers
                  && |S'.writers[id].buf| == |S.writers[id].buf| - S.chunkSize)
            && S'.writers.Keys == S.writers.Keys
            && (forall k :: k in S.writers && k != id ==> S'.writers[k] == S.writers[k])
  {
    QueuedHaveWriters(S);
  }

  /** Every turn brings the queue exactly one turn closer to empty. */
  lemma {:induction false} TurnCounts(S: Sender)
    requires Between(S) && S.queue != [] && ValidChunkStreamID(S.queue[0])
    ensures HaveWriters(S.writers, S.queue) && HaveWriters(RunTurn(S).writers, RunTurn(S).queue)
    ensures TurnsNeeded(RunTurn(S).writers, RunTurn(S).queue, S.chunkSize) ==
            TurnsNeeded(S.writers, S.queue, S.chunkSize) - 1
  {
    assert Inside(0);
    var S' := RunTurn(S);
    var id, q := S.queue[0], S.queue[1..];
    QueuedHaveWriters(S);
    QueuedHaveWriters(S');
    RunTurnShape(S);
    assert forall i :: 0 <= i < |q| ==> q[i] == S.queue[i + 1];
    assert S.queue == [id] + q;
    TurnCountsFor(S.writers, S'.writers, id, q, S.chunkSize);
  }

  /** Serving the head of the queue [id] + q: it leaves, or goes to the back with one chunk less. */
  lemma TurnCountsFor(writers: map<int, WriterMem>, writers': map<int, WriterMem>, id: int, q: seq<int>, n: U32)
    requires n > 0 && HaveWriters(writers, q) && HaveWriters(writers', q)
    requires id in writers && id in writers'
    requires forall i :: 0 <= i < |q| ==> writers'[q[i]] == writers[q[i]]
    ensures HaveWriters(writers, [id] + q) && HaveWriters(writers', q + [id])
    ensures |writers[id].buf| <= n ==> TurnsNeeded(writers', q, n) == TurnsNeeded(writers, [id] + q, n) - 1
    ensures |writers[id].buf| > n && |writers'[id].buf| == |writers[id].buf| - n ==>
              TurnsNeeded(writers', q + [id], n) == TurnsNeeded(writers, [id] + q, n) - 1
  {
    assert ([id] + q)[1..] == q;
    TurnsNeededElsewhere(writers, writers', q, n);
    TurnsNeededAppend(writers', q, id, n);
  }

  /** k turns, as far as there is something to send. */
  ghost function Turns(S: Sender, k: nat): (S': Sender)
    requires Quiet(S)
    ensures Quiet(S') && S'.chunkSize == S.chunkSize
    decreases k
  {
    if k == 0 then S
    else
      var S' := Turns(S, k - 1);
      if S'.queue == [] then S' else QuietTurn(S'); RunTurn(S')
  }

  /** The turns still needed after k turns. */
  ghost predicate Remain(S: Sender, n: U32, turns: int)
    requires n > 0
  {
    HaveWriters(S.writers, S.queue) && TurnsNeeded(S.writers, S.queue, n) == turns
  }

  lemma SomeRemain(S: Sender, n: U32, turns: int)
    requires n > 0 && Remain(S, n, turns)
    ensures S.queue == [] <==> turns == 0
    ensures turns >= 0
  {
  }

  lemma OneTurnLess(S: Sender, turns: int)
    requires Quiet(S) && S.queue != [] && Remain(S, S.chunkSize, turns)
    ensures ValidChunkStreamID(S.queue[0]) && Remain(RunTurn(S), S.chunkSize, turns - 1)
  {
    QuietTurn(S);
    TurnCounts(S);
  }

  lemma {:induction false} DrainTurns(S: Sender, k: nat, turns: nat)
    requires Quiet(S) && Remain(S, S.chunkSize, turns)
    ensures Remain(Turns(S, k), S.chunkSize, if k < turns then turns - k else 0)
    decreases k
  {
    if k > 0 {
      DrainTurns(S, k - 1, turns);
      var S', left := Turns(S, k - 1), if k - 1 < turns then turns - k + 1 else 0;
      SomeRemain(S', S.chunkSize, left);
      if S'.queue != [] { OneTurnLess(S', left); }
    }
  }

  /** With no new arrivals the queue empties in exactly the sum over the queued writers of
      max(1, ceil(length / chunk size)) turns, not before; and then every written message is sent. */
  lemma {:induction false} DrainsExactly(S: Sender, k: nat)
    requires Quiet(S)
    ensures HaveWriters(S.writers, S.queue)
    ensures Turns(S, k).queue == [] <==> k >= TurnsNeeded(S.writers, S.queue, S.chunkSize)
    ensures Turns(S, k).queue == [] ==> forall id :: Hist(Turns(S, k).sent, id) == Hist(Turns(S, k).written, id)
  {
    QueuedHaveWriters(S);
    var turns := TurnsNeeded(S.writers, S.queue, S.chunkSize);
    DrainTurns(S, k, turns);
    SomeRemain(Turns(S, k), S.chunkSize, if k < turns then turns - k else 0);
    if Turns(S, k).queue == [] { NothingLeft(Turns(S, k)); }
  }

  lemma NothingLeft(S: Sender)
    requires Quiet(S) && S.queue == []
    ensures S.current == map[] && forall id :: Hist(S.sent, id) == Hist(S.written, id)
  {
    assert Inside(0);
    assert forall id :: id !in S.current;
    forall id ensures Hist(S.sent, id) == Hist(S.written, id) {
      assert OneMore(S.written, S.sent, S.current, id);
      AllSent(S, id);
    }
  }

  //
  // Fragmentation
  //

  /** The chunks of one message: writeChunk until the buffer is empty. */
  function Pieces(mode: Mode, w: WriterMem, id: int, n: U32): seq<WireChunk>
    requires n > 0
    decreases |w.buf|
  {
    var (w', fmt, payload) := SendChunk(mode, w, n);
    [WireChunk(BasicHeader(fmt, id), w'.header, payload)] + (if w'.buf == [] then [] else Pieces(mode, w', id, n))
  }

  function Joined(ps: seq<WireChunk>): seq<Byte> {
    if ps == [] then [] else ps[0].payload + Joined(ps[1..])
  }

  /** A writer in the middle of a message: what it holds is what it last announced. */
  predicate Announced(w: WriterMem) {
    && !w.newChunk
    && w.header == MsgHeader(w.timestamp, w.timestampDelta, w.messageLength, w.messageTypeID, w.messageStreamID)
  }

  /** One chunk: it cuts a prefix of at most n bytes off the buffer and leaves the writer announced; on an
      announced writer its fmt is 3. */
  lemma OnePiece(mode: Mode, w: WriterMem, n: U32)
    requires n > 0
    ensures var (w', fmt, payload) := SendChunk(mode, w, n);
            && Announced(w') && w.buf == payload + w'.buf
            && (Announced(w) ==> fmt == 3)
            && |payload| == Min(|w.buf|, n)
  {
  }

  /** The pieces join to the bytes: every one but the first is fmt 3 (the first too if `announced`), every
      one but the last has n bytes, and the last has at most n and none only if there are no bytes. */
  ghost predicate Fragments(ps: seq<WireChunk>, bytes: seq<Byte>, n: U32, announced: bool) {
    && ps != [] && Joined(ps) == bytes
    && (forall i :: 0 < i < |ps| ==> ps[i].basic.fmt == 3 && ps[i].basic.chunkStreamID == ps[0].basic.chunkStreamID)
    && (announced ==> ps[0].basic.fmt == 3)
    && (forall i :: 0 <= i < |ps| - 1 ==> |ps[i].payload| == n)
    && |ps[|ps| - 1].payload| <= n && (bytes != [] ==> ps[|ps| - 1].payload != [])
  }

  lemma FragmentsCons(p: WireChunk, rest: seq<WireChunk>, bytes: seq<Byte>, n: U32, announced: bool)
    requires Fragments(rest, bytes, n, true) && bytes != []
    requires |p.payload| == n && p.basic.chunkStreamID == rest[0].basic.chunkStreamID
    requires (announced ==> p.basic.fmt == 3)
    ensures Fragments([p] + rest, p.payload + bytes, n, announced)
  {
    var ps := [p] + rest;
    assert ps[1..] == rest;
    assert forall i :: 0 < i < |ps| ==> ps[i] == rest[i - 1];
  }

  /** The fragmentation law; and there are max(1, ceil(length / chunk size)) chunks. */
  lemma {:induction false} FragmentationLaw(mode: Mode, w: WriterMem, id: int, n: U32)
    requires n > 0
    ensures Fragments(Pieces(mode, w, id, n), w.buf, n, Announced(w))
    ensures |Pieces(mode, w, id, n)| == TurnsFor(|w.buf|, n)
    decreases |w.buf|
  {
    var (w', fmt, payload) := SendChunk(mode, w, n);
    var p := WireChunk(BasicHeader(fmt, id), w'.header, payload);
    OnePiece(mode, w, n);
    if w'.buf == [] {
      assert Pieces(mode, w, id, n) == [p];
      assert Joined([p][1..]) == [];
    } else {
      FragmentationLaw(mode, w', id, n);
      FragmentsCons(p, Pieces(mode, w', id, n), w'.buf, n, Announced(w));
    }
  }

  /** So the bytes of a later chunk are its basic header and its payload. */
  lemma LaterChunksHaveNoMessageHeader(mode: Mode, w: WriterMem, id: int, n: U32, i: nat)
    requires n > 0 && ValidChunkStreamID(id) && 0 < i < |Pieces(mode, w, id, n)|
    ensures var c := Pieces(mode, w, id, n)[i];
            ChunkBytes(c) == EncodeBasic(BasicHeader(3, id)).value + c.payload
  {
    FragmentationLaw(mode, w, id, n);
  }
}
