/** Every sequence of messages can be sent on a chunk stream; so the condition under which timestamps
    survive is met, and missed, by actual runs. */
module Histories {
  import opened Bytes
  import opened ChunkHeader
  import opened ChunkStream
  import opened Receiving
  import opened Sending
  import opened Lossless
  import opened Compression
  import opened Scheduling
  import opened Switching
  import opened Settling
  import Control

  /** A Write that goes through. */
  lemma LeadsWrite(S: Sender, id: int, m: Message, R: Receiver) returns (es: seq<Event>)
    requires CanAcquire(S, id, m) && |S.queue| < QUEUE_SIZE
    requires Separates(R.decode, id) && Acceptable(m) && Welcome(R, m)
    ensures Leads(S, es, DoEnqueue(DoAcquire(S, id, m), id), R)
  {
    var S1 := Step(S, Acquire(id, m));
    LeadsStep(S, Acquire(id, m), R);
    LeadsStep(S1, Enqueue(id), R);
    LeadsThen(S, [Acquire(id, m)], S1, [Enqueue(id)], Step(S1, Enqueue(id)), R);
    es := [Acquire(id, m)] + [Enqueue(id)];
  }

  /** Messages that can be written at any time. */
  predicate Writable(R: Receiver, m: Message) {
    Acceptable(m) && Welcome(R, m) && !IsSize(m)
  }

  /** Nothing is being written or sent. */
  ghost predicate Resting(S: Sender) {
    Calm(S, S.announced) && S.queue == []
  }

  lemma WriteCalm(S: Sender, id: int, m: Message, R: Receiver) returns (S': Sender)
    requires Resting(S) && S.current == map[] && CanAcquire(S, id, m) && Writable(R, m)
    requires Separates(R.decode, id)
    ensures S' == DoEnqueue(DoAcquire(S, id, m), id) && Calm(S', S.announced)
  {
    SeparatesValid(R, id);
    var S1 := Step(S, Acquire(id, m));
    SettlingStep(S, Acquire(id, m), S.announced, R);
    SettlingStep(S1, Enqueue(id), S.announced, R);
    S' := Step(S1, Enqueue(id));
    assert S1.held == {id} && S'.held == {};
  }

  lemma CanWrite(S: Sender, id: int, m: Message)
    requires Quiet(S) && S.queue == [] && Acceptable(m) && (id in S.writers || |S.writers| < S.maxStreams)
    ensures S.current == map[] && CanAcquire(S, id, m)
  {
    NothingLeft(S);
    IdleWriterIsEmpty(S, id);
  }

  /** A run that writes messages h on one chunk stream and sends everything to its end. */
  ghost predicate LeadsTo(S: Sender, es: seq<Event>, S': Sender, R: Receiver, id: int, h: seq<Message>) {
    Leads(S, es, S', R) && Resting(S') && Hist(S'.written, id) == Hist(S.written, id) + h
  }

  lemma LeadsToNothing(S: Sender, R: Receiver, id: int)
    requires Resting(S)
    ensures LeadsTo(S, [], S, R, id, [])
  {
  }

  lemma LeadsToThen(S: Sender, a: seq<Event>, S1: Sender, b: seq<Event>, S2: Sender, R: Receiver, id: int,
                    h: seq<Message>, k: seq<Message>)
    requires LeadsTo(S, a, S1, R, id, h) && LeadsTo(S1, b, S2, R, id, k)
    ensures LeadsTo(S, a + b, S2, R, id, h + k)
  {
    LeadsThen(S, a, S1, b, S2, R);
    assert Hist(S.written, id) + h + k == Hist(S.written, id) + (h + k);
  }

  /** One more message written and sent to its end. */
  lemma LeadsToSent(S: Sender, id: int, m: Message, R: Receiver) returns (es: seq<Event>, S': Sender)
    requires Resting(S) && Separates(R.decode, id) && Writable(R, m)
    requires id in S.writers || |S.writers| < S.maxStreams
    ensures LeadsTo(S, es, S', R, id, [m]) && id in S'.writers
  {
    SeparatesValid(R, id);
    CanWrite(S, id, m);
    var write := LeadsWrite(S, id, m, R);
    var S2 := WriteCalm(S, id, m, R);
    QueuedHaveWriters(S2);
    var rest, S3 := LeadsToEmptyQueue(S2, S.announced, R);
    CalmEnds(S3, S.announced);
    LeadsThen(S, write, S2, rest, S3, R);
    es, S' := write + rest, S3;
    HistAppend(S.written, Parcel(id, m), id);
  }

  predicate AllWritable(R: Receiver, h: seq<Message>) {
    forall i :: 0 <= i < |h| ==> Writable(R, h[i])
  }

  lemma {:induction false} LeadsToHistory(S: Sender, id: int, h: seq<Message>, R: Receiver)
    returns (es: seq<Event>, S': Sender)
    requires Resting(S) && (id in S.writers || |S.writers| < S.maxStreams)
    requires Separates(R.decode, id) && AllWritable(R, h)
    ensures LeadsTo(S, es, S', R, id, h)
    decreases |h|
  {
    if h == [] {
      es, S' := [], S;
      LeadsToNothing(S, R, id);
    } else {
      var es1, S1 := LeadsToSent(S, id, h[0], R);
      var es2, S2 := LeadsToHistory(S1, id, h[1..], R);
      LeadsToThen(S, es1, S1, es2, S2, R, id, [h[0]], h[1..]);
      es, S' := es1 + es2, S2;
      assert [h[0]] + h[1..] == h;
    }
  }

  /** Any messages can be written and sent on any chunk stream, and when they have been, the receiver has got
      them as its clock shows: each right if and only if it does not drift. */
  lemma AnyHistory(n: U32, maxStreams: int, R: Receiver, id: int, h: seq<Message>) returns (es: seq<Event>)
    requires n > 0 && maxStreams > 0 && FreshPeer(R, n, maxStreams)
    requires Separates(R.decode, id) && AllWritable(R, h)
    ensures var S := Initial(Compressed, n, maxStreams);
            && Runs(S, es) && Transmits(S, es, R)
            && Run(S, es).current == map[] && Hist(Run(S, es).written, id) == h
            && var got := Hist(ReadAll(R, [], WireBytes(Run(S, es).wire)).got, id);
               got == Heard(Compressed, h) && DeliveredBut(got, h)
  {
    var S := Initial(Compressed, n, maxStreams);
    InitialSettles(Compressed, n, maxStreams);
    var es', S' := LeadsToHistory(S, id, h, R);
    es := es';
    NothingLeft(S');
    EachStreamInOrder(n, maxStreams, R, es, id);
  }

  /** The smallest loss, and how it drifts: two messages 10 ms apart, the second of which switches the message
      stream; a third and a fourth that repeat the second 10 ms later each; and one 5 ms after that. */
  const LOST_EXAMPLE: seq<Message> := [
    Message(0, 9, 1, [7]), Message(10, 9, 2, [7]), Message(20, 9, 2, [7]), Message(30, 9, 2, [7]),
    Message(35, 9, 2, [7])]

  /** As it arrives. */
  const LOST_EXAMPLE_HEARD: seq<Message> := [
    Message(0, 9, 1, [7]), Message(10, 9, 2, [7]), Message(10, 9, 2, [7]), Message(10, 9, 2, [7]),
    Message(15, 9, 2, [7])]

  /** One more message of the example: what the reader's clock shows next. */
  lemma ExampleStep(k: nat, before: Clock, after: Clock)
    requires k < 5 && ClockAfter(Compressed, LOST_EXAMPLE[..k]) == before
    requires k == 0 ==> before == Clock(0, 0) && after == Clock(0, 0)
    requires k == 1 ==> before == Clock(0, 0) && after == Clock(10, 0)
    requires k == 2 || k == 3 ==> before == Clock(10, 0) && after == Clock(10, 0)
    requires k == 4 ==> before == Clock(10, 0) && after == Clock(15, 5)
    ensures ClockAfter(Compressed, LOST_EXAMPLE[..k + 1]) == after
    ensures Heard(Compressed, LOST_EXAMPLE[..k + 1]) ==
            Heard(Compressed, LOST_EXAMPLE[..k]) + [LOST_EXAMPLE[k].(timestamp := after.timestamp)]
  {
    var h, m := LOST_EXAMPLE[..k], LOST_EXAMPLE[k];
    assert LOST_EXAMPLE[..k + 1] == h + [m];
    NextClock(Compressed, h, m);
    HeardSnoc(Compressed, h, m);
  }

  lemma ExampleHeard()
    ensures Heard(Compressed, LOST_EXAMPLE) == LOST_EXAMPLE_HEARD
    ensures forall i :: 0 <= i < |LOST_EXAMPLE| ==> (LosesTimestamp(LOST_EXAMPLE, i) <==> i == 2)
  {
    ExampleStep(0, Clock(0, 0), Clock(0, 0));
    ExampleStep(1, Clock(0, 0), Clock(10, 0));
    ExampleStep(2, Clock(10, 0), Clock(10, 0));
    ExampleStep(3, Clock(10, 0), Clock(10, 0));
    ExampleStep(4, Clock(10, 0), Clock(15, 5));
    assert LOST_EXAMPLE[..5] == LOST_EXAMPLE;
  }

  lemma ExampleWritable(R: Receiver)
    ensures AllWritable(R, LOST_EXAMPLE)
  {
  }

  /** The last three messages arrive as of 10, 10 and 15 ms; only at the first of them a timestamp is lost. */
  lemma ExampleLosesTimestamp(n: U32, maxStreams: int, R: Receiver) returns (es: seq<Event>)
    requires n > 0 && maxStreams > 0 && FreshPeer(R, n, maxStreams) && Separates(R.decode, 4)
    ensures Sends(n, maxStreams, R, es, LOST_EXAMPLE, LOST_EXAMPLE_HEARD)
    ensures forall i :: 0 <= i < |LOST_EXAMPLE| ==> (LosesTimestamp(LOST_EXAMPLE, i) <==> i == 2)
  {
    ExampleWritable(R);
    ExampleHeard();
    es := SomeHistory(n, maxStreams, R, LOST_EXAMPLE);
  }

  /** Messages h are written on chunk stream 4 and d are delivered. */
  ghost predicate Sends(n: U32, maxStreams: int, R: Receiver, es: seq<Event>, h: seq<Message>, d: seq<Message>) {
    var S := Initial(Compressed, n, maxStreams);
    && Runs(S, es) && Transmits(S, es, R) && Hist(Run(S, es).written, 4) == h
    && Hist(ReadAll(R, [], WireBytes(Run(S, es).wire)).got, 4) == d
  }

  lemma SomeHistory(n: U32, maxStreams: int, R: Receiver, h: seq<Message>) returns (es: seq<Event>)
    requires n > 0 && maxStreams > 0 && FreshPeer(R, n, maxStreams) && Separates(R.decode, 4) && AllWritable(R, h)
    ensures Sends(n, maxStreams, R, es, h, Heard(Compressed, h))
  {
    es := AnyHistory(n, maxStreams, R, 4, h);
  }
}
