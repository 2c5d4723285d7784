/** Header compression is invisible to the receiver, except for exactly the timestamps that drift:
    the sender is compared with a reference sender that starts every message with a fmt 0 header. */
module Compression {
  import opened Bytes
  import opened ChunkHeader
  import opened ChunkStream
  import opened Receiving
  import opened Sending
  import opened Lossless

  /** The two senders differ only in what they put on the wire. */
  predicate Twins(C: Sender, A: Sender) {
    C.mode == Compressed && A == C.(mode := Absolute, wire := A.wire)
  }

  lemma TwinStep(C: Sender, A: Sender, e: Event, R: Receiver)
    requires Twins(C, A) && Enabled(C, e) && Transmittable(C, e, R)
    ensures Enabled(A, e) && Transmittable(A, e, R) && Twins(Step(C, e), Step(A, e))
  {
    if e.Emit? {
      var id := C.flight.id;
      var (wc, fc, pc) := SendChunk(C.mode, C.writers[id], C.chunkSize);
      var (wa, fa, pa) := SendChunk(A.mode, A.writers[id], A.chunkSize);
      assert wc == wa;
      LandTwins(C, A, wc, WireChunk(BasicHeader(fc, id), wc.header, pc), WireChunk(BasicHeader(fa, id), wa.header, pa));
    }
  }

  lemma LandTwins(C: Sender, A: Sender, w: WriterMem, b: WireChunk, b': WireChunk)
    requires Twins(C, A) && Enabled(C, Emit)
    ensures Enabled(A, Emit) && Twins(Land(C, w, b), Land(A, w, b'))
  {
  }

  lemma {:induction false} TwinRun(C: Sender, A: Sender, es: seq<Event>, R: Receiver)
    requires Twins(C, A) && Runs(C, es) && Transmits(C, es, R)
    ensures Runs(A, es) && Transmits(A, es, R) && Twins(Run(C, es), Run(A, es))
    decreases |es|
  {
    if es != [] {
      TwinStep(C, A, es[0], R);
      TwinRun(Step(C, es[0]), Step(A, es[0]), es[1..], R);
    }
  }

  /** For every run: the uncompressed stream delivers what was sent, and the compressed stream the same but for
      the timestamps of the messages that drift; so exactly the same if no chunk stream's history loses one. */
  lemma CompressionIsTransparent(n: U32, maxStreams: int, R: Receiver, es: seq<Event>)
    requires n > 0 && maxStreams >= 0 && FreshPeer(R, n, maxStreams)
    requires Runs(Initial(Compressed, n, maxStreams), es) && Transmits(Initial(Compressed, n, maxStreams), es, R)
    ensures Runs(Initial(Absolute, n, maxStreams), es)
    ensures var C := Run(Initial(Compressed, n, maxStreams), es);
            var A := Run(Initial(Absolute, n, maxStreams), es);
            var c, a := ReadAll(R, [], WireBytes(C.wire)), ReadAll(R, [], WireBytes(A.wire));
            && c.Drained? && a.Drained?
            && a.got == A.sent == C.sent && |c.got| == |a.got|
            && (forall i :: 0 <= i < |a.got| ==> (c.got[i] == a.got[i] <==> OwnTime(Compressed, C.sent, i)))
            && (c.got == a.got <==> AllFaithful(Compressed, C.sent))
  {
    TwinRun(Initial(Compressed, n, maxStreams), Initial(Absolute, n, maxStreams), es, R);
    LosslessMultiplexing(Compressed, n, maxStreams, R, es);
    LosslessMultiplexing(Absolute, n, maxStreams, R, es);
  }

  //
  // Chunk stream by chunk stream
  //

  /** The messages of a chunk stream as they are delivered. */
  function Heard(mode: Mode, h: seq<Message>): (d: seq<Message>)
    ensures |d| == |h|
  {
    if h == [] then []
    else
      var n := |h| - 1;
      Heard(mode, h[..n]) + [h[n].(timestamp := ClockAfter(mode, h).timestamp)]
  }

  lemma {:induction false} HeardAt(h: seq<Message>, k: nat)
    requires k < |h|
    ensures Heard(Compressed, h)[k] == h[k] <==> !Drifts(h, k)
  {
    var n := |h| - 1;
    if k < n {
      HeardAt(h[..n], k);
      PrefixDrifts(h, n, k);
    } else {
      ClockShows(h);
    }
  }

  /** Each message is delivered as it was if and only if it does not drift, and all are if and only if none loses
      a timestamp. */
  ghost predicate DeliveredBut(got: seq<Message>, h: seq<Message>) {
    && |got| == |h|
    && (forall k :: 0 <= k < |h| ==> (got[k] == h[k] <==> !Drifts(h, k)))
    && (got == h <==> Faithful(Compressed, h))
  }

  lemma HeardMeans(h: seq<Message>)
    ensures DeliveredBut(Heard(Compressed, h), h)
  {
    FaithfulMeans(h);
    forall k | 0 <= k < |h| ensures Heard(Compressed, h)[k] == h[k] <==> !Drifts(h, k) { HeardAt(h, k); }
    if Heard(Compressed, h) != h {
      var k :| 0 <= k < |h| && Heard(Compressed, h)[k] != h[k];
      assert Drifts(h, k);
    }
  }

  lemma HeardSnoc(mode: Mode, h: seq<Message>, m: Message)
    ensures Heard(mode, h + [m]) == Heard(mode, h) + [m.(timestamp := ClockAfter(mode, h + [m]).timestamp)]
  {
    assert (h + [m])[..|h|] == h;
  }

  lemma MatchedSnoc(mode: Mode, s: seq<Parcel>, p: Parcel, g: seq<Parcel>, q: Parcel)
    requires Matched(mode, s + [p], g + [q])
    ensures Matched(mode, s, g)
    ensures var clock := ClockAfter(mode, Hist(s, p.chunkStreamID) + [p.message]);
            q == p.(message := p.message.(timestamp := clock.timestamp))
  {
    forall i | 0 <= i < |s| ensures g[i] == Delivered(mode, s, i) {
      DeliveredAppend(mode, s, p, i);
      assert (g + [q])[i] == g[i];
    }
    DeliveredAppend(mode, s, p, |s|);
    assert (g + [q])[|s|] == q;
  }

  lemma {:induction false} HistMatched(mode: Mode, sent: seq<Parcel>, got: seq<Parcel>, id: int)
    requires Matched(mode, sent, got)
    ensures Hist(got, id) == Heard(mode, Hist(sent, id))
  {
    if sent != [] {
      var n := |sent| - 1;
      var s, p, g, q := sent[..n], sent[n], got[..n], got[n];
      assert sent == s + [p] && got == g + [q];
      MatchedSnoc(mode, s, p, g, q);
      HistMatched(mode, s, g, id);
      HistAppend(s, p, id);
      HistAppend(g, q, id);
      if p.chunkStreamID == id {
        HeardSnoc(mode, Hist(s, id), p.message);
      } else {
        assert Hist(sent, id) == Hist(s, id) && Hist(got, id) == Hist(g, id);
      }
    }
  }

  /** When nothing is in progress any more, each chunk stream has delivered the messages written on it, in the
      order they were written: each as it was written if and only if it does not drift, and so all of them if
      and only if none loses a timestamp. */
  lemma {:induction false} EachStreamInOrder(n: U32, maxStreams: int, R: Receiver, es: seq<Event>, id: int)
    requires n > 0 && maxStreams >= 0 && FreshPeer(R, n, maxStreams)
    requires Runs(Initial(Compressed, n, maxStreams), es) && Transmits(Initial(Compressed, n, maxStreams), es, R)
    requires Run(Initial(Compressed, n, maxStreams), es).current == map[]
    ensures var S := Run(Initial(Compressed, n, maxStreams), es);
            var got, h := Hist(ReadAll(R, [], WireBytes(S.wire)).got, id), Hist(S.written, id);
            got == Heard(Compressed, h) && DeliveredBut(got, h)
  {
    assert Inside(0);
    var R', got := RunReads(Compressed, n, maxStreams, R, es);
    var S := Run(Initial(Compressed, n, maxStreams), es);
    ModeKept(Initial(Compressed, n, maxStreams), es);
    NothingInProgress(S, got, id);
  }

  lemma NothingInProgress(S: Sender, got: seq<Parcel>, id: int)
    requires OneMore(S.written, S.sent, S.current, id) && Matched(Compressed, S.sent, got) && S.current == map[]
    ensures Hist(got, id) == Heard(Compressed, Hist(S.written, id)) && DeliveredBut(Hist(got, id), Hist(S.written, id))
  {
    AllSent(S, id);
    HistMatched(Compressed, S.sent, got, id);
    HeardMeans(Hist(S.written, id));
  }

  lemma {:induction false} ModeKept(S: Sender, es: seq<Event>)
    requires Runs(S, es)
    ensures Run(S, es).mode == S.mode
    decreases |es|
  {
    if es != [] { ModeKept(Step(S, es[0]), es[1..]); }
  }
}
