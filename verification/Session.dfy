/** The two halves together, as objects: what the writing half has put out, the reading half of a peer
    delivers. */
module Session {
  import opened Bytes
  import opened ChunkStream
  import opened Receiving
  import opened Sending
  import opened Lossless
  import opened HeaderIO
  import opened Acknowledging
  import opened ControlState
  import opened ReadSide
  import opened WriteSide

  /** How the peer is configured, and how its connection delivers. */
  datatype Setup = Setup(
    window: I32,
    maxChunkSize: U32,
    maxWindow: I32,
    maxStreams: int,
    delivers: nat -> nat,
    over: nat -> nat,
    amf: AmfReader)

  /** The peer before it reads anything. */
  function Peer(chunkSize: U32, p: Setup): Receiver {
    Receiver(map[], Min(chunkSize, MAX_CHUNK_SIZE), p.window, p.maxChunkSize, p.maxWindow, p.maxStreams,
             SourceDecoder(p.over), p.amf)
  }

  /** What the writing half has been used for is what the chunk layer asks of its caller. */
  ghost predicate UsedWell(w: WriteSide, R: Receiver)
    requires w.Valid()
    reads w, w.repr
  {
    var S := Initial(Compressed, w.initialSize, w.maxChunkStreams);
    Runs(S, w.events) && Transmits(S, w.events, R)
  }

  /** The messages have arrived, in order and whole; each with its timestamp exactly if it does not drift, all exactly
      when no chunk stream's history loses one. */
  ghost predicate Arrived(sent: seq<Parcel>, got: seq<Parcel>) {
    && Matched(Compressed, sent, got)
    && (forall i :: 0 <= i < |sent| ==> (got[i] == sent[i] <==> OwnTime(Compressed, sent, i)))
    && (got == sent <==> AllFaithful(Compressed, sent))
  }

  /** The reading of the peer. */
  lemma PeerReads(n: U32, max: int, S: Sender, es: seq<Event>, out: seq<Byte>, R: Receiver)
    requires Stands(n, max, S, es, out) && FreshPeer(R, n, max)
    requires Runs(Initial(Compressed, n, max), es) && Transmits(Initial(Compressed, n, max), es, R)
    ensures ReadAll(R, [], out).Drained? && Arrived(S.sent, WholeSession(R, [], NO_ACKS, out).reading.got)
  {
    assert Inside(0);
    LosslessMultiplexing(Compressed, n, max, R, es);
    SessionReads(R, [], NO_ACKS, out);
  }

  /** It goes to the end, and every byte is counted. */
  lemma PeerCounts(R: Receiver, out: seq<Byte>)
    requires ReadAll(R, [], out).Drained?
    ensures AddsUp(WholeSession(R, [], NO_ACKS, out).acks, |out|)
  {
    DrainedWhole(R, [], NO_ACKS, out);
    assert AddsUp(NO_ACKS, 0);
    SessionAddsUp(R, [], NO_ACKS, out, |out|);
    assert Inside(0);
  }

  /** A peer is set up and reads all that a connection delivers. */
  method ReadOff(bytes: seq<Byte>, chunkSize: U32, p: Setup) returns (got: seq<Parcel>, counted: AckState)
    ensures var s := WholeSession(Peer(chunkSize, p), [], NO_ACKS, bytes); got == s.reading.got && counted == s.acks
  {
    var r := new ChunkStreamerReader(bytes, p.delivers, p.over);
    var size: U32 := if chunkSize > MAX_CHUNK_SIZE then MAX_CHUNK_SIZE else chunkSize;
    var state := new StreamControlState(size, p.window, p.maxChunkSize, p.maxWindow);
    var peer := new ReadSide(r, state, p.maxStreams, p.amf);
    got := peer.HandleMessageLoop();
    counted := peer.Acks();
  }

  /** The bytes of a writing half, however it was used if used well, read by a peer's message loop, however the
      connection delivers them, are the messages it has completely sent. The peer has counted every byte. */
  method Deliver(w: WriteSide, p: Setup) returns (got: seq<Parcel>, counted: AckState)
    requires w.Valid() && w.maxChunkStreams <= p.maxStreams && UsedWell(w, Peer(w.initialSize, p))
    ensures Arrived(w.model.sent, got) && AddsUp(counted, |w.out|)
  {
    ghost var R := Peer(w.initialSize, p);
    PeerReads(w.initialSize, w.maxChunkStreams, w.model, w.events, w.out, R);
    PeerCounts(R, w.out);
    got, counted := ReadOff(w.out, w.initialSize, p);
  }
}
