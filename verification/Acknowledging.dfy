/** Acknowledgements: NewChunkReader counts the bytes it reads and acknowledges the total after a chunk
    once half a window is unacknowledged. */
module Acknowledging {
  import opened Bytes
  import opened ChunkHeader
  import opened ChunkStream
  import opened Receiving
  import opened HeaderIO
  import Control

  /** The counters and the sequence numbers acknowledged so far. */
  datatype AckState = AckState(tally: Tally, acks: seq<U32>)

  const NO_ACKS := AckState(Tally(0, 0), [])

  /** int32 division by 2, which truncates, converted to uint32. */
  function Threshold(window: I32): U32 {
    var w: int := window;
    AsU32(if w < 0 then -((-w) / 2) else w / 2)
  }

  /** The check after every chunk. */
  function AckCheck(a: AckState, window: I32): AckState {
    if a.tally.fragment >= Threshold(window)
    then AckState(a.tally.(fragment := 0), a.acks + [a.tally.total])
    else a
  }

  /** n bytes later. */
  function Later(a: AckState, n: nat): AckState {
    a.(tally := Advance(a.tally, n))
  }

  function AfterChunk(a: AckState, n: nat, window: I32): AckState {
    AckCheck(Later(a, n), window)
  }

  datatype MessageRead =
    | Complete(receiver: Receiver, acks: AckState, chunkStreamID: int, rest: seq<Byte>)
    | Broken(reason: Failure, acks: AckState, rest: seq<Byte>)

  /** NewChunkReader: chunks are read until one completes a message. */
  function NextMessage(R: Receiver, a: AckState, input: seq<Byte>): (m: MessageRead)
    ensures m.Complete? ==> m.chunkStreamID in m.receiver.readers && m.receiver.readers[m.chunkStreamID].completed
    ensures |m.rest| <= |input| && (m.Complete? ==> |m.rest| < |input|)
    decreases |input|
  {
    match ReadChunk(R, input)
    case Failed(reason, rest) => Broken(reason, Later(a, |input| - |rest|), rest)
    case Got(R', id, rest) =>
      var a' := AfterChunk(a, |input| - |rest|, R.window);
      if R'.readers[id].completed then Complete(R', a', id, rest) else NextMessage(R', a', rest)
  }

  /** The whole message loop: what it delivers, the counters when it ends, and what is unread then. */
  datatype Session = Session(reading: Reading, acks: AckState, rest: seq<Byte>)

  function WholeSession(R: Receiver, got: seq<Parcel>, a: AckState, input: seq<Byte>): (s: Session)
    ensures |s.rest| <= |input|
    decreases |input|
  {
    var t := ReadTurn(R, got, input);
    var n := |input| - |t.rest|;
    match t
    case Turn(R', got', rest) => WholeSession(R', got', AfterChunk(a, n, R.window), rest)
    case Halt(reason, got', rest) =>
      Session(ReadAll(R, got, input), if reason == Rejected then AfterChunk(a, n, R.window) else Later(a, n), rest)
  }

  /** The session from a delivery on: the reader of chunk stream `id` holds a message. */
  function Onwards(R: Receiver, got: seq<Parcel>, a: AckState, id: int, rest: seq<Byte>): Session
    requires id in R.readers
  {
    var m := Held(R.readers[id]);
    var got', d := got + [Parcel(id, m)], Dispatch(R, m);
    if d.None? then Session(Stopped(Rejected, got'), a, rest) else WholeSession(d.value, got', a, rest)
  }

  lemma {:induction false} SessionReads(R: Receiver, got: seq<Parcel>, a: AckState, input: seq<Byte>)
    ensures WholeSession(R, got, a, input).reading.got == ReadAll(R, got, input).got
    decreases |input|
  {
    var t := ReadTurn(R, got, input);
    if t.Turn? { SessionReads(t.receiver, t.got, AfterChunk(a, |input| - |t.rest|, R.window), t.rest); }
  }

  /** It leaves nothing unread when the reading ends with the input. */
  lemma {:induction false} DrainedWhole(R: Receiver, got: seq<Parcel>, a: AckState, input: seq<Byte>)
    requires ReadAll(R, got, input).Drained?
    ensures WholeSession(R, got, a, input).rest == []
    decreases |input|
  {
    var t := ReadTurn(R, got, input);
    if t.Turn? { DrainedWhole(t.receiver, t.got, AfterChunk(a, |input| - |t.rest|, R.window), t.rest); }
  }

  lemma ChunkByChunk(R: Receiver, got: seq<Parcel>, a: AckState, input: seq<Byte>)
    ensures var d, all := ReadChunk(R, input), WholeSession(R, got, a, input);
            && (d.Failed? ==> all.reading.got == got && all.acks == Later(a, |input| - |d.rest|) && all.rest == d.rest)
            && (d.Got? ==>
                  var a' := AfterChunk(a, |input| - |d.rest|, R.window);
                  && (d.receiver.readers[d.chunkStreamID].completed ==>
                        all == Onwards(d.receiver, got, a', d.chunkStreamID, d.rest))
                  && (!d.receiver.readers[d.chunkStreamID].completed ==>
                        all == WholeSession(d.receiver, got, a', d.rest)))
  {
  }

  /** The message loop goes through a connection message by message: what NewChunkReader returns next is the next
      message of the whole session, and when it returns no more the session is at its end. */
  lemma {:induction false} MessageByMessage(R: Receiver, got: seq<Parcel>, a: AckState, input: seq<Byte>)
    ensures GoesOn(WholeSession(R, got, a, input), got, NextMessage(R, a, input))
    decreases |input|
  {
    ChunkByChunk(R, got, a, input);
    var d := ReadChunk(R, input);
    if d.Got? && !d.receiver.readers[d.chunkStreamID].completed {
      var a' := AfterChunk(a, |input| - |d.rest|, R.window);
      assert NextMessage(R, a, input) == NextMessage(d.receiver, a', d.rest);
      MessageByMessage(d.receiver, got, a', d.rest);
    }
  }

  /** The session is that message and what comes after it, or over. */
  ghost predicate GoesOn(all: Session, got: seq<Parcel>, m: MessageRead) {
    if m.Broken? then all.reading.got == got && all.acks == m.acks && all.rest == m.rest
    else m.chunkStreamID in m.receiver.readers && all == Onwards(m.receiver, got, m.acks, m.chunkStreamID, m.rest)
  }

  //
  // Accounting
  //

  function LastAck(acks: seq<U32>): U32 {
    if acks == [] then 0 else acks[|acks| - 1]
  }

  /** The total is the number of bytes that have been read, and so are the last acknowledged number and the fragment
      counter together, modulo 2^32. */
  predicate AddsUp(a: AckState, read: nat) {
    && a.tally.total == read % 0x1_0000_0000
    && AddU32(LastAck(a.acks), a.tally.fragment) == a.tally.total
  }

  /** Of `read` bytes all but fewer than `bound` have been acknowledged. */
  predicate Within(a: AckState, read: nat, acked: nat, bound: nat) {
    && acked <= read
    && LastAck(a.acks) == acked % 0x1_0000_0000
    && a.tally.fragment == read - acked < bound
  }

  lemma WrapAdd(x: nat, n: nat)
    ensures (x % 0x1_0000_0000 + n) % 0x1_0000_0000 == (x + n) % 0x1_0000_0000
  {
  }

  lemma WrapSum(last: U32, f: U32, read: nat, n: nat)
    requires AddU32(last, f) == read % 0x1_0000_0000
    ensures AddU32(last, (f + n) % 0x1_0000_0000) == (read + n) % 0x1_0000_0000
  {
    WrapAdd(f + n, last);
    WrapAdd(last + f, n);
    WrapAdd(read, n);
  }

  lemma LaterAddsUp(a: AckState, read: nat, n: nat)
    requires AddsUp(a, read)
    ensures AddsUp(Later(a, n), read + n)
  {
    AdvanceIs(a.tally, n);
    WrapAdd(read, n);
    WrapSum(LastAck(a.acks), a.tally.fragment, read, n);
  }

  lemma CheckAddsUp(a: AckState, read: nat, window: I32)
    requires AddsUp(a, read)
    ensures AddsUp(AckCheck(a, window), read)
  {
  }

  lemma AfterChunkAddsUp(a: AckState, read: nat, n: nat, window: I32)
    requires AddsUp(a, read)
    ensures AddsUp(AfterChunk(a, n, window), read + n)
  {
    LaterAddsUp(a, read, n);
    CheckAddsUp(Later(a, n), read + n, window);
  }

  /** What may stay unacknowledged after a check: less than half the window, nothing if that is nothing. */
  function Half(window: I32): nat {
    if window < 2 then 1 else window / 2
  }

  lemma LaterWithin(a: AckState, read: nat, acked: nat, bound: nat, n: nat)
    requires Within(a, read, acked, bound) && bound + n <= 0x1_0000_0000
    ensures Within(Later(a, n), read + n, acked, bound + n)
  {
    AdvanceIs(a.tally, n);
  }

  /** After a check less than half a window is unacknowledged, whatever was before. */
  lemma CheckWithin(a: AckState, read: nat, acked: nat, bound: nat, window: I32) returns (acked': nat)
    requires AddsUp(a, read) && Within(a, read, acked, bound) && bound <= 0x1_0000_0000 && window >= -1
    ensures Within(AckCheck(a, window), read, acked', Half(window))
  {
    acked' := if a.tally.fragment >= Threshold(window) then read else acked;
  }

  lemma AfterChunkWithin(a: AckState, read: nat, acked: nat, bound: nat, n: nat, window: I32) returns (acked': nat)
    requires AddsUp(a, read) && Within(a, read, acked, bound) && bound + n <= 0x1_0000_0000 && window >= -1
    ensures Within(AfterChunk(a, n, window), read + n, acked', Half(window))
  {
    LaterWithin(a, read, acked, bound, n);
    LaterAddsUp(a, read, n);
    acked' := CheckWithin(Later(a, n), read + n, acked, bound + n, window);
  }

  //
  // The chunks of a session
  //

  /** What counts of a chunk: the bytes it took, the chunk size and the window in force, and whether the check
      followed it. It does unless the chunk could not be read. */
  datatype Piece = Piece(size: nat, chunkSize: U32, window: I32, checked: bool)

  function Pieces(R: Receiver, got: seq<Parcel>, input: seq<Byte>): (ps: seq<Piece>)
    ensures ps != []
    decreases |input|
  {
    var t := ReadTurn(R, got, input);
    var p := Piece(|input| - |t.rest|, R.chunkSize, R.window, t.Turn? || t.reason == Rejected);
    if t.Turn? then [p] + Pieces(t.receiver, t.got, t.rest) else [p]
  }

  predicate ButLastChecked(ps: seq<Piece>) {
    forall i :: 0 <= i < |ps| - 1 ==> ps[i].checked
  }

  lemma {:induction false} OnlyLastUnchecked(R: Receiver, got: seq<Parcel>, input: seq<Byte>)
    ensures ButLastChecked(Pieces(R, got, input))
    decreases |input|
  {
    var t, ps := ReadTurn(R, got, input), Pieces(R, got, input);
    if t.Turn? {
      OnlyLastUnchecked(t.receiver, t.got, t.rest);
      assert ps[1..] == Pieces(t.receiver, t.got, t.rest);
      forall i | 0 < i < |ps| - 1 ensures ps[i].checked { assert ps[i] == ps[1..][i - 1]; }
    }
  }

  function AckPiece(a: AckState, p: Piece): AckState {
    if p.checked then AfterChunk(a, p.size, p.window) else Later(a, p.size)
  }

  function AckPieces(a: AckState, ps: seq<Piece>): AckState
    decreases |ps|
  {
    if ps == [] then a else AckPieces(AckPiece(a, ps[0]), ps[1..])
  }

  function Size(ps: seq<Piece>): nat {
    if ps == [] then 0 else ps[0].size + Size(ps[1..])
  }

  lemma FirstPiece(p: Piece, ps: seq<Piece>)
    ensures var all := [p] + ps;
            && all[0] == p && all[1..] == ps
            && Size(all) == p.size + Size(ps) && forall a :: AckPieces(a, all) == AckPieces(AckPiece(a, p), ps)
  {
    assert ([p] + ps)[1..] == ps;
  }

  /** The whole session counts its chunks and nothing else. */
  lemma {:induction false} SessionCounts(R: Receiver, got: seq<Parcel>, a: AckState, input: seq<Byte>)
    ensures var s, ps := WholeSession(R, got, a, input), Pieces(R, got, input);
            s.acks == AckPieces(a, ps) && |input| - |s.rest| == Size(ps)
    decreases |input|
  {
    var t := ReadTurn(R, got, input);
    var p := Pieces(R, got, input)[0];
    if t.Turn? {
      SessionCounts(t.receiver, t.got, AckPiece(a, p), t.rest);
      FirstPiece(p, Pieces(t.receiver, t.got, t.rest));
    } else {
      FirstPiece(p, []);
    }
  }

  /** The headers of every chunk that is read take at most b bytes. */
  ghost predicate HeadersFit(R: Receiver, got: seq<Parcel>, input: seq<Byte>, b: nat)
    decreases |input|
  {
    && HeaderAtMost(R.decode, b, input)
    && var t := ReadTurn(R, got, input);
       t.Turn? ==> HeadersFit(t.receiver, t.got, t.rest, b)
  }

  /** No chunk has a three-byte basic header: their chunk stream ids are 2 to 319. */
  predicate Narrow(R: Receiver, got: seq<Parcel>, input: seq<Byte>)
    decreases |input|
  {
    && (input != [] ==> input[0] % 64 != 1)
    && var t := ReadTurn(R, got, input);
       t.Turn? ==> Narrow(t.receiver, t.got, t.rest)
  }

  lemma SameDecoder(R: Receiver, got: seq<Parcel>, input: seq<Byte>)
    ensures var t := ReadTurn(R, got, input); t.Turn? ==> t.receiver.decode == R.decode
  {
  }

  lemma NarrowHeader(decode: HeaderReader, input: seq<Byte>, over: nat -> nat)
    requires DecodesAsSource(decode, over) && (input != [] ==> input[0] % 64 != 1)
    ensures HeaderAtMost(decode, 18, input)
  {
    assert Unread(input);
  }

  /** Then 18 bytes are enough, however far the connection would let a read go. */
  lemma {:induction false} NarrowFits(R: Receiver, got: seq<Parcel>, input: seq<Byte>, over: nat -> nat)
    requires DecodesAsSource(R.decode, over) && Narrow(R, got, input)
    ensures HeadersFit(R, got, input, 18)
    decreases |input|
  {
    NarrowHeader(R.decode, input, over);
    SameDecoder(R, got, input);
    var t := ReadTurn(R, got, input);
    if t.Turn? { NarrowFits(t.receiver, t.got, t.rest, over); }
  }

  lemma {:induction false} AlwaysFits(R: Receiver, got: seq<Parcel>, input: seq<Byte>, b: nat)
    requires HeadersAtMost(R.decode, b)
    ensures HeadersFit(R, got, input, b)
    decreases |input|
  {
    assert HeaderAtMost(R.decode, b, input);
    SameDecoder(R, got, input);
    var t := ReadTurn(R, got, input);
    if t.Turn? { AlwaysFits(t.receiver, t.got, t.rest, b); }
  }

  lemma PieceAtMost(R: Receiver, got: seq<Parcel>, input: seq<Byte>, b: nat)
    requires HeaderAtMost(R.decode, b, input)
    ensures |input| - |ReadTurn(R, got, input).rest| <= b + R.chunkSize
  {
    ChunkAtMost(R, input, b);
  }

  /** Then no chunk takes more than that and the chunk size. */
  lemma {:induction false} PiecesAtMost(R: Receiver, got: seq<Parcel>, input: seq<Byte>, b: nat)
    requires HeadersFit(R, got, input, b)
    ensures forall p :: p in Pieces(R, got, input) ==> p.size <= b + p.chunkSize
    decreases |input|
  {
    PieceAtMost(R, got, input, b);
    var t := ReadTurn(R, got, input);
    if t.Turn? { PiecesAtMost(t.receiver, t.got, t.rest, b); }
  }

  /** The window that a message sets, if any, is not below -1. */
  predicate SaneWindow(p: Parcel) {
    p.message.typeID == Control.WIN_ACK_SIZE ==>
      var c := Control.Decode(p.message.typeID, p.message.payload);
      c.Some? ==> c.value.ackSize >= -1
  }

  predicate SaneWindows(got: seq<Parcel>) {
    forall p :: p in got ==> SaneWindow(p)
  }

  lemma {:induction false} GotGrows(R: Receiver, got: seq<Parcel>, input: seq<Byte>)
    ensures got <= ReadAll(R, got, input).got
    decreases |input|
  {
    if input != [] {
      var t := ReadTurn(R, got, input);
      if t.Turn? { GotGrows(t.receiver, t.got, t.rest); }
    }
  }

  /** A turn delivers at most one message, and only that may change the window. */
  lemma TurnDelivers(R: Receiver, got: seq<Parcel>, input: seq<Byte>)
    requires R.window >= -1 && R.chunkSize <= MAX_CHUNK_SIZE
    ensures var t := ReadTurn(R, got, input);
            t.Turn? ==>
              && (t.got == got || t.got == got + [t.got[|t.got| - 1]])
              && (t.got == got || SaneWindow(t.got[|t.got| - 1]) ==> t.receiver.window >= -1)
              && t.receiver.chunkSize <= MAX_CHUNK_SIZE
  {
  }

  lemma TurnStaysSane(R: Receiver, got: seq<Parcel>, input: seq<Byte>)
    requires R.window >= -1 && R.chunkSize <= MAX_CHUNK_SIZE && SaneWindows(ReadAll(R, got, input).got)
    ensures var t := ReadTurn(R, got, input);
            t.Turn? ==>
              && t.receiver.window >= -1 && t.receiver.chunkSize <= MAX_CHUNK_SIZE
              && SaneWindows(ReadAll(t.receiver, t.got, t.rest).got)
  {
    var t := ReadTurn(R, got, input);
    if t.Turn? {
      TurnDelivers(R, got, input);
      assert ReadAll(R, got, input) == ReadAll(t.receiver, t.got, t.rest);
      GotGrows(t.receiver, t.got, t.rest);
      if t.got != got {
        assert t.got[|got|] in ReadAll(R, got, input).got;
      }
    }
  }

  /** If all windows delivered are so, all windows in force are, and all chunk sizes are in range. */
  lemma {:induction false} PiecesSane(R: Receiver, got: seq<Parcel>, input: seq<Byte>)
    requires R.window >= -1 && R.chunkSize <= MAX_CHUNK_SIZE && SaneWindows(ReadAll(R, got, input).got)
    ensures forall p :: p in Pieces(R, got, input) ==> p.window >= -1 && p.chunkSize <= MAX_CHUNK_SIZE
    decreases |input|
  {
    TurnStaysSane(R, got, input);
    var t := ReadTurn(R, got, input);
    if t.Turn? { PiecesSane(t.receiver, t.got, t.rest); }
  }

  //
  // Every position of the input
  //

  /** The counters when a position of the input is reached, the chunk size in force there and the window of the last
      check. */
  datatype Moment = Moment(acks: AckState, chunkSize: U32, window: I32)

  /** When j bytes of the chunks have been read. `w` is the window of the last check before. */
  function MomentAt(a: AckState, w: I32, ps: seq<Piece>, j: nat): Moment
    requires ps != []
    decreases |ps|
  {
    var p := ps[0];
    if j < p.size || !p.checked then Moment(Later(a, j), p.chunkSize, w)
    else if |ps| == 1 then Moment(Later(AckPiece(a, p), j - p.size), p.chunkSize, p.window)
    else MomentAt(AckPiece(a, p), p.window, ps[1..], j - p.size)
  }

  /** At the end of the last one that is what counting them has given. */
  lemma {:induction false} LastMoment(a: AckState, w: I32, ps: seq<Piece>)
    requires ps != [] && ButLastChecked(ps)
    ensures MomentAt(a, w, ps, Size(ps)).acks == AckPieces(a, ps)
    decreases |ps|
  {
    if |ps| > 1 { LastMoment(AckPiece(a, ps[0]), ps[0].window, ps[1..]); }
  }

  /** Whatever the windows: at every position the counters add up. */
  lemma {:induction false} AddsUpThroughout(a: AckState, w: I32, ps: seq<Piece>, j: nat, read: nat)
    requires ps != [] && AddsUp(a, read)
    ensures AddsUp(MomentAt(a, w, ps, j).acks, read + j)
    decreases |ps|
  {
    var p := ps[0];
    if j < p.size || !p.checked {
      LaterAddsUp(a, read, j);
    } else {
      AfterChunkAddsUp(a, read, p.size, p.window);
      if |ps| == 1 {
        LaterAddsUp(AckPiece(a, p), read + p.size, j - p.size);
      } else {
        AddsUpThroughout(AckPiece(a, p), p.window, ps[1..], j - p.size, read + p.size);
      }
    }
  }

  /** Less than half the window of the last check, b bytes for headers and a chunk is unacknowledged. */
  ghost predicate SmallAt(m: Moment, read: nat, acked: nat, b: nat) {
    forall n {:trigger Inside(n)} :: Inside(n) ==> Within(m.acks, read, acked, Half(m.window) + b + m.chunkSize)
  }

  /** The counters behind a check by window w. */
  ghost predicate Checked(a: AckState, read: nat, acked: nat, w: I32) {
    forall n {:trigger Inside(n)} :: Inside(n) ==> AddsUp(a, read) && Within(a, read, acked, Half(w))
  }

  lemma SmallInChunk(a: AckState, read: nat, acked: nat, w: I32, j: nat, b: nat, chunkSize: U32)
    requires Checked(a, read, acked, w) && 0 < b <= 0x2000_0000 && chunkSize <= MAX_CHUNK_SIZE
    requires j <= b + chunkSize
    ensures SmallAt(Moment(Later(a, j), chunkSize, w), read + j, acked, b)
  {
    assert Inside(0);
    LaterWithin(a, read, acked, Half(w), j);
  }

  predicate SmallPiece(p: Piece, b: nat) {
    p.size <= b + p.chunkSize && p.chunkSize <= MAX_CHUNK_SIZE && p.window >= -1
  }

  lemma CheckedAfter(a: AckState, read: nat, acked: nat, w: I32, p: Piece, b: nat) returns (acked': nat)
    requires Checked(a, read, acked, w) && 0 < b <= 0x2000_0000 && SmallPiece(p, b) && p.checked
    ensures Checked(AckPiece(a, p), read + p.size, acked', p.window)
  {
    assert Inside(0);
    acked' := AfterChunkWithin(a, read, acked, Half(w), p.size, p.window);
    AfterChunkAddsUp(a, read, p.size, p.window);
  }

  /** The chunks are no larger than they may be, and j is a position up to their end. */
  ghost predicate Bounded(ps: seq<Piece>, j: nat, b: nat) {
    forall n {:trigger Inside(n)} :: Inside(n) ==>
      j <= Size(ps) && ButLastChecked(ps) && forall i :: 0 <= i < |ps| ==> SmallPiece(ps[i], b)
  }

  lemma BoundedFirst(ps: seq<Piece>, j: nat, b: nat)
    requires ps != [] && Bounded(ps, j, b)
    ensures SmallPiece(ps[0], b)
    ensures if |ps| == 1 then j <= ps[0].size
            else ps[0].checked && (j >= ps[0].size ==> Bounded(ps[1..], j - ps[0].size, b))
  {
    assert Inside(0) && Size(ps) == ps[0].size + Size(ps[1..]);
  }

  /** At every position up to their end little is unacknowledged. */
  lemma {:induction false} SmallThroughout(a: AckState, w: I32, ps: seq<Piece>, j: nat, b: nat, read: nat, acked: nat)
    returns (acked': nat)
    requires ps != [] && 0 < b <= 0x2000_0000 && Bounded(ps, j, b) && Checked(a, read, acked, w)
    ensures SmallAt(MomentAt(a, w, ps, j), read + j, acked', b)
    decreases |ps|
  {
    var p := ps[0];
    BoundedFirst(ps, j, b);
    if j < p.size || !p.checked {
      acked' := acked;
      SmallInChunk(a, read, acked, w, j, b, p.chunkSize);
    } else {
      var a' := AckPiece(a, p);
      acked' := CheckedAfter(a, read, acked, w, p, b);
      if |ps| == 1 {
        SmallInChunk(a', read + p.size, acked', p.window, j - p.size, b, p.chunkSize);
      } else {
        acked' := SmallThroughout(a', p.window, ps[1..], j - p.size, b, read + p.size, acked');
      }
    }
  }

  //
  // When exactly an acknowledgement is sent
  //

  /** The check sends the total exactly when the bytes counted since the last time are at least half the window; half of
      -1 is 0, and half of a window below that, as an unsigned number, is close to 2^32. */
  lemma CheckSends(a: AckState, window: I32)
    ensures var w: int := window;
            var half := if w >= 0 then w / 2 else if w == -1 then 0 else 4294967296 - (-w) / 2;
            AckCheck(a, window) ==
            if a.tally.fragment >= half then AckState(Tally(a.tally.total, 0), a.acks + [a.tally.total]) else a
  {
  }

  /** The position where the i-th chunk ends. */
  function EndOf(ps: seq<Piece>, i: nat): nat
    requires i <= |ps|
  {
    if i == 0 then 0 else EndOf(ps, i - 1) + ps[i - 1].size
  }

  /** An acknowledgement is due after the i-th chunk: at least half the window in force then was read since the last. */
  predicate Due(ps: seq<Piece>, i: nat)
    requires 0 < i <= |ps|
    decreases i, 0
  {
    ps[i - 1].checked && EndOf(ps, i) - LastAcked(ps, i - 1) >= ps[i - 1].window / 2
  }

  /** The last position acknowledged by the i-th chunk. */
  function LastAcked(ps: seq<Piece>, i: nat): int
    requires i <= |ps|
    decreases i, 1
  {
    if i == 0 then 0 else if Due(ps, i) then EndOf(ps, i) else LastAcked(ps, i - 1)
  }

  /** All positions acknowledged by then. */
  function Acknowledged(ps: seq<Piece>, i: nat): seq<nat>
    requires i <= |ps|
  {
    if i == 0 then [] else Acknowledged(ps, i - 1) + if Due(ps, i) then [EndOf(ps, i)] else []
  }

  /** As sequence numbers. */
  function Wrapped(positions: seq<nat>): (s: seq<U32>)
    ensures |s| == |positions|
  {
    seq(|positions|, i requires 0 <= i < |positions| => positions[i] % 0x1_0000_0000)
  }

  lemma WrappedAppend(positions: seq<nat>, x: nat)
    ensures Wrapped(positions + [x]) == Wrapped(positions) + [x % 0x1_0000_0000]
  {
  }

  /** The counters after i chunks, and what was sent. */
  ghost predicate SentBy(a: AckState, ps: seq<Piece>, i: nat)
    requires i <= |ps|
  {
    forall n {:trigger Inside(n)} :: Inside(n) ==>
      && a.tally.total == EndOf(ps, i) % 0x1_0000_0000
      && a.tally.fragment == EndOf(ps, i) - LastAcked(ps, i)
      && a.acks == Wrapped(Acknowledged(ps, i))
  }

  lemma {:induction false} AckPiecesSnoc(a: AckState, ps: seq<Piece>, p: Piece)
    ensures AckPieces(a, ps + [p]) == AckPiece(AckPieces(a, ps), p)
    decreases |ps|
  {
    if ps == [] {
      assert ([] + [p])[1..] == [];
    } else {
      assert (ps + [p])[1..] == ps[1..] + [p];
      AckPiecesSnoc(AckPiece(a, ps[0]), ps[1..], p);
    }
  }

  /** So little is unacknowledged that the fragment counter does not wrap around. */
  predicate Unwrapped(a: AckState) {
    a.tally.fragment < 0x4000_0000
  }

  lemma NextDue(ps: seq<Piece>, i: nat)
    requires i < |ps|
    ensures var end, last, p := EndOf(ps, i) + ps[i].size, LastAcked(ps, i), ps[i];
            var due := p.checked && end - last >= p.window / 2;
            && EndOf(ps, i + 1) == end && LastAcked(ps, i + 1) == (if due then end else last)
            && Acknowledged(ps, i + 1) == Acknowledged(ps, i) + if due then [end] else []
  {
    assert Due(ps, i + 1) <==> ps[i].checked && EndOf(ps, i + 1) - LastAcked(ps, i) >= ps[i].window / 2;
  }

  /** The counters when n more bytes have been read, of which no check has taken any. */
  lemma TallyIs(t: Tally, n: nat, read: nat, last: int)
    requires t.total == read % 0x1_0000_0000 && t.fragment == read - last
    requires t.fragment < 0x4000_0000 && n < 0x4000_0000
    ensures Advance(t, n) == Tally((read + n) % 0x1_0000_0000, read + n - last)
  {
    AdvanceIs(t, n);
    WrapAdd(read, n);
  }

  lemma SendsNext(a: AckState, ps: seq<Piece>, i: nat, b: nat)
    requires i < |ps| && SentBy(a, ps, i) && Unwrapped(a) && 0 < b <= 0x2000_0000 && SmallPiece(ps[i], b)
    ensures SentBy(AckPiece(a, ps[i]), ps, i + 1) && (ps[i].checked ==> Unwrapped(AckPiece(a, ps[i])))
  {
    assert Inside(0);
    var p, end := ps[i], EndOf(ps, i) + ps[i].size;
    NextDue(ps, i);
    TallyIs(a.tally, p.size, EndOf(ps, i), LastAcked(ps, i));
    CheckSends(Later(a, p.size), p.window);
    WrappedAppend(Acknowledged(ps, i), end);
    assert Acknowledged(ps, i) + [] == Acknowledged(ps, i);
  }

  /** At every chunk boundary of a session an acknowledgement is sent if and only if at least half the window in force
      was read since the last one: so these are the numbers sent, and the counters. */
  lemma {:induction false} SendsExactly(ps: seq<Piece>, i: nat, b: nat)
    requires i <= |ps| && 0 < b <= 0x2000_0000 && ButLastChecked(ps)
    requires forall k :: 0 <= k < |ps| ==> SmallPiece(ps[k], b)
    ensures SentBy(AckPieces(NO_ACKS, ps[..i]), ps, i)
    ensures i < |ps| ==> Unwrapped(AckPieces(NO_ACKS, ps[..i]))
    decreases i
  {
    if i > 0 {
      SendsExactly(ps, i - 1, b);
      SendsNext(AckPieces(NO_ACKS, ps[..i - 1]), ps, i - 1, b);
      AckPiecesSnoc(NO_ACKS, ps[..i - 1], ps[i - 1]);
      assert ps[..i] == ps[..i - 1] + [ps[i - 1]];
    }
  }

  /** Of a whole session of the message loop, from the start of a connection. */
  lemma SessionSends(R: Receiver, input: seq<Byte>, b: nat)
    requires HeadersFit(R, [], input, b) && 0 < b <= 0x2000_0000
    requires R.window >= -1 && R.chunkSize <= MAX_CHUNK_SIZE && SaneWindows(ReadAll(R, [], input).got)
    ensures var s, ps := WholeSession(R, [], NO_ACKS, input), Pieces(R, [], input);
            && s.acks.acks == Wrapped(Acknowledged(ps, |ps|))
            && EndOf(ps, |ps|) == |input| - |s.rest|
  {
    var ps := Pieces(R, [], input);
    PiecesAtMost(R, [], input, b);
    PiecesSane(R, [], input);
    OnlyLastUnchecked(R, [], input);
    SessionCounts(R, [], NO_ACKS, input);
    SendsExactly(ps, |ps|, b);
    assert ps[..|ps|] == ps;
    SizeIsEnd(ps, |ps|);
    assert Inside(0);
  }

  lemma {:induction false} SizeIsEnd(ps: seq<Piece>, i: nat)
    requires i <= |ps|
    ensures Size(ps[..i]) == EndOf(ps, i)
    decreases i
  {
    if i > 0 {
      SizeIsEnd(ps, i - 1);
      assert ps[..i] == ps[..i - 1] + [ps[i - 1]];
      SizeSnoc(ps[..i - 1], ps[i - 1]);
    }
  }

  lemma {:induction false} SizeSnoc(ps: seq<Piece>, p: Piece)
    ensures Size(ps + [p]) == Size(ps) + p.size
    decreases |ps|
  {
    if ps == [] {
      assert ([] + [p])[1..] == [];
    } else {
      assert (ps + [p])[1..] == ps[1..] + [p];
      SizeSnoc(ps[1..], p);
    }
  }

  lemma {:induction false} LastOfAcknowledged(ps: seq<Piece>, i: nat)
    requires i <= |ps|
    ensures var s := Acknowledged(ps, i); LastAcked(ps, i) == if s == [] then 0 else s[|s| - 1]
    decreases i
  {
    if i > 0 { LastOfAcknowledged(ps, i - 1); }
  }

  /** How far the k-th position is from the one before it, or from the start. */
  function Gap(s: seq<nat>, k: nat): int
    requires k < |s|
  {
    if k == 0 then s[0] else s[k] as int - s[k - 1] as int
  }

  predicate Apart(s: seq<nat>, distance: nat) {
    forall k :: 0 <= k < |s| ==> Gap(s, k) >= distance
  }

  lemma ApartAppend(s: seq<nat>, x: nat, distance: nat)
    requires Apart(s, distance) && x - (if s == [] then 0 else s[|s| - 1]) >= distance
    ensures Apart(s + [x], distance)
  {
    forall k | 0 <= k <= |s| ensures Gap(s + [x], k) >= distance {
      if k < |s| { assert Gap(s + [x], k) == Gap(s, k); }
    }
  }

  /** So acknowledged positions lie at least half the least window apart, from the start on. */
  lemma {:induction false} AcknowledgedApart(ps: seq<Piece>, i: nat, window: nat)
    requires i <= |ps| && forall k :: 0 <= k < |ps| ==> ps[k].window >= window
    ensures Apart(Acknowledged(ps, i), window / 2)
    decreases i
  {
    if i > 0 {
      AcknowledgedApart(ps, i - 1, window);
      LastOfAcknowledged(ps, i - 1);
      assert ps[i - 1].window / 2 >= window / 2;
      if Due(ps, i) {
        ApartAppend(Acknowledged(ps, i - 1), EndOf(ps, i), window / 2);
      } else {
        assert Acknowledged(ps, i) == Acknowledged(ps, i - 1);
      }
    }
  }

  /** The message loop from the start of a connection. At every position it reaches the total counts the bytes read,
      and the last acknowledged number and the fragment counter make it up, modulo 2^32. */
  lemma AccountsThroughout(R: Receiver, input: seq<Byte>, j: nat)
    ensures AddsUp(MomentAt(NO_ACKS, R.window, Pieces(R, [], input), j).acks, j)
  {
    AddsUpThroughout(NO_ACKS, R.window, Pieces(R, [], input), j, 0);
  }

  /** The counters at the last position are those it ends with. */
  lemma EndsWith(R: Receiver, got: seq<Parcel>, a: AckState, input: seq<Byte>)
    ensures var s := WholeSession(R, got, a, input);
            MomentAt(a, R.window, Pieces(R, got, input), |input| - |s.rest|).acks == s.acks
  {
    SessionCounts(R, got, a, input);
    OnlyLastUnchecked(R, got, input);
    LastMoment(a, R.window, Pieces(R, got, input));
  }

  /** With so many bytes unread of `total` the counters make up the others. */
  ghost predicate Counts(a: AckState, unread: nat, total: nat) {
    forall n {:trigger Inside(n)} :: Inside(n) ==> unread <= total && AddsUp(a, total - unread)
  }

  lemma CountsThen(a: AckState, unread: nat, total: nat, n: nat, w: I32)
    requires Counts(a, unread, total) && n <= unread
    ensures Counts(AfterChunk(a, n, w), unread - n, total) && Counts(Later(a, n), unread - n, total)
  {
    assert Inside(0);
    AfterChunkAddsUp(a, total - unread, n, w);
    LaterAddsUp(a, total - unread, n);
  }

  /** A property of the counters, and of how many bytes are unread, that reading n bytes keeps, checked or not. */
  ghost predicate ReadingKeeps(P: (AckState, nat) -> bool) {
    forall a, unread: nat, n: nat, w :: P(a, unread) && n <= unread ==> StepKeeps(P, a, unread, n, w)
  }

  ghost predicate StepKeeps(P: (AckState, nat) -> bool, a: AckState, unread: nat, n: nat, w: I32)
    requires n <= unread
  {
    P(AfterChunk(a, n, w), unread - n) && P(Later(a, n), unread - n)
  }

  /** It holds when the next message is read, */
  lemma {:induction false} NextKeeps(P: (AckState, nat) -> bool, R: Receiver, a: AckState, input: seq<Byte>)
    requires ReadingKeeps(P) && P(a, |input|)
    ensures var m := NextMessage(R, a, input); P(m.acks, |m.rest|)
    decreases |input|
  {
    var d := ReadChunk(R, input);
    var n := |input| - |d.rest|;
    assert StepKeeps(P, a, |input|, n, R.window);
    if d.Got? && !d.receiver.readers[d.chunkStreamID].completed {
      NextKeeps(P, d.receiver, AfterChunk(a, n, R.window), d.rest);
    }
  }

  lemma SessionStep(R: Receiver, got: seq<Parcel>, a: AckState, input: seq<Byte>)
    returns (more: bool, R': Receiver, got': seq<Parcel>, a': AckState, rest: seq<Byte>)
    ensures |rest| <= |input|
    ensures var n := |input| - |rest|; a' == AfterChunk(a, n, R.window) || a' == Later(a, n)
    ensures if more
            then |rest| < |input| && WholeSession(R, got, a, input) == WholeSession(R', got', a', rest)
            else WholeSession(R, got, a, input).acks == a' && WholeSession(R, got, a, input).rest == rest
  {
    var t := ReadTurn(R, got, input);
    more, R', got', rest := t.Turn?, if t.Turn? then t.receiver else R, t.got, t.rest;
    a' := if t.Turn? || t.reason == Rejected then AfterChunk(a, |input| - |rest|, R.window)
          else Later(a, |input| - |rest|);
  }

  /** and after a whole session, however it ends. */
  lemma {:induction false} SessionKeeps(P: (AckState, nat) -> bool, R: Receiver, got: seq<Parcel>, a: AckState,
                                        input: seq<Byte>)
    requires ReadingKeeps(P) && P(a, |input|)
    ensures var s := WholeSession(R, got, a, input); P(s.acks, |s.rest|)
    decreases |input|
  {
    var more, R', got', a', rest := SessionStep(R, got, a, input);
    assert StepKeeps(P, a, |input|, |input| - |rest|, R.window);
    if more { SessionKeeps(P, R', got', a', rest); }
  }

  ghost function CountsOf(total: nat): (AckState, nat) -> bool {
    (a: AckState, unread: nat) => Counts(a, unread, total)
  }

  lemma CountsKept(total: nat)
    ensures ReadingKeeps(CountsOf(total))
  {
    forall a, unread: nat, n: nat, w | Counts(a, unread, total) && n <= unread
      ensures StepKeeps(CountsOf(total), a, unread, n, w)
    {
      CountsThen(a, unread, total, n, w);
    }
  }

  /** So counters that make up the bytes read do so when the next message is read, */
  lemma NextAddsUp(R: Receiver, a: AckState, input: seq<Byte>, total: nat)
    requires Counts(a, |input|, total)
    ensures var m := NextMessage(R, a, input); Counts(m.acks, |m.rest|, total)
  {
    CountsKept(total);
    NextKeeps(CountsOf(total), R, a, input);
  }

  /** and after a session. */
  lemma SessionAddsUp(R: Receiver, got: seq<Parcel>, a: AckState, input: seq<Byte>, total: nat)
    requires Counts(a, |input|, total)
    ensures var s := WholeSession(R, got, a, input); Counts(s.acks, |s.rest|, total)
  {
    CountsKept(total);
    SessionKeeps(CountsOf(total), R, got, a, input);
  }

  /** Counters that made up the bytes read of whatever total still do. */
  ghost predicate StillCounts(a: AckState, unread: nat, a': AckState, unread': nat) {
    forall total: nat :: Counts(a, unread, total) ==> Counts(a', unread', total)
  }

  lemma SessionStillCounts(R: Receiver, got: seq<Parcel>, a: AckState, input: seq<Byte>)
    ensures var s := WholeSession(R, got, a, input); StillCounts(a, |input|, s.acks, |s.rest|)
  {
    var s := WholeSession(R, got, a, input);
    forall total: nat | Counts(a, |input|, total) ensures Counts(s.acks, |s.rest|, total) {
      SessionAddsUp(R, got, a, input, total);
    }
  }

  /** If headers take at most b bytes and windows are not below -1, less than half the window, b bytes and a chunk is
      unacknowledged at every position that it reaches. */
  lemma WithinThroughout(R: Receiver, input: seq<Byte>, b: nat, j: nat) returns (acked: nat)
    requires HeadersFit(R, [], input, b) && 0 < b <= 0x2000_0000
    requires R.window >= -1 && R.chunkSize <= MAX_CHUNK_SIZE && SaneWindows(ReadAll(R, [], input).got)
    requires j <= |input| - |WholeSession(R, [], NO_ACKS, input).rest|
    ensures var m := MomentAt(NO_ACKS, R.window, Pieces(R, [], input), j);
            Within(m.acks, j, acked, Half(m.window) + b + m.chunkSize)
  {
    var ps := Pieces(R, [], input);
    PiecesAtMost(R, [], input, b);
    PiecesSane(R, [], input);
    SessionCounts(R, [], NO_ACKS, input);
    OnlyLastUnchecked(R, [], input);
    assert Checked(NO_ACKS, 0, 0, R.window);
    acked := SmallThroughout(NO_ACKS, R.window, ps, j, b, 0, 0);
    assert Inside(0);
  }

  /** For chunk stream ids 2 to 319 that is 18 bytes, however the connection delivers. */
  lemma WithinNarrow(R: Receiver, input: seq<Byte>, over: nat -> nat, j: nat) returns (acked: nat)
    requires DecodesAsSource(R.decode, over) && Narrow(R, [], input)
    requires R.window >= -1 && R.chunkSize <= MAX_CHUNK_SIZE && SaneWindows(ReadAll(R, [], input).got)
    requires j <= |input| - |WholeSession(R, [], NO_ACKS, input).rest|
    ensures var m := MomentAt(NO_ACKS, R.window, Pieces(R, [], input), j);
            Within(m.acks, j, acked, Half(m.window) + 18 + m.chunkSize)
  {
    NarrowFits(R, [], input, over);
    acked := WithinThroughout(R, input, 18, j);
  }
}
