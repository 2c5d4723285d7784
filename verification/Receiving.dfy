/** The reading half of ChunkStreamer: readChunk over all chunk streams of a connection, and the
    message loop's handling of SetChunkSize. */
module Receiving {
  import opened Bytes
  import opened ChunkHeader
  import opened ChunkStream
  import Control

  /** A way to read the two headers at the start of the input. */
  type HeaderReader = seq<Byte> -> Option<Decoded<Headers>>

  /** Whether the AMF values that come first in a data or command message, by its type and payload, can be decoded. */
  type AmfReader = (Byte, seq<Byte>) -> bool

  /** The reading state: a memory per chunk stream, the peer's chunk size and acknowledgement window, the
      configured limits, and how the connection's bytes are read as headers and as AMF values. */
  datatype Receiver = Receiver(
    readers: map<int, ReaderMem>,
    chunkSize: U32,
    window: I32,
    maxChunkSize: U32,
    maxWindow: I32,
    maxStreams: int,
    decode: HeaderReader,
    amf: AmfReader)

  /** A delivered message and the chunk stream it came on. */
  datatype Parcel = Parcel(chunkStreamID: int, message: Message)

  datatype Failure = EndOfInput | TooManyChunkStreams | NothingToRead | Rejected

  /** `rest` is what is unread afterwards. */
  datatype Read =
    | Got(receiver: Receiver, chunkStreamID: int, rest: seq<Byte>)
    | Failed(reason: Failure, rest: seq<Byte>)

  function ReaderOf(R: Receiver, id: int): ReaderMem {
    if id in R.readers then R.readers[id] else FRESH_READER
  }

  /** readChunk once both headers are decoded. NothingToRead is its panic. */
  function ReadBody(R: Receiver, h: BasicHeader, mh: MsgHeader, input: seq<Byte>): (d: Read)
    ensures d.Got? ==> d.chunkStreamID in d.receiver.readers
    ensures |d.rest| <= |input|
  {
    var id := h.chunkStreamID;
    if id !in R.readers && |R.readers| >= R.maxStreams then Failed(TooManyChunkStreams, input)
    else
      var f := Fill(Absorb(ReaderOf(R, id), h.fmt, mh), input, R.chunkSize);
      if f.None? then Failed(NothingToRead, input)
      else Got(R.(readers := R.readers[id := f.value.value]), id, f.value.rest)
  }

  function ReadChunk(R: Receiver, input: seq<Byte>): (d: Read)
    ensures d.Got? ==> d.chunkStreamID in d.receiver.readers && |d.rest| < |input|
    ensures |d.rest| <= |input|
  {
    var d := R.decode(input);
    if d.None? || |d.value.rest| >= |input| then Failed(EndOfInput, [])
    else ReadBody(R, d.value.value.basic, d.value.value.message, d.value.rest)
  }

  /** StreamControlState.SetChunkSize on the peer state; None is its error. */
  function SetChunkSize(R: Receiver, n: U32): Option<Receiver> {
    var n' := Min(n, MAX_CHUNK_SIZE);
    if n' > R.maxChunkSize then None else Some(R.(chunkSize := n'))
  }

  /** StreamControlState.SetAckWindowSize on the peer state; None is its error. */
  function SetAckWindowSize(R: Receiver, w: I32): Option<Receiver> {
    if w > R.maxWindow then None else Some(R.(window := w))
  }

  /** The message decoder takes it: a binary message, or a data or command message in AMF0. It has no others. */
  predicate Decodable(R: Receiver, m: Message) {
    if m.typeID == Control.DATA_AMF0 || m.typeID == Control.COMMAND_AMF0 then R.amf(m.typeID, m.payload)
    else Control.Decode(m.typeID, m.payload).Some?
  }

  /** What happens to a delivered message: it is decoded, and its effect on the reading state, if its message stream
      exists and its handler does not refuse it. None ends the connection. Only two kinds of message have an effect. */
  function Dispatch(R: Receiver, m: Message): Option<Receiver> {
    if !Decodable(R, m) then None
    else if m.typeID == Control.SET_CHUNK_SIZE then SetChunkSize(R, Control.Decode(m.typeID, m.payload).value.chunkSize)
    else if m.typeID == Control.WIN_ACK_SIZE then SetAckWindowSize(R, Control.Decode(m.typeID, m.payload).value.ackSize)
    else Some(R)
  }

  datatype Reading =
    | Drained(receiver: Receiver, got: seq<Parcel>)
    | Stopped(reason: Failure, got: seq<Parcel>)

  /** One turn: a chunk is read and, if it completes a message, the message is dispatched. */
  datatype Turn =
    | Turn(receiver: Receiver, got: seq<Parcel>, rest: seq<Byte>)
    | Halt(reason: Failure, got: seq<Parcel>, rest: seq<Byte>)

  function ReadTurn(R: Receiver, got: seq<Parcel>, input: seq<Byte>): (t: Turn)
    ensures t.Turn? ==> |t.rest| < |input|
    ensures |t.rest| <= |input|
  {
    match ReadChunk(R, input)
    case Failed(reason, rest) => Halt(reason, got, rest)
    case Got(R', id, rest) =>
      var r := R'.readers[id];
      if !r.completed then Turn(R', got, rest)
      else
        var got' := got + [Parcel(id, Held(r))];
        var d := Dispatch(R', Held(r));
        if d.None? then Halt(Rejected, got', rest) else Turn(d.value, got', rest)
  }

  /** The whole message loop over the bytes a connection delivers. */
  function ReadAll(R: Receiver, got: seq<Parcel>, input: seq<Byte>): Reading
    decreases |input|
  {
    if input == [] then Drained(R, got)
    else
      match ReadTurn(R, got, input)
      case Halt(reason, got', _) => Stopped(reason, got')
      case Turn(R', got', rest) => ReadAll(R', got', rest)
  }

  //
  // What a chunk on the wire does to the receiver
  //

  /** One chunk: its headers and its piece of the message. */
  datatype WireChunk = WireChunk(basic: BasicHeader, header: MsgHeader, payload: seq<Byte>)

  /** The bytes of its headers; none if the chunk stream id has no encoding. */
  function HeaderBytes(c: WireChunk): seq<Byte> {
    var b := EncodeBasic(c.basic);
    if b.None? then [] else b.value + EncodeMessage(c.basic.fmt, c.header)
  }

  function ChunkBytes(c: WireChunk): seq<Byte> {
    HeaderBytes(c) + c.payload
  }

  function WireBytes(wire: seq<WireChunk>): seq<Byte> {
    if wire == [] then [] else WireBytes(wire[..|wire| - 1]) + ChunkBytes(wire[|wire| - 1])
  }

  lemma WireBytesAppend(wire: seq<WireChunk>, c: WireChunk)
    ensures WireBytes(wire + [c]) == WireBytes(wire) + ChunkBytes(c)
  {
    assert (wire + [c])[..|wire|] == wire;
  }

  /** The headers of c, followed by rest, are read as what they carry, and nothing else is taken. */
  ghost predicate SeparatesAt(decode: HeaderReader, c: WireChunk, rest: seq<Byte>) {
    && HeaderBytes(c) != []
    && decode(HeaderBytes(c) + rest) == Some(Decoded(Headers(c.basic, Carried(c.basic.fmt, c.header)), rest))
  }

  /** So it is for all chunks of this chunk stream, whatever follows. */
  ghost predicate Separates(decode: HeaderReader, id: int) {
    forall c: WireChunk, rest :: c.basic.chunkStreamID == id ==> SeparatesAt(decode, c, rest)
  }

  /** Reading a chunk's bytes, whatever follows them, is reading its body under the header it carries. */
  lemma ReadChunkBytes(R: Receiver, c: WireChunk, rest: seq<Byte>)
    requires Separates(R.decode, c.basic.chunkStreamID)
    ensures ReadChunk(R, ChunkBytes(c) + rest) == ReadBody(R, c.basic, Carried(c.basic.fmt, c.header), c.payload + rest)
  {
    assert SeparatesAt(R.decode, c, c.payload + rest);
    assert ChunkBytes(c) + rest == HeaderBytes(c) + (c.payload + rest);
  }

  /** The source's way: over(n) is how far a three-byte basic header over-reads when n bytes are unread. */
  ghost predicate DecodesAsSource(f: HeaderReader, over: nat -> nat) {
    forall input {:trigger Unread(input)} :: Unread(input) ==> f(input) == DecodeHeaders(input, over(|input|))
  }

  /** True of every input. It does for DecodesAsSource what Inside does for other predicates: only a proof that
      mentions it of an input sees how that is decoded. */
  predicate Unread(input: seq<Byte>) {
    true
  }

  function SourceDecoder(over: nat -> nat): (f: HeaderReader)
    ensures DecodesAsSource(f, over)
  {
    (input: seq<Byte>) => DecodeHeaders(input, over(|input|))
  }

  /** It separates the chunks of ids 2 to 319 from what follows; those of larger ids exactly if it never
      over-reads, that is with no more than a three-byte buffer. */
  lemma SourceSeparates(decode: HeaderReader, over: nat -> nat, id: int)
    requires DecodesAsSource(decode, over) && ValidChunkStreamID(id)
    ensures Separates(decode, id) <==> id <= 319 || forall n :: n >= 4 ==> over(n) == 0
  {
    if id <= 319 || forall n :: n >= 4 ==> over(n) == 0 {
      SourceSeparatesThen(decode, over, id);
    } else {
      var n :| n >= 4 && over(n) != 0;
      SourceOverReads(decode, over, id, n);
    }
  }

  lemma SourceOverReads(decode: HeaderReader, over: nat -> nat, id: int, n: nat)
    requires DecodesAsSource(decode, over) && 320 <= id <= 65599 && n >= 4 && over(n) != 0
    ensures !Separates(decode, id)
  {
    var c := WireChunk(BasicHeader(3, id), ZERO_HEADER, []);
    var rest := seq(n - 3, _ => 0);
    SourceSeparatesNot(decode, over, c, rest);
  }

  lemma SourceSeparatesNot(decode: HeaderReader, over: nat -> nat, c: WireChunk, rest: seq<Byte>)
    requires DecodesAsSource(decode, over) && c.basic.fmt == 3 && 320 <= c.basic.chunkStreamID <= 65599
    requires rest != [] && over(3 + |rest|) != 0
    ensures !SeparatesAt(decode, c, rest)
  {
    assert |HeaderBytes(c) + rest| == 3 + |rest|;
    OverReadLosesBytes(c, rest, over(3 + |rest|));
    assert Unread(HeaderBytes(c) + rest);
  }

  lemma SourceSeparatesThen(decode: HeaderReader, over: nat -> nat, id: int)
    requires DecodesAsSource(decode, over) && ValidChunkStreamID(id)
    requires id <= 319 || forall n :: n >= 4 ==> over(n) == 0
    ensures Separates(decode, id)
  {
    forall c: WireChunk, rest | c.basic.chunkStreamID == id ensures SeparatesAt(decode, c, rest) {
      SourceSeparatesAt(decode, over, c, rest);
    }
  }

  lemma SourceSeparatesAt(decode: HeaderReader, over: nat -> nat, c: WireChunk, rest: seq<Byte>)
    requires DecodesAsSource(decode, over) && ValidChunkStreamID(c.basic.chunkStreamID)
    requires c.basic.chunkStreamID <= 319 || forall n :: n >= 4 ==> over(n) == 0
    ensures SeparatesAt(decode, c, rest)
  {
    var input := HeaderBytes(c) + rest;
    assert |input| < 4 && c.basic.chunkStreamID > 319 ==> EncodeMessage(c.basic.fmt, c.header) + rest == [];
    HeadersRoundTrip(c.basic, c.header, rest, over(|input|));
    assert Unread(input);
  }

  lemma OverReadLosesBytes(c: WireChunk, rest: seq<Byte>, over: nat)
    requires c.basic.fmt == 3 && 320 <= c.basic.chunkStreamID <= 65599 && rest != [] && over > 0
    ensures DecodeHeaders(HeaderBytes(c) + rest, over) != Some(Decoded(Headers(c.basic, Carried(3, c.header)), rest))
  {
    assert HeaderBytes(c) + rest == EncodeBasic(c.basic).value + rest;
    BasicRoundTrip(c.basic, rest, over);
  }

  //
  // Arbitrary input
  //

  predicate WellFormedReader(r: ReaderMem) {
    && |r.buf| <= r.messageLength <= MAX_CHUNK_SIZE
    && (r.completed <==> |r.buf| == r.messageLength)
  }

  /** Message lengths have 24 bits. */
  ghost predicate ReadsLengths(decode: HeaderReader) {
    forall input :: decode(input).Some? ==> decode(input).value.value.message.messageLength <= MAX_CHUNK_SIZE
  }

  ghost predicate WellFormed(R: Receiver) {
    && ReadsLengths(R.decode)
    && |R.readers| <= R.maxStreams
    && forall id :: id in R.readers ==> WellFormedReader(R.readers[id])
  }

  lemma ReadBodyKeeps(R: Receiver, h: BasicHeader, mh: MsgHeader, input: seq<Byte>)
    requires WellFormed(R) && mh.messageLength <= MAX_CHUNK_SIZE
    ensures var d := ReadBody(R, h, mh, input);
            d.Got? ==> Kept(R, d.receiver, d.chunkStreamID)
  {
    var d := ReadBody(R, h, mh, input);
    if d.Got? {
      assert d.receiver.readers.Keys == R.readers.Keys + {d.chunkStreamID};
    }
  }

  /** The state is well formed again, the chunk's message is not empty, and no other chunk stream has changed. */
  ghost predicate Kept(R: Receiver, R': Receiver, id: int) {
    && WellFormed(R')
    && id in R'.readers && R'.readers[id].messageLength > 0
    && (forall k :: k in R.readers && k != id ==> k in R'.readers && R'.readers[k] == R.readers[k])
  }

  /** What readChunk keeps on arbitrary bytes. */
  lemma ReadChunkKeeps(R: Receiver, input: seq<Byte>)
    requires WellFormed(R)
    ensures var d := ReadChunk(R, input);
            d.Got? ==> Kept(R, d.receiver, d.chunkStreamID)
  {
    var h := R.decode(input);
    if h.Some? {
      ReadBodyKeeps(R, h.value.value.basic, h.value.value.message, h.value.rest);
    }
  }

  /** What a chunk's header announces for its chunk stream: fmt 0 and 1 carry a length. */
  function Announce(lengths: map<int, U32>, h: Headers): map<int, U32> {
    if h.basic.fmt <= 1 then lengths[h.basic.chunkStreamID := h.message.messageLength] else lengths
  }

  /** The length announced for the message that one turn delivers, if it does. */
  function AnnouncedHere(lengths: map<int, U32>, id: int, got: seq<Parcel>, got': seq<Parcel>): seq<U32> {
    if |got'| > |got| then [if id in lengths then lengths[id] else 0] else []
  }

  /** The lengths announced for the messages that are delivered, from the headers alone: that of the last header on the
      message's chunk stream that carried one. `lengths` are those announced so far. */
  function Announced(R: Receiver, got: seq<Parcel>, lengths: map<int, U32>, input: seq<Byte>): seq<U32>
    decreases |input|
  {
    var h := R.decode(input);
    if input == [] || h.None? then []
    else
      var t, lengths' := ReadTurn(R, got, input), Announce(lengths, h.value.value);
      var here := AnnouncedHere(lengths', h.value.value.basic.chunkStreamID, got, t.got);
      if t.Turn? then here + Announced(t.receiver, t.got, lengths', t.rest) else here
  }

  /** The lengths of what has been delivered. */
  function Lengths(got: seq<Parcel>): (s: seq<nat>)
    ensures |s| == |got|
  {
    seq(|got|, i requires 0 <= i < |got| => |got[i].message.payload|)
  }

  /** Every reader waits for what was announced last. */
  ghost predicate Expects(R: Receiver, lengths: map<int, U32>) {
    forall id :: id in R.readers ==> id in lengths && lengths[id] == R.readers[id].messageLength
  }

  lemma ExpectsStill(R: Receiver, lengths: map<int, U32>, h: Headers, input: seq<Byte>)
    requires WellFormed(R) && Expects(R, lengths) && h.message.messageLength <= MAX_CHUNK_SIZE
    ensures var d := ReadBody(R, h.basic, h.message, input); d.Got? ==> Expects(d.receiver, Announce(lengths, h))
  {
    var d := ReadBody(R, h.basic, h.message, input);
    if d.Got? { ReadBodyKeeps(R, h.basic, h.message, input); }
  }

  lemma LengthsAppend(got: seq<Parcel>, p: Parcel)
    ensures Lengths(got + [p]) == Lengths(got) + [|p.message.payload|]
  {
  }

  /** What has been delivered beyond `got` has these lengths, none of which is 0 or beyond 24 bits. */
  predicate GrowsBy(got: seq<Parcel>, got': seq<Parcel>, lengths: seq<U32>) {
    && got <= got' && Lengths(got') == Lengths(got) + lengths
    && forall n :: n in lengths ==> 1 <= n <= MAX_CHUNK_SIZE
  }

  lemma GrowsByThen(got: seq<Parcel>, got1: seq<Parcel>, a: seq<U32>, got2: seq<Parcel>, b: seq<U32>)
    requires GrowsBy(got, got1, a) && GrowsBy(got1, got2, b)
    ensures GrowsBy(got, got2, a + b)
  {
    assert Lengths(got) + a + b == Lengths(got) + (a + b);
  }

  lemma TurnAsAnnounced(R: Receiver, got: seq<Parcel>, lengths: map<int, U32>, input: seq<Byte>)
    requires WellFormed(R) && Expects(R, lengths) && R.decode(input).Some?
    ensures var h, t := R.decode(input).value.value, ReadTurn(R, got, input);
            var lengths' := Announce(lengths, h);
            && (t.Turn? ==> WellFormed(t.receiver) && Expects(t.receiver, lengths'))
            && GrowsBy(got, t.got, AnnouncedHere(lengths', h.basic.chunkStreamID, got, t.got))
  {
    var h, t := R.decode(input).value, ReadTurn(R, got, input);
    ReadChunkKeeps(R, input);
    var d := ReadChunk(R, input);
    if d.Got? {
      ExpectsStill(R, lengths, h.value, h.rest);
      if t.got != got { LengthsAppend(got, t.got[|got|]); }
    }
  }

  /** Whatever bytes arrive, every message delivered is complete: it has exactly the length that the headers announced
      for it, however the reading ends; and the reading state stays well formed. */
  lemma {:induction false} AnyInput(R: Receiver, got: seq<Parcel>, lengths: map<int, U32>, input: seq<Byte>)
    requires WellFormed(R) && Expects(R, lengths)
    ensures var res := ReadAll(R, got, input);
            GrowsBy(got, res.got, Announced(R, got, lengths, input)) && (res.Drained? ==> WellFormed(res.receiver))
    decreases |input|
  {
    if input != [] && R.decode(input).Some? {
      TurnAsAnnounced(R, got, lengths, input);
      var h, t := R.decode(input).value.value, ReadTurn(R, got, input);
      if t.Turn? {
        var lengths' := Announce(lengths, h);
        var here := AnnouncedHere(lengths', h.basic.chunkStreamID, got, t.got);
        AnyInput(t.receiver, t.got, lengths', t.rest);
        var later := Announced(t.receiver, t.got, lengths', t.rest);
        GrowsByThen(got, t.got, here, ReadAll(t.receiver, t.got, t.rest).got, later);
      }
    }
  }

  /** The two headers take at least one and at most this many bytes, and fewer cannot be all there is unless they
      are cut short. */
  ghost predicate HeadersAtMost(decode: HeaderReader, b: nat) {
    forall input :: HeaderAtMost(decode, b, input)
  }

  predicate HeaderAtMost(decode: HeaderReader, b: nat, input: seq<Byte>) {
    var d := decode(input);
    if d.None? then |input| <= b else 1 <= |input| - |d.value.rest| <= b
  }

  /** That is 18, and what is over-read. */
  lemma SourceHeadersAtMost(decode: HeaderReader, over: nat -> nat, b: nat)
    requires DecodesAsSource(decode, over) && forall n :: over(n) <= b
    ensures HeadersAtMost(decode, 18 + b)
  {
    var n := 18 + b;
    forall input ensures HeaderAtMost(decode, n, input) {
      assert Unread(input);
    }
  }

  /** And message lengths have 24 bits. */
  lemma SourceReadsLengths(decode: HeaderReader, over: nat -> nat)
    requires DecodesAsSource(decode, over)
    ensures ReadsLengths(decode)
  {
    forall input | decode(input).Some? ensures decode(input).value.value.message.messageLength <= MAX_CHUNK_SIZE {
      assert Unread(input);
    }
  }

  /** A chunk takes at most its headers and a chunk size; a failed one at most its headers. */
  lemma ChunkAtMost(R: Receiver, input: seq<Byte>, b: nat)
    requires HeaderAtMost(R.decode, b, input)
    ensures var d := ReadChunk(R, input);
            |input| - |d.rest| <= b + if d.Got? then R.chunkSize else 0
  {
  }
}
