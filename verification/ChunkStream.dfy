/** The two memories of one chunk stream: what the writer compresses its headers against
    (updateWriterHeader) and what the reader rebuilds them from (readChunk), and the exact
    condition under which the rebuilt timestamps are the written ones. */
module ChunkStream {
  import opened Bytes
  import opened ChunkHeader

  /** What a bytes.Buffer of the streamer holds; its length is converted to uint32. */
  type Payload = s: seq<Byte> | |s| <= MAX_U32

  /** One RTMP message; the payload is opaque. */
  datatype Message = Message(timestamp: U32, typeID: Byte, streamID: U32, payload: Payload)

  /** The writer's memory. `header` is what it last told the reader; the other fields describe the
      message it holds, of which `buf` is still to be sent. */
  datatype WriterMem = WriterMem(
    header: MsgHeader,
    timestamp: U32,
    timestampDelta: U32,
    messageLength: U32,
    messageTypeID: Byte,
    messageStreamID: U32,
    buf: Payload,
    newChunk: bool)

  const FRESH_WRITER := WriterMem(MsgHeader(MAX_U32, 0, 0, 0, 0), 0, 0, 0, 0, 0, [], true)

  datatype ReaderMem = ReaderMem(
    timestamp: U32,
    timestampDelta: U32,
    messageLength: U32,
    messageTypeID: Byte,
    messageStreamID: U32,
    buf: Payload,
    completed: bool)

  const FRESH_READER := ReaderMem(0, 0, 0, 0, 0, [], false)

  /** Compressed is the source's writer. Absolute is a reference writer that starts every message
      with a fmt 0 header and so relies on no memory for it. */
  datatype Mode = Compressed | Absolute

  //
  // Writer
  //

  /** updateWriterHeader: the writer after it has updated its memory, and the chosen fmt. */
  function UpdateHeader(w: WriterMem): (WriterMem, Fmt) {
    var shape := w.header.messageLength != w.messageLength || w.messageTypeID != w.header.messageTypeID;
    var timed := w.timestamp != w.header.timestamp || w.newChunk;
    var reversed := timed && w.timestamp < w.header.timestamp;
    var delta: U32 :=
      if !timed then w.timestampDelta
      else if reversed then 0
      else w.timestamp - w.header.timestamp;
    var fmt0: Fmt := if reversed then 0 else if shape then 1 else 2;
    var fmt1: Fmt := if delta == w.header.timestampDelta && fmt0 == 2 then 3 else fmt0;
    var fmt: Fmt := if w.header.messageStreamID != w.messageStreamID then 0 else fmt1;
    (w.(newChunk := false,
        timestampDelta := delta,
        header := MsgHeader(w.timestamp, delta, w.messageLength, w.messageTypeID, w.messageStreamID)),
     fmt)
  }

  function Header(mode: Mode, w: WriterMem): (WriterMem, Fmt) {
    var (w', fmt) := UpdateHeader(w);
    (w', if mode == Absolute && w.newChunk then 0 else fmt)
  }

  /** ChunkStreamer.Write between acquiring the writer and scheduling it. */
  function Load(w: WriterMem, m: Message): WriterMem
    requires |w.buf| + |m.payload| <= MAX_U32
  {
    w.(timestamp := m.timestamp, messageLength := |w.buf + m.payload|, messageTypeID := m.typeID,
       messageStreamID := m.streamID, buf := w.buf + m.payload, newChunk := true)
  }

  //
  // Reader
  //

  /** readChunk up to and including the switch on fmt. */
  function Absorb(r: ReaderMem, fmt: Fmt, mh: MsgHeader): ReaderMem {
    var r0 := if r.completed then r.(buf := [], completed := false) else r;
    match fmt
    case 0 => r0.(timestamp := mh.timestamp, timestampDelta := 0, messageLength := mh.messageLength,
                  messageTypeID := mh.messageTypeID, messageStreamID := mh.messageStreamID)
    case 1 => r0.(timestampDelta := mh.timestampDelta, messageLength := mh.messageLength,
                  messageTypeID := mh.messageTypeID)
    case 2 => r0.(timestampDelta := mh.timestampDelta)
    case 3 => r0
  }

  /** readChunk after the switch, for a reader that has absorbed the header: None is its panic when
      nothing is left to read. A connection that ends early leaves the message incomplete. */
  function Fill(r: ReaderMem, input: seq<Byte>, chunkSize: U32): (f: Option<Decoded<ReaderMem>>)
    ensures f.Some? ==> |f.value.rest| <= |input|
  {
    var expected := r.messageLength - |r.buf|;
    if expected <= 0 then None
    else
      var n := Min(Min(expected, chunkSize), |input|);
      var r' := r.(buf := r.buf + input[..n]);
      Some(Decoded(
        if |r'.buf| == r.messageLength
        then r'.(timestamp := AddU32(r.timestamp, r.timestampDelta), completed := true)
        else r',
        input[n..]))
  }

  /** The message a completed reader hands over. */
  function Held(r: ReaderMem): Message {
    Message(r.timestamp, r.messageTypeID, r.messageStreamID, r.buf)
  }

  //
  // Histories: the messages started on one chunk stream, oldest first
  //

  /** Message i switches the message stream and moves the timestamp forward. */
  predicate SwitchesForward(h: seq<Message>, i: nat)
    requires i < |h|
  {
    i > 0 && h[i].streamID != h[i - 1].streamID && h[i].timestamp > h[i - 1].timestamp
  }

  /** The messages at which header compression loses a timestamp: the very first, when it carries the
      writer's initial timestamp on stream 0; and one that, right after a message switching stream
      forward, repeats that message's length, type, stream and timestamp increment. */
  predicate LosesTimestamp(h: seq<Message>, i: nat)
    requires i < |h|
  {
    if i == 0 then h[0].timestamp == MAX_U32 && h[0].streamID == 0
    else
      && SwitchesForward(h, i - 1)
      && h[i].streamID == h[i - 1].streamID
      && h[i].typeID == h[i - 1].typeID
      && |h[i].payload| == |h[i - 1].payload|
      && h[i].timestamp - h[i - 1].timestamp == h[i - 1].timestamp - h[i - 2].timestamp
  }

  /** Message i is on another message stream or earlier than the one before, so that its own timestamp is
      sent. The writer starts as if after a message with the latest timestamp on stream 0. */
  predicate Resets(h: seq<Message>, i: nat)
    requires i < |h|
  {
    if i == 0 then h[0].timestamp != MAX_U32 || h[0].streamID != 0
    else h[i].streamID != h[i - 1].streamID || h[i].timestamp < h[i - 1].timestamp
  }

  /** Message i is delivered with a wrong timestamp: one was lost at it or before it, and none was sent since. */
  ghost predicate Drifts(h: seq<Message>, i: nat)
    requires i < |h|
  {
    exists k: nat :: DriftsFrom(h, k, i)
  }

  predicate DriftsFrom(h: seq<Message>, k: nat, i: nat)
    requires i < |h|
  {
    k <= i && LosesTimestamp(h, k) && forall j :: k < j <= i ==> !Resets(h, j)
  }

  /** No message of the history is delivered with a wrong timestamp. */
  predicate Faithful(mode: Mode, h: seq<Message>) {
    mode == Compressed ==> forall i :: 0 <= i < |h| ==> !LosesTimestamp(h, i)
  }

  /** The increment the writer remembers after the last message. */
  function Increment(h: seq<Message>): U32 {
    if |h| < 2 || h[|h| - 1].timestamp < h[|h| - 2].timestamp then 0
    else h[|h| - 1].timestamp - h[|h| - 2].timestamp
  }

  /** What the writer remembers after the messages of h. */
  function Remembered(h: seq<Message>): MsgHeader {
    if h == [] then FRESH_WRITER.header
    else
      var m := h[|h| - 1];
      MsgHeader(m.timestamp, Increment(h), |m.payload|, m.typeID, m.streamID)
  }

  /** Message i repeats the length, type and increment that the writer remembers: nothing is sent of it. */
  predicate Repeats(h: seq<Message>, i: nat)
    requires 0 < i < |h|
  {
    && |h[i].payload| == |h[i - 1].payload| && h[i].typeID == h[i - 1].typeID
    && h[i].timestamp - h[i - 1].timestamp == Increment(h[..i])
  }

  /** What the reader remembers: the timestamp it has delivered last and the increment it would repeat. */
  datatype Clock = Clock(timestamp: U32, delta: U32)

  function ClockAfter(mode: Mode, h: seq<Message>): Clock {
    if h == [] then Clock(0, 0)
    else
      var i := |h| - 1;
      if mode == Absolute || Resets(h, i) then Clock(h[i].timestamp, 0)
      else
        var c := ClockAfter(mode, h[..i]);
        var d := if i == 0 || Repeats(h, i) then c.delta else h[i].timestamp - h[i - 1].timestamp;
        Clock(AddU32(c.timestamp, d), d)
  }

  lemma PrefixLoses(h: seq<Message>, n: nat, i: nat)
    requires i < n <= |h|
    ensures LosesTimestamp(h[..n], i) == LosesTimestamp(h, i) && Resets(h[..n], i) == Resets(h, i)
    ensures SwitchesForward(h[..n], i) == SwitchesForward(h, i)
  {
  }

  lemma PrefixDriftsFrom(h: seq<Message>, n: nat, k: nat, i: nat)
    requires k <= i < n <= |h|
    ensures DriftsFrom(h[..n], k, i) == DriftsFrom(h, k, i)
  {
    forall j | k <= j <= i
      ensures LosesTimestamp(h[..n], j) == LosesTimestamp(h, j) && Resets(h[..n], j) == Resets(h, j)
    {
      PrefixLoses(h, n, j);
    }
  }

  lemma PrefixDrifts(h: seq<Message>, n: nat, i: nat)
    requires i < n <= |h|
    ensures Drifts(h[..n], i) == Drifts(h, i)
  {
    forall k: nat | k <= i ensures DriftsFrom(h[..n], k, i) == DriftsFrom(h, k, i) {
      PrefixDriftsFrom(h, n, k, i);
    }
  }

  lemma DriftsStep(h: seq<Message>, i: nat)
    requires i < |h|
    ensures Drifts(h, i) <==> LosesTimestamp(h, i) || (i > 0 && !Resets(h, i) && Drifts(h, i - 1))
  {
    if LosesTimestamp(h, i) { assert DriftsFrom(h, i, i); }
    if Drifts(h, i) {
      var k: nat :| DriftsFrom(h, k, i);
      if k < i { assert DriftsFrom(h, k, i - 1); }
    }
    if i > 0 && !Resets(h, i) && Drifts(h, i - 1) {
      var k: nat :| DriftsFrom(h, k, i - 1);
      assert DriftsFrom(h, k, i);
    }
  }

  /** A clock beside the last message's timestamp and increment: it is never ahead, right exactly if the message
      does not drift, and goes on by the increment unless it drifts or just switched forward. */
  predicate ClockFits(c: Clock, timestamp: U32, increment: U32, switched: bool, drifts: bool) {
    && c.timestamp <= timestamp
    && (c.timestamp == timestamp <==> !drifts)
    && (c.delta == increment || (c.delta == 0 && (switched || drifts)))
    && (switched ==> c.delta == 0 < increment)
  }

  /** A message m after one that the header w remembers (none if `first`); `same` says that it repeats w's
      length and type. Its clock fits. */
  lemma FitGoesOn(first: bool, w: MsgHeader, c: Clock, switched: bool, drifts: bool, m: Message, same: bool)
    requires !first ==> ClockFits(c, w.timestamp, w.timestampDelta, switched, drifts)
    requires first ==> c == Clock(0, 0) && w.timestamp == MAX_U32 && !switched && !drifts
    ensures var resets, d := m.timestamp < w.timestamp || m.streamID != w.messageStreamID, m.timestamp - w.timestamp;
            var repeats := same && d == w.timestampDelta;
            var c' := if resets then Clock(m.timestamp, 0)
                      else if first || repeats then Clock(AddU32(c.timestamp, c.delta), c.delta)
                      else Clock(AddU32(c.timestamp, d), d);
            ClockFits(c', m.timestamp, if first || d < 0 then 0 else d,
                      !first && m.streamID != w.messageStreamID && d > 0,
                      !resets && (first || drifts || (switched && repeats)))
  {
  }

  ghost predicate ClockRight(h: seq<Message>)
    requires h != []
  {
    var i := |h| - 1;
    ClockFits(ClockAfter(Compressed, h), h[i].timestamp, Increment(h), SwitchesForward(h, i), Drifts(h, i))
  }

  /** The clock after one more message, from what the writer remembers. */
  lemma NextClock(mode: Mode, h: seq<Message>, m: Message)
    ensures var w, c := Remembered(h), ClockAfter(mode, h);
            ClockAfter(mode, h + [m]) ==
            if mode == Absolute || m.timestamp < w.timestamp || m.streamID != w.messageStreamID
            then Clock(m.timestamp, 0)
            else if h == [] || (&& |m.payload| == w.messageLength && m.typeID == w.messageTypeID
                                && m.timestamp - w.timestamp == w.timestampDelta)
            then Clock(AddU32(c.timestamp, c.delta), c.delta)
            else Clock(AddU32(c.timestamp, m.timestamp - w.timestamp), m.timestamp - w.timestamp)
    ensures Remembered(h + [m]) ==
            MsgHeader(m.timestamp,
                      if h == [] || m.timestamp < Remembered(h).timestamp then 0
                      else m.timestamp - Remembered(h).timestamp,
                      |m.payload|, m.typeID, m.streamID)
  {
    var h', i := h + [m], |h|;
    assert h'[i] == m && h'[..i] == h;
    if i > 0 { assert h'[i - 1] == h[i - 1]; }
  }

  /** Its place in the history, from what the writer remembers. */
  lemma LastMessage(h: seq<Message>, m: Message)
    ensures var w, i, h' := Remembered(h), |h|, h + [m];
            && (Resets(h', i) <==> m.timestamp < w.timestamp || m.streamID != w.messageStreamID)
            && (SwitchesForward(h', i) <==> h != [] && m.streamID != w.messageStreamID && m.timestamp > w.timestamp)
            && (LosesTimestamp(h', i) <==>
                  && !Resets(h', i)
                  && (h == [] || (&& SwitchesForward(h, i - 1)
                                  && |m.payload| == w.messageLength && m.typeID == w.messageTypeID
                                  && m.timestamp - w.timestamp == w.timestampDelta)))
  {
    var h', i := h + [m], |h|;
    assert h'[i] == m;
    if i > 0 {
      assert h'[i - 1] == h[i - 1];
      if i > 1 { assert h'[i - 2] == h[i - 2]; }
      PrefixLoses(h', i, i - 1);
      assert h'[..i] == h;
    }
  }

  lemma LastDrifts(h: seq<Message>, m: Message)
    ensures var i, h' := |h|, h + [m];
            Drifts(h', i) <==> LosesTimestamp(h', i) || (h != [] && !Resets(h', i) && Drifts(h, i - 1))
  {
    DriftsStep(h + [m], |h|);
    if h != [] {
      PrefixDrifts(h + [m], |h|, |h| - 1);
      assert (h + [m])[..|h|] == h;
    }
  }

  lemma ClockGoesOn(h: seq<Message>, m: Message)
    requires h != [] ==> ClockRight(h)
    ensures ClockRight(h + [m])
  {
    var w, c, i := Remembered(h), ClockAfter(Compressed, h), |h|;
    NextClock(Compressed, h, m);
    LastMessage(h, m);
    LastDrifts(h, m);
    var switched, drifts := i > 0 && SwitchesForward(h, i - 1), i > 0 && Drifts(h, i - 1);
    FitGoesOn(h == [], w, c, switched, drifts, m, |m.payload| == w.messageLength && m.typeID == w.messageTypeID);
    assert (h + [m])[i] == m && Increment(h + [m]) == Remembered(h + [m]).timestampDelta;
  }

  /** The reader's clock shows a message's own timestamp if and only if the message does not drift. */
  lemma {:induction false} ClockShows(h: seq<Message>)
    requires h != []
    ensures ClockRight(h)
    decreases |h|
  {
    var i := |h| - 1;
    if i > 0 { ClockShows(h[..i]); }
    ClockGoesOn(h[..i], h[i]);
    assert h == h[..i] + [h[i]];
  }

  /** In particular, no timestamp is wrong if and only if none is lost. */
  lemma FaithfulMeans(h: seq<Message>)
    ensures Faithful(Compressed, h) <==> forall i :: 0 <= i < |h| ==> !Drifts(h, i)
  {
    if Faithful(Compressed, h) {
      forall i | 0 <= i < |h| ensures !Drifts(h, i) {}
    } else {
      var i :| 0 <= i < |h| && LosesTimestamp(h, i);
      assert DriftsFrom(h, i, i);
      assert Drifts(h, i);
    }
  }

  //
  // The memories in step
  //

  predicate Acceptable(m: Message) {
    1 <= |m.payload| <= 0xFF_FFFF
  }

  predicate Agree(w: MsgHeader, r: ReaderMem) {
    w.messageLength == r.messageLength && w.messageTypeID == r.messageTypeID && w.messageStreamID == r.messageStreamID
  }

  /** Between messages: the writer remembers h and the reader agrees, but for the time, which it has from its
      own clock. */
  predicate AtRest(mode: Mode, w: WriterMem, r: ReaderMem, h: seq<Message>) {
    && w.header == Remembered(h)
    && Agree(w.header, r)
    && (if h == [] then r == FRESH_READER else r.completed)
    && Clock(r.timestamp, r.timestampDelta) == ClockAfter(mode, h)
  }

  /** The writer's fields describe m. */
  predicate Describes(w: WriterMem, m: Message) {
    && w.timestamp == m.timestamp
    && w.messageLength == |m.payload|
    && w.messageTypeID == m.typeID
    && w.messageStreamID == m.streamID
  }

  /** The writer holds the whole of m, none of it sent. */
  predicate Loaded(w: WriterMem, m: Message) {
    w.newChunk && w.buf == m.payload && Describes(w, m)
  }

  /** The reader has absorbed m's header, after the messages of h: its timestamp and increment add up, without
      wrapping around, to what its clock will show. */
  predicate HeaderKnown(mode: Mode, r: ReaderMem, h: seq<Message>, m: Message) {
    && !r.completed
    && r.messageLength == |m.payload| && r.messageTypeID == m.typeID && r.messageStreamID == m.streamID
    && r.timestamp + r.timestampDelta == ClockAfter(mode, h + [m]).timestamp
    && r.timestampDelta == ClockAfter(mode, h + [m]).delta
  }

  /** In the middle of m: some of it has been sent and received, some is still to be sent. */
  predicate InMessage(mode: Mode, w: WriterMem, r: ReaderMem, h: seq<Message>, m: Message) {
    && w.header == Remembered(h + [m])
    && !w.newChunk && Describes(w, m) && w.timestampDelta == w.header.timestampDelta
    && HeaderKnown(mode, r, h, m)
    && r.buf + w.buf == m.payload
    && r.buf != [] && w.buf != []
  }

  /** Message m after h needs its own timestamp. */
  predicate NeedsTime(mode: Mode, h: seq<Message>, m: Message) {
    mode == Absolute || m.timestamp < Remembered(h).timestamp || m.streamID != Remembered(h).messageStreamID
  }

  /** The increment after one more message. */
  lemma NextDelta(mode: Mode, h: seq<Message>, m: Message)
    requires !NeedsTime(mode, h, m)
    ensures var w, c, c' := Remembered(h), ClockAfter(mode, h), ClockAfter(mode, h + [m]);
            c'.delta ==
            if h == [] || (&& |m.payload| == w.messageLength && m.typeID == w.messageTypeID
                           && m.timestamp - w.timestamp == w.timestampDelta)
            then c.delta else m.timestamp - w.timestamp
  {
    NextClock(mode, h, m);
  }

  lemma NextSum(mode: Mode, h: seq<Message>, m: Message)
    requires !NeedsTime(mode, h, m)
    ensures var c, c' := ClockAfter(mode, h), ClockAfter(mode, h + [m]);
            c'.timestamp == AddU32(c.timestamp, c'.delta)
  {
    NextClock(mode, h, m);
  }

  /** The clock is never ahead. */
  lemma NeverAhead(mode: Mode, h: seq<Message>, m: Message)
    requires !NeedsTime(mode, h, m)
    ensures ClockAfter(mode, h).timestamp + ClockAfter(mode, h + [m]).delta <= m.timestamp
  {
    if h != [] { ClockShows(h); }
    NextDelta(mode, h, m);
  }

  lemma NoWrap(a: U32, b: U32)
    requires a + b <= MAX_U32
    ensures AddU32(a, b) == a + b
  {
  }

  lemma ClockNeverWraps(mode: Mode, h: seq<Message>, m: Message)
    ensures var c, c' := ClockAfter(mode, h), ClockAfter(mode, h + [m]);
            if NeedsTime(mode, h, m) then c' == Clock(m.timestamp, 0) else c'.timestamp == c.timestamp + c'.delta
  {
    if NeedsTime(mode, h, m) {
      NextClock(mode, h, m);
    } else {
      NextSum(mode, h, m);
      NeverAhead(mode, h, m);
      NoWrap(ClockAfter(mode, h).timestamp, ClockAfter(mode, h + [m]).delta);
    }
  }

  /** The fmt of a new message m after h: 0 exactly when its own timestamp must be sent, else 1 exactly when its length
      or type is new, 3 exactly when nothing is, 2 when only the increment is; and that is what is sent. */
  predicate Chosen(mode: Mode, fmt: Fmt, h: seq<Message>, m: Message) {
    var w, delta := Remembered(h), m.timestamp - Remembered(h).timestamp;
    var same := |m.payload| == w.messageLength && m.typeID == w.messageTypeID;
    && (fmt == 0 <==> NeedsTime(mode, h, m))
    && (fmt == 1 <==> !NeedsTime(mode, h, m) && !same)
    && (fmt == 3 <==> !NeedsTime(mode, h, m) && same && delta == w.timestampDelta)
    && (fmt == 3 ==> h != [])
    && (fmt == 1 || fmt == 2 ==> Remembered(h + [m]).timestampDelta == delta)
  }

  /** What the writer chooses for a new message, from what it remembers. */
  lemma ChosenHeader(mode: Mode, w: WriterMem, h: seq<Message>, m: Message)
    requires w.header == Remembered(h) && Loaded(w, m) && Acceptable(m)
    ensures var (w', fmt) := Header(mode, w);
            && w'.header == Remembered(h + [m])
            && w' == w.(header := w'.header, newChunk := false, timestampDelta := w'.header.timestampDelta)
            && Chosen(mode, fmt, h, m)
  {
    NextClock(mode, h, m);
  }

  /** At first nothing but the latest timestamp needs no own time, and its increment is 0. */
  lemma FirstDelta(mode: Mode, h: seq<Message>, m: Message)
    requires h == [] && !NeedsTime(mode, h, m)
    ensures ClockAfter(mode, h).delta == 0 == m.timestamp - Remembered(h).timestamp
  {
  }

  /** What such a header carries is what the reader's clock lacks. */
  lemma ChosenClock(mode: Mode, fmt: Fmt, h: seq<Message>, m: Message)
    requires Chosen(mode, fmt, h, m)
    ensures var c, c' := ClockAfter(mode, h), ClockAfter(mode, h + [m]);
            && (fmt == 0 ==> c' == Clock(m.timestamp, 0))
            && (fmt != 0 ==> c'.timestamp == c.timestamp + c'.delta)
            && (fmt == 1 || fmt == 2 ==> c'.delta == Remembered(h + [m]).timestampDelta)
            && (fmt == 3 ==> c'.delta == c.delta)
  {
    ClockNeverWraps(mode, h, m);
    if fmt != 0 {
      NextDelta(mode, h, m);
      if h == [] { FirstDelta(mode, h, m); }
    }
  }

  /** A reader at rest, whose clock shows c, absorbs such a header. */
  lemma AbsorbsHeader(fmt: Fmt, r: ReaderMem, c: Clock, w: MsgHeader, w': MsgHeader, m: Message, c': Clock)
    requires Agree(w, r) && Clock(r.timestamp, r.timestampDelta) == c && (r.completed || r.buf == [])
    requires Acceptable(m) && w' == MsgHeader(m.timestamp, w'.timestampDelta, |m.payload|, m.typeID, m.streamID)
    requires fmt == 0 ==> c' == Clock(m.timestamp, 0)
    requires fmt != 0 ==> c'.timestamp == c.timestamp + c'.delta && m.streamID == w.messageStreamID
    requires fmt == 1 || fmt == 2 ==> c'.delta == w'.timestampDelta
    requires fmt == 2 || fmt == 3 ==> |m.payload| == w.messageLength && m.typeID == w.messageTypeID
    requires fmt == 3 ==> c'.delta == c.delta
    ensures var r' := Absorb(r, fmt, Carried(fmt, w'));
            && !r'.completed && r'.buf == []
            && r'.messageLength == |m.payload| && r'.messageTypeID == m.typeID && r'.messageStreamID == m.streamID
            && r'.timestamp + r'.timestampDelta == c'.timestamp && r'.timestampDelta == c'.delta
  {
  }

  /** The first chunk's header brings a reader at rest to know m. */
  lemma FirstHeader(mode: Mode, w: WriterMem, r: ReaderMem, h: seq<Message>, m: Message)
    requires AtRest(mode, w, r, h) && Loaded(w, m) && Acceptable(m)
    ensures var (w', fmt) := Header(mode, w);
            var r' := Absorb(r, fmt, Carried(fmt, w'.header));
            && w'.header == Remembered(h + [m])
            && w' == w.(header := w'.header, newChunk := false, timestampDelta := w'.header.timestampDelta)
            && HeaderKnown(mode, r', h, m)
            && r'.buf == []
  {
    ChosenHeader(mode, w, h, m);
    NextClock(mode, h, m);
    var (w', fmt) := Header(mode, w);
    ChosenClock(mode, fmt, h, m);
    AbsorbsHeader(fmt, r, ClockAfter(mode, h), w.header, w'.header, m, ClockAfter(mode, h + [m]));
  }

  /** A later chunk's header is fmt 3, carries nothing and changes no memory. */
  lemma NextHeader(mode: Mode, w: WriterMem, r: ReaderMem, h: seq<Message>, m: Message)
    requires InMessage(mode, w, r, h, m)
    ensures Header(mode, w) == (w, 3)
    ensures Absorb(r, 3, Carried(3, w.header)) == r
  {
    var h' := h + [m];
    assert h'[|h|] == m;
  }

  /** The reader after it has received a whole chunk payload. */
  function Received(r: ReaderMem, payload: seq<Byte>): ReaderMem
    requires |r.buf| + |payload| <= r.messageLength
  {
    var r' := r.(buf := r.buf + payload);
    if |r'.buf| == r.messageLength
    then r'.(timestamp := AddU32(r.timestamp, r.timestampDelta), completed := true)
    else r'
  }

  /** A reader that expects at least the payload of a chunk takes exactly the payload. */
  lemma FillPayload(r: ReaderMem, payload: seq<Byte>, rest: seq<Byte>, chunkSize: U32)
    requires 0 < |payload| == Min(r.messageLength - |r.buf|, chunkSize)
    ensures Fill(r, payload + rest, chunkSize) == Some(Decoded(Received(r, payload), rest))
  {
    assert (payload + rest)[..|payload|] == payload;
    assert (payload + rest)[|payload|..] == rest;
  }

  /** writeChunk: the writer afterwards, the fmt of its header and the payload of the chunk. */
  function SendChunk(mode: Mode, w: WriterMem, chunkSize: U32): (WriterMem, Fmt, seq<Byte>) {
    var (w', fmt) := Header(mode, w);
    var k := Min(|w.buf|, chunkSize);
    (w'.(buf := w.buf[k..]), fmt, w.buf[..k])
  }

  /** The writer and the reader stand at the same point of m, after the messages of h. */
  predicate InStep(mode: Mode, w: WriterMem, r: ReaderMem, h: seq<Message>, m: Message) {
    (Loaded(w, m) && AtRest(mode, w, r, h)) || InMessage(mode, w, r, h, m)
  }

  /** The header of any chunk of m leaves the reader knowing m and waiting for what the writer holds. */
  lemma HeaderCarries(mode: Mode, w: WriterMem, r: ReaderMem, h: seq<Message>, m: Message)
    requires Acceptable(m) && InStep(mode, w, r, h, m)
    ensures var (w', fmt) := Header(mode, w);
            var r' := Absorb(r, fmt, Carried(fmt, w'.header));
            && w'.header == Remembered(h + [m])
            && w' == w.(header := w'.header, newChunk := false, timestampDelta := w'.header.timestampDelta)
            && HeaderKnown(mode, r', h, m)
            && r'.buf + w.buf == m.payload
  {
    if Loaded(w, m) && AtRest(mode, w, r, h) {
      FirstHeader(mode, w, r, h, m);
    } else {
      NextHeader(mode, w, r, h, m);
    }
  }

  /** Both sides are done with m: the reader holds it, with the timestamp that its clock shows. */
  predicate CompletedWith(mode: Mode, w: WriterMem, r: ReaderMem, h: seq<Message>, m: Message) {
    && AtRest(mode, w, r, h + [m]) && r.completed
    && Held(r) == m.(timestamp := ClockAfter(mode, h + [m]).timestamp)
  }

  /** The reader that knows m takes a piece of it, the writer keeps the rest. */
  lemma PieceCarries(mode: Mode, w: WriterMem, r: ReaderMem, h: seq<Message>, m: Message, payload: seq<Byte>)
    requires HeaderKnown(mode, r, h, m) && r.buf + payload + w.buf == m.payload && payload != []
    requires w.header == Remembered(h + [m]) && !w.newChunk && Describes(w, m)
    requires w.timestampDelta == w.header.timestampDelta
    ensures |r.buf| + |payload| <= r.messageLength
    ensures w.buf == [] ==> CompletedWith(mode, w, Received(r, payload), h, m)
    ensures w.buf != [] ==> InMessage(mode, w, Received(r, payload), h, m)
  {
    assert (h + [m])[|h|] == m;
    if w.buf == [] { assert r.buf + payload + [] == r.buf + payload; }
  }

  lemma SendSplits(mode: Mode, w: WriterMem, n: U32)
    ensures var (w', _, payload) := SendChunk(mode, w, n);
            w.buf == payload + w'.buf && |payload| == Min(|w.buf|, n)
  {
  }

  lemma Regroup(a: seq<Byte>, b: seq<Byte>, c: seq<Byte>, bc: seq<Byte>, abc: seq<Byte>)
    requires bc == b + c && abc == a + bc
    ensures a + b + c == abc
  {
  }

  /** One chunk keeps the two memories in step: either both are still inside m, or the reader holds
      exactly m, with the timestamp of its clock. The chunk sizes of the two sides need only cut the same
      piece. */
  lemma ChunkCarries(mode: Mode, w: WriterMem, r: ReaderMem, h: seq<Message>, m: Message, n: U32, p: U32)
    returns (r1: ReaderMem, r': ReaderMem)
    requires Acceptable(m) && InStep(mode, w, r, h, m)
    requires 0 < n && Min(|w.buf|, n) == Min(|w.buf|, p)
    ensures var (w', fmt, payload) := SendChunk(mode, w, n);
            && r1 == Absorb(r, fmt, Carried(fmt, w'.header))
            && 0 < |payload| == Min(r1.messageLength - |r1.buf|, p)
            && r' == Received(r1, payload)
            && (w'.buf == [] ==> CompletedWith(mode, w', r', h, m))
            && (w'.buf != [] ==> InMessage(mode, w', r', h, m))
  {
    var (w', fmt, payload) := SendChunk(mode, w, n);
    HeaderCarries(mode, w, r, h, m);
    SendSplits(mode, w, n);
    r1 := Absorb(r, fmt, Carried(fmt, w'.header));
    assert |r1.buf + w.buf| == |m.payload|;
    Regroup(r1.buf, payload, w'.buf, w.buf, m.payload);
    PieceCarries(mode, w', r1, h, m, payload);
    r' := Received(r1, payload);
  }

  /** Why messages must have 1 to 0xFFFFFF bytes: only then does the reader, having absorbed the header
      of the first chunk, expect the message's length; and it panics exactly when the low 24 bits of the
      length are 0. */
  lemma LengthLimits(mode: Mode, w: WriterMem, r: ReaderMem, h: seq<Message>, m: Message, input: seq<Byte>, p: U32)
    requires AtRest(mode, w, r, h) && Loaded(w, m) && r.messageLength <= 0xFF_FFFF
    ensures var (w', fmt) := Header(mode, w);
            var r' := Absorb(r, fmt, Carried(fmt, w'.header));
            && (r'.messageLength == |m.payload| <==> |m.payload| <= 0xFF_FFFF)
            && (Fill(r', input, p).None? <==> |m.payload| % 0x100_0000 == 0)
  {
  }

  /** The reader, waiting for what the writer holds, takes this piece and nothing of what follows. */
  predicate TakesPiece(r: ReaderMem, piece: seq<Byte>, rest: seq<Byte>, p: U32) {
    && |r.buf| + |piece| <= r.messageLength
    && Fill(r, piece + rest, p) == Some(Decoded(Received(r, piece), rest))
  }

  /** A chunk is read as it was sent, whatever follows it, if and only if the two sides' chunk sizes cut the same
      piece off what is left of the message. */
  lemma PiecesMustAgree(r: ReaderMem, buf: seq<Byte>, n: U32, p: U32)
    requires r.messageLength - |r.buf| == |buf| > 0
    ensures (forall rest :: TakesPiece(r, buf[..Min(|buf|, n)], rest, p)) <==> Min(|buf|, n) == Min(|buf|, p)
  {
    var mine, theirs := Min(|buf|, n), Min(|buf|, p);
    var piece := buf[..mine];
    if mine == theirs {
      forall rest ensures TakesPiece(r, piece, rest, p) {
        assert (piece + rest)[..mine] == piece && (piece + rest)[mine..] == rest;
      }
    } else {
      var rest: seq<Byte> := if mine < theirs then seq(theirs, _ => 0) else [];
      assert |(piece + rest)[theirs..]| == mine + |rest| - theirs;
      assert !TakesPiece(r, piece, rest, p);
    }
  }
}
