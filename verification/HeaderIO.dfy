/** The connection's two ends as the streamer sees them, and the header codec as the source runs it on
    them: buffers filled in place, fields decoded one after the other. */
module HeaderIO {
  import opened Bytes
  import opened ChunkHeader

  /** The byte counters of chunk_streamer_reader.go. */
  datatype Tally = Tally(total: U32, fragment: U32)

  /** n more bytes, counted one by one; uint32 counters wrap around. */
  function Advance(t: Tally, n: nat): Tally
    decreases n
  {
    if n == 0 then t else Advance(Tally(AddU32(t.total, 1), AddU32(t.fragment, 1)), n - 1)
  }

  lemma WrapTwice(x: U32, n: nat)
    requires n > 0
    ensures (AddU32(x, 1) + (n - 1)) % 0x1_0000_0000 == (x + n) % 0x1_0000_0000
  {
  }

  lemma {:induction false} AdvanceIs(t: Tally, n: nat)
    ensures Advance(t, n) == Tally((t.total + n) % 0x1_0000_0000, (t.fragment + n) % 0x1_0000_0000)
    decreases n
  {
    if n > 0 {
      AdvanceIs(Tally(AddU32(t.total, 1), AddU32(t.fragment, 1)), n - 1);
      WrapTwice(t.total, n);
      WrapTwice(t.fragment, n);
    }
  }

  lemma {:induction false} AdvanceTwice(t: Tally, m: nat, n: nat)
    ensures Advance(Advance(t, m), n) == Advance(t, m + n)
    decreases m
  {
    if m > 0 { AdvanceTwice(Tally(AddU32(t.total, 1), AddU32(t.fragment, 1)), m - 1, n); }
  }

  /** chunk_streamer_reader.go: the bytes the connection will still deliver, and the counters. `delivers` is how
      much the connection hands to one read when so many bytes are unread, at most what is asked for and at least
      one; `over` is how far a three-byte basic header over-reads. */
  class ChunkStreamerReader {
    var input: seq<Byte>
    var totalReadBytes: U32
    var fragmentReadBytes: U32
    const delivers: nat -> nat
    const over: nat -> nat

    constructor (input: seq<Byte>, delivers: nat -> nat, over: nat -> nat)
      ensures this.input == input && Counters() == Tally(0, 0) && this.delivers == delivers && this.over == over
    {
      this.input, this.delivers, this.over := input, delivers, over;
      totalReadBytes, fragmentReadBytes := 0, 0;
    }

    function Counters(): Tally
      reads this
    {
      Tally(totalReadBytes, fragmentReadBytes)
    }

    /** The counters were t when `before` was unread, and have kept up with what was read since. */
    ghost predicate Since(t: Tally, before: seq<Byte>)
      reads this
    {
      |input| <= |before| && Counters() == Advance(t, |before| - |input|)
    }

    lemma SinceThen(t: Tally, before: seq<Byte>, mid: seq<Byte>)
      requires |mid| <= |before| && Since(Advance(t, |before| - |mid|), mid)
      ensures Since(t, before)
    {
      AdvanceTwice(t, |before| - |mid|, |mid| - |input|);
    }

    /** One read into a buffer of n bytes. */
    method Read(n: nat) returns (b: seq<Byte>)
      modifies this
      ensures old(input) == b + input && |b| <= n && (n > 0 && old(input) != [] ==> b != [])
      ensures Counters() == Advance(old(Counters()), |b|)
    {
      var k := delivers(|input|);
      if k > n { k := n; }
      if k > |input| { k := |input|; }
      if k == 0 && n > 0 && |input| > 0 { k := 1; }
      b := input[..k];
      input := input[k..];
      totalReadBytes := (totalReadBytes + k) % 0x1_0000_0000;
      fragmentReadBytes := (fragmentReadBytes + k) % 0x1_0000_0000;
      AdvanceIs(old(Counters()), k);
    }

    /** io.ReadFull and io.Copy with a limit: reads until there are n bytes, or the input ends. */
    method ReadFull(n: nat) returns (b: seq<Byte>)
      modifies this
      ensures b == old(input)[..Min(n, |old(input)|)] && input == old(input)[|b|..]
      ensures Counters() == Advance(old(Counters()), |b|)
    {
      b := [];
      while |b| < n && input != []
        invariant old(input) == b + input && |b| <= n
        invariant Counters() == Advance(old(Counters()), |b|)
        decreases |input|
      {
        ghost var m := |b|;
        var c := Read(n - |b|);
        AdvanceTwice(old(Counters()), m, |c|);
        b := b + c;
      }
    }

    method ResetFragmentReadBytes()
      modifies this`fragmentReadBytes
      ensures fragmentReadBytes == 0
    {
      fragmentReadBytes := 0;
    }
  }

  /** encodeChunkBasicHeader. */
  method EncodeChunkBasicHeader(h: BasicHeader) returns (b: Option<seq<Byte>>)
    ensures b == EncodeBasic(h)
  {
    var buf := new Byte[3](_ => 0);
    buf[0] := h.fmt * 64;
    var id := h.chunkStreamID;
    if 2 <= id <= 63 {
      buf[0] := buf[0] + id;
      assert buf[..1] == [h.fmt * 64 + id];
      b := Some(buf[..1]);
    } else if 64 <= id <= 319 {
      buf[1] := id - 64;
      assert buf[..2] == [h.fmt * 64, id - 64];
      b := Some(buf[..2]);
    } else if 320 <= id <= 65599 {
      buf[0] := buf[0] + 1;
      buf[1] := (id - 64) % 256;
      buf[2] := (id - 64) / 256;
      assert buf[..] == [h.fmt * 64 + 1, (id - 64) % 256, (id - 64) / 256];
      b := Some(buf[..]);
    } else {
      b := None;
    }
  }

  /** copy(buf[at:], src). */
  method Copy(buf: array<Byte>, at: nat, src: seq<Byte>)
    requires at + |src| <= buf.Length
    modifies buf
    ensures buf[..] == old(buf[..at]) + src + old(buf[at + |src|..])
  {
    for i := 0 to |src|
      invariant buf[..] == old(buf[..at]) + src[..i] + old(buf[at + i..])
    {
      buf[at + i] := src[i];
    }
  }

  method EncodeFmt0(mh: MsgHeader) returns (b: seq<Byte>)
    ensures b == EncodeMessage(0, mh)
  {
    var buf := new Byte[15](_ => 0);
    var ext := mh.timestamp >= TS_ESCAPE;
    Copy(buf, 0, PutU24(if ext then TS_ESCAPE else mh.timestamp));
    Copy(buf, 3, PutU24(mh.messageLength));
    buf[6] := mh.messageTypeID;
    Copy(buf, 7, PutU32LE(mh.messageStreamID));
    if ext {
      Copy(buf, 11, PutU32(mh.timestamp));
    }
    b := buf[..if ext then 15 else 11];
  }

  method EncodeFmt1(mh: MsgHeader) returns (b: seq<Byte>)
    ensures b == EncodeMessage(1, mh)
  {
    var buf := new Byte[15](_ => 0);
    var ext := mh.timestampDelta >= TS_ESCAPE;
    Copy(buf, 0, PutU24(if ext then TS_ESCAPE else mh.timestampDelta));
    Copy(buf, 3, PutU24(mh.messageLength));
    buf[6] := mh.messageTypeID;
    if ext {
      Copy(buf, 7, PutU32(mh.timestampDelta));
    }
    b := buf[..if ext then 11 else 7];
  }

  method EncodeFmt2(mh: MsgHeader) returns (b: seq<Byte>)
    ensures b == EncodeMessage(2, mh)
  {
    var buf := new Byte[15](_ => 0);
    var ext := mh.timestampDelta >= TS_ESCAPE;
    Copy(buf, 0, PutU24(if ext then TS_ESCAPE else mh.timestampDelta));
    if ext {
      Copy(buf, 3, PutU32(mh.timestampDelta));
    }
    b := buf[..if ext then 7 else 3];
  }

  /** encodeChunkMessageHeader. */
  method EncodeChunkMessageHeader(fmt: Fmt, mh: MsgHeader) returns (b: seq<Byte>)
    ensures b == EncodeMessage(fmt, mh)
  {
    if fmt == 0 {
      b := EncodeFmt0(mh);
    } else if fmt == 1 {
      b := EncodeFmt1(mh);
    } else if fmt == 2 {
      b := EncodeFmt2(mh);
    } else {
      b := [];
    }
  }

  /** A decoding method returned what the specification returns and left what it leaves; if it failed, nothing. */
  ghost predicate Decodes<T>(spec: Option<Decoded<T>>, got: Option<T>, rest: seq<Byte>) {
    && (spec.Some? <==> got.Some?)
    && (if spec.Some? then got.value == spec.value.value && rest == spec.value.rest else rest == [])
  }

  /** decodeChunkBasicHeader with the streamer's large buffer. */
  method DecodeChunkBasicHeader(r: ChunkStreamerReader) returns (h: Option<BasicHeader>)
    modifies r
    ensures Decodes(DecodeBasic(old(r.input), r.over(|old(r.input)|)), h, r.input)
    ensures r.Since(old(r.Counters()), old(r.input))
  {
    ghost var input, t := r.input, r.Counters();
    var extra := r.over(|r.input|);
    var b := r.ReadFull(1);
    if |b| < 1 { return None; }
    var fmt := b[0] / 64;
    var id: int := b[0] % 64;
    if id == 0 {
      var c := r.ReadFull(1);
      AdvanceTwice(t, 1, |c|);
      if |c| < 1 { return None; }
      assert c[0] == input[1] && r.input == input[2..];
      id := c[0] as int + 64;
    } else if id == 1 {
      var c := r.ReadFull(2 + extra);
      AdvanceTwice(t, 1, |c|);
      if |c| < 2 { return None; }
      assert c[0] == input[1] && c[1] == input[2] && r.input == input[Min(3 + extra, |input|)..];
      id := c[1] as int * 256 + c[0] as int + 64;
    }
    h := Some(BasicHeader(fmt, id));
  }

  /** The n bytes of a message header and, if the first three of them say so, the extended timestamp behind them. */
  method ReadFields(r: ChunkStreamerReader, n: nat) returns (ok: bool, b: seq<Byte>, t: U32)
    requires n >= 3
    modifies r
    ensures var input := old(r.input);
            var extended := |input| >= n && input[0] == 0xff && input[1] == 0xff && input[2] == 0xff;
            && (ok <==> |input| >= if extended then n + 4 else n)
            && (!ok ==> r.input == [])
            && (ok ==>
                  && b == input[..n] && t == (if extended then U32At(input, n) else U24At(input, 0))
                  && r.input == input[if extended then n + 4 else n..])
    ensures r.Since(old(r.Counters()), old(r.input))
  {
    ghost var input, tally := r.input, r.Counters();
    b := r.ReadFull(n);
    if |b| < n { return false, b, 0; }
    assert b == input[..n];
    t := U24At(b, 0);
    if t == TS_ESCAPE {
      var c := r.ReadFull(4);
      AdvanceTwice(tally, n, |c|);
      if |c| < 4 { return false, b, 0; }
      assert c == input[n..n + 4] && r.input == input[n + 4..];
      t := U32At(c, 0);
    }
    ok := true;
  }

  /** decodeChunkMessageHeader. */
  method DecodeChunkMessageHeader(r: ChunkStreamerReader, fmt: Fmt) returns (mh: Option<MsgHeader>)
    modifies r
    ensures Decodes(DecodeMessage(fmt, old(r.input)), mh, r.input)
    ensures r.Since(old(r.Counters()), old(r.input))
  {
    if fmt == 3 { return Some(ZERO_HEADER); }
    var ok, b, t := ReadFields(r, if fmt == 0 then 11 else if fmt == 1 then 7 else 3);
    if !ok { return None; }
    if fmt == 0 {
      mh := Some(MsgHeader(t, 0, U24At(b, 3), b[6], U32LEAt(b, 7)));
    } else if fmt == 1 {
      mh := Some(MsgHeader(0, t, U24At(b, 3), b[6], 0));
    } else {
      mh := Some(MsgHeader(0, t, 0, 0, 0));
    }
  }

  /** Both headers of a chunk. */
  method ReadHeaders(r: ChunkStreamerReader) returns (h: Option<Headers>)
    modifies r
    ensures Decodes(DecodeHeaders(old(r.input), r.over(|old(r.input)|)), h, r.input)
    ensures r.Since(old(r.Counters()), old(r.input))
  {
    ghost var input, tally := r.input, r.Counters();
    var b := DecodeChunkBasicHeader(r);
    if b.None? { return None; }
    ghost var mid := r.input;
    var m := DecodeChunkMessageHeader(r, b.value.fmt);
    r.SinceThen(tally, input, mid);
    h := if m.None? then None else Some(Headers(b.value, m.value));
  }
}
