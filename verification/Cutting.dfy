/** A receive buffer that is cut into frames however the bytes arrive. The frames' format is a parameter: this
    is what holds of any format whose header tells the size. */
module Cutting {
  import opened Bytes

  const HEADER_SIZE := 25

  /** size is what the header makes of the whole frame's size, an int64 that may well be negative. */
  datatype Format<!F> = Format(size: seq<Byte> -> int, decode: seq<Byte> -> Option<F>, encode: F -> seq<Byte>)

  /** How processing ends: it waits for more bytes, it panics on a negative size, or it loops forever on an
      empty frame. */
  datatype Ending = Waiting | Crashed | Spinning

  datatype Parsed<F> = Parsed(frames: seq<F>, rest: seq<Byte>, ending: Ending)

  /** After `frames` were cut. */
  function Prepend<F>(frames: seq<F>, p: Parsed<F>): Parsed<F> {
    p.(frames := frames + p.frames)
  }

  lemma PrependTwice<F>(f: seq<F>, g: seq<F>, p: Parsed<F>)
    ensures Prepend(f, Prepend(g, p)) == Prepend(f + g, p)
  {
    assert f + (g + p.frames) == f + g + p.frames;
  }

  /** processBuffer as a whole. A frame that cannot be decoded is dropped. */
  function Cut<F>(w: Format<F>, b: seq<Byte>): Parsed<F>
    decreases |b|
  {
    if |b| < HEADER_SIZE || |b| < w.size(b) then Parsed([], b, Waiting)
    else if w.size(b) < 0 then Parsed([], b, Crashed)
    else if w.size(b) == 0 then Parsed([], b, Spinning)
    else
      var d, p := w.decode(b[..w.size(b)]), Cut(w, b[w.size(b)..]);
      Prepend(Taken(d), p)
  }

  function Taken<F>(d: Option<F>): seq<F> {
    if d.Some? then [d.value] else []
  }

  /** Piece after piece: each is appended to the buffer and the buffer processed, until a crash or an endless
      loop. */
  function Receive<F>(w: Format<F>, p: Parsed<F>, pieces: seq<seq<Byte>>): Parsed<F>
    decreases |pieces|
  {
    if pieces == [] || p.ending != Waiting then p
    else
      var q := Cut(w, p.rest + pieces[0]);
      Receive(w, Prepend(p.frames, q), pieces[1..])
  }

  function Joined(pieces: seq<seq<Byte>>): seq<Byte> {
    if pieces == [] then [] else pieces[0] + Joined(pieces[1..])
  }

  function EncodeAll<F>(w: Format<F>, fs: seq<F>): seq<Byte> {
    if fs == [] then [] else w.encode(fs[0]) + EncodeAll(w, fs[1..])
  }

  //
  // Independence of the read boundaries
  //

  /** The header alone decides the size. */
  ghost predicate SizedByHeader<F(!new)>(w: Format<F>) {
    forall a: seq<Byte>, b :: |a| >= HEADER_SIZE ==> w.size(a + b) == w.size(a)
  }

  /** More bytes change nothing about what was cut, and are cut as if they had followed the rest alone. */
  lemma {:induction false} CutMore<F(!new)>(w: Format<F>, a: seq<Byte>, b: seq<Byte>)
    requires SizedByHeader(w)
    ensures Cut(w, a).ending == Waiting ==> Cut(w, a + b) == Prepend(Cut(w, a).frames, Cut(w, Cut(w, a).rest + b))
    ensures Cut(w, a).ending != Waiting ==> Cut(w, a + b) == Cut(w, a).(rest := Cut(w, a).rest + b)
    decreases |a|
  {
    if |a| >= HEADER_SIZE {
      assert w.size(a + b) == w.size(a);
      var n := w.size(a);
      if 0 < n <= |a| {
        CutMore(w, a[n..], b);
        assert (a + b)[n..] == a[n..] + b && (a + b)[..n] == a[..n];
        var d, p := Taken(w.decode(a[..n])), Cut(w, a[n..]);
        assert Cut(w, a) == Prepend(d, p) && Cut(w, a + b) == Prepend(d, Cut(w, a[n..] + b));
        if p.ending == Waiting { PrependTwice(d, p.frames, Cut(w, p.rest + b)); }
      } else if |a| < n {
        assert [] + Cut(w, a + b).frames == Cut(w, a + b).frames;
      }
    } else {
      assert [] + Cut(w, a + b).frames == Cut(w, a + b).frames;
    }
  }

  /** What is left waiting is less than its header announces. */
  lemma {:induction false} RestWaits<F>(w: Format<F>, b: seq<Byte>)
    requires Cut(w, b).ending == Waiting
    ensures var rest := Cut(w, b).rest; |rest| < HEADER_SIZE || |rest| < w.size(rest)
    decreases |b|
  {
    if |b| >= HEADER_SIZE && w.size(b) <= |b| {
      RestWaits(w, b[w.size(b)..]);
    }
  }

  //
  // How processing ends
  //

  /** The next frame, of whatever it is, is taken off. */
  predicate Moves<F>(w: Format<F>, b: seq<Byte>) {
    |b| >= HEADER_SIZE && 0 < w.size(b) <= |b|
  }

  /** Processing b comes to position k of it. */
  predicate CutsTo<F>(w: Format<F>, b: seq<Byte>, k: nat)
    decreases |b|
  {
    k == 0 || (Moves(w, b) && w.size(b) <= k && CutsTo(w, b[w.size(b)..], k - w.size(b)))
  }

  lemma {:induction false} CutsWithin<F>(w: Format<F>, b: seq<Byte>, k: nat)
    requires CutsTo(w, b, k)
    ensures k <= |b|
    decreases |b|
  {
    if k > 0 { CutsWithin(w, b[w.size(b)..], k - w.size(b)); }
  }

  /** What a buffer that is not cut any further ends with. */
  function Verdict<F>(w: Format<F>, b: seq<Byte>): Ending {
    if |b| < HEADER_SIZE || |b| < w.size(b) then Waiting else if w.size(b) < 0 then Crashed else Spinning
  }

  /** Processing comes to k and no further. */
  predicate EndsAt<F>(w: Format<F>, b: seq<Byte>, k: nat) {
    k <= |b| && CutsTo(w, b, k) && !Moves(w, b[k..])
  }

  lemma {:induction false} EndIs<F>(w: Format<F>, b: seq<Byte>, k: nat)
    requires EndsAt(w, b, k)
    ensures Cut(w, b).rest == b[k..] && Cut(w, b).ending == Verdict(w, b[k..])
    decreases |b|
  {
    if k > 0 {
      var n := w.size(b);
      CutsWithin(w, b[n..], k - n);
      assert b[n..][k - n..] == b[k..];
      EndIs(w, b[n..], k - n);
    }
  }

  lemma {:induction false} EndExists<F>(w: Format<F>, b: seq<Byte>) returns (k: nat)
    ensures EndsAt(w, b, k)
    decreases |b|
  {
    if Moves(w, b) {
      var n := w.size(b);
      var k1 := EndExists(w, b[n..]);
      k := k1 + n;
      assert b[n..][k1..] == b[k..];
    } else {
      k := 0;
      assert b[0..] == b;
    }
  }

  /** Processing comes to a header at k. */
  predicate ComesTo<F>(w: Format<F>, b: seq<Byte>, k: nat) {
    k + HEADER_SIZE <= |b| && CutsTo(w, b, k)
  }

  /** Processing arbitrary bytes panics, or loops forever, if and only if it comes to a header that makes the size
      negative, or zero; and waits for more otherwise. */
  lemma EndsIff<F>(w: Format<F>, b: seq<Byte>)
    ensures Cut(w, b).ending == Crashed <==> exists k: nat :: ComesTo(w, b, k) && w.size(b[k..]) < 0
    ensures Cut(w, b).ending == Spinning <==> exists k: nat :: ComesTo(w, b, k) && w.size(b[k..]) == 0
    ensures Cut(w, b).ending == Waiting <==> forall k: nat :: ComesTo(w, b, k) ==> w.size(b[k..]) > 0
  {
    var e := EndExists(w, b);
    EndIs(w, b, e);
    assert e + HEADER_SIZE <= |b| ==> ComesTo(w, b, e);
    forall k: nat | ComesTo(w, b, k) && w.size(b[k..]) <= 0 ensures Cut(w, b).ending == Verdict(w, b[k..]) {
      assert EndsAt(w, b, k);
      EndIs(w, b, k);
    }
  }

  /** The same frames and the same end, and the same rest if that end is to wait. */
  predicate Agrees<F(==)>(r: Parsed<F>, all: Parsed<F>) {
    r.frames == all.frames && r.ending == all.ending && (all.ending == Waiting ==> r.rest == all.rest)
  }

  /** After one read: what waits goes on with the bytes that follow, and any other end is that of all the bytes. */
  lemma OneRead<F(!new)>(w: Format<F>, fs: seq<F>, b: seq<Byte>, later: seq<Byte>)
    requires SizedByHeader(w)
    ensures var q, all := Cut(w, b), Prepend(fs, Cut(w, b + later));
            if q.ending == Waiting
            then (|q.rest| < HEADER_SIZE || |q.rest| < w.size(q.rest))
                 && all == Prepend(fs + q.frames, Cut(w, q.rest + later))
            else Agrees(Prepend(fs, q), all)
  {
    var q := Cut(w, b);
    CutMore(w, b, later);
    if q.ending == Waiting {
      RestWaits(w, b);
      PrependTwice(fs, q.frames, Cut(w, q.rest + later));
    }
  }

  lemma JoinedFirst(rest: seq<Byte>, pieces: seq<seq<Byte>>)
    requires pieces != []
    ensures rest + Joined(pieces) == rest + pieces[0] + Joined(pieces[1..])
  {
  }

  /** However arbitrary bytes are split into reads: the frames handed over and the way it ends are those of
      processing all bytes at once, and if it waits for more it is with the same rest. */
  lemma {:induction false} ReadBoundaries<F(!new)>(w: Format<F>, p: Parsed<F>, pieces: seq<seq<Byte>>)
    requires SizedByHeader(w)
    requires p.ending == Waiting && (|p.rest| < HEADER_SIZE || |p.rest| < w.size(p.rest))
    ensures Agrees(Receive(w, p, pieces), Prepend(p.frames, Cut(w, p.rest + Joined(pieces))))
    decreases |pieces|
  {
    if pieces == [] {
      assert p.rest + [] == p.rest;
    } else {
      var b := p.rest + pieces[0];
      JoinedFirst(p.rest, pieces);
      OneRead(w, p.frames, b, Joined(pieces[1..]));
      if Cut(w, b).ending == Waiting { ReadBoundaries(w, Prepend(p.frames, Cut(w, b)), pieces[1..]); }
    }
  }

  //
  // What is sent is what is cut
  //

  /** The encoding of f decodes to f, and its header tells its size. */
  ghost predicate Transfers<F>(w: Format<F>, f: F) {
    var e := w.encode(f);
    |e| >= HEADER_SIZE && w.size(e) == |e| && w.decode(e) == Some(f)
  }

  lemma CutOne<F(!new)>(w: Format<F>, f: F, later: seq<Byte>)
    requires SizedByHeader(w) && Transfers(w, f)
    ensures Cut(w, w.encode(f) + later) == Prepend([f], Cut(w, later))
  {
    var e := w.encode(f);
    assert w.size(e + later) == |e|;
    assert (e + later)[..|e|] == e && (e + later)[|e|..] == later;
  }

  lemma EncodeFirst<F>(w: Format<F>, fs: seq<F>, tail: seq<Byte>)
    requires fs != []
    ensures EncodeAll(w, fs) + tail == w.encode(fs[0]) + (EncodeAll(w, fs[1..]) + tail)
  {
  }

  lemma {:induction false} CutFrames<F(!new)>(w: Format<F>, fs: seq<F>, tail: seq<Byte>)
    requires SizedByHeader(w) && forall f :: f in fs ==> Transfers(w, f)
    ensures Cut(w, EncodeAll(w, fs) + tail) == Prepend(fs, Cut(w, tail))
    decreases |fs|
  {
    if fs == [] {
      assert EncodeAll(w, fs) + tail == tail && fs + Cut(w, tail).frames == Cut(w, tail).frames;
    } else {
      CutFrames(w, fs[1..], tail);
      EncodeFirst(w, fs, tail);
      CutOne(w, fs[0], EncodeAll(w, fs[1..]) + tail);
      PrependFirst(fs, Cut(w, tail));
    }
  }

  lemma PrependFirst<F>(fs: seq<F>, p: Parsed<F>)
    requires fs != []
    ensures Prepend([fs[0]], Prepend(fs[1..], p)) == Prepend(fs, p)
  {
    PrependTwice([fs[0]], fs[1..], p);
    assert fs == [fs[0]] + fs[1..];
  }

  /** A strict prefix of an encoding waits. */
  lemma CutPrefix<F(!new)>(w: Format<F>, f: F, b: seq<Byte>)
    requires SizedByHeader(w) && Transfers(w, f) && b < w.encode(f)
    ensures Cut(w, b) == Parsed([], b, Waiting)
  {
    assert b + w.encode(f)[|b|..] == w.encode(f);
  }

  /** Where a prefix of the encodings ends. */
  lemma {:induction false} PrefixEnds<F>(w: Format<F>, fs: seq<F>, b: seq<Byte>) returns (k: nat, part: seq<Byte>)
    requires b <= EncodeAll(w, fs)
    ensures k <= |fs| && b == EncodeAll(w, fs[..k]) + part
    ensures part == [] || (k < |fs| && part < w.encode(fs[k]))
    decreases |fs|
  {
    k, part := 0, b;
    if fs != [] && |b| >= |w.encode(fs[0])| {
      var n := |w.encode(fs[0])|;
      assert b[n..] <= EncodeAll(w, fs[1..]) && b[..n] == w.encode(fs[0]);
      var k1, part1 := PrefixEnds(w, fs[1..], b[n..]);
      k, part := k1 + 1, part1;
      assert fs[..k][1..] == fs[1..][..k1];
      assert b == b[..n] + b[n..];
    } else if fs != [] {
      assert b == w.encode(fs[0])[..|b|];
    }
  }

  /** Frames sent one after the other and received in any pieces, up to any point: handed over are exactly
      the frames that arrived whole, in order, and what waits is a strict prefix of the next. */
  lemma {:induction false} FramesArrive<F(!new)>(w: Format<F>, fs: seq<F>, pieces: seq<seq<Byte>>) returns (k: nat)
    requires SizedByHeader(w) && (forall f :: f in fs ==> Transfers(w, f))
    requires Joined(pieces) <= EncodeAll(w, fs)
    ensures k <= |fs|
    ensures var r := Receive(w, Parsed([], [], Waiting), pieces);
            && r.frames == fs[..k] && r.ending == Waiting && EncodeAll(w, fs[..k]) + r.rest == Joined(pieces)
            && (r.rest == [] || (k < |fs| && r.rest < w.encode(fs[k])))
            && (Joined(pieces) == EncodeAll(w, fs) ==> k == |fs| && r.rest == [])
  {
    var b := Joined(pieces);
    var part;
    k, part := PrefixEnds(w, fs, b);
    if part != [] { CutPrefix(w, fs[k], part); }
    CutFrames(w, fs[..k], part);
    assert [] + b == b;
    ReadBoundaries(w, Parsed([], [], Waiting), pieces);
    assert fs[..k] + [] == fs[..k];
    if b == EncodeAll(w, fs) {
      CutFrames(w, fs, []);
      assert EncodeAll(w, fs) + [] == b;
      assert fs[..k] == fs + [];
    }
  }
}
