/** The relay's fan-out of one stream: what each subscriber is delivered, whenever it joins and leaves. */
module Relay {
  import opened Bytes

  /** What Publish looks at in a tag's data. */
  datatype Kind = Audio | Script | Video(sequenceHeader: bool, keyFrame: bool)

  datatype Tag = Tag(kind: Kind, timestamp: U32, data: seq<Byte>)

  /** A Sub, with what its callback received. */
  datatype Listener = Listener(initialized: bool, closed: bool, lastTimestamp: U32, got: seq<Tag>)

  /** The tags that Pub keeps for those who join late. */
  datatype Cache = Cache(avcSeqHeader: Option<Tag>, lastKeyFrame: Option<Tag>)

  datatype Hub = Hub(cache: Cache, subs: seq<Listener>)

  datatype Event = Publish(tag: Tag) | Join | Leave(index: nat) | Deregister

  const EMPTY := Hub(Cache(None, None), [])
  const NEWCOMER := Listener(false, false, 0, [])

  /** uint32 subtraction. */
  function SubU32(a: U32, b: U32): U32 {
    if a >= b then a - b else a - b + 0x1_0000_0000
  }

  /** It is the difference modulo 2^32. */
  lemma Subtracts(a: U32, b: U32)
    ensures SubU32(a, b) == (a - b) % 4294967296 && (SubU32(a, b) + b) % 4294967296 == a
  {
  }

  function OnEvent(l: Listener, t: Tag): Listener {
    if l.closed then l
    else
      var base := if t.timestamp != 0 && l.lastTimestamp == 0 then t.timestamp else l.lastTimestamp;
      l.(lastTimestamp := base, got := l.got + [t.(timestamp := SubU32(t.timestamp, base))])
  }

  function OnCached(l: Listener, t: Option<Tag>): Listener {
    if t.Some? then OnEvent(l, t.value) else l
  }

  /** One subscriber's part of Publish, with the cache already updated. */
  function Hear(l: Listener, t: Tag, c: Cache): Listener {
    if t.kind.Video? && !l.initialized
    then OnCached(OnCached(l, c.avcSeqHeader), c.lastKeyFrame).(initialized := true)
    else OnEvent(l, t)
  }

  predicate IsHeader(t: Tag) {
    t.kind.Video? && t.kind.sequenceHeader
  }

  predicate IsKeyFrame(t: Tag) {
    t.kind.Video? && t.kind.keyFrame
  }

  /** The cache after a tag. */
  function Remember(c: Cache, t: Tag): Cache {
    Cache(if IsHeader(t) then Some(t) else c.avcSeqHeader, if IsKeyFrame(t) then Some(t) else c.lastKeyFrame)
  }

  function Step(h: Hub, e: Event): Hub {
    match e
    case Publish(t) => Hub(Remember(h.cache, t), AllHear(h.subs, t, Remember(h.cache, t)))
    case Join => h.(subs := h.subs + [NEWCOMER])
    case Leave(i) => if i < |h.subs| then h.(subs := h.subs[i := h.subs[i].(closed := true)]) else h
    case Deregister => h.(subs := AllClosed(h.subs))
  }

  function AllHear(ls: seq<Listener>, t: Tag, c: Cache): (r: seq<Listener>)
    ensures |r| == |ls| && forall i :: 0 <= i < |ls| ==> r[i] == Hear(ls[i], t, c)
  {
    seq(|ls|, i requires 0 <= i < |ls| => Hear(ls[i], t, c))
  }

  function AllClosed(ls: seq<Listener>): (r: seq<Listener>)
    ensures |r| == |ls| && forall i :: 0 <= i < |ls| ==> r[i] == ls[i].(closed := true)
  {
    seq(|ls|, i requires 0 <= i < |ls| => ls[i].(closed := true))
  }

  function Run(h: Hub, es: seq<Event>): Hub
    decreases |es|
  {
    if es == [] then h else Run(Step(h, es[0]), es[1..])
  }

  //
  // What is delivered, without the state
  //

  function Published(es: seq<Event>): seq<Tag> {
    if es == [] then []
    else if es[0].Publish? then [es[0].tag] + Published(es[1..])
    else Published(es[1..])
  }

  /** The tags published until subscriber i is closed. */
  function HeardBy(es: seq<Event>, i: nat): seq<Tag> {
    if es == [] || es[0] == Leave(i) || es[0] == Deregister then []
    else if es[0].Publish? then [es[0].tag] + HeardBy(es[1..], i)
    else HeardBy(es[1..], i)
  }

  /** The last sequence header and the last key frame of the tags. */
  function LastOf(tags: seq<Tag>): Cache {
    if tags == [] then Cache(None, None) else Remember(LastOf(tags[..|tags| - 1]), tags[|tags| - 1])
  }

  function Cached(t: Option<Tag>): seq<Tag> {
    if t.Some? then [t.value] else []
  }

  function FirstVideo(tags: seq<Tag>): (v: nat)
    ensures v <= |tags|
  {
    if tags == [] || tags[0].kind.Video? then 0 else 1 + FirstVideo(tags[1..])
  }

  /** For one who joined after `before` and heard `heard`: all up to the first video tag; in its place the
      sequence header and the key frame last published by then, if any; then all that follows. */
  function Due(before: seq<Tag>, heard: seq<Tag>): seq<Tag> {
    Filled(heard, KnownFirst(before, heard))
  }

  /** What is cached when the first video tag of `heard` comes. */
  function KnownFirst(before: seq<Tag>, heard: seq<Tag>): Cache {
    var v := FirstVideo(heard);
    LastOf(before + if v < |heard| then heard[..v + 1] else heard)
  }

  function Filled(heard: seq<Tag>, c: Cache): seq<Tag> {
    var v := FirstVideo(heard);
    if v == |heard| then heard else Replaced(heard, v, CatchUp(c))
  }

  /** The tags with others in the place of the one at position v. */
  function Replaced(tags: seq<Tag>, v: nat, others: seq<Tag>): seq<Tag>
    requires v < |tags|
  {
    tags[..v] + others + tags[v + 1..]
  }

  function CatchUp(c: Cache): seq<Tag> {
    Cached(c.avcSeqHeader) + Cached(c.lastKeyFrame)
  }

  /** What one more tag adds to what is due. */
  function Offered(before: seq<Tag>, heard: seq<Tag>, t: Tag): seq<Tag> {
    if t.kind.Video? && FirstVideo(heard) == |heard| then CatchUp(LastOf(before + heard + [t])) else [t]
  }

  function FirstTime(tags: seq<Tag>): (z: nat)
    ensures z <= |tags| && (z < |tags| ==> tags[z].timestamp != 0)
  {
    if tags == [] || tags[0].timestamp != 0 then 0 else 1 + FirstTime(tags[1..])
  }

  /** The tags with their timestamps shifted by the first that is not zero. */
  function Shifted(tags: seq<Tag>): (s: seq<Tag>)
    ensures |s| == |tags|
  {
    var z := FirstTime(tags);
    seq(|tags|, i requires 0 <= i < |tags| =>
      if i < z then tags[i] else tags[i].(timestamp := SubU32(tags[i].timestamp, tags[z].timestamp)))
  }

  //
  // A subscriber's deliveries
  //

  /** The listener has been delivered exactly these tags. */
  predicate Delivered(l: Listener, tags: seq<Tag>) {
    && l.got == Shifted(tags)
    && l.lastTimestamp == if FirstTime(tags) < |tags| then tags[FirstTime(tags)].timestamp else 0
  }

  lemma {:induction false} FirstTimeAppend(tags: seq<Tag>, t: Tag)
    ensures FirstTime(tags + [t]) ==
            if FirstTime(tags) < |tags| || t.timestamp != 0 then FirstTime(tags) else |tags| + 1
  {
    if tags != [] && tags[0].timestamp == 0 {
      FirstTimeAppend(tags[1..], t);
      assert (tags + [t])[1..] == tags[1..] + [t];
    }
  }

  lemma OnEventDelivers(l: Listener, tags: seq<Tag>, t: Tag)
    requires Delivered(l, tags) && !l.closed
    ensures Delivered(OnEvent(l, t), tags + [t])
  {
    FirstTimeAppend(tags, t);
    assert Shifted(tags + [t]) == OnEvent(l, t).got;
  }

  lemma OnCachedDelivers(l: Listener, tags: seq<Tag>, t: Option<Tag>)
    requires Delivered(l, tags) && !l.closed
    ensures Delivered(OnCached(l, t), tags + Cached(t))
  {
    if t.Some? { OnEventDelivers(l, tags, t.value); } else { assert tags + [] == tags; }
  }

  lemma LastAppend(tags: seq<Tag>, t: Tag)
    ensures LastOf(tags + [t]) == Remember(LastOf(tags), t)
  {
    assert (tags + [t])[..|tags|] == tags;
  }

  lemma {:induction false} FirstVideoAppend(tags: seq<Tag>, t: Tag)
    ensures FirstVideo(tags + [t]) ==
            if FirstVideo(tags) < |tags| || t.kind.Video? then FirstVideo(tags) else |tags| + 1
  {
    if tags != [] && !tags[0].kind.Video? {
      FirstVideoAppend(tags[1..], t);
      assert (tags + [t])[1..] == tags[1..] + [t];
    }
  }

  lemma ReplacedAppend(tags: seq<Tag>, v: nat, others: seq<Tag>, t: Tag)
    requires v < |tags|
    ensures Replaced(tags + [t], v, others) == Replaced(tags, v, others) + [t]
  {
    assert (tags + [t])[..v] == tags[..v] && (tags + [t])[v + 1..] == tags[v + 1..] + [t];
  }

  lemma ReplacedLast(tags: seq<Tag>, others: seq<Tag>, t: Tag)
    ensures Replaced(tags + [t], |tags|, others) == tags + others
  {
    assert (tags + [t])[..|tags|] == tags && (tags + [t])[|tags| + 1..] == [];
  }

  lemma {:induction false} FilledAppend(heard: seq<Tag>, t: Tag, c: Cache)
    ensures FirstVideo(heard) < |heard| ==> Filled(heard + [t], c) == Filled(heard, c) + [t]
    ensures FirstVideo(heard) == |heard| ==> Filled(heard + [t], c) == heard + if t.kind.Video? then CatchUp(c) else [t]
  {
    FirstVideoAppend(heard, t);
    if FirstVideo(heard) < |heard| {
      ReplacedAppend(heard, FirstVideo(heard), CatchUp(c), t);
    } else if t.kind.Video? {
      ReplacedLast(heard, CatchUp(c), t);
    }
  }

  lemma KnownAppend(before: seq<Tag>, heard: seq<Tag>, t: Tag)
    ensures KnownFirst(before, heard + [t]) ==
            if FirstVideo(heard) < |heard| then KnownFirst(before, heard) else LastOf(before + heard + [t])
  {
    FirstVideoAppend(heard, t);
    var v, more := FirstVideo(heard), heard + [t];
    if v < |heard| {
      assert more[..v + 1] == heard[..v + 1];
    } else {
      assert more[..|more|] == more && before + more == before + heard + [t];
    }
  }

  lemma DueAppend(before: seq<Tag>, heard: seq<Tag>, t: Tag)
    ensures Due(before, heard + [t]) == Due(before, heard) + Offered(before, heard, t)
  {
    KnownAppend(before, heard, t);
    FilledAppend(heard, t, KnownFirst(before, heard + [t]));
  }

  /** An open subscriber that joined after `before` and has heard `heard` since. */
  predicate UpToDate(h: Hub, i: nat, before: seq<Tag>, heard: seq<Tag>) {
    && i < |h.subs| && !h.subs[i].closed
    && Delivered(h.subs[i], Due(before, heard))
    && (h.subs[i].initialized <==> FirstVideo(heard) < |heard|)
    && h.cache == LastOf(before + heard)
  }

  lemma HearDelivers(l: Listener, due: seq<Tag>, t: Tag, c: Cache)
    requires Delivered(l, due) && !l.closed
    ensures Delivered(Hear(l, t, c), due + if t.kind.Video? && !l.initialized then CatchUp(c) else [t])
  {
    if t.kind.Video? && !l.initialized {
      OnCachedDelivers(l, due, c.avcSeqHeader);
      OnCachedDelivers(OnCached(l, c.avcSeqHeader), due + Cached(c.avcSeqHeader), c.lastKeyFrame);
      assert due + Cached(c.avcSeqHeader) + Cached(c.lastKeyFrame) == due + CatchUp(c);
    } else {
      OnEventDelivers(l, due, t);
    }
  }

  lemma CacheKeeps(c: Cache, before: seq<Tag>, heard: seq<Tag>, t: Tag)
    requires c == LastOf(before + heard)
    ensures Remember(c, t) == LastOf(before + (heard + [t]))
    ensures before + (heard + [t]) == before + heard + [t]
  {
    LastAppend(before + heard, t);
    assert before + (heard + [t]) == before + heard + [t];
  }

  lemma PublishKeeps(h: Hub, i: nat, before: seq<Tag>, heard: seq<Tag>, t: Tag)
    requires UpToDate(h, i, before, heard)
    ensures UpToDate(Step(h, Publish(t)), i, before, heard + [t])
  {
    CacheKeeps(h.cache, before, heard, t);
    DueAppend(before, heard, t);
    FirstVideoAppend(heard, t);
    HearDelivers(h.subs[i], Due(before, heard), t, Remember(h.cache, t));
  }

  /** What subscriber i of h has got. */
  predicate HasGot(h: Hub, i: nat, tags: seq<Tag>) {
    i < |h.subs| && h.subs[i].got == tags
  }

  lemma {:induction false} ClosedStays(h: Hub, i: nat, es: seq<Event>, tags: seq<Tag>)
    requires HasGot(h, i, tags) && h.subs[i].closed
    ensures HasGot(Run(h, es), i, tags)
    decreases |es|
  {
    if es != [] { ClosedStays(Step(h, es[0]), i, es[1..], tags); }
  }

  lemma {:induction false} HearsAll(h: Hub, i: nat, before: seq<Tag>, heard: seq<Tag>, es: seq<Event>)
    requires UpToDate(h, i, before, heard)
    ensures HasGot(Run(h, es), i, Shifted(Due(before, heard + HeardBy(es, i))))
    decreases |es|
  {
    if es == [] {
      assert heard + [] == heard;
    } else if es[0] == Leave(i) || es[0] == Deregister {
      assert heard + [] == heard;
      ClosedStays(Step(h, es[0]), i, es[1..], Shifted(Due(before, heard)));
    } else if es[0].Publish? {
      assert heard + [es[0].tag] + HeardBy(es[1..], i) == heard + HeardBy(es, i);
      PublishKeeps(h, i, before, heard, es[0].tag);
      HearsAll(Step(h, es[0]), i, before, heard + [es[0].tag], es[1..]);
    } else {
      HearsAll(Step(h, es[0]), i, before, heard, es[1..]);
    }
  }

  lemma {:induction false} CachesAre(h: Hub, before: seq<Tag>, es: seq<Event>)
    requires h.cache == LastOf(before)
    ensures Run(h, es).cache == LastOf(before + Published(es))
    decreases |es|
  {
    if es == [] {
      assert before + [] == before;
    } else if es[0].Publish? {
      assert before + [es[0].tag] + Published(es[1..]) == before + Published(es);
      LastAppend(before, es[0].tag);
      CachesAre(Step(h, es[0]), before + [es[0].tag], es[1..]);
    } else {
      CachesAre(Step(h, es[0]), before, es[1..]);
    }
  }

  lemma {:induction false} RunAppend(h: Hub, es: seq<Event>, fs: seq<Event>)
    ensures Run(h, es + fs) == Run(Run(h, es), fs)
    decreases |es|
  {
    if es == [] {
      assert es + fs == fs;
    } else {
      assert (es + fs)[1..] == es[1..] + fs;
      RunAppend(Step(h, es[0]), es[1..], fs);
    }
  }

  /** For every history of publishing, joining and leaving, and every subscriber in it: it is delivered, to the
      tag and in order, what is due to one who joined then, with its own shift of the timestamps. */
  lemma RelayRefinement(earlier: seq<Event>, later: seq<Event>)
    ensures var i, subs := |Run(EMPTY, earlier).subs|, Run(EMPTY, earlier + [Join] + later).subs;
            i < |subs| && subs[i].got == Shifted(Due(Published(earlier), HeardBy(later, i)))
  {
    var h, before := Run(EMPTY, earlier), Published(earlier);
    RunAppend(EMPTY, earlier + [Join], later);
    RunAppend(EMPTY, earlier, [Join]);
    CachesAre(EMPTY, [], earlier);
    assert [] + before == before && before + [] == before;
    var h1 := Step(h, Join);
    assert Run(h, [Join]) == h1 by { assert [Join][1..] == []; }
    assert UpToDate(h1, |h.subs|, before, []);
    HearsAll(h1, |h.subs|, before, [], later);
    assert [] + HeardBy(later, |h.subs|) == HeardBy(later, |h.subs|);
  }

  /** Equal modulo 2^32, of numbers that are less apart than twice that. */
  predicate SameModulo(a: int, b: int) {
    a == b || a == b + 4294967296 || a == b - 4294967296
  }

  /** The shift starts at zero and keeps all differences modulo 2^32. */
  lemma ShiftKeepsDifferences(tags: seq<Tag>, i: nat, j: nat)
    requires FirstTime(tags) <= i < |tags| && FirstTime(tags) <= j < |tags|
    ensures Shifted(tags)[FirstTime(tags)].timestamp == 0
    ensures SameModulo(Shifted(tags)[j].timestamp - Shifted(tags)[i].timestamp, tags[j].timestamp - tags[i].timestamp)
  {
  }

  /** Tag t at the timestamp that is left when z is subtracted, modulo 2^32. */
  predicate IsShifted(t: Tag, z: U32, s: Tag) {
    s.kind == t.kind && s.data == t.data && s.timestamp == (t.timestamp - z) % 4294967296
  }

  /** The tags with the timestamps that a subscriber gets: those of timestamp 0 come first as they are; from the first
      other one on, at position z, that one's timestamp is subtracted from all, modulo 2^32. */
  predicate ShiftedFrom(tags: seq<Tag>, z: nat, s: seq<Tag>) {
    && |s| == |tags| && z <= |tags|
    && (z < |tags| ==> tags[z].timestamp != 0)
    && (forall i :: 0 <= i < z ==> tags[i].timestamp == 0 && s[i] == tags[i])
    && (forall i :: z <= i < |tags| ==> IsShifted(tags[i], tags[z].timestamp, s[i]))
  }

  lemma FirstTimeMeans(tags: seq<Tag>)
    ensures forall i :: 0 <= i < FirstTime(tags) ==> tags[i].timestamp == 0
  {
  }

  lemma ShiftIs(t: Tag, z: U32)
    ensures IsShifted(t, z, t.(timestamp := SubU32(t.timestamp, z)))
  {
    Subtracts(t.timestamp, z);
  }

  lemma ShiftedMeans(tags: seq<Tag>)
    ensures ShiftedFrom(tags, FirstTime(tags), Shifted(tags))
  {
    var z := FirstTime(tags);
    FirstTimeMeans(tags);
    forall i | z <= i < |tags| ensures IsShifted(tags[i], tags[z].timestamp, Shifted(tags)[i]) {
      ShiftIs(tags[i], tags[z].timestamp);
    }
  }

  //
  // The catch-up, by the positions of its tags
  //

  /** The position of the last sequence header. */
  function HeaderAt(tags: seq<Tag>): (i: Option<nat>)
    ensures i.Some? ==> i.value < |tags|
  {
    if tags == [] then None
    else if IsHeader(tags[|tags| - 1]) then Some(|tags| - 1)
    else HeaderAt(tags[..|tags| - 1])
  }

  /** The position of the last key frame. */
  function KeyFrameAt(tags: seq<Tag>): (i: Option<nat>)
    ensures i.Some? ==> i.value < |tags|
  {
    if tags == [] then None
    else if IsKeyFrame(tags[|tags| - 1]) then Some(|tags| - 1)
    else KeyFrameAt(tags[..|tags| - 1])
  }

  function At(tags: seq<Tag>, i: Option<nat>): seq<Tag>
    requires i.Some? ==> i.value < |tags|
  {
    if i.Some? then [tags[i.value]] else []
  }

  lemma {:induction false} CatchUpIs(tags: seq<Tag>)
    ensures var c := LastOf(tags);
            Cached(c.avcSeqHeader) == At(tags, HeaderAt(tags)) && Cached(c.lastKeyFrame) == At(tags, KeyFrameAt(tags))
  {
    if tags != [] { CatchUpIs(tags[..|tags| - 1]); }
  }

  /** The last tag that is a sequence header or a key frame is both. */
  predicate LastIsBoth(tags: seq<Tag>, i: nat) {
    && i < |tags| && IsHeader(tags[i]) && IsKeyFrame(tags[i])
    && forall j :: i < j < |tags| ==> !IsHeader(tags[j]) && !IsKeyFrame(tags[j])
  }

  lemma {:induction false} SameIff(tags: seq<Tag>)
    ensures HeaderAt(tags).Some? && HeaderAt(tags) == KeyFrameAt(tags) <==> exists i: nat :: LastIsBoth(tags, i)
  {
    if tags != [] {
      var n := |tags| - 1;
      SameIff(tags[..n]);
      if !IsHeader(tags[n]) && !IsKeyFrame(tags[n]) {
        forall i: nat ensures LastIsBoth(tags, i) == LastIsBoth(tags[..n], i) {}
      } else if IsHeader(tags[n]) && IsKeyFrame(tags[n]) {
        assert LastIsBoth(tags, n);
      } else {
        forall i: nat ensures !LastIsBoth(tags, i) { assert i < n ==> i < n < |tags|; }
      }
    }
  }

  /** What the catch-up delivers. */
  function CaughtUp(known: seq<Tag>): seq<Tag> {
    At(known, HeaderAt(known)) + At(known, KeyFrameAt(known))
  }

  /** What was published when the first video tag of `heard` came, itself included. */
  function KnownThen(before: seq<Tag>, heard: seq<Tag>): seq<Tag>
    requires FirstVideo(heard) < |heard|
  {
    before + heard[..FirstVideo(heard) + 1]
  }

  lemma DueIs(before: seq<Tag>, heard: seq<Tag>)
    requires FirstVideo(heard) < |heard|
    ensures Due(before, heard) == Replaced(heard, FirstVideo(heard), CaughtUp(KnownThen(before, heard)))
  {
    CatchUpIs(KnownThen(before, heard));
  }

  /** No tag from position i on is a video tag with a sequence header, or is one with a key frame. */
  predicate NoHeaderFrom(tags: seq<Tag>, i: nat) {
    forall j :: i <= j < |tags| ==> !(tags[j].kind.Video? && tags[j].kind.sequenceHeader)
  }

  predicate NoKeyFrameFrom(tags: seq<Tag>, i: nat) {
    forall j :: i <= j < |tags| ==> !(tags[j].kind.Video? && tags[j].kind.keyFrame)
  }

  /** The last of the tags that is a sequence header, if there is one. */
  predicate LastHeader(tags: seq<Tag>, i: nat, found: seq<Tag>) {
    if i < |tags|
    then found == [tags[i]] && tags[i].kind.Video? && tags[i].kind.sequenceHeader && NoHeaderFrom(tags, i + 1)
    else found == [] && NoHeaderFrom(tags, 0)
  }

  /** The last of the tags that is a key frame, if there is one. */
  predicate LastKeyFrame(tags: seq<Tag>, i: nat, found: seq<Tag>) {
    if i < |tags|
    then found == [tags[i]] && tags[i].kind.Video? && tags[i].kind.keyFrame && NoKeyFrameFrom(tags, i + 1)
    else found == [] && NoKeyFrameFrom(tags, 0)
  }

  lemma {:induction false} FindHeader(tags: seq<Tag>) returns (i: nat)
    ensures LastHeader(tags, i, At(tags, HeaderAt(tags)))
    ensures HeaderAt(tags) == if i < |tags| then Some(i) else None
  {
    i := 0;
    if tags != [] {
      var n := |tags| - 1;
      i := FindHeader(tags[..n]);
      if IsHeader(tags[n]) { i := n; } else if i == n { i := n + 1; }
    }
  }

  lemma {:induction false} FindKeyFrame(tags: seq<Tag>) returns (i: nat)
    ensures LastKeyFrame(tags, i, At(tags, KeyFrameAt(tags)))
    ensures KeyFrameAt(tags) == if i < |tags| then Some(i) else None
  {
    i := 0;
    if tags != [] {
      var n := |tags| - 1;
      i := FindKeyFrame(tags[..n]);
      if IsKeyFrame(tags[n]) { i := n; } else if i == n { i := n + 1; }
    }
  }

  lemma {:induction false} FirstVideoIs(tags: seq<Tag>, v: nat)
    requires v <= |tags| && (v < |tags| ==> tags[v].kind.Video?) && forall i :: 0 <= i < v ==> !tags[i].kind.Video?
    ensures FirstVideo(tags) == v
  {
    if v > 0 { FirstVideoIs(tags[1..], v - 1); }
  }

  lemma FourParts(a: seq<Tag>, b: seq<Tag>, c: seq<Tag>, d: seq<Tag>)
    ensures a + (b + c) + d == a + b + c + d
  {
  }

  /** What is due, without the functions that compute it: everything, if no video tag is heard; else in the place of
      the first one, at position v, the last sequence header and then the last key frame of all that was published by
      then. */
  lemma DueMeans(before: seq<Tag>, heard: seq<Tag>, v: nat)
    returns (h: nat, header: seq<Tag>, k: nat, keyFrame: seq<Tag>)
    requires v <= |heard| && (v < |heard| ==> heard[v].kind.Video?) && forall i :: 0 <= i < v ==> !heard[i].kind.Video?
    ensures v == |heard| ==> Due(before, heard) == heard
    ensures v < |heard| ==>
              && LastHeader(before + heard[..v + 1], h, header) && LastKeyFrame(before + heard[..v + 1], k, keyFrame)
              && Due(before, heard) == heard[..v] + header + keyFrame + heard[v + 1..]
  {
    FirstVideoIs(heard, v);
    h, header, k, keyFrame := 0, [], 0, [];
    if v < |heard| {
      var known := KnownThen(before, heard);
      DueIs(before, heard);
      h := FindHeader(known);
      k := FindKeyFrame(known);
      header, keyFrame := At(known, HeaderAt(known)), At(known, KeyFrameAt(known));
      FourParts(heard[..v], header, keyFrame, heard[v + 1..]);
    }
  }

  /** So, for every history and every subscriber in it, what it gets in terms of the published tags and their timestamps
      alone. If it hears no video tag, everything until it is closed; else everything up to the first one that it hears,
      at position v, then the last sequence header and the last key frame published by then, then what follows. */
  lemma SubscriberGets(earlier: seq<Event>, later: seq<Event>, v: nat)
    returns (h: nat, header: seq<Tag>, k: nat, keyFrame: seq<Tag>, z: nat)
    requires var heard := HeardBy(later, |Run(EMPTY, earlier).subs|);
             v <= |heard| && (v < |heard| ==> heard[v].kind.Video?) && forall i :: 0 <= i < v ==> !heard[i].kind.Video?
    ensures var i, subs := |Run(EMPTY, earlier).subs|, Run(EMPTY, earlier + [Join] + later).subs;
            var before, heard := Published(earlier), HeardBy(later, i);
            && i < |subs|
            && (v == |heard| ==> ShiftedFrom(heard, z, subs[i].got))
            && (v < |heard| ==>
                  && LastHeader(before + heard[..v + 1], h, header)
                  && LastKeyFrame(before + heard[..v + 1], k, keyFrame)
                  && ShiftedFrom(heard[..v] + header + keyFrame + heard[v + 1..], z, subs[i].got))
  {
    var before, heard := Published(earlier), HeardBy(later, |Run(EMPTY, earlier).subs|);
    RelayRefinement(earlier, later);
    h, header, k, keyFrame := DueMeans(before, heard, v);
    ShiftedMeans(Due(before, heard));
    z := FirstTime(Due(before, heard));
  }

  /** Whoever hears a video tag is delivered, in the place of the first, the last sequence header and the last key
      frame published by then. They are one and the same published tag, delivered twice, if and only if the last tag
      that is either is both. */
  lemma DeliveredTwiceIff(before: seq<Tag>, heard: seq<Tag>)
    requires FirstVideo(heard) < |heard|
    ensures var known := KnownThen(before, heard);
            && Due(before, heard) == Replaced(heard, FirstVideo(heard), CaughtUp(known))
            && (HeaderAt(known).Some? && HeaderAt(known) == KeyFrameAt(known) <==>
                  exists i: nat :: LastIsBoth(known, i))
  {
    DueIs(before, heard);
    SameIff(KnownThen(before, heard));
  }

  /** So it is already for one who joins before the first tag, if that is both. */
  lemma DeliveredTwice(t: Tag)
    requires IsHeader(t) && IsKeyFrame(t)
    ensures var subs := Run(EMPTY, [Join, Publish(t)]).subs;
            |subs| > 0 && subs[0].got == Shifted([t, t])
  {
    RelayRefinement([], [Publish(t)]);
    assert [] + [Join] + [Publish(t)] == [Join, Publish(t)];
    assert HeardBy([Publish(t)], 0) == [t] by { assert [Publish(t)][1..] == []; }
    DueIs([], [t]);
    assert KnownThen([], [t]) == [t];
    assert Replaced([t], 0, [t] + [t]) == [t, t];
  }

  //
  // The source's form
  //

  /** An flvtag.FlvTag; `data` is what is unread of its buffer. */
  class FlvTag {
    const kind: Kind
    var timestamp: U32
    var data: seq<Byte>

    constructor (t: Tag)
      ensures View() == t
    {
      kind, timestamp, data := t.kind, t.timestamp, t.data;
    }

    function View(): Tag
      reads this
    {
      Tag(kind, timestamp, data)
    }
  }

  method CloneView(flv: FlvTag) returns (v: FlvTag)
    ensures fresh(v) && v.View() == flv.View()
  {
    v := new FlvTag(flv.View());
  }

  class Sub {
    var initialized: bool
    var closed: bool
    var lastTimestamp: U32
    var got: seq<Tag>

    constructor ()
      ensures View() == NEWCOMER
    {
      initialized, closed, lastTimestamp, got := false, false, 0, [];
    }

    function View(): Listener
      reads this
    {
      Listener(initialized, closed, lastTimestamp, got)
    }

    /** onEvent. The tag is the subscriber's own: its timestamp is shifted and its callback reads it to the end. */
    method Receive(flv: FlvTag)
      modifies this`lastTimestamp, this`got, flv
      ensures View() == OnEvent(old(View()), old(flv.View()))
    {
      if closed { return; }
      if flv.timestamp != 0 && lastTimestamp == 0 {
        lastTimestamp := flv.timestamp;
      }
      flv.timestamp := SubU32(flv.timestamp, lastTimestamp);
      got := got + [flv.View()];
      flv.data := [];
    }

    /** One turn of Publish's loop over the subscribers. */
    method Offer(flv: FlvTag, avc: FlvTag?, key: FlvTag?)
      modifies this
      ensures View() == Hear(old(View()), flv.View(), Cache(ViewOf(avc), ViewOf(key)))
    {
      if flv.kind.Video? && !initialized {
        if avc != null {
          var v := CloneView(avc);
          Receive(v);
        }
        if key != null {
          var v := CloneView(key);
          Receive(v);
        }
        initialized := true;
      } else {
        var v := CloneView(flv);
        Receive(v);
      }
    }

    method Close()
      modifies this`closed
      ensures View() == old(View()).(closed := true)
    {
      closed := true;
    }
  }

  function ViewOf(t: FlvTag?): Option<Tag>
    reads t
  {
    if t == null then None else Some(t.View())
  }

  /** Pubsub with its Pub; `hub` is its state by value. */
  class Pubsub {
    var subs: seq<Sub>
    var avcSeqHeader: FlvTag?
    var lastKeyFrame: FlvTag?
    ghost var hub: Hub

    constructor ()
      ensures Valid() && hub == EMPTY
    {
      subs, avcSeqHeader, lastKeyFrame, hub := [], null, null, EMPTY;
    }

    ghost predicate Valid()
      reads this, subs, avcSeqHeader, lastKeyFrame
    {
      Apart() && Heard(hub.subs) && hub.cache == Cache(ViewOf(avcSeqHeader), ViewOf(lastKeyFrame))
    }

    ghost predicate Apart()
      reads this
    {
      forall i, j :: 0 <= i < j < |subs| ==> subs[i] != subs[j]
    }

    /** The subscribers are in these states. */
    ghost predicate Heard(ls: seq<Listener>)
      reads this, subs
    {
      |ls| == |subs| && forall i :: 0 <= i < |subs| ==> subs[i].View() == ls[i]
    }

    /** The published tag and the cached ones stay as they are: no tag is in the frame. */
    method Publish(flv: FlvTag)
      requires Valid()
      modifies this`avcSeqHeader, this`lastKeyFrame, this`hub, subs
      ensures Valid() && hub == Step(old(hub), Event.Publish(flv.View()))
    {
      if flv.kind.Video? {
        if flv.kind.sequenceHeader { avcSeqHeader := flv; }
        if flv.kind.keyFrame { lastKeyFrame := flv; }
      }
      OfferAll(flv);
    }

    /** Publish's loops over the subscribers. */
    method OfferAll(flv: FlvTag)
      requires Apart() && Heard(hub.subs)
      requires Remember(hub.cache, flv.View()) == Cache(ViewOf(avcSeqHeader), ViewOf(lastKeyFrame))
      modifies this`hub, subs
      ensures Valid() && hub == Step(old(hub), Event.Publish(flv.View()))
    {
      ghost var ls, t, hub' := hub.subs, flv.View(), Step(hub, Event.Publish(flv.View()));
      hub := hub';
      var n := 0;
      while n < |subs|
        invariant 0 <= n <= |subs| && hub == hub'
        invariant forall k :: 0 <= k < n ==> subs[k].View() == hub.subs[k]
        invariant forall k :: n <= k < |subs| ==> subs[k].View() == ls[k]
      {
        assert hub.subs[n] == Hear(ls[n], t, hub.cache);
        subs[n].Offer(flv, avcSeqHeader, lastKeyFrame);
        n := n + 1;
      }
    }

    method Subscribe() returns (sub: Sub)
      requires Valid()
      modifies this`subs, this`hub
      ensures Valid() && fresh(sub) && subs == old(subs) + [sub] && hub == Step(old(hub), Join)
    {
      sub := new Sub();
      subs := subs + [sub];
      hub := Step(hub, Join);
    }

    /** A subscriber's Close. */
    method Unsubscribe(i: nat)
      requires Valid() && i < |subs|
      modifies this`hub, {subs[i]}
      ensures Valid() && hub == Step(old(hub), Leave(i))
    {
      subs[i].Close();
      hub := Step(hub, Leave(i));
    }

    method Deregister()
      requires Valid()
      modifies this`hub, subs`closed
      ensures Valid() && hub == Step(old(hub), Event.Deregister)
    {
      ghost var ls, hub' := hub.subs, Step(hub, Event.Deregister);
      hub := hub';
      var n := 0;
      while n < |subs|
        invariant 0 <= n <= |subs| && hub == hub'
        invariant forall k :: 0 <= k < n ==> subs[k].View() == hub.subs[k]
        invariant forall k :: n <= k < |subs| ==> subs[k].View() == ls[k]
      {
        assert hub.subs[n] == ls[n].(closed := true);
        subs[n].Close();
        n := n + 1;
      }
    }
  }
}
