/** The table of message streams of a connection: create, create with the least free id, delete. */
module Streams {
  import opened Bytes

  /** streamState; Unset is a stream whose handler is not assigned yet. */
  datatype State = Unset | NotConnected | Connected | Inactive | Publishing | Playing

  type Table = map<U32, State>

  /** How many streams CreateIfAvailable may create: ids are uint32 values. */
  function Room(max: int): nat {
    if max <= 0 then 0 else if max < 0x1_0000_0000 then max else 0x1_0000_0000
  }

  /** A table of n streams has no room exactly at the limit, or when it has as many as there are ids. */
  lemma RoomIs(max: int, n: nat)
    ensures n >= Room(max) <==> n >= max || n >= 4294967296
  {
  }

  /** All ids below n are in use. */
  ghost predicate Taken(t: Table, n: int) {
    forall k: U32 :: k < n ==> k in t
  }

  ghost predicate Least(t: Table, id: U32) {
    id !in t && Taken(t, id)
  }

  /** n ids in use need a table of n entries, whichever others there are. */
  lemma TryNext(t: Table, i: nat)
    requires Taken(t, i)
    ensures if i % 0x1_0000_0000 in t then Taken(t, i + 1) else Least(t, i % 0x1_0000_0000)
  {
    assert i < 0x1_0000_0000 ==> i % 0x1_0000_0000 == i;
  }

  lemma {:induction false} Pigeonhole(ids: set<U32>, n: nat)
    requires n <= 0x1_0000_0000 && forall k: U32 :: k < n ==> k in ids
    ensures |ids| >= n
  {
    if n > 0 {
      var last: U32 := n - 1;
      Pigeonhole(ids - {last}, n - 1);
      assert |ids| == |ids - {last}| + 1;
    }
  }

  lemma LeastExists(t: Table)
    requires |t| < 0x1_0000_0000
    ensures exists id: U32 :: Least(t, id)
  {
    assert |t| == |t.Keys|;
    if Taken(t, 0x1_0000_0000) { Pigeonhole(t.Keys, 0x1_0000_0000); }
    var i: nat := 0;
    while i in t
      invariant i < 0x1_0000_0000 && Taken(t, i)
      decreases 0x1_0000_0000 - i
    {
      TryNext(t, i);
      i := i + 1;
    }
    assert Least(t, i);
  }

  ghost function LeastFree(t: Table): (id: U32)
    requires |t| < 0x1_0000_0000
    ensures Least(t, id) && forall k: U32 :: Least(t, k) ==> k == id
  {
    LeastExists(t);
    var id: U32 :| Least(t, id);
    id
  }

  lemma {:induction false} AtMostAsManyIds(ids: set<U32>, n: nat)
    requires n <= 0x1_0000_0000 && forall k :: k in ids ==> k < n
    ensures |ids| <= n
  {
    if n == 0 {
      assert ids == {};
    } else {
      var rest := set k | k in ids && k < n - 1;
      AtMostAsManyIds(rest, n - 1);
      assert ids <= rest + {n - 1};
      AddOne(ids, rest, n - 1);
    }
  }

  lemma AddOne(ids: set<U32>, rest: set<U32>, last: U32)
    requires rest <= ids <= rest + {last}
    ensures |ids| <= |rest| + 1
  {
    assert ids == rest || (ids - {last} == rest && last in ids);
  }

  /** The table has room for one more exactly when its limit allows one and an id is free. */
  lemma HasRoom(t: Table, max: int, id: U32)
    requires |t| < max && id !in t
    ensures |t| < Room(max)
  {
    AtMostAsManyIds(t.Keys + {id}, 0x1_0000_0000);
    assert |t| == |t.Keys| && |t.Keys + {id}| == |t.Keys| + 1;
  }

  lemma Crowded(t: Table, max: int)
    requires |t| >= max || Taken(t, max)
    ensures |t| >= Room(max)
  {
    assert |t| == |t.Keys|;
    if |t| < max { Pigeonhole(t.Keys, Room(max)); }
  }

  lemma Shrinks(t: Table, id: U32)
    requires id in t
    ensures |t - {id}| == |t| - 1
  {
    assert (t - {id}).Keys == t.Keys - {id};
    assert |t| == |t.Keys| && |t - {id}| == |(t - {id}).Keys|;
  }

  /** stream.go, with the handler state of stream_handler.go. */
  class Stream {
    const streamID: U32
    var state: State

    constructor (streamID: U32)
      ensures this.streamID == streamID && state == Unset
    {
      this.streamID, state := streamID, Unset;
    }
  }

  /** streams.go; `table` is the table by value. */
  class StreamTable {
    const max: int
    var streams: map<U32, Stream>
    ghost var table: Table
    ghost var repr: set<Stream>

    constructor (max: int)
      ensures Valid() && fresh(repr) && table == map[] && this.max == max
    {
      this.max := max;
      streams, table, repr := map[], map[], {};
    }

    /** Every key is its stream's id, and the limit is kept. */
    ghost predicate Valid()
      reads this, repr
    {
      && streams.Keys == table.Keys
      && (forall id :: id in streams ==>
            streams[id] in repr && streams[id].streamID == id && streams[id].state == table[id])
      && (table == map[] || |table| <= max)
    }

    /** null when the id is taken or the limit reached. */
    method Create(streamID: U32) returns (s: Stream?)
      requires Valid()
      modifies this
      ensures Valid()
      ensures s == null <==> streamID in old(table) || |old(table)| >= max
      ensures s == null ==> table == old(table) && streams == old(streams) && repr == old(repr)
      ensures s != null ==>
                && s.streamID == streamID && fresh(s) && repr == old(repr) + {s}
                && table == old(table)[streamID := Unset] && streams == old(streams)[streamID := s]
    {
      assert |streams| == |streams.Keys| && |table| == |table.Keys|;
      if streamID in streams { return null; }
      if |streams| >= max { return null; }
      s := new Stream(streamID);
      streams := streams[streamID := s];
      repr := repr + {s};
      table := table[streamID := Unset];
      assert |table| == |old(table)| + 1;
    }

    /** Succeeds exactly while fewer streams than the limit are live, whatever their ids, and then takes the
        least free id. */
    method CreateIfAvailable() returns (s: Stream?)
      requires Valid()
      modifies this
      ensures Valid()
      ensures s == null <==> |old(table)| >= max || |old(table)| >= 0x1_0000_0000
      ensures s == null ==> table == old(table) && streams == old(streams) && repr == old(repr)
      ensures s != null ==>
                && Least(old(table), s.streamID) && fresh(s) && repr == old(repr) + {s}
                && table == old(table)[s.streamID := Unset] && streams == old(streams)[s.streamID := s]
    {
      var i := 0;
      while i < max
        invariant 0 <= i && (i <= max || i == 0) && Valid()
        invariant table == old(table) && streams == old(streams) && repr == old(repr)
        invariant |table| < max ==> Taken(table, i)
      {
        if |table| < max { TryNext(table, i); }
        s := Create(i % 0x1_0000_0000);
        if s != null {
          HasRoom(old(table), max, s.streamID);
          return;
        }
        i := i + 1;
      }
      Crowded(table, max);
      s := null;
    }

    method Delete(streamID: U32) returns (ok: bool)
      requires Valid()
      modifies this
      ensures Valid() && repr == old(repr)
      ensures ok <==> streamID in old(table)
      ensures table == old(table) - {streamID} && streams == old(streams) - {streamID}
    {
      if streamID !in streams {
        assert table - {streamID} == table && streams - {streamID} == streams;
        return false;
      }
      streams := streams - {streams[streamID].streamID};
      Shrinks(table, streamID);
      table := table - {streamID};
      ok := true;
    }

    method At(streamID: U32) returns (s: Stream?)
      requires Valid()
      ensures s == null <==> streamID !in table
      ensures s != null ==> s in repr && s.streamID == streamID && s.state == table[streamID] && streams[streamID] == s
    {
      assert streamID in streams.Keys <==> streamID in table.Keys;
      s := if streamID in streams then streams[streamID] else null;
    }

    /** ChangeState of a stream of the table; Unset is refused silently. */
    method ChangeState(s: Stream, state: State)
      requires Valid() && s.streamID in table && streams[s.streamID] == s
      modifies this`table, s`state
      ensures Valid() && table == if state == Unset then old(table) else old(table)[s.streamID := state]
    {
      if state == Unset { return; }
      s.state := state;
      table := table[s.streamID := state];
      assert |table| == |table.Keys| && |old(table)| == |old(table).Keys| && table.Keys == old(table).Keys;
    }
  }
}
