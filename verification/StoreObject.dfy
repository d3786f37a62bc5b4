/**
 * The store as the object that changes its two tables in place; each method is one transaction, or
 * for LoadRoomState two queries, of sqlite.go.
 */
module StoreObject {
  import opened Base
  import opened Options
  import opened Timestamps
  import opened UpdateLog
  import opened Compaction

  class Store {
    var rooms: map<RoomId, Row>
    var updates: map<(RoomId, nat), Blob>

    constructor ()
      ensures Contents() == EMPTY_TABLES
    {
      rooms, updates := map[], map[];
    }

    ghost function Contents(): Tables
      reads this
    {
      Tables(rooms, updates)
    }

    /** 106-138 */
    method Ensure(r: RoomId, hash: KeyHash, now: Time) returns (out: Outcome<()>)
      modifies this
      ensures (Contents(), out) == EnsureRoom(old(Contents()), r, hash, now)
    {
      if r in rooms {
        if rooms[r].closedAt.Some? { return Failed(RoomClosed); }
        if rooms[r].keyHash != hash { return Failed(KeyMismatch); }
        rooms := rooms[r := rooms[r].(updatedAt := Format(now))];
        return Done(());
      }
      rooms := rooms[r := Row(hash, None, 0, Format(now), None, 0, 0)];
      return Done(());
    }

    /** 163-187 */
    method Append(r: RoomId, update: Blob, now: Time) returns (out: Outcome<nat>)
      modifies this
      ensures (Contents(), out) == AppendUpdate(old(Contents()), r, update, now)
    {
      if r !in rooms { return Failed(NoSuchRoom); }
      var row := rooms[r];
      var number := row.updateSeq;
      if row.closedAt.Some? { return Failed(RoomClosed); }
      number := number + 1;
      if (r, number) in updates { return Failed(Conflict); }
      updates := updates[(r, number) := update];
      rooms := rooms[r := row.(updateSeq := number, storageBytes := row.storageBytes + |update|,
                               updateCount := row.updateCount + 1, updatedAt := Format(now))];
      return Done(number);
    }

    /** 189-214 */
    method Save(r: RoomId, state: Blob, baseSeq: int, now: Time) returns (out: Outcome<()>)
      modifies this
      ensures (Contents(), out) == SaveSnapshot(old(Contents()), r, state, baseSeq, now)
    {
      if r !in rooms || rooms[r].closedAt.Some? { return Failed(RoomClosed); }
      rooms := rooms[r := rooms[r].(compact := Some(state), storageBytes := |state|, updateCount := 0, updatedAt := Format(now))];
      if baseSeq > 0 {
        updates := map key | key in updates && !(key.0 == r && key.1 <= baseSeq) :: updates[key];
      } else {
        updates := map key | key in updates && key.0 != r :: updates[key];
      }
      assert updates == SaveSnapshot(old(Contents()), r, state, baseSeq, now).0.updates;
      return Done(());
    }

    /** 216-220 */
    method Close(r: RoomId, now: Time)
      modifies this
      ensures Contents() == CloseRoom(old(Contents()), r, now)
    {
      if r in rooms && rooms[r].closedAt.None? {
        rooms := rooms[r := rooms[r].(closedAt := Some(Format(now)), updatedAt := Format(now))];
      }
    }

    /** 246-267: the children first, then the rooms. */
    method Cleanup(cutoff: Time) returns (deleted: nat)
      modifies this
      ensures Contents() == DeleteInactiveRooms(old(Contents()), cutoff)
      ensures deleted == |old(rooms)| - |rooms|
    {
      var cutoffStr := Format(cutoff);
      var idle := set r | r in rooms && Less(rooms[r].updatedAt, cutoffStr);
      updates := map key | key in updates && key.0 !in idle :: updates[key];
      var before := rooms;
      rooms := map r | r in rooms && r !in idle :: rooms[r];
      assert rooms.Keys <= before.Keys && rooms.Keys == before.Keys - idle;
      SmallerKeys(before, rooms);
      deleted := |before| - |rooms|;
    }

    /** 148-160: the second query, rows in ascending order, appended one by one. */
    method ReadUpdates(r: RoomId) returns (us: seq<(nat, Blob)>)
      ensures Dump(Contents(), r, us)
    {
      us := [];
      var keys := set key | key in updates && key.0 == r :: key.1;
      var todo := keys;
      while todo != {}
        invariant todo <= keys
        invariant forall i, j :: 0 <= i < j < |us| ==> us[i].0 < us[j].0
        invariant forall i :: 0 <= i < |us| ==> us[i].0 in keys && us[i].0 !in todo && updates[(r, us[i].0)] == us[i].1
        invariant forall k :: k in keys && k !in todo ==> Lists(us, k)
        invariant forall i, k :: 0 <= i < |us| && k in todo ==> us[i].0 < k
        decreases todo
      {
        var next := Smallest(todo);
        ListsMore(us, (next, updates[(r, next)]));
        us := us + [(next, updates[(r, next)])];
        todo := todo - {next};
      }
      forall k: nat | (r, k) in updates ensures Lists(us, k) {
        assert (r, k).0 == r && k in keys;
      }
    }

    /** 140-161, with nothing in between the two queries. */
    method LoadRoomState(r: RoomId) returns (compact: Option<Blob>, us: seq<(nat, Blob)>)
      ensures compact == if r in rooms then rooms[r].compact else None
      ensures Dump(Contents(), r, us)
    {
      compact := None;
      if r in rooms { compact := rooms[r].compact; }
      us := ReadUpdates(r);
    }
  }

  ghost predicate Lists(us: seq<(nat, Blob)>, k: nat) {
    exists i :: 0 <= i < |us| && us[i].0 == k
  }

  lemma ListsMore(us: seq<(nat, Blob)>, u: (nat, Blob))
    ensures forall k :: Lists(us, k) ==> Lists(us + [u], k)
    ensures Lists(us + [u], u.0)
  {
    forall k | Lists(us, k) ensures Lists(us + [u], k) {
      var i :| 0 <= i < |us| && us[i].0 == k;
      assert (us + [u])[i].0 == k;
    }
    assert (us + [u])[|us|].0 == u.0;
  }

  lemma SmallerKeys(a: map<RoomId, Row>, b: map<RoomId, Row>)
    requires b.Keys <= a.Keys
    ensures |b| <= |a|
  {
    var rest := a.Keys - b.Keys;
    assert a.Keys == b.Keys + rest;
    assert |a| == |a.Keys| && |b| == |b.Keys|;
  }

  /** ORDER BY seq ASC: the least number still to be returned. */
  method Smallest(s: set<nat>) returns (m: nat)
    requires s != {}
    ensures m in s && forall k :: k in s ==> m <= k
  {
    m :| m in s;
    var todo := s - {m};
    while todo != {}
      invariant todo <= s && m in s
      invariant forall k :: k in s && k !in todo ==> m <= k
      decreases todo
    {
      var k :| k in todo;
      todo := todo - {k};
      if k < m { m := k; }
    }
  }
}
