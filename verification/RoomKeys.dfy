/**
 * Rooms and their keys.  A client shows its key to EnsureRoom (519-528), enters a Room object later, and
 * stays as long as it likes; meanwhile the row that holds the key's hash may be deleted and made anew.
 * Does everyone in a room hold the key its row was made with?
 */
module RoomKeys {
  import opened Base
  import opened Options
  import opened Timestamps
  import opened UpdateLog
  import opened Membership
  import opened MembershipStructure
  import opened HubRegistry
  import opened RoomRows

  /** Looking in, waiting, or admitted and not yet gone. */
  predicate Around(pc: PC) {
    pc.Arrived? || pc.Knocking? || pc.Inside?
  }

  predicate InRoom(h: Hub, ref: Ref, c: Conn) {
    ref in h.objects && c in h.objects[ref].sys.conns && Around(h.objects[ref].sys.conns[c].pc)
  }

  /** r's row, if there is one, was made with this key. */
  predicate KeyOf(t: Tables, r: RoomId, key: KeyHash) {
    r in t.rooms ==> t.rooms[r].keyHash == key
  }

  predicate PassedAt(v: Server, c: Conn, r: RoomId) {
    (c, r) in v.passed ==> KeyOf(v.tables, r, v.passed[(c, r)])
  }

  predicate HeldAt(v: Server, ref: Ref, c: Conn) {
    InRoom(v.hub, ref, c) ==> (ref, c) in v.keys && KeyOf(v.tables, v.hub.objects[ref].roomID, v.keys[(ref, c)])
  }

  /** Whoever passed EnsureRoom or is in a room showed the key that the room's row was made with. */
  ghost predicate KeysFit(v: Server) {
    && (forall c, r :: PassedAt(v, c, r))
    && (forall ref, c :: HeldAt(v, ref, c))
  }

  /** The EnsureRoom that an event comes to. */
  function Ensures(e: ServerEvent): Option<Tx> {
    match e
    case PassEnsure(_, r, hash, now) => Some(Ensure(r, hash, now))
    case Store(tx) => if tx.Ensure? then Some(tx) else None
    case _ => None
  }

  /** e makes r's row, with another key than this one. */
  predicate MakesAnother(v: Server, e: ServerEvent, r: RoomId, key: KeyHash) {
    Ensures(e).Some? && Ensures(e).value.room == r && r !in v.tables.rooms && Ensures(e).value.hash != key
  }

  predicate PassedFits(v: Server, e: ServerEvent, c: Conn, r: RoomId) {
    (c, r) in v.passed && !(e.PassEnsure? && e.c == c && e.r == r) ==> !MakesAnother(v, e, r, v.passed[(c, r)])
  }

  predicate HeldFits(v: Server, e: ServerEvent, ref: Ref, c: Conn) {
    InRoom(v.hub, ref, c) && (ref, c) in v.keys ==> !MakesAnother(v, e, v.hub.objects[ref].roomID, v.keys[(ref, c)])
  }

  /** No row is made with another key than those hold who passed EnsureRoom for that room or are in it. */
  ghost predicate FitsKeys(v: Server, e: ServerEvent) {
    && (forall c, r :: PassedFits(v, e, c, r))
    && (forall ref, c :: HeldFits(v, e, ref, c))
  }

  // ---------------------------------------------------------------- one step

  /** A transaction changes the key of no row; only Ensure makes one. */
  lemma KeyAfter(t: Tables, tx: Tx, r: RoomId)
    requires r in Apply(t, tx).rooms
    ensures
      if r in t.rooms then Apply(t, tx).rooms[r].keyHash == t.rooms[r].keyHash
      else tx.Ensure? && tx.room == r && Apply(t, tx).rooms[r].keyHash == tx.hash
  {}

  lemma EnsureMakes(t: Tables, r: RoomId, hash: KeyHash, now: Time)
    requires r !in t.rooms
    ensures var t' := EnsureRoom(t, r, hash, now).0; r in t'.rooms && t'.rooms[r].keyHash == hash
  {}

  /** Nobody comes back into a room it was turned away from or left. */
  lemma AroundBefore(s: Sys, e: Event, c: Conn)
    requires Enabled(s, e) && !e.Arrive? && c in Step(s, e).conns && Around(Step(s, e).conns[c].pc)
    ensures c in s.conns && Around(s.conns[c].pc)
  {
    SameConns(s, e, c);
    if Actor(e) != Some(c) {
      OthersStay(s, e, c);
    } else if e.Leave? {
      LeaveEffect(s, c, e.heir, e.missed);
    }
  }

  /** The only one a step of the hub brings into a room is the one that looks it up. */
  lemma InRoomBefore(h: Hub, ev: HubEvent, ref: Ref, c: Conn)
    requires HubEnabled(h, ev) && InRoom(HubStep(h, ev), ref, c)
    ensures InRoom(h, ref, c) || (ev.LookUp? && c == ev.c && ref == Found(h, ev.roomID, ev.unused))
    ensures ref in h.objects ==> HubStep(h, ev).objects[ref].roomID == h.objects[ref].roomID
  {
    if ev.Local? && ref == ev.ref { AroundBefore(h.objects[ref].sys, ev.e, c); }
  }

  lemma FoundRoom(h: Hub, ev: HubEvent)
    requires HubOk(h) && HubEnabled(h, ev) && ev.LookUp?
    ensures
      var ref := Found(h, ev.roomID, ev.unused);
      ref in HubStep(h, ev).objects ==> HubStep(h, ev).objects[ref].roomID == ev.roomID
  {}

  lemma HubKeys(v: Server, ev: HubEvent)
    requires HubOk(v.hub) && KeysFit(v) && ServerEnabled(v, InHub(ev))
    ensures KeysFit(ServerStep(v, InHub(ev)))
  {
    var v' := ServerStep(v, InHub(ev));
    forall c, r ensures PassedAt(v', c, r) { assert PassedAt(v, c, r); }
    forall ref, c ensures HeldAt(v', ref, c) {
      assert HeldAt(v, ref, c);
      if InRoom(v'.hub, ref, c) {
        InRoomBefore(v.hub, ev, ref, c);
        if ev.LookUp? && c == ev.c && ref == Found(v.hub, ev.roomID, ev.unused) {
          FoundRoom(v.hub, ev);
          assert PassedAt(v, c, ev.roomID);
        }
      }
    }
  }

  /** The row of r after an event that is an Ensure. */
  lemma KeyAfterEnsure(v: Server, e: ServerEvent, r: RoomId, key: KeyHash)
    requires ServerEnabled(v, e) && Ensures(e).Some? && KeyOf(v.tables, r, key)
    ensures KeyOf(ServerStep(v, e).tables, r, key) <==> !MakesAnother(v, e, r, key)
  {
    if r in v.tables.rooms {
      if r in ServerStep(v, e).tables.rooms { KeyAfter(v.tables, Ensures(e).value, r); }
    } else if r == Ensures(e).value.room {
      EnsureMakes(v.tables, r, Ensures(e).value.hash, Ensures(e).value.now);
    }
  }

  lemma PassedKeyKept(v: Server, e: ServerEvent, c: Conn, r: RoomId)
    requires PassedAt(v, c, r) && ServerEnabled(v, e) && Ensures(e).Some?
    ensures PassedAt(ServerStep(v, e), c, r) <==> PassedFits(v, e, c, r)
  {
    if e.PassEnsure? && e.c == c && e.r == r {
      assert KeyOf(ServerStep(v, e).tables, r, e.hash);
    } else if (c, r) in v.passed {
      KeyAfterEnsure(v, e, r, v.passed[(c, r)]);
    }
  }

  lemma HeldKeyKept(v: Server, e: ServerEvent, ref: Ref, c: Conn)
    requires HeldAt(v, ref, c) && ServerEnabled(v, e) && Ensures(e).Some?
    ensures HeldAt(ServerStep(v, e), ref, c) <==> HeldFits(v, e, ref, c)
  {
    if InRoom(v.hub, ref, c) { KeyAfterEnsure(v, e, v.hub.objects[ref].roomID, v.keys[(ref, c)]); }
  }

  lemma OtherKeys(v: Server, e: ServerEvent)
    requires KeysFit(v) && ServerEnabled(v, e) && !e.InHub? && Ensures(e).None?
    ensures KeysFit(ServerStep(v, e)) && FitsKeys(v, e)
  {
    var v' := ServerStep(v, e);
    forall c, r ensures PassedAt(v', c, r) {
      assert PassedAt(v, c, r);
      if e.Store? && r in v'.tables.rooms { KeyAfter(v.tables, e.tx, r); }
    }
    forall ref, c ensures HeldAt(v', ref, c) {
      assert HeldAt(v, ref, c);
      if e.Store? && InRoom(v.hub, ref, c) && v.hub.objects[ref].roomID in v'.tables.rooms {
        KeyAfter(v.tables, e.tx, v.hub.objects[ref].roomID);
      }
    }
  }

  /** A step keeps everyone's key right exactly when it makes no row with another key than theirs. */
  lemma KeysStepIff(v: Server, e: ServerEvent)
    requires HubOk(v.hub) && KeysFit(v) && ServerEnabled(v, e)
    ensures KeysFit(ServerStep(v, e)) <==> FitsKeys(v, e)
  {
    if Ensures(e).Some? {
      forall c, r ensures PassedAt(ServerStep(v, e), c, r) <==> PassedFits(v, e, c, r) {
        assert PassedAt(v, c, r);
        PassedKeyKept(v, e, c, r);
      }
      forall ref, c ensures HeldAt(ServerStep(v, e), ref, c) <==> HeldFits(v, e, ref, c) {
        assert HeldAt(v, ref, c);
        HeldKeyKept(v, e, ref, c);
      }
    } else if e.InHub? {
      HubKeys(v, e.ev);
    } else {
      OtherKeys(v, e);
    }
  }

  // ---------------------------------------------------------------- all runs

  ghost predicate KeysFitThroughout(v: Server, es: seq<ServerEvent>)
    requires ServerRuns(v, es)
    decreases |es|
  {
    KeysFit(v) && (es == [] || KeysFitThroughout(ServerStep(v, es[0]), es[1..]))
  }

  ghost predicate AllFitKeys(v: Server, es: seq<ServerEvent>)
    requires ServerRuns(v, es)
    decreases |es|
  {
    es == [] || (FitsKeys(v, es[0]) && AllFitKeys(ServerStep(v, es[0]), es[1..]))
  }

  lemma {:induction false} KeysThroughoutIff(v: Server, es: seq<ServerEvent>)
    requires HubOk(v.hub) && KeysFit(v) && ServerRuns(v, es)
    ensures KeysFitThroughout(v, es) <==> AllFitKeys(v, es)
    decreases |es|
  {
    if es != [] {
      KeysStepIff(v, es[0]);
      if es[0].InHub? { HubOkStep(v.hub, es[0].ev); }
      if FitsKeys(v, es[0]) { KeysThroughoutIff(ServerStep(v, es[0]), es[1..]); }
    }
  }

  /**
   * Of all runs of rooms and store together, exactly those have everyone in a room hold the key its row
   * was made with, in every state, that never make a row anew with another key than those hold who are
   * in the room or about to enter it.
   */
  lemma {:induction false} EveryoneHoldsTheKeyThroughoutIff(maxRooms: nat, limit: nat, es: seq<ServerEvent>)
    requires ServerRuns(ServerInit(maxRooms, limit), es)
    ensures KeysFitThroughout(ServerInit(maxRooms, limit), es) <==> AllFitKeys(ServerInit(maxRooms, limit), es)
  {
    KeysThroughoutIff(ServerInit(maxRooms, limit), es);
  }

  /** An idle room's row is cleaned up. */
  lemma RowCleaned(v: Server, r: RoomId, cutoff: Time) returns (v': Server)
    requires ServerReachable(v) && r in v.tables.rooms && Less(v.tables.rooms[r].updatedAt, Format(cutoff))
    ensures ServerReachable(v') && v' == v.(tables := v'.tables) && r !in v'.tables.rooms
  {
    v' := ServerReach(v, Store(Cleanup(cutoff)));
  }

  lemma RowRemade(v: Server, r: RoomId, c: Conn, hash: KeyHash, now: Time) returns (v': Server)
    requires ServerReachable(v) && r !in v.tables.rooms
    ensures ServerReachable(v') && v'.hub == v.hub && v'.keys == v.keys && v'.closers == v.closers && v'.closing == v.closing
    ensures OpenRoom(v'.tables, r) && v'.tables.rooms[r].keyHash == hash
  {
    v' := ServerReach(v, PassEnsure(c, r, hash, now));
  }

  /** An idle room's row is cleaned up and made anew with another key, and its host is still in it. */
  lemma RowRemadeWithAnotherKey(r: RoomId, hash: KeyHash, hash': KeyHash, now: Time, cutoff: Time, a: Id)
    requires hash != hash' && Less(Format(now), Format(cutoff))
    ensures exists v, ref: Ref, c: Conn ::
      && ServerReachable(v) && InRoom(v.hub, ref, c) && IsMember(v.hub.objects[ref].sys, c)
      && v.hub.objects[ref].roomID == r && KeyOf(v.tables, r, hash') && r in v.tables.rooms
      && (ref, c) in v.keys && v.keys[(ref, c)] == hash
  {
    var v1 := RoomBegun(r, hash, now, a);
    var v2 := RowCleaned(v1, r, cutoff);
    var v := RowRemade(v2, r, 2, hash', now);
    assert a in v.hub.objects[0].sys.clients;
    assert InRoom(v.hub, 0, 0) && IsMember(v.hub.objects[0].sys, 0);
  }
}
