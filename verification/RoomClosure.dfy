/**
 * Closing across the layers: a Room object closes under its own lock, its row is closed later by the
 * connection whose leave closed it (785-796), and a closed row is to stay closed.
 */
module RoomClosure {
  import opened Base
  import opened Options
  import opened Timestamps
  import opened UpdateLog
  import opened Membership
  import opened MembershipStructure
  import opened HubRegistry
  import opened RoomRows
  import opened RoomKeys

  predicate IsClosed(h: Hub, ref: Ref) {
    ref in h.objects && h.objects[ref].sys.closed
  }

  predicate ClosedAs(h: Hub, ref: Ref, r: RoomId) {
    IsClosed(h, ref) && h.objects[ref].roomID == r
  }

  /** Some Room object of this id has closed. */
  ghost predicate SomeClosed(h: Hub, r: RoomId) {
    exists ref :: ClosedAs(h, ref, r)
  }

  // ---------------------------------------------------------------- no row closes by itself

  predicate RowClosed(t: Tables, r: RoomId) {
    r in t.rooms && t.rooms[r].closedAt.Some?
  }

  ghost predicate CloserAt(v: Server, ref: Ref, c: Conn) {
    (ref, c) in v.closers ==> IsClosed(v.hub, ref)
  }

  ghost predicate ClosingAt(v: Server, c: Conn, r: RoomId) {
    (c, r) in v.closing ==> SomeClosed(v.hub, r)
  }

  ghost predicate ClosedAt(v: Server, r: RoomId) {
    RowClosed(v.tables, r) ==> SomeClosed(v.hub, r)
  }

  ghost predicate ClosedForAReason(v: Server) {
    && (forall ref, c :: CloserAt(v, ref, c))
    && (forall c, r :: ClosingAt(v, c, r))
    && (forall r :: ClosedAt(v, r))
  }

  /** Room objects stay, and stay closed. */
  lemma ClosedStays(h: Hub, ev: HubEvent, ref: Ref)
    requires HubEnabled(h, ev) && ref in h.objects
    ensures ref in HubStep(h, ev).objects && HubStep(h, ev).objects[ref].roomID == h.objects[ref].roomID
    ensures h.objects[ref].sys.closed ==> HubStep(h, ev).objects[ref].sys.closed
  {
    if ev.Local? && ev.ref == ref && ev.e.Leave? {
      LeaveEffect(h.objects[ref].sys, ev.e.c, ev.e.heir, ev.e.missed);
    }
  }

  lemma SomeClosedStays(h: Hub, ev: HubEvent, r: RoomId)
    requires HubEnabled(h, ev) && SomeClosed(h, r)
    ensures SomeClosed(HubStep(h, ev), r)
  {
    var ref :| ClosedAs(h, ref, r);
    ClosedStays(h, ev, ref);
    assert ClosedAs(HubStep(h, ev), ref, r);
  }

  lemma HubReason(v: Server, ev: HubEvent)
    requires ClosedForAReason(v) && ServerEnabled(v, InHub(ev))
    ensures ClosedForAReason(ServerStep(v, InHub(ev)))
  {
    var v' := ServerStep(v, InHub(ev));
    forall ref: Ref, c: Conn ensures CloserAt(v', ref, c) {
      assert CloserAt(v, ref, c);
      if (ref, c) in v.closers { ClosedStays(v.hub, ev, ref); }
    }
    forall c: Conn, r ensures ClosingAt(v', c, r) {
      assert ClosingAt(v, c, r);
      if (c, r) in v'.closing {
        if (c, r) !in v.closing {
          assert CloserAt(v, ev.ref, ev.c) && ClosedAs(v.hub, ev.ref, r);
        }
        SomeClosedStays(v.hub, ev, r);
      }
    }
    forall r ensures ClosedAt(v', r) {
      assert ClosedAt(v, r);
      if RowClosed(v.tables, r) { SomeClosedStays(v.hub, ev, r); }
    }
  }

  /** Only Close closes a row. */
  lemma RowClosedBefore(t: Tables, tx: Tx, r: RoomId)
    requires !tx.Close? && RowClosed(Apply(t, tx), r)
    ensures RowClosed(t, r)
  {}

  lemma ReasonStep(v: Server, e: ServerEvent)
    requires ClosedForAReason(v) && ServerEnabled(v, e)
    ensures ClosedForAReason(ServerStep(v, e))
  {
    if e.InHub? {
      HubReason(v, e.ev);
    } else {
      var v' := ServerStep(v, e);
      forall ref: Ref, c: Conn ensures CloserAt(v', ref, c) { assert CloserAt(v, ref, c); }
      forall c: Conn, r ensures ClosingAt(v', c, r) { assert ClosingAt(v, c, r); }
      forall r ensures ClosedAt(v', r) {
        assert ClosedAt(v, r);
        if RowClosed(v'.tables, r) {
          match e
          case CloseRow(c, q, _) => assert ClosingAt(v, c, q);
          case Store(tx) => RowClosedBefore(v.tables, tx, r);
          case PassEnsure(_, q, hash, now) => RowClosedBefore(v.tables, Ensure(q, hash, now), r);
        }
      }
    }
  }

  lemma {:induction false} ReasonRun(v: Server, es: seq<ServerEvent>)
    requires ClosedForAReason(v) && ServerRuns(v, es)
    ensures ClosedForAReason(ServerOutcome(v, es))
    decreases |es|
  {
    if es != [] {
      ReasonStep(v, es[0]);
      ReasonRun(ServerStep(v, es[0]), es[1..]);
    }
  }

  /** In every run of rooms and store together, a closed row has a Room object of its id that has closed. */
  lemma ClosedRowsHaveClosedRooms(maxRooms: nat, limit: nat, es: seq<ServerEvent>, r: RoomId)
    requires ServerRuns(ServerInit(maxRooms, limit), es)
    ensures
      var v := ServerOutcome(ServerInit(maxRooms, limit), es);
      RowClosed(v.tables, r) ==> exists ref :: ref in v.hub.objects && v.hub.objects[ref].roomID == r && v.hub.objects[ref].sys.closed
  {
    ReasonRun(ServerInit(maxRooms, limit), es);
    var v := ServerOutcome(ServerInit(maxRooms, limit), es);
    assert ClosedAt(v, r);
    if RowClosed(v.tables, r) {
      var ref :| ClosedAs(v.hub, ref, r);
      assert v.hub.objects[ref].roomID == r;
    }
  }

  // ---------------------------------------------------------------- every closed room's row is closed

  /** The connection that closed the room has yet to close its row. */
  predicate ClosesBy(v: Server, ref: Ref, c: Conn) {
    && ref in v.hub.objects
    && (((ref, c) in v.closers && c in v.hub.objects[ref].sys.conns && v.hub.objects[ref].sys.conns[c].pc == Parting(Unregistering))
        || (c, v.hub.objects[ref].roomID) in v.closing)
  }

  ghost predicate ClosePending(v: Server, ref: Ref) {
    exists c :: ClosesBy(v, ref, c)
  }

  ghost predicate ShutAt(v: Server, ref: Ref) {
    IsClosed(v.hub, ref) ==> ClosePending(v, ref) || !OpenRoom(v.tables, v.hub.objects[ref].roomID)
  }

  /** The row of every closed Room object is closed or gone, or about to be closed. */
  ghost predicate ClosedRoomsShut(v: Server) {
    forall ref :: ShutAt(v, ref)
  }

  /** No row is made anew for a closed Room object that is through with closing its row. */
  ghost predicate ReopenedAt(v: Server, e: ServerEvent, ref: Ref) {
    && Ensures(e).Some? && Ensures(e).value.room !in v.tables.rooms
    && IsClosed(v.hub, ref) && v.hub.objects[ref].roomID == Ensures(e).value.room && !ClosePending(v, ref)
  }

  ghost predicate ReopensNone(v: Server, e: ServerEvent) {
    forall ref :: !ReopenedAt(v, e, ref)
  }

  lemma ClosingLeave(s: Sys, c: Conn, heir: Conn, missed: set<Conn>)
    requires CanLeave(s, c, heir) && !s.closed && Leaving(s, c, heir, missed).closed
    ensures c in Leaving(s, c, heir, missed).conns && Leaving(s, c, heir, missed).conns[c].pc == Parting(Unregistering)
  {}

  /** Within the room, whoever is about to unregister stays so. */
  lemma UnregisteringStays(s: Sys, e: Event, c: Conn)
    requires Enabled(s, e) && !IsUnregister(s, e) && c in s.conns && s.conns[c].pc == Parting(Unregistering)
    ensures c in Step(s, e).conns && Step(s, e).conns[c].pc == Parting(Unregistering)
  {
    SameConns(s, e, c);
    if Actor(e) != Some(c) { OthersStay(s, e, c); }
  }

  lemma PendingStays(v: Server, ev: HubEvent, ref: Ref, c: Conn)
    requires ServerEnabled(v, InHub(ev)) && ClosesBy(v, ref, c)
    ensures ClosesBy(ServerStep(v, InHub(ev)), ref, c)
  {
    ClosedStays(v.hub, ev, ref);
    if ev.Local? && ev.ref == ref && (c, v.hub.objects[ref].roomID) !in v.closing {
      UnregisteringStays(v.hub.objects[ref].sys, ev.e, c);
    }
  }

  /** The step that closes a Room object. */
  lemma ClosesNow(v: Server, ev: HubEvent, ref: Ref)
    requires ServerEnabled(v, InHub(ev)) && IsClosed(HubStep(v.hub, ev), ref) && !IsClosed(v.hub, ref)
    ensures ev.Local? && ev.e.Leave? && ev.ref == ref && ClosesBy(ServerStep(v, InHub(ev)), ref, ev.e.c)
  {
    assert ev.Local? && ev.e.Leave? && ev.ref == ref;
    ClosingLeave(v.hub.objects[ref].sys, ev.e.c, ev.e.heir, ev.e.missed);
  }

  lemma HubShut(v: Server, ev: HubEvent)
    requires ClosedRoomsShut(v) && ServerEnabled(v, InHub(ev))
    ensures ClosedRoomsShut(ServerStep(v, InHub(ev)))
  {
    var v' := ServerStep(v, InHub(ev));
    forall ref ensures ShutAt(v', ref) {
      assert ShutAt(v, ref);
      if IsClosed(v'.hub, ref) {
        if !IsClosed(v.hub, ref) {
          ClosesNow(v, ev, ref);
        } else {
          ClosedStays(v.hub, ev, ref);
          if c :| ClosesBy(v, ref, c) { PendingStays(v, ev, ref, c); }
        }
      }
    }
  }

  /** A row that is not open is opened only by being made. */
  lemma OpenBefore(t: Tables, tx: Tx, r: RoomId)
    requires OpenRoom(Apply(t, tx), r)
    ensures OpenRoom(t, r) || (tx.Ensure? && tx.room == r && r !in t.rooms)
  {}

  lemma EnsureShut(v: Server, e: ServerEvent, ref: Ref)
    requires ShutAt(v, ref) && ServerEnabled(v, e) && Ensures(e).Some?
    ensures ShutAt(ServerStep(v, e), ref) <==> !ReopenedAt(v, e, ref)
  {
    var v' := ServerStep(v, e);
    assert ClosePending(v', ref) <==> ClosePending(v, ref) by {
      assert forall c :: ClosesBy(v', ref, c) <==> ClosesBy(v, ref, c);
    }
    if IsClosed(v.hub, ref) {
      var r := v.hub.objects[ref].roomID;
      if OpenRoom(v'.tables, r) { OpenBefore(v.tables, Ensures(e).value, r); }
    }
  }

  lemma CloseShut(v: Server, c: Conn, r: RoomId, now: Time, ref: Ref)
    requires ShutAt(v, ref) && ServerEnabled(v, CloseRow(c, r, now))
    ensures ShutAt(ServerStep(v, CloseRow(c, r, now)), ref)
  {
    var v' := ServerStep(v, CloseRow(c, r, now));
    if IsClosed(v.hub, ref) && v.hub.objects[ref].roomID != r {
      if d :| ClosesBy(v, ref, d) { assert ClosesBy(v', ref, d); }
    }
  }

  lemma StoreShut(v: Server, tx: Tx, ref: Ref)
    requires ShutAt(v, ref) && !tx.Close? && !tx.Ensure?
    ensures ShutAt(ServerStep(v, Store(tx)), ref)
  {
    var v' := ServerStep(v, Store(tx));
    if IsClosed(v.hub, ref) {
      if d :| ClosesBy(v, ref, d) { assert ClosesBy(v', ref, d); }
      if OpenRoom(v'.tables, v.hub.objects[ref].roomID) { OpenBefore(v.tables, tx, v.hub.objects[ref].roomID); }
    }
  }

  /** A step keeps closed rooms shut exactly when it makes no row anew for one of them. */
  lemma ClosedStepIff(v: Server, e: ServerEvent)
    requires ClosedRoomsShut(v) && ServerEnabled(v, e)
    ensures ClosedRoomsShut(ServerStep(v, e)) <==> ReopensNone(v, e)
  {
    if Ensures(e).Some? {
      forall ref ensures ShutAt(ServerStep(v, e), ref) <==> !ReopenedAt(v, e, ref) {
        assert ShutAt(v, ref);
        EnsureShut(v, e, ref);
      }
    } else if e.InHub? {
      HubShut(v, e.ev);
    } else {
      forall ref ensures ShutAt(ServerStep(v, e), ref) {
        assert ShutAt(v, ref);
        if e.CloseRow? { CloseShut(v, e.c, e.r, e.now, ref); } else { StoreShut(v, e.tx, ref); }
      }
    }
  }

  ghost predicate ShutThroughout(v: Server, es: seq<ServerEvent>)
    requires ServerRuns(v, es)
    decreases |es|
  {
    ClosedRoomsShut(v) && (es == [] || ShutThroughout(ServerStep(v, es[0]), es[1..]))
  }

  ghost predicate NoneReopened(v: Server, es: seq<ServerEvent>)
    requires ServerRuns(v, es)
    decreases |es|
  {
    es == [] || (ReopensNone(v, es[0]) && NoneReopened(ServerStep(v, es[0]), es[1..]))
  }

  lemma {:induction false} ThroughoutIff(v: Server, es: seq<ServerEvent>)
    requires ClosedRoomsShut(v) && ServerRuns(v, es)
    ensures ShutThroughout(v, es) <==> NoneReopened(v, es)
    decreases |es|
  {
    if es != [] {
      ClosedStepIff(v, es[0]);
      if ReopensNone(v, es[0]) { ThroughoutIff(ServerStep(v, es[0]), es[1..]); }
    }
  }

  /**
   * Of all runs of rooms and store together, exactly those have the row of every closed Room object closed,
   * gone, or about to be closed, in every state, that make no row anew for a room that has closed.
   */
  lemma {:induction false} ClosedRoomsStayShutThroughoutIff(maxRooms: nat, limit: nat, es: seq<ServerEvent>)
    requires ServerRuns(ServerInit(maxRooms, limit), es)
    ensures ShutThroughout(ServerInit(maxRooms, limit), es) <==> NoneReopened(ServerInit(maxRooms, limit), es)
  {
    ThroughoutIff(ServerInit(maxRooms, limit), es);
  }

  lemma RowShut(v: Server, r: RoomId, c: Conn, now: Time) returns (v': Server)
    requires ServerReachable(v) && (c, r) in v.closing && OpenRoom(v.tables, r)
    ensures ServerReachable(v') && v'.hub == v.hub && v'.closers == v.closers && v'.closing == v.closing - {(c, r)}
    ensures r in v'.tables.rooms && v'.tables.rooms[r].updatedAt == Format(now)
  {
    v' := ServerReach(v, CloseRow(c, r, now));
  }

  lemma NothingPending(v: Server, ref: Ref, c: Conn)
    requires v.closing == {} && v.closers == {(ref, c)} && ref in v.hub.objects
    requires c in v.hub.objects[ref].sys.conns && v.hub.objects[ref].sys.conns[c].pc == Gone
    ensures !ClosePending(v, ref)
  {}

  ghost predicate Reopened(v: Server, ref: Ref, r: RoomId) {
    ServerReachable(v) && ClosedAs(v.hub, ref, r) && OpenRoom(v.tables, r) && !ClosePending(v, ref)
  }

  lemma RoomShut(r: RoomId, hash: KeyHash, now: Time, a: Id) returns (v: Server)
    ensures ServerReachable(v) && ClosedAs(v.hub, 0, r) && v.closing == {} && v.closers == {(0, 0)}
    ensures 0 in v.hub.objects[0].sys.conns && v.hub.objects[0].sys.conns[0].pc == Gone
    ensures r in v.tables.rooms && v.tables.rooms[r].updatedAt == Format(now)
  {
    var v1 := RoomGone(r, hash, now, a);
    v := RowShut(v1, r, 0, now);
  }

  /** A room closes, and its row; the row is cleaned up and made anew: a closed Room object's row is open for good. */
  lemma ClosedRoomReopened(r: RoomId, hash: KeyHash, hash': KeyHash, now: Time, cutoff: Time, a: Id)
    requires Less(Format(now), Format(cutoff))
    ensures exists v, ref: Ref :: Reopened(v, ref, r)
  {
    var v2 := RoomShut(r, hash, now, a);
    var v3 := RowCleaned(v2, r, cutoff);
    var v := RowRemade(v3, r, 1, hash', now);
    NothingPending(v, 0, 0);
    assert Reopened(v, 0, r);
  }
}
