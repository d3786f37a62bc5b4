/**
 * Rooms and their rows.  A connection first passes EnsureRoom (519), then enters a Room object, and the
 * connection whose leave closed a Room object closes its row, after it unregistered the object
 * (785-796).  These are separate sections of separate goroutines.  Does a room that has members have an
 * open row, one that takes their updates?
 */
module RoomRows {
  import opened Base
  import opened Options
  import opened Timestamps
  import opened UpdateLog
  import opened Membership
  import opened MembershipStructure
  import opened HubRegistry

  datatype Server = Server(
    hub: Hub,
    tables: Tables,
    passed: map<(Conn, RoomId), KeyHash>,  // EnsureRoom accepted this key; joinRoom has yet to look the room up
    keys: map<(Ref, Conn), KeyHash>,       // with which key a connection came to a Room object
    closers: set<(Ref, Conn)>,             // roomClosed is set in this connection's leaveRoom
    closing: set<(Conn, RoomId)>)          // it has unregistered the object, and is about to close the row

  datatype ServerEvent =
    | PassEnsure(c: Conn, r: RoomId, hash: KeyHash, now: Time)
    | InHub(ev: HubEvent)
    | CloseRow(c: Conn, r: RoomId, now: Time)  // 794-796
    | Store(tx: Tx)                            // what else reaches the store

  function ServerInit(maxRooms: nat, limit: nat): Server {
    Server(HubInit(maxRooms, limit), EMPTY_TABLES, map[], map[], {}, {})
  }

  ghost predicate ServerEnabled(v: Server, e: ServerEvent) {
    match e
    case PassEnsure(_, r, hash, now) => EnsureRoom(v.tables, r, hash, now).1.Done?
    case InHub(ev) => HubEnabled(v.hub, ev) && (ev.LookUp? ==> (ev.c, ev.roomID) in v.passed)
    case CloseRow(c, r, _) => (c, r) in v.closing
    case Store(tx) => !tx.Close?
  }

  /** The Room object that a lookup of r leads to. */
  function Found(h: Hub, r: RoomId, unused: Ref): Ref {
    if r in h.registry then h.registry[r] else unused
  }

  /** The leave that closes a Room object, and by whom. */
  ghost predicate ClosesObject(h: Hub, ev: HubEvent)
    requires HubEnabled(h, ev)
  {
    ev.Local? && ev.e.Leave? && !h.objects[ev.ref].sys.closed && HubStep(h, ev).objects[ev.ref].sys.closed
  }

  ghost function ServerStep(v: Server, e: ServerEvent): Server
    requires ServerEnabled(v, e)
  {
    match e
    case PassEnsure(c, r, hash, now) => v.(tables := EnsureRoom(v.tables, r, hash, now).0, passed := v.passed[(c, r) := hash])
    case InHub(ev) =>
      v.(hub := HubStep(v.hub, ev),
         passed := if ev.LookUp? then v.passed - {(ev.c, ev.roomID)} else v.passed,
         keys := if ev.LookUp? then v.keys[(Found(v.hub, ev.roomID, ev.unused), ev.c) := v.passed[(ev.c, ev.roomID)]] else v.keys,
         closers := if ClosesObject(v.hub, ev) then v.closers + {(ev.ref, ev.e.c)} else v.closers,
         closing := if ev.Unregister? && (ev.ref, ev.c) in v.closers
                    then v.closing + {(ev.c, v.hub.objects[ev.ref].roomID)} else v.closing)
    case CloseRow(c, r, now) => v.(tables := CloseRoom(v.tables, r, now), closing := v.closing - {(c, r)})
    case Store(tx) => v.(tables := Apply(v.tables, tx))
  }

  ghost predicate ServerRuns(v: Server, es: seq<ServerEvent>)
    decreases |es|
  {
    es == [] || (ServerEnabled(v, es[0]) && ServerRuns(ServerStep(v, es[0]), es[1..]))
  }

  ghost function ServerOutcome(v: Server, es: seq<ServerEvent>): Server
    requires ServerRuns(v, es)
    decreases |es|
  {
    if es == [] then v else ServerOutcome(ServerStep(v, es[0]), es[1..])
  }

  // ---------------------------------------------------------------- when a room with members has an open row

  predicate HasMembers(h: Hub, ref: Ref) {
    ref in h.objects && h.objects[ref].sys.clients != map[]
  }

  predicate RowOpenAt(v: Server, ref: Ref) {
    HasMembers(v.hub, ref) ==> OpenRoom(v.tables, v.hub.objects[ref].roomID)
  }

  ghost predicate RowsOpen(v: Server) { forall ref :: RowOpenAt(v, ref) }

  /** The room's first occupant enters. */
  predicate FirstEnters(h: Hub, ev: HubEvent) {
    ev.Local? && ev.e.Enter? && ev.ref in h.objects && h.objects[ev.ref].sys.hostID.None?
  }

  /**
   * Three things are not to happen: a first occupant enters a room whose row was closed or deleted since
   * it passed EnsureRoom; a row is closed while a new Room object of its id has members; and a cleanup
   * finds the row of a room with members inactive.
   */
  ghost predicate KeepsRows(v: Server, e: ServerEvent) {
    match e
    case InHub(ev) => FirstEnters(v.hub, ev) ==> OpenRoom(v.tables, v.hub.objects[ev.ref].roomID)
    case CloseRow(_, r, _) => forall ref :: HasMembers(v.hub, ref) ==> v.hub.objects[ref].roomID != r
    case Store(tx) =>
      tx.Cleanup? ==> forall ref :: HasMembers(v.hub, ref) && v.hub.objects[ref].roomID in v.tables.rooms ==>
        !Inactive(v.tables.rooms[v.hub.objects[ref].roomID], tx.cutoff)
    case _ => true
  }

  /** Only a first occupant makes a room without members one with members. */
  lemma FirstMember(s: Sys, e: Event)
    requires Structure(s) && Enabled(s, e) && s.clients == map[]
    ensures Step(s, e).clients != map[] <==> e.Enter? && s.hostID.None?
  {
    if e.Enter? && s.hostID.None? {
      assert e.id in Step(s, e).clients;
    } else if e.Leave? {
      LeaveEffect(s, e.c, e.heir, e.missed);
      assert Step(s, e).clients == map[];
    } else if e.Admit? {
      assert KnockOk(s, e.c);
    }
  }

  /** Who has members after a step of the hub had them before, but for a room's first occupant. */
  lemma MembersBefore(h: Hub, ev: HubEvent, ref: Ref)
    requires HubOk(h) && HubEnabled(h, ev) && HasMembers(HubStep(h, ev), ref)
    ensures HasMembers(h, ref) || (FirstEnters(h, ev) && ref == ev.ref)
  {
    if ref in h.objects && h.objects[ref].sys.clients == map[] {
      assert ObjectOk(h, ref);
      if ev.Local? && ref == ev.ref { FirstMember(h.objects[ref].sys, ev.e); }
    }
  }

  lemma FirstHasMembers(h: Hub, ev: HubEvent)
    requires HubEnabled(h, ev) && FirstEnters(h, ev)
    ensures HasMembers(HubStep(h, ev), ev.ref)
  {
    assert ev.e.id in HubStep(h, ev).objects[ev.ref].sys.clients;
  }

  lemma HubRows(v: Server, ev: HubEvent)
    requires HubOk(v.hub) && RowsOpen(v) && ServerEnabled(v, InHub(ev))
    ensures RowsOpen(ServerStep(v, InHub(ev))) <==> KeepsRows(v, InHub(ev))
  {
    var v' := ServerStep(v, InHub(ev));
    if FirstEnters(v.hub, ev) {
      FirstHasMembers(v.hub, ev);
      assert RowOpenAt(v', ev.ref) <==> OpenRoom(v.tables, v.hub.objects[ev.ref].roomID);
    }
    if KeepsRows(v, InHub(ev)) {
      forall ref ensures RowOpenAt(v', ref) {
        assert RowOpenAt(v, ref);
        if HasMembers(v'.hub, ref) {
          MembersBefore(v.hub, ev, ref);
        }
      }
    }
  }

  lemma StoreRows(v: Server, tx: Tx)
    requires RowsOpen(v) && !tx.Close?
    ensures RowsOpen(ServerStep(v, Store(tx))) <==> KeepsRows(v, Store(tx))
  {
    var v' := ServerStep(v, Store(tx));
    forall ref | HasMembers(v.hub, ref) ensures v.hub.objects[ref].roomID in v.tables.rooms { assert RowOpenAt(v, ref); }
    forall ref | HasMembers(v.hub, ref)
      ensures RowOpenAt(v', ref) <==> !(tx.Cleanup? && Inactive(v.tables.rooms[v.hub.objects[ref].roomID], tx.cutoff))
    {
      assert RowOpenAt(v, ref);
    }
    assert RowsOpen(v') <==> forall ref :: HasMembers(v.hub, ref) ==> RowOpenAt(v', ref);
  }

  lemma CloseRows(v: Server, c: Conn, r: RoomId, now: Time)
    requires RowsOpen(v) && ServerEnabled(v, CloseRow(c, r, now))
    ensures RowsOpen(ServerStep(v, CloseRow(c, r, now))) <==> KeepsRows(v, CloseRow(c, r, now))
  {
    var v' := ServerStep(v, CloseRow(c, r, now));
    forall ref | HasMembers(v.hub, ref) ensures RowOpenAt(v', ref) <==> v.hub.objects[ref].roomID != r {
      assert RowOpenAt(v, ref);
    }
    assert RowsOpen(v') <==> forall ref :: HasMembers(v.hub, ref) ==> RowOpenAt(v', ref);
  }

  /** A step of the server keeps the rows of rooms with members open exactly when it is none of the three. */
  lemma RowsStepIff(v: Server, e: ServerEvent)
    requires HubOk(v.hub) && RowsOpen(v) && ServerEnabled(v, e)
    ensures RowsOpen(ServerStep(v, e)) <==> KeepsRows(v, e)
  {
    match e
    case PassEnsure(_, r, hash, now) =>
      forall ref ensures RowOpenAt(ServerStep(v, e), ref) { assert RowOpenAt(v, ref); }
    case InHub(ev) => HubRows(v, ev);
    case CloseRow(c, r, now) => CloseRows(v, c, r, now);
    case Store(tx) => StoreRows(v, tx);
  }

  ghost predicate RowsOpenThroughout(v: Server, es: seq<ServerEvent>)
    requires ServerRuns(v, es)
    decreases |es|
  {
    RowsOpen(v) && (es == [] || RowsOpenThroughout(ServerStep(v, es[0]), es[1..]))
  }

  ghost predicate AllKeepRows(v: Server, es: seq<ServerEvent>)
    requires ServerRuns(v, es)
    decreases |es|
  {
    es == [] || (KeepsRows(v, es[0]) && AllKeepRows(ServerStep(v, es[0]), es[1..]))
  }

  lemma {:induction false} RowsThroughoutIff(v: Server, es: seq<ServerEvent>)
    requires HubOk(v.hub) && RowsOpen(v) && ServerRuns(v, es)
    ensures RowsOpenThroughout(v, es) <==> AllKeepRows(v, es)
    decreases |es|
  {
    if es != [] {
      RowsStepIff(v, es[0]);
      if es[0].InHub? { HubOkStep(v.hub, es[0].ev); }
      if KeepsRows(v, es[0]) { RowsThroughoutIff(ServerStep(v, es[0]), es[1..]); }
    }
  }

  /** Exactly which runs of the server keep the row of every room that has members open. */
  lemma {:induction false} RoomsWithMembersHaveOpenRowsIff(maxRooms: nat, limit: nat, es: seq<ServerEvent>)
    requires ServerRuns(ServerInit(maxRooms, limit), es)
    ensures RowsOpenThroughout(ServerInit(maxRooms, limit), es) <==> AllKeepRows(ServerInit(maxRooms, limit), es)
  {
    RowsThroughoutIff(ServerInit(maxRooms, limit), es);
  }

  // ---------------------------------------------------------------- a run in which a room loses its row

  ghost predicate ServerReachable(v: Server) {
    exists es :: ServerRuns(ServerInit(0, 0), es) && ServerOutcome(ServerInit(0, 0), es) == v
  }

  lemma {:induction false} ServerRunsSplit(v: Server, es: seq<ServerEvent>, e: ServerEvent)
    requires ServerRuns(v, es) && ServerEnabled(ServerOutcome(v, es), e)
    ensures ServerRuns(v, es + [e]) && ServerOutcome(v, es + [e]) == ServerStep(ServerOutcome(v, es), e)
    decreases |es|
  {
    if es == [] {
      assert [e][1..] == [] && es + [e] == [e];
      assert ServerRuns(ServerStep(v, e), []);
    } else {
      assert (es + [e])[0] == es[0] && (es + [e])[1..] == es[1..] + [e];
      ServerRunsSplit(ServerStep(v, es[0]), es[1..], e);
    }
  }

  lemma ServerReach(v: Server, e: ServerEvent) returns (v': Server)
    requires ServerReachable(v) && ServerEnabled(v, e)
    ensures v' == ServerStep(v, e) && ServerReachable(v')
  {
    var es :| ServerRuns(ServerInit(0, 0), es) && ServerOutcome(ServerInit(0, 0), es) == v;
    v' := ServerStep(v, e);
    ServerRunsSplit(ServerInit(0, 0), es, e);
  }

  /** A step inside a Room object that closes nothing. */
  lemma StepInside(v: Server, ref: Ref, e: Event) returns (v': Server)
    requires ServerReachable(v) && ref in v.hub.objects
    requires var s := v.hub.objects[ref].sys; Enabled(s, e) && !e.Arrive? && !e.Leave? && !IsUnregister(s, e)
    ensures ServerReachable(v') && v' == v.(hub := SetSys(v.hub, ref, Step(v.hub.objects[ref].sys, e)))
  {
    v' := ServerReach(v, InHub(Local(ref, e)));
  }

  /** Connection c, which passed EnsureRoom, finds no Room object for r and makes one. */
  lemma FindRoom(v: Server, c: Conn, r: RoomId, a: Id, ref: Ref) returns (v': Server)
    requires ServerReachable(v) && (c, r) in v.passed && r !in v.hub.registry && ref !in v.hub.objects
    requires v.hub.maxRooms == 0
    ensures ServerReachable(v') && v'.tables == v.tables && v'.closers == v.closers && v'.closing == v.closing
    ensures v'.keys == v.keys[(ref, c) := v.passed[(c, r)]]
    ensures v'.passed == v.passed - {(c, r)} && v'.hub.limit == v.hub.limit && v'.hub.maxRooms == 0
    ensures v'.hub.registry == v.hub.registry[r := ref]
    ensures v'.hub.objects == v.hub.objects[ref := RoomObj(r, Arriving(Init(v.hub.limit), c, a, 0))]
  {
    v' := ServerReach(v, InHub(LookUp(c, r, a, 0, ref)));
  }

  /** It enters as the room's first occupant, and hosts it. */
  lemma HostRoom(v: Server, c: Conn, r: RoomId, a: Id, ref: Ref) returns (v': Server)
    requires ServerReachable(v) && (c, r) in v.passed && r !in v.hub.registry && ref !in v.hub.objects
    requires v.hub.maxRooms == 0
    ensures ServerReachable(v') && v'.tables == v.tables && v'.closers == v.closers && v'.closing == v.closing
    ensures v'.passed == v.passed - {(c, r)} && v'.keys == v.keys[(ref, c) := v.passed[(c, r)]]
    ensures v'.hub.registry == v.hub.registry[r := ref] && v'.hub.maxRooms == 0
    ensures v'.hub.objects.Keys == v.hub.objects.Keys + {ref} && v'.hub.objects[ref].roomID == r
    ensures
      var s := v'.hub.objects[ref].sys;
      && s.hostID == Some(a) && !s.closed && s.clients == map[a := c] && c in s.conns
      && s.conns[c].id == a && s.conns[c].pc == Inside(Reading)
  {
    var v1 := FindRoom(v, c, r, a, ref);
    v' := StepInside(v1, ref, Enter(c, a, 0));
  }

  /** The host of a room ends its read loop and shuts itself down. */
  lemma QuitRoom(v: Server, ref: Ref, c: Conn) returns (v': Server)
    requires ServerReachable(v) && ref in v.hub.objects
    requires var s := v.hub.objects[ref].sys; c in s.conns && s.conns[c].pc == Inside(Reading)
    ensures ServerReachable(v') && ref in v'.hub.objects && v'.hub.objects.Keys == v.hub.objects.Keys
    ensures v'.tables == v.tables && v'.passed == v.passed && v'.hub.registry == v.hub.registry && v'.hub.maxRooms == v.hub.maxRooms
    ensures v'.closers == v.closers && v'.closing == v.closing
    ensures v'.hub.objects[ref].roomID == v.hub.objects[ref].roomID
    ensures
      var s, s' := v.hub.objects[ref].sys, v'.hub.objects[ref].sys;
      && s'.hostID == s.hostID && s'.closed == s.closed && s'.clients == s.clients && c in s'.conns
      && s'.conns[c].id == s.conns[c].id && s'.conns[c].pc == Inside(LeavingLock)
  {
    var v1 := StepInside(v, ref, Move(c, Inside(LeavingShut)));
    v' := StepInside(v1, ref, Shut(c));
  }

  lemma LastLeaves(s: Sys, c: Conn, a: Id)
    requires s.hostID == Some(a) && !s.closed && s.clients == map[a := c] && c in s.conns && s.conns[c].id == a
    requires s.conns[c].pc == Inside(LeavingLock)
    ensures CanLeave(s, c, c) && Leaving(s, c, c, {}).closed && Leaving(s, c, c, {}).conns[c].pc == Parting(Unregistering)
  {
    assert Remaining(s, c) == map[];
  }

  lemma LeaveInHub(h: Hub, ref: Ref, c: Conn)
    requires ref in h.objects && CanLeave(h.objects[ref].sys, c, c) && c in h.objects[ref].sys.conns
    ensures
      var ev := Local(ref, Leave(c, c, {}));
      HubEnabled(h, ev) && HubStep(h, ev) == SetSys(h, ref, Leaving(h.objects[ref].sys, c, c, {}))
  {}

  /** It leaves, which closes the room. */
  lemma LeaveLast(v: Server, ref: Ref, c: Conn, a: Id) returns (v': Server)
    requires ServerReachable(v) && ref in v.hub.objects
    requires var s := v.hub.objects[ref].sys;
      && s.hostID == Some(a) && !s.closed && s.clients == map[a := c] && c in s.conns
      && s.conns[c].id == a && s.conns[c].pc == Inside(LeavingLock)
    ensures ServerReachable(v') && v'.tables == v.tables && v'.passed == v.passed && v'.closers == v.closers + {(ref, c)}
    ensures v'.hub.objects.Keys == v.hub.objects.Keys && v'.hub.registry == v.hub.registry && v'.hub.maxRooms == v.hub.maxRooms
    ensures v'.hub.objects[ref].roomID == v.hub.objects[ref].roomID
    ensures v'.closing == v.closing
    ensures var s' := v'.hub.objects[ref].sys; s'.closed && c in s'.conns && s'.conns[c].pc == Parting(Unregistering)
  {
    var s := v.hub.objects[ref].sys;
    LastLeaves(s, c, a);
    LeaveInHub(v.hub, ref, c);
    var ev := Local(ref, Leave(c, c, {}));
    v' := ServerReach(v, InHub(ev));
  }

  /** It unregisters the object; the row is still to be closed. */
  lemma UnregisterLast(v: Server, ref: Ref, c: Conn, r: RoomId) returns (v': Server)
    requires ServerReachable(v) && ref in v.hub.objects && v.hub.objects[ref].roomID == r && (ref, c) in v.closers
    requires r in v.hub.registry && v.hub.registry[r] == ref
    requires var s := v.hub.objects[ref].sys; c in s.conns && s.conns[c].pc == Parting(Unregistering)
    ensures ServerReachable(v') && v'.tables == v.tables && v'.passed == v.passed && v'.hub.maxRooms == v.hub.maxRooms
    ensures v'.hub.objects.Keys == v.hub.objects.Keys && v'.hub.registry == v.hub.registry - {r}
    ensures v'.closers == v.closers && v'.closing == v.closing + {(c, r)}
    ensures v'.hub.objects[ref] == v.hub.objects[ref].(sys := Goto(v.hub.objects[ref].sys, c, Gone))
  {
    v' := ServerReach(v, InHub(Unregister(ref, c)));
  }

  /** Clients 0 and 1 pass EnsureRoom; 0 hosts the room. */
  lemma RoomBegun(r: RoomId, hash: KeyHash, now: Time, a: Id) returns (v: Server)
    ensures ServerReachable(v) && (1, r) in v.passed && OpenRoom(v.tables, r)
    ensures v.closers == {} && v.closing == {}
    ensures v.tables.rooms[r].updatedAt == Format(now) && (0, 0) in v.keys && v.keys[(0, 0)] == hash
    ensures v.hub.registry == map[r := 0] && v.hub.objects.Keys == {0} && v.hub.objects[0].roomID == r && v.hub.maxRooms == 0
    ensures
      var s := v.hub.objects[0].sys;
      && s.hostID == Some(a) && !s.closed && s.clients == map[a := 0] && 0 in s.conns
      && s.conns[0].id == a && s.conns[0].pc == Inside(Reading)
  {
    var v0 := ServerInit(0, 0);
    assert ServerRuns(v0, []) && ServerOutcome(v0, []) == v0;
    var v1 := ServerReach(v0, PassEnsure(0, r, hash, now));
    var v2 := ServerReach(v1, PassEnsure(1, r, hash, now));
    v := HostRoom(v2, 0, r, a, 0);
  }

  /** The room comes and goes; its row is yet to be closed. */
  lemma RoomGone(r: RoomId, hash: KeyHash, now: Time, a: Id) returns (v: Server)
    ensures ServerReachable(v) && (1, r) in v.passed && OpenRoom(v.tables, r) && v.closing == {(0, r)} && v.closers == {(0, 0)}
    ensures r !in v.hub.registry && v.hub.objects.Keys == {0} && v.hub.maxRooms == 0 && v.hub.objects[0].roomID == r
    ensures var s := v.hub.objects[0].sys; s.closed && 0 in s.conns && s.conns[0].pc == Gone
  {
    var v1 := RoomBegun(r, hash, now, a);
    var v2 := QuitRoom(v1, 0, 0);
    var v3 := LeaveLast(v2, 0, 0, a);
    v := UnregisterLast(v3, 0, 0, r);
  }

  /**
   * A client passes EnsureRoom before the last host's row is closed, and opens a new Room object after
   * the old one is unregistered; then the row is closed under it, and no update of its room is accepted.
   */
  lemma NewRoomLosesItsRow(r: RoomId, hash: KeyHash, now: Time, a: Id, update: Blob)
    ensures exists v, ref ::
      && ServerReachable(v) && HasMembers(v.hub, ref) && v.hub.objects[ref].roomID == r
      && r in v.tables.rooms && AppendUpdate(v.tables, r, update, now).1 == Failed(Error.RoomClosed)
  {
    var v1 := RoomGone(r, hash, now, a);
    var v2 := HostRoom(v1, 1, r, a, 1);
    var v3 := ServerReach(v2, CloseRow(0, r, now));
    assert HasMembers(v3.hub, 1) by { assert a in v3.hub.objects[1].sys.clients; }
  }
}
