/**
 * The hub above its rooms: `Hub.rooms` maps a room id to the Room object that newcomers get, under
 * its own lock.  Looking a room up, being admitted to it, finding it empty and unregistering it
 * happen in different critical sections of different goroutines.
 */
module HubRegistry {
  import opened Base
  import opened Options
  import opened Membership
  import opened MembershipStructure
  import opened MembershipRuns

  type Ref = nat  // the identity of a Room object

  datatype RoomObj = RoomObj(roomID: RoomId, sys: Sys)

  datatype Hub = Hub(
    maxRooms: nat,                // maxGlobalRooms; 0 means no limit
    limit: nat,                   // maxClientsPerRoom
    registry: map<RoomId, Ref>,   // Hub.rooms
    objects: map<Ref, RoomObj>)   // every Room object ever made

  datatype HubEvent =
    | LookUp(c: Conn, roomID: RoomId, want: Id, joinedAt: int, unused: Ref)  // room(), 572-584, then 624-628
    | Local(ref: Ref, e: Event)                                             // one step inside a Room object
    | Unregister(ref: Ref, c: Conn)                                         // 785-789

  function HubInit(maxRooms: nat, limit: nat): Hub {
    Hub(maxRooms, limit, map[], map[])
  }

  predicate IsUnregister(s: Sys, e: Event) {
    e.Move? && e.c in s.conns && s.conns[e.c].pc == Parting(Unregistering)
  }

  ghost predicate HubEnabled(h: Hub, ev: HubEvent) {
    match ev
    case LookUp(c, roomID, _, _, unused) =>
      && unused !in h.objects
      && (roomID in h.registry ==>
            h.registry[roomID] in h.objects && CanArrive(h.objects[h.registry[roomID]].sys, c))
    case Local(ref, e) =>
      && ref in h.objects && !e.Arrive?
      && Enabled(h.objects[ref].sys, e) && !IsUnregister(h.objects[ref].sys, e)
    case Unregister(ref, c) =>
      && ref in h.objects && c in h.objects[ref].sys.conns
      && h.objects[ref].sys.conns[c].pc == Parting(Unregistering)
  }

  ghost function SetSys(h: Hub, ref: Ref, s: Sys): Hub
    requires ref in h.objects
  {
    h.(objects := h.objects[ref := h.objects[ref].(sys := s)])
  }

  ghost function HubStep(h: Hub, ev: HubEvent): Hub
    requires HubEnabled(h, ev)
  {
    match ev
    case LookUp(c, roomID, want, at, unused) =>
      if roomID in h.registry then
        var ref := h.registry[roomID];
        SetSys(h, ref, Arriving(h.objects[ref].sys, c, want, at))
      else if h.maxRooms > 0 && |h.registry| >= h.maxRooms then
        h  // turned away without ever seeing a Room object
      else
        h.(registry := h.registry[roomID := unused],
           objects := h.objects[unused := RoomObj(roomID, Arriving(Init(h.limit), c, want, at))])
    case Local(ref, e) => SetSys(h, ref, Step(h.objects[ref].sys, e))
    case Unregister(ref, c) =>
      var roomID := h.objects[ref].roomID;
      var h1 := SetSys(h, ref, Goto(h.objects[ref].sys, c, Gone));
      if roomID in h.registry && h.registry[roomID] == ref then h1.(registry := h.registry - {roomID}) else h1
  }

  ghost predicate HubRuns(h: Hub, evs: seq<HubEvent>)
    decreases |evs|
  {
    evs == [] || (HubEnabled(h, evs[0]) && HubRuns(HubStep(h, evs[0]), evs[1..]))
  }

  ghost function HubOutcome(h: Hub, evs: seq<HubEvent>): Hub
    requires HubRuns(h, evs)
    decreases |evs|
  {
    if evs == [] then h else HubOutcome(HubStep(h, evs[0]), evs[1..])
  }

  // ---------------------------------------------------------------- the invariant

  /** Nobody is in, and nobody will ever be admitted again. */
  predicate Spent(s: Sys) {
    s.hostID.Some? && s.clients == map[]
  }

  predicate Quitting(pc: PC) {
    pc.Parting? && (pc.part.Unregistering? || pc.part.unregister)
  }

  /** Whoever is going to unregister the room left it spent. */
  predicate QuitsSpent(s: Sys) {
    forall c :: c in s.conns && Quitting(s.conns[c].pc) ==> Spent(s)
  }

  predicate Registered(h: Hub, ref: Ref)
    requires ref in h.objects
  {
    h.objects[ref].roomID in h.registry && h.registry[h.objects[ref].roomID] == ref
  }

  ghost predicate ObjectOk(h: Hub, ref: Ref) {
    ref in h.objects ==>
      var s := h.objects[ref].sys;
      Structure(s) && QuitsSpent(s) && Reachable(s) && s.limit == h.limit && (Registered(h, ref) || Spent(s))
  }

  predicate WithinMaxRooms(h: Hub) {
    h.maxRooms > 0 ==> |h.registry| <= h.maxRooms
  }

  ghost predicate HubOk(h: Hub) {
    && WithinMaxRooms(h)
    && (forall ref :: ObjectOk(h, ref))
    && (forall id :: id in h.registry ==> h.registry[id] in h.objects && h.objects[h.registry[id]].roomID == id)
  }

  lemma QuitComesFrom(s: Sys, e: Event, c: Conn)
    requires Structure(s) && Enabled(s, e) && c in Step(s, e).conns && Quitting(Step(s, e).conns[c].pc)
    ensures (c in s.conns && Quitting(s.conns[c].pc)) || Spent(Step(s, e))
  {
    SameConns(s, e, c);
    if Actor(e) != Some(c) {
      OthersStay(s, e, c);
    }
  }

  lemma QuitsSpentStep(s: Sys, e: Event)
    requires Structure(s) && QuitsSpent(s) && Enabled(s, e)
    ensures QuitsSpent(Step(s, e))
  {
    forall c | c in Step(s, e).conns && Quitting(Step(s, e).conns[c].pc)
      ensures Spent(Step(s, e))
    {
      QuitComesFrom(s, e, c);
    }
  }

  lemma InitOk(limit: nat)
    ensures Structure(Init(limit)) && QuitsSpent(Init(limit)) && Reachable(Init(limit))
  {
    InitReachable(limit);
  }

  /** What one step inside a Room object keeps of it. */
  lemma ObjectStep(s: Sys, e: Event)
    requires Structure(s) && QuitsSpent(s) && Reachable(s) && Enabled(s, e)
    ensures var s' := Step(s, e);
      Structure(s') && QuitsSpent(s') && Reachable(s') && s'.limit == s.limit && (Spent(s) ==> Spent(s'))
  {
    StructureStep(s, e);
    QuitsSpentStep(s, e);
    Extend(s, e);
  }

  lemma LocalOk(h: Hub, ref: Ref, e: Event)
    requires HubOk(h) && ref in h.objects && Enabled(h.objects[ref].sys, e)
    ensures HubOk(SetSys(h, ref, Step(h.objects[ref].sys, e)))
  {
    var h' := SetSys(h, ref, Step(h.objects[ref].sys, e));
    assert ObjectOk(h, ref);
    ObjectStep(h.objects[ref].sys, e);
    forall r ensures ObjectOk(h', r) { assert ObjectOk(h, r); }
  }

  lemma LookUpOk(h: Hub, c: Conn, roomID: RoomId, want: Id, at: int, unused: Ref)
    requires HubOk(h) && HubEnabled(h, LookUp(c, roomID, want, at, unused))
    ensures HubOk(HubStep(h, LookUp(c, roomID, want, at, unused)))
  {
    var h' := HubStep(h, LookUp(c, roomID, want, at, unused));
    if roomID in h.registry {
      LocalOk(h, h.registry[roomID], Arrive(c, want, at));
    } else if h' != h {
      InitOk(h.limit);
      ObjectStep(Init(h.limit), Arrive(c, want, at));
      forall r ensures ObjectOk(h', r) { assert ObjectOk(h, r); }
    }
  }

  lemma UnregisterOk(h: Hub, ref: Ref, c: Conn)
    requires HubOk(h) && HubEnabled(h, Unregister(ref, c))
    ensures HubOk(HubStep(h, Unregister(ref, c)))
  {
    var s := h.objects[ref].sys;
    assert ObjectOk(h, ref) && Quitting(s.conns[c].pc);
    LocalOk(h, ref, Move(c, Gone));
    var h1 := SetSys(h, ref, Step(s, Move(c, Gone)));
    var h' := HubStep(h, Unregister(ref, c));
    forall r ensures ObjectOk(h', r) { assert ObjectOk(h1, r); }
  }

  lemma FewerRooms(registry: map<RoomId, Ref>, id: RoomId)
    ensures |registry - {id}| <= |registry|
  {
    assert (registry - {id}).Keys == registry.Keys - {id};
    assert |(registry - {id}).Keys| == |registry - {id}| && |registry.Keys| == |registry|;
  }

  lemma OneMoreRoom(registry: map<RoomId, Ref>, id: RoomId, ref: Ref)
    requires id !in registry
    ensures |registry[id := ref]| == |registry| + 1
  {
    assert registry[id := ref].Keys == registry.Keys + {id};
    assert |registry[id := ref].Keys| == |registry[id := ref]| && |registry.Keys| == |registry|;
  }

  lemma WithinMaxRoomsStep(h: Hub, ev: HubEvent)
    requires HubEnabled(h, ev) && WithinMaxRooms(h)
    ensures WithinMaxRooms(HubStep(h, ev))
  {
    if ev.LookUp? && ev.roomID !in h.registry {
      OneMoreRoom(h.registry, ev.roomID, ev.unused);
    } else if ev.Unregister? {
      FewerRooms(h.registry, h.objects[ev.ref].roomID);
    }
  }

  lemma HubOkStep(h: Hub, ev: HubEvent)
    requires HubOk(h) && HubEnabled(h, ev)
    ensures HubOk(HubStep(h, ev)) && HubStep(h, ev).limit == h.limit && HubStep(h, ev).maxRooms == h.maxRooms
  {
    WithinMaxRoomsStep(h, ev);
    match ev
    case LookUp(c, roomID, want, at, unused) => LookUpOk(h, c, roomID, want, at, unused);
    case Local(ref, e) => LocalOk(h, ref, e);
    case Unregister(ref, c) => UnregisterOk(h, ref, c);
  }

  lemma {:induction false} HubOkRun(h: Hub, evs: seq<HubEvent>)
    requires HubOk(h) && HubRuns(h, evs)
    ensures var h' := HubOutcome(h, evs); HubOk(h') && h'.limit == h.limit && h'.maxRooms == h.maxRooms
    decreases |evs|
  {
    if evs != [] {
      HubOkStep(h, evs[0]);
      HubOkRun(HubStep(h, evs[0]), evs[1..]);
    }
  }

  // ---------------------------------------------------------------- main results, about every state of every run

  /** Some run of the hub, any interleaving, ends in h. */
  ghost predicate HubReachable(maxRooms: nat, limit: nat, h: Hub) {
    exists evs :: HubRuns(HubInit(maxRooms, limit), evs) && HubOutcome(HubInit(maxRooms, limit), evs) == h
  }

  lemma ReachableOk(maxRooms: nat, limit: nat, h: Hub)
    requires HubReachable(maxRooms, limit, h)
    ensures HubOk(h) && h.limit == limit && h.maxRooms == maxRooms
  {
    var evs :| HubRuns(HubInit(maxRooms, limit), evs) && HubOutcome(HubInit(maxRooms, limit), evs) == h;
    HubOkRun(HubInit(maxRooms, limit), evs);
  }

  /**
   * No split brain: after every interleaving, a Room object with a member is the one registered for
   * its id, so two Room objects of one id never both have members.
   */
  lemma NoSplitBrain(maxRooms: nat, limit: nat, h: Hub, r1: Ref, r2: Ref)
    requires HubReachable(maxRooms, limit, h)
    requires r1 in h.objects && r2 in h.objects && h.objects[r1].sys.clients != map[]
    ensures h.objects[r1].roomID in h.registry && h.registry[h.objects[r1].roomID] == r1
    ensures h.objects[r2].roomID == h.objects[r1].roomID && r2 != r1 ==>
      h.objects[r2].sys.clients == map[] && Dead(h.objects[r2].sys)
  {
    ReachableOk(maxRooms, limit, h);
    assert ObjectOk(h, r1) && ObjectOk(h, r2);
  }

  /**
   * One living room per id, in every run: a Room object that is neither closed nor without its host is
   * the registered one, so no two of one id live at once.
   */
  lemma OneLivingRoomPerId(maxRooms: nat, limit: nat, h: Hub, r1: Ref, r2: Ref)
    requires HubReachable(maxRooms, limit, h)
    requires r1 in h.objects && r2 in h.objects && !Dead(h.objects[r1].sys)
    ensures h.objects[r1].roomID in h.registry && h.registry[h.objects[r1].roomID] == r1
    ensures h.objects[r2].roomID == h.objects[r1].roomID && r2 != r1 ==> Dead(h.objects[r2].sys)
  {
    ReachableOk(maxRooms, limit, h);
    assert ObjectOk(h, r1) && ObjectOk(h, r2);
  }

  /** Every Room object of a running hub is in a state that its own protocol reaches from the empty room. */
  lemma RoomsRunTheProtocol(maxRooms: nat, limit: nat, h: Hub, ref: Ref)
    requires HubReachable(maxRooms, limit, h) && ref in h.objects
    ensures Reachable(h.objects[ref].sys) && h.objects[ref].sys.limit == limit
  {
    ReachableOk(maxRooms, limit, h);
    assert ObjectOk(h, ref);
  }

  /** maxGlobalRooms, unlike maxClientsPerRoom, is never exceeded. */
  lemma MaxRoomsHolds(maxRooms: nat, limit: nat, h: Hub)
    requires HubReachable(maxRooms, limit, h) && maxRooms > 0
    ensures |h.registry| <= maxRooms
  {
    ReachableOk(maxRooms, limit, h);
  }
}
