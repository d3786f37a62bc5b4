/** Hosts across the whole hub: what a careful run of the hub keeps in every Room object at once. */
module HubHosts {
  import opened Base
  import opened Membership
  import opened MembershipStructure
  import opened MembershipHost
  import opened HubRegistry

  /** The hypotheses of careful runs, on whatever Room object the event is about. */
  predicate HubCareful(h: Hub, ev: HubEvent) {
    ev.Local? && ev.ref in h.objects ==> Careful(h.objects[ev.ref].sys, ev.e)
  }

  ghost predicate CarefulHubRun(h: Hub, evs: seq<HubEvent>)
    decreases |evs|
  {
    evs == [] || (HubEnabled(h, evs[0]) && HubCareful(h, evs[0]) && CarefulHubRun(HubStep(h, evs[0]), evs[1..]))
  }

  ghost predicate CoreAt(h: Hub, ref: Ref) {
    ref in h.objects ==> Structure(h.objects[ref].sys) && Core(h.objects[ref].sys) && Hosted(h.objects[ref].sys)
  }

  ghost predicate HubCore(h: Hub) {
    forall ref :: CoreAt(h, ref)
  }

  lemma LocalCore(h: Hub, ref: Ref, e: Event)
    requires HubCore(h) && ref in h.objects && Enabled(h.objects[ref].sys, e) && Careful(h.objects[ref].sys, e)
    ensures HubCore(SetSys(h, ref, Step(h.objects[ref].sys, e)))
  {
    assert CoreAt(h, ref);
    StructureStep(h.objects[ref].sys, e);
    CoreStep(h.objects[ref].sys, e);
    HostedStep(h.objects[ref].sys, e);
    forall r ensures CoreAt(SetSys(h, ref, Step(h.objects[ref].sys, e)), r) { assert CoreAt(h, r); }
  }

  lemma LookUpCore(h: Hub, c: Conn, roomID: RoomId, want: Id, at: int, unused: Ref)
    requires HubCore(h) && HubEnabled(h, LookUp(c, roomID, want, at, unused))
    ensures HubCore(HubStep(h, LookUp(c, roomID, want, at, unused)))
  {
    var h' := HubStep(h, LookUp(c, roomID, want, at, unused));
    if roomID in h.registry {
      LocalCore(h, h.registry[roomID], Arrive(c, want, at));
    } else if h' != h {
      StructureInit(h.limit);
      StructureStep(Init(h.limit), Arrive(c, want, at));
      CoreStep(Init(h.limit), Arrive(c, want, at));
      HostedStep(Init(h.limit), Arrive(c, want, at));
      forall r ensures CoreAt(h', r) { assert CoreAt(h, r); }
    }
  }

  lemma HubCoreStep(h: Hub, ev: HubEvent)
    requires HubCore(h) && HubEnabled(h, ev) && HubCareful(h, ev)
    ensures HubCore(HubStep(h, ev))
  {
    match ev
    case LookUp(c, roomID, want, at, unused) => LookUpCore(h, c, roomID, want, at, unused);
    case Local(ref, e) => LocalCore(h, ref, e);
    case Unregister(ref, c) =>
      LocalCore(h, ref, Move(c, Gone));
      var h1 := SetSys(h, ref, Step(h.objects[ref].sys, Move(c, Gone)));
      forall r ensures CoreAt(HubStep(h, ev), r) { assert CoreAt(h1, r); }
  }

  lemma {:induction false} HubCoreRun(h: Hub, evs: seq<HubEvent>)
    requires HubOk(h) && HubCore(h) && CarefulHubRun(h, evs)
    ensures HubRuns(h, evs) && HubOk(HubOutcome(h, evs)) && HubCore(HubOutcome(h, evs))
    decreases |evs|
  {
    if evs != [] {
      HubOkStep(h, evs[0]);
      HubCoreStep(h, evs[0]);
      HubCoreRun(HubStep(h, evs[0]), evs[1..]);
    }
  }

  /** A Room object that has a host and is still open. */
  predicate OpenHosted(s: Sys) {
    s.hostID.Some? && !s.closed
  }

  lemma OpenHostedIsRegistered(h: Hub, ref: Ref)
    requires HubOk(h) && HubCore(h) && ref in h.objects && OpenHosted(h.objects[ref].sys)
    ensures Registered(h, ref)
  {
    assert ObjectOk(h, ref) && CoreAt(h, ref);
  }

  /** Whoever is past a host check is a member of the registered room. */
  lemma PrivilegedInside(h: Hub, ref: Ref, c: Conn)
    requires HubOk(h) && HubCore(h) && ref in h.objects
    requires c in h.objects[ref].sys.conns && Privileged(h.objects[ref].sys.conns[c].pc)
    ensures Registered(h, ref)
  {
    var s := h.objects[ref].sys;
    assert ObjectOk(h, ref) && CoreAt(h, ref);
    assert PrivAt(s, c) && HostInAt(s, c);
  }

  /** Some careful run of the hub ends in h. */
  ghost predicate CarefullyReachable(maxRooms: nat, limit: nat, h: Hub) {
    exists evs :: CarefulHubRun(HubInit(maxRooms, limit), evs) && HubRuns(HubInit(maxRooms, limit), evs)
      && HubOutcome(HubInit(maxRooms, limit), evs) == h
  }

  lemma CarefullyOk(maxRooms: nat, limit: nat, h: Hub)
    requires CarefullyReachable(maxRooms, limit, h)
    ensures HubOk(h) && HubCore(h)
  {
    var evs :| CarefulHubRun(HubInit(maxRooms, limit), evs) && HubRuns(HubInit(maxRooms, limit), evs)
      && HubOutcome(HubInit(maxRooms, limit), evs) == h;
    HubCoreRun(HubInit(maxRooms, limit), evs);
  }

  /**
   * One live room per id, and one host: after every careful run of the hub, two Room objects of one id
   * are never both open with a host, the open one is the registered one, and at most one connection in
   * all of them is past a host check.
   */
  lemma OneHostPerRoomId(maxRooms: nat, limit: nat, h: Hub, r1: Ref, r2: Ref, c1: Conn, c2: Conn)
    requires CarefullyReachable(maxRooms, limit, h)
    requires r1 in h.objects && r2 in h.objects && h.objects[r1].roomID == h.objects[r2].roomID
    ensures
      var s1, s2 := h.objects[r1].sys, h.objects[r2].sys;
      && (OpenHosted(s1) && OpenHosted(s2) ==> r1 == r2)
      && (OpenHosted(s1) ==> h.objects[r1].roomID in h.registry && h.registry[h.objects[r1].roomID] == r1)
      && (c1 in s1.conns && Privileged(s1.conns[c1].pc) && c2 in s2.conns && Privileged(s2.conns[c2].pc) ==>
            r1 == r2 && c1 == c2)
  {
    CarefullyOk(maxRooms, limit, h);
    if OpenHosted(h.objects[r1].sys) { OpenHostedIsRegistered(h, r1); }
    if OpenHosted(h.objects[r2].sys) { OpenHostedIsRegistered(h, r2); }
    assert CoreAt(h, r1) && CoreAt(h, r2);
    var s1, s2 := h.objects[r1].sys, h.objects[r2].sys;
    if c1 in s1.conns && Privileged(s1.conns[c1].pc) && c2 in s2.conns && Privileged(s2.conns[c2].pc) {
      PrivilegedInside(h, r1, c1);
      PrivilegedInside(h, r2, c2);
      OneHost(s1, c1, c2);
    }
  }
}
