/**
 * No Room object is abandoned in `Hub.rooms`.  A room is unregistered by a connection that found it empty
 * when it left (761, 782-789); is there always one that will?
 */
module HubTenancy {
  import opened Base
  import opened Options
  import opened Membership
  import opened MembershipStructure
  import opened HubRegistry

  /** About to be the first occupant, not yet out of the room, or about to unregister it. */
  predicate Tends(s: Sys, c: Conn) {
    c in s.conns && ((s.hostID.None? && s.conns[c].pc.Arrived?) || s.conns[c].pc.Inside? || Quitting(s.conns[c].pc))
  }

  ghost predicate Tended(s: Sys) {
    exists c :: Tends(s, c)
  }

  ghost predicate TendedAt(h: Hub, ref: Ref) {
    ref in h.objects && Registered(h, ref) ==> Tended(h.objects[ref].sys)
  }

  ghost predicate AllTended(h: Hub) {
    forall ref :: TendedAt(h, ref)
  }

  lemma LastQuits(s: Sys, c: Conn, heir: Conn, missed: set<Conn>)
    requires CanLeave(s, c, heir) && Remaining(s, c) == map[]
    ensures c in Leaving(s, c, heir, missed).conns && Quitting(Leaving(s, c, heir, missed).conns[c].pc)
  {}

  /** Whoever leaves is the last and will unregister the room, or leaves a member inside. */
  lemma TendedLeave(s: Sys, c: Conn, heir: Conn, missed: set<Conn>)
    requires Structure(s) && CanLeave(s, c, heir)
    ensures Tended(Leaving(s, c, heir, missed))
  {
    var s' := Leaving(s, c, heir, missed);
    if Remaining(s, c) == map[] {
      LastQuits(s, c, heir, missed);
      assert Tends(s', c);
    } else {
      LeaveEffect(s, c, heir, missed);
      var i :| i in Remaining(s, c);
      assert IdOk(s, i);
      assert Tends(s', s.clients[i]);
    }
  }

  /** Nobody but a leaver or one that unregisters stops tending the room. */
  lemma TendsOn(s: Sys, e: Event, c: Conn)
    requires Enabled(s, e) && Tends(s, c) && !e.Leave? && !IsUnregister(s, e) && !(e.Enter? && s.hostID.None?)
    ensures Tends(Step(s, e), c)
  {
    SameConns(s, e, c);
    if Actor(e) != Some(c) { OthersStay(s, e, c); }
  }

  lemma TendedStep(s: Sys, e: Event)
    requires Structure(s) && Tended(s) && Enabled(s, e) && !IsUnregister(s, e)
    ensures Tended(Step(s, e))
  {
    if e.Leave? {
      TendedLeave(s, e.c, e.heir, e.missed);
    } else if e.Enter? && s.hostID.None? {
      assert Tends(Step(s, e), e.c);
    } else {
      var c :| Tends(s, c);
      TendsOn(s, e, c);
      assert Tends(Step(s, e), c);
    }
  }

  lemma TendedHubStep(h: Hub, ev: HubEvent)
    requires HubOk(h) && AllTended(h) && HubEnabled(h, ev)
    ensures AllTended(HubStep(h, ev))
  {
    var h' := HubStep(h, ev);
    forall ref ensures TendedAt(h', ref) {
      assert TendedAt(h, ref) && ObjectOk(h, ref);
      match ev
      case LookUp(c, roomID, want, at, unused) =>
        if ref in h.objects && roomID in h.registry && h.registry[roomID] == ref {
          TendedStep(h.objects[ref].sys, Arrive(c, want, at));
        } else if ref == unused && ref in h'.objects {
          assert Tends(h'.objects[ref].sys, c);
        }
      case Local(r, e) => if r == ref && Registered(h, ref) { TendedStep(h.objects[ref].sys, e); }
      case Unregister(r, _) => if r == ref && ref in h'.objects { assert !Registered(h', ref); }
    }
  }

  lemma {:induction false} TendedRun(h: Hub, evs: seq<HubEvent>)
    requires HubOk(h) && AllTended(h) && HubRuns(h, evs)
    ensures HubOk(HubOutcome(h, evs)) && AllTended(HubOutcome(h, evs))
    decreases |evs|
  {
    if evs != [] {
      HubOkStep(h, evs[0]);
      TendedHubStep(h, evs[0]);
      TendedRun(HubStep(h, evs[0]), evs[1..]);
    }
  }

  /** Turned away for good, or gone. */
  predicate Done(pc: PC) {
    pc.Refused? || pc.Gone?
  }

  /**
   * No room is abandoned: in every run of the hub, a registered Room object has a connection that is about to
   * be its first occupant, has yet to leave it, or is about to unregister it.
   */
  lemma NoRoomIsAbandoned(maxRooms: nat, limit: nat, h: Hub, id: RoomId)
    requires HubReachable(maxRooms, limit, h) && id in h.registry
    ensures h.registry[id] in h.objects && exists c :: Tends(h.objects[h.registry[id]].sys, c)
  {
    var evs :| HubRuns(HubInit(maxRooms, limit), evs) && HubOutcome(HubInit(maxRooms, limit), evs) == h;
    TendedRun(HubInit(maxRooms, limit), evs);
    assert TendedAt(h, h.registry[id]);
  }

  /** So when every connection is turned away or gone, no room is registered. */
  lemma NothingIsLeftBehind(maxRooms: nat, limit: nat, h: Hub)
    requires HubReachable(maxRooms, limit, h)
    requires forall ref, c: Conn :: ref in h.objects && c in h.objects[ref].sys.conns ==> Done(h.objects[ref].sys.conns[c].pc)
    ensures h.registry == map[]
  {
    if id :| id in h.registry {
      NoRoomIsAbandoned(maxRooms, limit, h, id);
      assert false;
    }
  }
}
