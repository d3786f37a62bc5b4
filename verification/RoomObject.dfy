/**
 * Room and Client as the objects the server mutates in place.  Each method below is one section
 * executed under `room.mu` (or one `queue`, `shutdown`, `decide`), proved equal to the step of the
 * transition system that carries its name.
 */
module RoomObject {
  import opened Options
  import opened Membership
  import opened MembershipStructure

  /** A Client together with its PendingJoin. */
  class Connection {
    const who: Conn
    const joinedAt: int
    var id: Id
    var role: Role
    var request: nat
    var slot: Option<Decision>
    var shut: bool
    var queue: seq<Msg>
    ghost var pc: PC  // where this connection's own goroutine is

    constructor (who: Conn, want: Id, joinedAt: int)
      ensures Record() == Client(want, Collaborator, joinedAt, 0, None, false, [], Arrived)
      ensures this.who == who
    {
      this.who := who;
      this.joinedAt := joinedAt;
      id, role, request, slot, shut, queue, pc := want, Collaborator, 0, None, false, [], Arrived;
    }

    ghost function Record(): Client
      reads this
    {
      Client(id, role, joinedAt, request, slot, shut, queue, pc)
    }

    /** 889-913: a full channel drops what is transient at once, and the rest unless room is made in time. */
    method Queue(m: Msg, transient: bool, full: bool, timedOut: bool) returns (ok: bool)
      requires transient ==> m == Relayed
      modifies this`queue
      ensures ok <==> !shut && !(full && (transient || timedOut))
      ensures queue == if ok then old(queue) + [m] else old(queue)
    {
      if shut { return false; }
      if !full {
        queue := queue + [m];
        return true;
      }
      if transient { return false; }
      if shut { return false; }
      if timedOut { return false; }
      queue := queue + [m];
      return true;
    }

    /** 916-921 */
    method Shutdown()
      modifies this`shut
      ensures Record() == old(Record()).(shut := true)
    {
      if !shut { shut := true; }
    }

    /** What the first occupant's own record goes through in 636-648. */
    method BecomeHost(id: Id, peers: set<Id>)
      modifies this
      ensures Record() == Membership.Queue(old(Record()).(id := id, role := Host, pc := Inside(Reading)), AuthOk(peers, Some(id)), false)
    {
      this.id := id;
      role := Host;
      var _ := Queue(AuthOk(peers, Some(id)), false, false, false);
      pc := Inside(Reading);
    }

    /** 119-126 */
    method Decide(d: Decision) returns (placed: bool)
      modifies this`slot
      ensures Record() == Membership.Decide(old(Record()), d)
      ensures placed <==> old(slot) == None
    {
      match slot
      case None => slot := Some(d); return true;
      case Some(_) => return false;
    }
  }

  lemma AnnounceOne(conns: map<Conn, Client>, told: set<Conn>, t: Conn, newHost: Id, missed: set<Conn>)
    requires t in conns && t !in told
    ensures
      var before := AnnounceHost(conns, told, newHost, missed);
      t in before && AnnounceHost(conns, told + {t}, newHost, missed)
        == before[t := Membership.Queue(before[t], HostChanged(newHost), t in missed)]
  {}

  lemma RejectOne(conns: map<Conn, Client>, told: set<Conn>, t: Conn)
    requires t in conns
    ensures
      var before := RejectAll(conns, told);
      t in before && RejectAll(conns, told + {t}) == before[t := Membership.Decide(before[t], Reject)]
  {}

  /** Everybody told that the room closed, and shut down. */
  ghost function ShutAll(conns: map<Conn, Client>, targets: set<Conn>, missed: set<Conn>): map<Conn, Client> {
    map d | d in conns ::
      if d in targets then Membership.Queue(conns[d], RoomClosed, d in missed).(shut := true) else conns[d]
  }

  lemma ShutOne(conns: map<Conn, Client>, done: set<Conn>, t: Conn, missed: set<Conn>)
    requires t in conns && t !in done
    ensures
      var before := ShutAll(conns, done, missed);
      t in before && ShutAll(conns, done + {t}, missed)
        == before[t := Membership.Queue(before[t], RoomClosed, t in missed).(shut := true)]
  {}

  /** The connections whose ids have been taken out of `all` so far. */
  ghost function TakenOut(all: map<Id, Conn>, left: map<Id, Conn>): set<Conn> {
    set i | i in all && i !in left :: all[i]
  }

  lemma TakeOutOne(all: map<Id, Conn>, left: map<Id, Conn>, id: Id)
    requires id in all && id in left
    ensures TakenOut(all, left - {id}) == TakenOut(all, left) + {all[id]}
  {}

  /** The room's maps hold identities; `known` resolves an identity to its object. */
  class Room {
    const limit: nat
    var hostID: Option<Id>
    var closed: bool
    var clients: map<Id, Conn>
    var pending: map<Id, Conn>
    var known: map<Conn, Connection>
    ghost var sys: Sys  // the state of the transition system this object is in

    constructor (limit: nat)
      ensures Valid() && sys == Init(limit) && known == map[] && this.limit == limit
    {
      this.limit := limit;
      hostID, closed, clients, pending, known, sys := None, false, map[], map[], map[], Init(limit);
    }

    ghost function Objects(): set<Connection>
      reads this
    {
      set k | k in known :: known[k]
    }

    ghost predicate Records()
      reads this, Objects()
    {
      && known.Keys == sys.conns.Keys
      && forall k :: k in known ==> known[k].who == k && known[k].Record() == sys.conns[k]
    }

    ghost predicate Valid()
      reads this, Objects()
    {
      && sys.limit == limit && sys.hostID == hostID && sys.closed == closed
      && sys.clients == clients && sys.pending == pending
      && Records()
    }

    ghost predicate Knows(c: Connection)
      reads this
    {
      c.who in known && known[c.who] == c
    }

    /** Only c's record changed. */
    twostate lemma OnlyChanged(c: Connection)
      requires old(Records()) && known == old(known) && Knows(c)
      requires forall k :: k in known && known[k] != c ==> unchanged(known[k])
      requires sys.conns == old(sys.conns)[c.who := c.Record()]
      ensures Records()
    {
      forall k | k in known
        ensures known[k].who == k && known[k].Record() == sys.conns[k]
      {
        if known[k] != c {
          assert known[k].Record() == old(known[k].Record());
        }
      }
    }

    // -------------------------------------------------------------- one client at a time

    /** `queue` to the client that an identity resolves to. */
    method Tell(c: Connection, m: Msg, full: bool)
      requires Valid() && Knows(c)
      modifies this`sys, c`queue
      ensures Valid()
      ensures sys == old(sys).(conns := old(sys).conns[c.who := Membership.Queue(old(sys).conns[c.who], m, full)])
    {
      var _ := c.Queue(m, false, full, true);
      sys := sys.(conns := sys.conns[c.who := Membership.Queue(sys.conns[c.who], m, full)]);
      assert c.Record() == sys.conns[c.who];
      OnlyChanged(c);
    }

    method Answer(c: Connection, d: Decision)
      requires Valid() && Knows(c)
      modifies this`sys, c`slot
      ensures Valid()
      ensures sys == old(sys).(conns := old(sys).conns[c.who := Membership.Decide(old(sys).conns[c.who], d)])
    {
      var _ := c.Decide(d);
      sys := sys.(conns := sys.conns[c.who := Membership.Decide(sys.conns[c.who], d)]);
      assert c.Record() == sys.conns[c.who];
      OnlyChanged(c);
    }

    method ShutDown(c: Connection)
      requires Valid() && Knows(c)
      modifies this`sys, c`shut
      ensures Valid()
      ensures sys == old(sys).(conns := old(sys).conns[c.who := old(sys).conns[c.who].(shut := true)])
    {
      c.Shutdown();
      sys := sys.(conns := sys.conns[c.who := sys.conns[c.who].(shut := true)]);
      assert c.Record() == sys.conns[c.who];
      OnlyChanged(c);
    }

    /** 753-757, for one client. */
    method Dismiss(c: Connection, full: bool)
      requires Valid() && Knows(c)
      modifies this`sys, c`queue, c`shut
      ensures Valid()
      ensures sys == old(sys).(conns := old(sys).conns[c.who :=
        Membership.Queue(old(sys).conns[c.who], RoomClosed, full).(shut := true)])
    {
      Tell(c, RoomClosed, full);
      ShutDown(c);
    }

    method MakeHost(c: Connection)
      requires Valid() && Knows(c)
      modifies this`sys, this`hostID, c`role
      ensures Valid()
      ensures sys == old(sys).(hostID := Some(old(sys).conns[c.who].id), conns := old(sys).conns[c.who := old(sys).conns[c.who].(role := Host)])
    {
      hostID := Some(c.id);
      c.role := Host;
      sys := sys.(hostID := hostID, conns := sys.conns[c.who := sys.conns[c.who].(role := Host)]);
      assert c.Record() == sys.conns[c.who];
      OnlyChanged(c);
    }

    /** The program counter of the goroutine that runs the section. */
    ghost method Continue(c: Connection, pc: PC)
      requires Valid() && Knows(c)
      modifies this`sys, c`pc
      ensures Valid()
      ensures sys == Goto(old(sys), c.who, pc)
    {
      c.pc := pc;
      sys := Goto(sys, c.who, pc);
      assert c.Record() == sys.conns[c.who];
      OnlyChanged(c);
    }

    method ForgetPending(key: Id)
      requires Valid()
      modifies this`sys, this`pending
      ensures Valid() && sys == old(sys).(pending := old(pending) - {key})
    {
      pending := pending - {key};
      sys := sys.(pending := pending);
    }

    method ForgetClient(id: Id)
      requires Valid()
      modifies this`sys, this`clients
      ensures Valid() && sys == old(sys).(clients := old(clients) - {id})
    {
      clients := clients - {id};
      sys := sys.(clients := clients);
    }

    // -------------------------------------------------------------- reading the maps

    /** 842-859: `candidates` are the eight randomly suffixed ids, `fallback` the fresh one. */
    method UniqueClientIDLocked(base: Id, candidates: seq<Id>, fallback: Id) returns (id: Id)
      requires Valid() && |candidates| == 8
      ensures Free(sys, base) ==> id == base
      ensures id == fallback || Free(sys, id)
      ensures id != base ==> id in candidates || id == fallback
      ensures !Free(sys, id) ==> id == fallback && forall j :: 0 <= j < 8 ==> !Free(sys, candidates[j])
    {
      if base !in clients {
        if base !in pending { return base; }
      }
      for i := 0 to 8
        invariant forall j :: 0 <= j < i ==> !Free(sys, candidates[j])
      {
        if candidates[i] in clients { continue; }
        if candidates[i] in pending { continue; }
        return candidates[i];
      }
      return fallback;
    }

    /** 831-840 */
    method PeersLocked(excludeID: Id) returns (peers: set<Id>)
      requires Valid()
      ensures peers == sys.clients.Keys - {excludeID}
    {
      peers := {};
      var todo := clients.Keys;
      while todo != {}
        invariant todo <= clients.Keys
        invariant peers == clients.Keys - todo - {excludeID}
        decreases todo
      {
        var id :| id in todo;
        todo := todo - {id};
        if id == excludeID { continue; }
        peers := peers + {id};
      }
    }

    /** 862-869, 764-770: the targets snapshotted under the lock. */
    method TargetsLocked(excludeID: Option<Id>) returns (targets: set<Conn>)
      requires Valid()
      ensures targets == Targets(sys, excludeID)
    {
      targets := {};
      var todo := clients.Keys;
      while todo != {}
        invariant todo <= clients.Keys
        invariant targets == set i | i in clients && i !in todo && Some(i) != excludeID :: clients[i]
        decreases todo
      {
        var id :| id in todo;
        todo := todo - {id};
        if Some(id) != excludeID { targets := targets + {clients[id]}; }
      }
    }

    /** 1200-1208: the pending request bearing a number, if any. */
    method FindPendingLocked(request: nat) returns (found: Option<Conn>)
      requires Valid() && forall i :: i in pending ==> pending[i] in known
      ensures found.Some? ==> Finds(sys, found.value, request)
      ensures found.None? ==> forall i :: i in sys.pending ==> !Requests(sys, sys.pending[i], request)
    {
      var todo := pending.Keys;
      while todo != {}
        invariant todo <= pending.Keys
        invariant forall i :: i in pending && i !in todo ==> known[pending[i]].request != request
        decreases todo
      {
        var id :| id in todo;
        todo := todo - {id};
        if known[pending[id]].request == request {
          assert id in sys.pending && sys.pending[id] == pending[id];
          return Some(pending[id]);
        }
      }
      return None;
    }

    // -------------------------------------------------------------- joinRoom

    /** 635-655: the first occupant becomes the host. */
    method JoinAsHostLocked(c: Connection, id: Id, peers: set<Id>)
      requires Valid() && Knows(c) && hostID == None && peers == sys.clients.Keys - {id}
      modifies this`hostID, this`clients, this`sys, c
      ensures Valid() && known == old(known)
      ensures sys == Entering(old(sys), c.who, id, 0)
    {
      c.BecomeHost(id, peers);
      hostID, clients, sys := Some(id), clients[id := c.who], Entering(sys, c.who, id, 0);
      OnlyChanged(c);
    }

    /** 657-673: turned away. */
    method TurnAwayLocked(c: Connection, id: Id)
      requires Valid() && Knows(c) && hostID != None && (closed || Full(sys))
      modifies this`sys, c`id, c`role, c`pc
      ensures Valid()
      ensures sys == Entering(old(sys), c.who, id, 0)
    {
      c.id, c.role, c.pc := id, Collaborator, Refused(TellingRefused);
      sys := Entering(sys, c.who, id, 0);
      assert c.Record() == sys.conns[c.who];
      OnlyChanged(c);
    }

    /** 674-683: left waiting for the host's decision. */
    method WaitLocked(c: Connection, id: Id, request: nat) returns (hostClient: Option<Conn>)
      requires Valid() && Knows(c) && hostID != None && !closed && !Full(sys)
      modifies this`sys, this`pending, c`id, c`role, c`request, c`slot, c`pc
      ensures Valid()
      ensures sys == Entering(old(sys), c.who, id, request) && hostClient == HostClient(old(sys))
    {
      hostClient := if hostID.value in clients then Some(clients[hostID.value]) else None;
      c.id, c.role, c.request, c.slot := id, Collaborator, request, None;
      c.pc := Knocking(TellingPending(hostClient));
      pending, sys := pending[id := c.who], Entering(sys, c.who, id, request);
      assert c.Record() == sys.conns[c.who];
      OnlyChanged(c);
    }

    /** 629-683 */
    method JoinLocked(c: Connection, candidates: seq<Id>, fallback: Id, request: nat) returns (id: Id)
      requires Valid() && Knows(c) && c.pc == Arrived
      requires |candidates| == 8 && Free(sys, fallback)
      modifies this`hostID, this`clients, this`pending, this`sys, c
      ensures Valid() && known == old(known)
      ensures CanEnter(old(sys), c.who, id) && sys == Entering(old(sys), c.who, id, request)
    {
      id := UniqueClientIDLocked(c.id, candidates, fallback);
      if hostID == None {
        var peers := PeersLocked(id);
        JoinAsHostLocked(c, id, peers);
      } else if closed || (limit > 0 && |clients| >= limit) {
        TurnAwayLocked(c, id);
      } else {
        var _ := WaitLocked(c, id, request);
      }
    }

    /** 698-709: no longer pending, and rejected. */
    method RefuseLocked(c: Connection, decision: Decision)
      requires Valid() && Knows(c) && c.pc == Knocking(Decided(decision)) && (Dead(sys) || decision == Reject)
      modifies this`pending, this`sys, c`pc
      ensures Valid() && sys == Admitting(old(sys), c.who)
    {
      pending := pending - {c.id};
      sys := Admitting(sys, c.who);
      c.pc := Refused(TellingRefused);
      assert c.Record() == sys.conns[c.who];
      OnlyChanged(c);
    }

    /** 711-722: moved from pending to the members. */
    method WelcomeLocked(c: Connection, peers: set<Id>)
      requires Valid() && Knows(c) && c.pc == Knocking(Decided(Approve)) && !Dead(sys)
      requires peers == sys.clients.Keys - {c.id}
      modifies this`pending, this`clients, this`sys, c`queue, c`pc
      ensures Valid() && sys == Admitting(old(sys), c.who)
    {
      var _ := c.Queue(AuthOk(peers, hostID), false, false, false);
      pending, clients, sys := pending - {c.id}, clients[c.id := c.who], Admitting(sys, c.who);
      c.pc := Inside(Broadcasting(PeerJoined(c.id), Some(c.id)));
      assert c.Record() == sys.conns[c.who];
      OnlyChanged(c);
    }

    /** 697-722 */
    method AdmitLocked(c: Connection, decision: Decision) returns (admitted: bool)
      requires Valid() && Knows(c) && c.pc == Knocking(Decided(decision))
      modifies this`pending, this`clients, this`sys, c`queue, c`pc
      ensures Valid() && sys == Admitting(old(sys), c.who)
      ensures admitted <==> !Dead(old(sys)) && decision == Approve
    {
      if closed || (hostID != None && hostID.value !in clients) || decision == Reject {
        RefuseLocked(c, decision);
        return false;
      }
      var peers := PeersLocked(c.id);
      WelcomeLocked(c, peers);
      return true;
    }

    // -------------------------------------------------------------- kicks

    /** 1245-1247 */
    method RemoveLocked(c: Connection, x: Id)
      requires Valid() && Knows(c) && c.pc.Inside? && c.pc.work.DeletingTarget? && c.pc.work.x == x
      modifies this`clients, this`sys, c`pc
      ensures Valid() && sys == Removing(old(sys), c.who)
    {
      clients, sys := clients - {x}, Removing(sys, c.who);
      c.pc := Inside(Broadcasting(PeerLeft(x), None));
      assert c.Record() == sys.conns[c.who];
      OnlyChanged(c);
    }

    // -------------------------------------------------------------- leaveRoom

    method AnnounceTo(c: Connection, ghost s: Sys, ghost told: set<Conn>, newHost: Id, missed: set<Conn>)
      requires Valid() && Knows(c) && c.who in s.conns && c.who !in told
      requires sys == s.(conns := AnnounceHost(s.conns, told, newHost, missed))
      modifies this`sys, c`queue
      ensures Valid() && sys == s.(conns := AnnounceHost(s.conns, told + {c.who}, newHost, missed))
    {
      AnnounceOne(s.conns, told, c.who, newHost, missed);
      Tell(c, HostChanged(newHost), c.who in missed);
    }

    /** 824-826 */
    method AnnounceHostLocked(targets: set<Conn>, newHost: Id, missed: set<Conn>)
      requires Valid() && targets <= known.Keys
      modifies this`sys, Objects()
      ensures Valid() && sys == old(sys).(conns := AnnounceHost(old(sys).conns, targets, newHost, missed))
    {
      ghost var s, told: set<Conn> := sys, {};
      var todo := targets;
      assert AnnounceHost(s.conns, {}, newHost, missed) == s.conns;
      while todo != {}
        invariant todo <= targets && told == targets - todo && Valid()
        invariant sys == s.(conns := AnnounceHost(s.conns, told, newHost, missed))
        decreases todo
      {
        var t :| t in todo;
        AnnounceTo(known[t], s, told, newHost, missed);
        told := told + {t};
        todo := todo - {t};
      }
      assert told == targets;
    }

    /** 806-811: the client whose JoinedAt is earliest. */
    method ElectLocked() returns (heir: Conn)
      requires Valid() && Ids(sys) && clients != map[]
      ensures Earliest(sys, sys.clients, heir)
      ensures IsMember(sys, heir) && forall m :: IsMember(sys, m) ==> sys.conns[heir].joinedAt <= sys.conns[m].joinedAt
    {
      var first :| first in clients;
      heir := clients[first];
      assert IdOk(sys, first);
      var todo := clients.Keys - {first};
      while todo != {}
        invariant todo <= clients.Keys
        invariant heir in known && known[heir].id in clients && clients[known[heir].id] == heir
        invariant forall i :: i in clients && i !in todo ==>
          clients[i] in known && known[heir].joinedAt <= known[clients[i]].joinedAt
        decreases todo
      {
        var i :| i in todo;
        assert IdOk(sys, i);
        todo := todo - {i};
        if known[clients[i]].joinedAt < known[heir].joinedAt {
          heir := clients[i];
        }
      }
      assert known[heir].Record() == sys.conns[heir];
      forall i | i in sys.clients && sys.clients[i] in sys.conns
        ensures sys.conns[heir].joinedAt <= sys.conns[sys.clients[i]].joinedAt
      {
        assert known[clients[i]].Record() == sys.conns[clients[i]];
      }
    }

    /** 802-829, after the leaver has been deleted from `clients`. */
    method TryHostMigrationLocked(missed: set<Conn>) returns (migrated: bool, heir: Conn)
      requires Valid() && Ids(sys)
      modifies this`sys, this`hostID, Objects()
      ensures Valid()
      ensures migrated <==> old(sys).clients != map[]
      ensures !migrated ==> sys == old(sys)
      ensures migrated ==>
        && Earliest(old(sys), old(sys).clients, heir)
        && var s := old(sys);
           var h := s.conns[heir].id;
           sys == s.(hostID := Some(h),
                     conns := AnnounceHost(s.conns[heir := s.conns[heir].(role := Host)], Targets(s, None), h, missed))
    {
      heir := 0;
      if clients == map[] { return false, heir; }
      ghost var s := sys;
      heir := ElectLocked();
      MembershipStructure.TargetsAreInside(s, None);
      var targets := TargetsLocked(None);
      MakeHost(known[heir]);
      assert targets <= known.Keys;
      AnnounceHostLocked(targets, known[heir].id, missed);
      return true, heir;
    }

    method RejectOneLocked(c: Connection, key: Id, ghost s: Sys, ghost told: set<Conn>)
      requires Valid() && Knows(c) && c.who in s.conns
      requires sys == s.(pending := pending, conns := RejectAll(s.conns, told))
      modifies this`sys, this`pending, c`slot
      ensures Valid() && pending == old(pending) - {key}
      ensures sys == s.(pending := pending, conns := RejectAll(s.conns, told + {c.who}))
    {
      RejectOne(s.conns, told, c.who);
      Answer(c, Reject);
      ForgetPending(key);
    }

    /** 747-750: every waiting request is answered, and forgotten. */
    method RejectPendingLocked()
      requires Valid() && forall i :: i in pending ==> pending[i] in known
      modifies this`sys, this`pending, Objects()
      ensures Valid()
      ensures sys == old(sys).(pending := map[], conns := RejectAll(old(sys).conns, Waiters(old(sys))))
    {
      ghost var s, told: set<Conn> := sys, {};
      assert RejectAll(s.conns, {}) == s.conns;
      while pending != map[]
        invariant Valid()
        invariant forall i :: i in pending ==> i in s.pending && pending[i] == s.pending[i] && pending[i] in known
        invariant told == TakenOut(s.pending, pending)
        invariant sys == s.(pending := pending, conns := RejectAll(s.conns, told))
        decreases pending.Keys
      {
        var key :| key in pending;
        TakeOutOne(s.pending, pending, key);
        RejectOneLocked(known[pending[key]], key, s, told);
        told := told + {s.pending[key]};
      }
      assert told == Waiters(s);
    }

    method ShutOneLocked(c: Connection, id: Id, ghost s: Sys, ghost done: set<Conn>, missed: set<Conn>)
      requires Valid() && Knows(c) && c.who in s.conns && c.who !in done
      requires sys == s.(clients := clients, conns := ShutAll(s.conns, done, missed))
      modifies this`sys, this`clients, c`queue, c`shut
      ensures Valid() && clients == old(clients) - {id}
      ensures sys == s.(clients := clients, conns := ShutAll(s.conns, done + {c.who}, missed))
    {
      ShutOne(s.conns, done, c.who, missed);
      Dismiss(c, c.who in missed);
      ForgetClient(id);
    }

    /** 751-758: whoever is still a member is told, deleted and shut down. */
    method ShutEveryoneLocked(missed: set<Conn>)
      requires Valid() && Ids(sys)
      modifies this`sys, this`clients, Objects()
      ensures Valid()
      ensures sys == old(sys).(clients := map[], conns := ShutAll(old(sys).conns, Targets(old(sys), None), missed))
    {
      ghost var s, done: set<Conn> := sys, {};
      assert ShutAll(s.conns, {}, missed) == s.conns;
      while clients != map[]
        invariant Valid()
        invariant forall i :: i in clients ==> i in s.clients && clients[i] == s.clients[i]
        invariant done == TakenOut(s.clients, clients)
        invariant sys == s.(clients := clients, conns := ShutAll(s.conns, done, missed))
        decreases clients.Keys
      {
        var id :| id in clients;
        OneIdEach(s, id, done, clients);
        TakeOutOne(s.clients, clients, id);
        ShutOneLocked(known[clients[id]], id, s, done, missed);
        done := done + {s.clients[id]};
      }
      assert done == Targets(s, None);
    }

    lemma OneIdEach(s: Sys, id: Id, done: set<Conn>, left: map<Id, Conn>)
      requires Ids(s) && id in s.clients && id in left && done == TakenOut(s.clients, left)
      ensures s.clients[id] in s.conns && s.clients[id] !in done
    {
      assert IdOk(s, id);
      forall i | i in s.clients && i !in left ensures s.clients[i] != s.clients[id] { assert IdOk(s, i); }
    }

    /** 745-759: the room closes. */
    method CloseLocked(missed: set<Conn>)
      requires Valid() && Ids(sys) && clients == map[]
      modifies this`sys, this`closed, this`pending, this`clients, Objects()
      ensures Valid() && sys == Closing(old(sys))
    {
      ghost var s := sys;
      closed := true;
      sys := sys.(closed := true);
      forall i | i in pending ensures pending[i] in known { assert IdOk(s, i); }
      RejectPendingLocked();
      ShutEveryoneLocked(missed);
      NobodyToShut(sys, s, missed);
    }

    lemma NobodyToShut(s': Sys, s: Sys, missed: set<Conn>)
      requires s.clients == map[]
      ensures ShutAll(RejectAll(s.conns, Waiters(s)), Targets(s, None), missed) == RejectAll(s.conns, Waiters(s))
    {}

    /** 733-760 without the leaver's own bookkeeping: delete, then migrate or close if the host left. */
    method DepartLocked(c: Connection, missed: set<Conn>) returns (existed: bool, hostLeft: bool, heir: Conn)
      requires Valid() && Knows(c) && Structure(sys) && c.pc == Inside(LeavingLock)
      modifies this`sys, this`hostID, this`closed, this`pending, this`clients, Objects()
      ensures Valid() && CanLeave(old(sys), c.who, heir)
      ensures sys == Departed(old(sys), c.who, heir, missed)
      ensures existed <==> old(c.id) in old(sys).clients
      ensures hostLeft <==> HostLeaves(old(sys), c.who) && Remaining(old(sys), c.who) == map[]
    {
      heir := 0;
      existed := c.id in clients;
      hostLeft := existed && hostID == Some(c.id) && !closed;
      IdsWithout(sys, c.id);
      if existed { ForgetClient(c.id); }
      if hostLeft {
        var migrated;
        migrated, heir := TryHostMigrationLocked(missed);
        if migrated { hostLeft := false; }
      }
      if hostLeft { CloseLocked(missed); }
    }

    /** 733-771: returns the peers to notify and whether the room object is to be unregistered. */
    method LeaveLocked(c: Connection, missed: set<Conn>) returns (targets: set<Conn>, unregister: bool, heir: Conn)
      requires Valid() && Knows(c) && Structure(sys) && c.pc == Inside(LeavingLock)
      modifies this`sys, this`hostID, this`closed, this`pending, this`clients, Objects()
      ensures Valid() && CanLeave(old(sys), c.who, heir)
      ensures sys == Leaving(old(sys), c.who, heir, missed)
      ensures sys.conns[c.who].pc == Parting(TellingPeers(old(c.id), targets, unregister))
        || (targets == {} && sys.conns[c.who].pc == if unregister then Parting(Unregistering) else Gone)
    {
      targets := {};
      var id := c.id;
      ghost var s := sys;
      var existed, hostLeft;
      existed, hostLeft, heir := DepartLocked(c, missed);
      unregister := clients == map[];
      if existed && !hostLeft { targets := TargetsLocked(None); }
      LeavingIsDeparting(s, c.who, heir, missed);
      Continue(c, if existed && !hostLeft then Parting(TellingPeers(id, targets, unregister))
                  else if unregister then Parting(Unregistering) else Gone);
    }
  }

  ghost function Departed(s: Sys, c: Conn, heir: Conn, missed: set<Conn>): Sys
    requires CanLeave(s, c, heir)
  {
    if HostLeaves(s, c) && Remaining(s, c) == map[] then Closing(s)
    else if HostLeaves(s, c) then Migrating(s, c, heir, missed)
    else s.(clients := Remaining(s, c))
  }

  lemma LeavingIsDeparting(s: Sys, c: Conn, heir: Conn, missed: set<Conn>)
    requires CanLeave(s, c, heir)
    ensures
      var d := Departed(s, c, heir, missed);
      var id := s.conns[c].id;
      && d.clients == Remaining(s, c) && c in d.conns
      && Leaving(s, c, heir, missed) == Goto(d, c,
           if id in s.clients && !(HostLeaves(s, c) && Remaining(s, c) == map[])
           then Parting(TellingPeers(id, Targets(d, None), d.clients == map[]))
           else if d.clients == map[] then Parting(Unregistering) else Gone)
  {}

  lemma IdsWithout(s: Sys, id: Id)
    requires Ids(s)
    ensures Ids(s.(clients := s.clients - {id}))
    ensures id !in s.clients ==> s.clients - {id} == s.clients
  {
    forall i ensures IdOk(s.(clients := s.clients - {id}), i) { assert IdOk(s, i); }
  }
}
