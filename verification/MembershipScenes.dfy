/** Reusable stretches of runs, each from a reachable state to a reachable state. */
module MembershipScenes {
  import opened Options
  import opened Membership
  import opened MembershipAgreement
  import opened MembershipRuns
  import opened MembershipViews

  /** Connection h hosts the open room under id a and is between two messages. */
  predicate HostReads(s: Sys, h: Conn, a: Id) {
    && s.hostID == Some(a) && !s.closed
    && a in s.clients && s.clients[a] == h
    && h in s.conns && s.conns[h].id == a && s.conns[h].pc == Inside(Reading) && !s.conns[h].shut
  }

  /** d passes the host check of a room whose host is present, and is between two messages. */
  predicate Decides(s: Sys, d: Conn) {
    !Dead(s) && d in s.conns && IsHost(s, d) && s.conns[d].pc == Inside(Reading)
  }

  /** The same room; of the connections only those in `acting` may have changed. */
  ghost predicate OnlyActing(s: Sys, s': Sys, acting: set<Conn>) {
    && s'.hostID == s.hostID && s'.closed == s.closed && s'.clients == s.clients && s'.pending == s.pending
    && s'.limit == s.limit && s'.conns.Keys == s.conns.Keys
    && forall d :: d in s.conns && d !in acting ==> s'.conns[d] == s.conns[d]
  }

  // ---------------------------------------------------------------- messages

  /** c queues to its last target t and returns to its read loop. */
  lemma SendLast(s: Sys, c: Conn, m: Msg, t: Conn) returns (s': Sys)
    requires Reachable(s) && c in s.conns && t in s.conns && s.conns[c].pc == Inside(Sending(m, {t}))
    ensures Reachable(s') && OnlyActing(s, s', {c, t})
    ensures t != c ==> s'.conns[t] == Queue(s.conns[t], m, false)
    ensures s'.conns[c] == (if t == c then Queue(s.conns[c], m, false) else s.conns[c]).(pc := Inside(Reading))
  {
    Extend(s, Deliver(c, t, false));
    var s1 := Delivering(s, c, t, false);
    assert {t} - {t} == {};
    assert s1.conns[c].pc == Inside(Sending(m, {}));
    Extend(s1, Move(c, Inside(Reading)));
    s' := Goto(s1, c, Inside(Reading));
  }

  /** c's read loop ends, and it shuts itself down. */
  lemma Quit(s: Sys, c: Conn) returns (s': Sys)
    requires Reachable(s) && c in s.conns && s.conns[c].pc == Inside(Reading)
    ensures Reachable(s') && OnlyActing(s, s', {c})
    ensures s'.conns[c] == s.conns[c].(shut := true, pc := Inside(LeavingLock))
  {
    Extend(s, Move(c, Inside(LeavingShut)));
    var s1 := Goto(s, c, Inside(LeavingShut));
    Extend(s1, Shut(c));
    s' := Shutting(s1, c);
  }

  lemma OtherMember(s: Sys, a: Id, h: Conn, id: Id)
    requires s.clients.Keys <= {a, id} && a in s.clients && s.clients[a] == h && a != id
    ensures Targets(s, Some(id)) == {h}
  {
    assert Some(a) != Some(id);
  }

  /** c, newly admitted to a room of two, snapshots whom to tell: the host. */
  lemma BeginAnnouncing(s: Sys, a: Id, h: Conn, c: Conn, id: Id) returns (s': Sys)
    requires Reachable(s) && s.clients == map[a := h, id := c] && a != id && c in s.conns
    requires s.conns[c].pc == Inside(Broadcasting(PeerJoined(id), Some(id)))
    ensures Reachable(s') && s' == Goto(s, c, Inside(Sending(PeerJoined(id), {h})))
  {
    OtherMember(s, a, h, id);
    Extend(s, Move(c, Inside(Sending(PeerJoined(id), {h}))));
    s' := Goto(s, c, Inside(Sending(PeerJoined(id), {h})));
  }

  /** c announces itself to h alone. */
  lemma Announce(s: Sys, h: Conn, c: Conn, id: Id) returns (s': Sys)
    requires Reachable(s) && c in s.conns && h in s.conns && c != h && !s.conns[h].shut
    requires s.conns[c].pc == Inside(Sending(PeerJoined(id), {h}))
    ensures Reachable(s') && OnlyActing(s, s', {c, h})
    ensures s'.conns[c] == s.conns[c].(pc := Inside(Reading))
    ensures s'.conns[h] == s.conns[h].(queue := s'.conns[h].queue) && View(s'.conns[h].queue) == View(s.conns[h].queue) + {id}
  {
    ViewOfQueue(s.conns[h], PeerJoined(id), false);
    s' := SendLast(s, c, PeerJoined(id), h);
  }

  // ---------------------------------------------------------------- joining

  lemma HostedRoom(a: Id, limit: nat) returns (s: Sys)
    ensures s.limit == limit && Reachable(s) && HostReads(s, 0, a)
    ensures s.clients == map[a := 0] && s.pending == map[] && s.conns.Keys == {0}
    ensures View(s.conns[0].queue) == {} && s.conns[0].joinedAt == 0
  {
    var s0 := Init(limit);
    InitReachable(limit);
    Extend(s0, Arrive(0, a, 0));
    var s1 := Arriving(s0, 0, a, 0);
    Extend(s1, Enter(0, a, 0));
    s := Entering(s1, 0, a, 0);
    ViewOfQueue(s1.conns[0], AuthOk({}, Some(a)), false);
  }

  /** c arrives, asks for id, and is left waiting with the host h still to be told. */
  lemma StartAsking(s: Sys, h: Conn, c: Conn, id: Id, request: nat) returns (s': Sys)
    requires Reachable(s) && HostClient(s) == Some(h) && !s.closed && c !in s.conns && Free(s, id) && !Full(s)
    ensures Reachable(s')
    ensures s' == s.(pending := s.pending[id := c],
      conns := s.conns[c := Client(id, Collaborator, c, request, None, false, [JoinPending], Knocking(TellingHost(Some(h))))])
  {
    Extend(s, Arrive(c, id, c));
    var s1 := Arriving(s, c, id, c);
    Extend(s1, Enter(c, id, request));
    var s2 := Entering(s1, c, id, request);
    assert s2.conns[c].queue + [JoinPending] == [JoinPending];
    Extend(s2, Deliver(c, c, false));
    s' := Delivering(s2, c, c, false);
  }

  /** c asks to join under id; its request reaches the host h. */
  lemma Ask(s: Sys, h: Conn, c: Conn, id: Id, request: nat) returns (s': Sys)
    requires Reachable(s) && HostClient(s) == Some(h) && h in s.conns && !s.closed && c !in s.conns && Free(s, id) && !Full(s)
    ensures Reachable(s') && s'.conns.Keys == s.conns.Keys + {c}
    ensures s'.hostID == s.hostID && !s'.closed && s'.clients == s.clients && s'.pending == s.pending[id := c] && s'.limit == s.limit
    ensures s'.conns[c] == Client(id, Collaborator, c, request, None, false, [JoinPending], Knocking(Waiting))
    ensures forall d :: d in s.conns && d != h ==> s'.conns[d] == s.conns[d]
    ensures s'.conns[h] == s.conns[h].(queue := s'.conns[h].queue) && View(s'.conns[h].queue) == View(s.conns[h].queue)
  {
    var s1 := StartAsking(s, h, c, id, request);
    Extend(s1, Deliver(c, h, false));
    s' := Delivering(s1, c, h, false);
    ViewOfQueue(s1.conns[h], JoinRequest(request), false);
  }

  /** d finds the request that c waits on. */
  lemma FindRequest(s: Sys, d: Conn, c: Conn, id: Id) returns (s': Sys)
    requires Reachable(s) && Decides(s, d) && id in s.pending && s.pending[id] == c && c in s.conns && c != d
    ensures Reachable(s') && s' == Goto(s, d, Inside(PlacingDecision(c, Approve)))
  {
    var request := s.conns[c].request;
    assert Finds(s, c, request) by { assert id in s.pending && s.pending[id] == c; }
    Extend(s, Move(d, Inside(LookingUpRequest(request, Approve))));
    var s1 := Goto(s, d, Inside(LookingUpRequest(request, Approve)));
    assert Finds(s1, c, request) by { assert id in s1.pending && s1.pending[id] == c; }
    Extend(s1, Move(d, Inside(PlacingDecision(c, Approve))));
    s' := Goto(s1, d, Inside(PlacingDecision(c, Approve)));
  }

  /** c reads its approval and is admitted. */
  lemma Admission(s: Sys, c: Conn) returns (s': Sys)
    requires Reachable(s) && CanReceive(s, c) && s.conns[c].slot == Some(Approve) && !Dead(s)
    ensures Reachable(s') && CanReceive(s, c) && s' == Admitting(Receiving(s, c), c)
  {
    Extend(s, Receive(c));
    var s1 := Receiving(s, c);
    Extend(s1, Admit(c));
    s' := Admitting(s1, c);
  }

  /** d approves c's request, and c is admitted. */
  lemma LetIn(s: Sys, d: Conn, c: Conn, id: Id) returns (s': Sys)
    requires Reachable(s) && Decides(s, d) && id in s.pending && s.pending[id] == c && id !in s.clients && c in s.conns && c != d
    requires var k := s.conns[c]; k.id == id && k.pc == Knocking(Waiting) && k.slot == None && !k.shut
    ensures Reachable(s') && s'.clients == s.clients[id := c] && s'.pending == s.pending - {id} && s'.limit == s.limit
    ensures s'.hostID == s.hostID && !s'.closed && s'.conns.Keys == s.conns.Keys
    ensures
      var k := s'.conns[c];
      && k.id == id && k.pc == Inside(Broadcasting(PeerJoined(id), Some(id))) && !k.shut && LastHost(k.queue) == s.hostID
      && k.joinedAt == s.conns[c].joinedAt
    ensures forall e :: e in s.conns && e != c ==> s'.conns[e] == s.conns[e]
  {
    var s2 := FindRequest(s, d, c, id);
    Extend(s2, PlaceDecision(d));
    var s3 := Placing(s2, d);
    s' := Admission(s3, c);
    LastHostOfQueue(s3.conns[c], AuthOk(s3.clients.Keys - {id}, s.hostID), false);
  }

  /** A newcomer asks the host h, and d lets it in. */
  lemma Join(s: Sys, h: Conn, d: Conn, c: Conn, id: Id) returns (s': Sys)
    requires Reachable(s) && Decides(s, d) && HostClient(s) == Some(h) && h in s.conns
    requires c !in s.conns && Free(s, id) && !Full(s)
    ensures Reachable(s') && s'.clients == s.clients[id := c] && s'.pending == s.pending && s'.limit == s.limit
    ensures s'.hostID == s.hostID && !s'.closed && s'.conns.Keys == s.conns.Keys + {c}
    ensures
      var k := s'.conns[c];
      && k.id == id && k.pc == Inside(Broadcasting(PeerJoined(id), Some(id))) && !k.shut && LastHost(k.queue) == s.hostID
      && k.joinedAt == c
    ensures forall e :: e in s.conns && e != h ==> s'.conns[e] == s.conns[e]
    ensures s'.conns[h] == s.conns[h].(queue := s'.conns[h].queue) && View(s'.conns[h].queue) == View(s.conns[h].queue)
  {
    var s1 := Ask(s, h, c, id, c);
    s' := LetIn(s1, d, c, id);
    assert s.pending[id := c] - {id} == s.pending;
  }

  /** Host a alone with connection 1 under id b, which has just snapshotted its announcement's targets. */
  lemma TwoMembers(a: Id, b: Id) returns (s: Sys)
    requires a != b
    ensures Reachable(s) && HostReads(s, 0, a) && s.clients == map[a := 0, b := 1] && s.pending == map[] && s.limit == 0
    ensures s.conns.Keys == {0, 1} && s.conns[1].id == b && s.conns[1].pc == Inside(Sending(PeerJoined(b), {0}))
    ensures !s.conns[1].shut && s.conns[1].joinedAt == 1 && s.conns[0].joinedAt == 0 && LastHost(s.conns[1].queue) == Some(a)
    ensures View(s.conns[0].queue) == {}
  {
    var s1 := HostedRoom(a, 0);
    var s2 := Join(s1, 0, 0, 1, b);
    s := BeginAnnouncing(s2, a, 0, 1, b);
  }

  // ---------------------------------------------------------------- kicking

  /** d handles peer_kick naming x, up to its target lookup. */
  lemma FindTarget(s: Sys, d: Conn, x: Id) returns (s': Sys)
    requires Reachable(s) && Decides(s, d) && x in s.clients && s.clients[x] in s.conns
    ensures Reachable(s') && s' == Goto(s, d, Inside(TellingTarget(x, s.clients[x])))
  {
    Extend(s, Move(d, Inside(LookingUpTarget(x))));
    var s1 := Goto(s, d, Inside(LookingUpTarget(x)));
    Extend(s1, Move(d, Inside(TellingTarget(x, s.clients[x]))));
    s' := Goto(s1, d, Inside(TellingTarget(x, s.clients[x])));
  }

  /** The target is told first. */
  lemma TellTarget(s: Sys, d: Conn, x: Id, t: Conn) returns (s': Sys)
    requires Reachable(s) && d in s.conns && t in s.conns && s.conns[d].pc == Inside(TellingTarget(x, t))
    ensures Reachable(s') && OnlyActing(s, s', {d, t})
    ensures s'.conns[d] == s.conns[d].(queue := s'.conns[d].queue, pc := Inside(ShuttingTarget(x, t)))
    ensures t != d ==> s'.conns[t] == Queue(s.conns[t], PeerKicked, false) && s'.conns[d].queue == s.conns[d].queue
  {
    Extend(s, Deliver(d, t, false));
    s' := Delivering(s, d, t, false);
  }

  /** The target is told, and shut down. */
  lemma Strike(s: Sys, d: Conn, x: Id, t: Conn) returns (s': Sys)
    requires Reachable(s) && d in s.conns && t in s.conns && s.conns[d].pc == Inside(TellingTarget(x, t))
    ensures Reachable(s') && OnlyActing(s, s', {d, t})
    ensures s'.conns[d] == s.conns[d].(queue := s'.conns[d].queue, shut := s.conns[d].shut || t == d, pc := Inside(DeletingTarget(x, t)))
    ensures t != d ==>
      s'.conns[t] == Queue(s.conns[t], PeerKicked, false).(shut := true) && s'.conns[d].queue == s.conns[d].queue
  {
    var s1 := TellTarget(s, d, x, t);
    Extend(s1, Shut(d));
    s' := Shutting(s1, d);
  }

  /** d handles peer_kick naming x, up to and including the delete. */
  lemma Kick(s: Sys, d: Conn, x: Id) returns (s': Sys)
    requires Reachable(s) && Decides(s, d) && x in s.clients && s.clients[x] in s.conns
    ensures Reachable(s') && s'.clients == s.clients - {x}
    ensures s'.hostID == s.hostID && !s'.closed && s'.limit == s.limit && s'.pending == s.pending
    ensures s'.conns.Keys == s.conns.Keys
    ensures
      var t := s.clients[x];
      && s'.conns[d] == s.conns[d].(queue := s'.conns[d].queue, shut := s.conns[d].shut || t == d,
                                    pc := Inside(Broadcasting(PeerLeft(x), None)))
      && (t != d ==> s'.conns[t] == Queue(s.conns[t], PeerKicked, false).(shut := true) && s'.conns[d].queue == s.conns[d].queue)
      && forall e :: e in s.conns && e != d && e != t ==> s'.conns[e] == s.conns[e]
  {
    var s1 := FindTarget(s, d, x);
    var s2 := Strike(s1, d, x, s.clients[x]);
    Extend(s2, Remove(d));
    s' := Removing(s2, d);
  }

  lemma OneTarget(s: Sys, a: Id, h: Conn)
    requires s.clients == map[a := h]
    ensures Targets(s, None) == {h}
  {
    assert a in s.clients && s.clients[a] == h && Some(a) != None;
  }

  lemma BeginReporting(s: Sys, h: Conn, a: Id, x: Id) returns (s': Sys)
    requires Reachable(s) && s.clients == map[a := h] && h in s.conns && s.conns[h].pc == Inside(Broadcasting(PeerLeft(x), None))
    ensures Reachable(s') && s' == Goto(s, h, Inside(Sending(PeerLeft(x), {h})))
  {
    OneTarget(s, a, h);
    Extend(s, Move(h, Inside(Sending(PeerLeft(x), {h}))));
    s' := Goto(s, h, Inside(Sending(PeerLeft(x), {h})));
  }

  lemma TellSelf(s: Sys, h: Conn, x: Id) returns (s': Sys)
    requires Reachable(s) && h in s.conns && !s.conns[h].shut && s.conns[h].pc == Inside(Sending(PeerLeft(x), {h}))
    ensures Reachable(s') && OnlyActing(s, s', {h})
    ensures s'.conns[h] == s.conns[h].(queue := s'.conns[h].queue, pc := Inside(Reading))
    ensures View(s'.conns[h].queue) == View(s.conns[h].queue) - {x}
  {
    ViewOfQueue(s.conns[h], PeerLeft(x), false);
    s' := SendLast(s, h, PeerLeft(x), h);
  }

  /** The host h, the only member left, tells itself that x left. */
  lemma ReportKick(s: Sys, h: Conn, a: Id, x: Id) returns (s': Sys)
    requires Reachable(s) && s.clients == map[a := h] && h in s.conns && !s.conns[h].shut
    requires s.conns[h].pc == Inside(Broadcasting(PeerLeft(x), None))
    ensures Reachable(s') && OnlyActing(s, s', {h})
    ensures s'.conns[h] == s.conns[h].(queue := s'.conns[h].queue, pc := Inside(Reading))
    ensures View(s'.conns[h].queue) == View(s.conns[h].queue) - {x}
  {
    var s1 := BeginReporting(s, h, a, x);
    s' := TellSelf(s1, h, x);
  }

  /** The host 0 of a room of two, kicks the other, 1, and reports it; 1 goes on as it was, shut. */
  lemma KickTheOther(s: Sys, a: Id, b: Id) returns (s': Sys)
    requires Reachable(s) && a != b && HostReads(s, 0, a) && s.clients == map[a := 0, b := 1] && 1 in s.conns
    ensures Reachable(s') && HostReads(s', 0, a) && s'.clients == map[a := 0] && s'.pending == s.pending
    ensures s'.conns.Keys == s.conns.Keys && s'.limit == s.limit
    ensures s'.conns[1] == Queue(s.conns[1], PeerKicked, false).(shut := true)
    ensures View(s'.conns[0].queue) == View(s.conns[0].queue) - {b}
  {
    var s1 := Kick(s, 0, b);
    assert s1.clients == map[a := 0];
    s' := ReportKick(s1, 0, a, b);
  }

  // ---------------------------------------------------------------- leaving

  /** A connection that is no member leaves: nothing changes but itself. */
  lemma LeaveUnseen(s: Sys, c: Conn) returns (s': Sys)
    requires Reachable(s) && c in s.conns && s.conns[c].pc == Inside(LeavingLock)
    requires s.conns[c].id !in s.clients && s.clients != map[]
    ensures Reachable(s') && OnlyActing(s, s', {c}) && s'.conns[c] == s.conns[c].(pc := Gone)
  {
    assert Remaining(s, c) == s.clients;
    Extend(s, Leave(c, c, {}));
    s' := Leaving(s, c, c, {});
  }

  /** A member leaves a room of two to its host h, which it has yet to tell. */
  lemma LeaveToHost(s: Sys, a: Id, h: Conn, c: Conn, id: Id) returns (s': Sys)
    requires Reachable(s) && a != id && s.hostID == Some(a) && s.clients == map[a := h, id := c] && h in s.conns && c in s.conns
    requires c != h && s.conns[c].id == id && s.conns[c].pc == Inside(LeavingLock)
    ensures Reachable(s') && s' == Goto(s.(clients := map[a := h]), c, Parting(TellingPeers(id, {h}, false)))
  {
    assert Remaining(s, c) == map[a := h] && map[a := h] != map[] by { assert a in map[a := h]; }
    OneTarget(s.(clients := map[a := h]), a, h);
    Extend(s, Leave(c, c, {}));
    s' := Leaving(s, c, c, {});
  }

  /** The host 0 of a room of two leaves, and `missed` says whose channel drops the announcement. */
  lemma HostLeavesTo(s: Sys, a: Id, c: Conn, b: Id, missed: set<Conn>) returns (s': Sys)
    requires Reachable(s) && a != b && s.clients == map[a := 0, b := c] && c in s.conns && s.conns[c].id == b && c != 0
    requires HostReads(s, 0, a)
    ensures Reachable(s') && s'.hostID == Some(b) && !s'.closed && s'.clients == map[b := c] && s'.conns.Keys == s.conns.Keys
    ensures s'.pending == s.pending && s'.limit == s.limit
    ensures s'.conns[c] == Queue(s.conns[c].(role := Host), HostChanged(b), c in missed)
    ensures forall d :: d in s.conns && d != 0 && d != c ==> s'.conns[d] == s.conns[d]
  {
    var s1 := Quit(s, 0);
    assert Remaining(s1, 0) == map[b := c] && map[b := c] != map[] by { assert b in map[b := c]; }
    OneTarget(s1.(clients := map[b := c]), b, c);
    Extend(s1, Leave(0, c, missed));
    s' := Leaving(s1, 0, c, missed);
  }
}
