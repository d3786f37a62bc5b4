/**
 * Why the hypotheses are there: for each one, a run from the empty room breaks it and the property with
 * it (for any different ids).  When exactly a property holds is said where it is proved.
 */
module MembershipLimits {
  import opened Options
  import opened Membership
  import opened MembershipStructure
  import opened MembershipAgreement
  import opened MembershipHost
  import opened MembershipRuns
  import opened MembershipScenes
  import opened MembershipViews

  // ---------------------------------------------------------------- NoSelfKick

  /** A host that kicks itself leaves an open room whose host is absent. */
  lemma SelfKickLosesTheHost(a: Id)
    ensures exists s :: Reachable(s) && !s.closed && HostAbsent(s)
  {
    var s := HostedRoom(a, 0);
    var s' := Kick(s, 0, a);
    assert Reachable(s') && HostAbsent(s');
  }

  // ---------------------------------------------------------------- maxClientsPerRoom

  /** Admission does not ask whether the room is full: it passes the limit exactly when the room already is. */
  lemma AdmissionPassesTheLimitIff(s: Sys, c: Conn)
    requires Structure(s) && CanAdmit(s, c) && s.limit > 0 && |s.clients| <= s.limit
    ensures |Admitting(s, c).clients| > s.limit <==> Full(s) && !Dead(s) && s.conns[c].pc.knock.decision == Approve
  {
    assert KnockOk(s, c) && IdOk(s, s.conns[c].id);
  }

  /** Two clients that knock while one place is left are both admitted. */
  lemma LimitIsExceeded(a: Id, b: Id, d: Id)
    requires a != b && b != d && d != a
    ensures exists s :: Reachable(s) && 0 < s.limit < |s.clients|
  {
    var s1 := HostedRoom(a, 2);
    assert s1.clients.Keys == {a};
    var s2 := Ask(s1, 0, 1, b, 1);
    var s3 := Ask(s2, 0, 2, d, 2);
    var s4 := LetIn(s3, 0, 1, b);
    var s5 := LetIn(s4, 0, 2, d);
    assert s5.clients.Keys == {a, b, d};
  }

  // ---------------------------------------------------------------- FreshId: removals

  /** Connection 1 was kicked, and reads on; connection 2 came in under the same id b. */
  lemma Replaced(a: Id, b: Id) returns (s: Sys)
    requires a != b
    ensures Reachable(s) && HostReads(s, 0, a) && s.clients == map[a := 0, b := 2] && s.pending == map[] && s.limit == 0
    ensures s.conns.Keys == {0, 1, 2} && s.conns[1].id == b && s.conns[1].pc == Inside(Reading) && s.conns[1].shut
    ensures s.conns[2].id == b && s.conns[2].pc == Inside(Broadcasting(PeerJoined(b), Some(b))) && !s.conns[2].shut
  {
    var s1 := TwoMembers(a, b);
    var s2 := Announce(s1, 0, 1, b);
    var s3 := KickTheOther(s2, a, b);
    s := Join(s3, 0, 0, 2, b);
  }

  /**
   * A kicked client reconnects under its old id and is approved before its first connection has run
   * leaveRoom; that leaveRoom then removes the new connection, which nobody kicked and which is live.
   */
  lemma ReusedIdIsRemoved(a: Id, b: Id)
    requires a != b
    ensures exists s, c, d, heir ::
      && Reachable(s) && CanLeave(s, c, heir) && c != d
      && d in s.conns && IsMember(s, d) && !s.conns[d].shut && s.conns[d].pc.Inside?
      && !IsMember(Leaving(s, c, heir, {}), d)
  {
    var s1 := Replaced(a, b);
    var s2 := Quit(s1, 1);
    assert CanLeave(s2, 1, 0);
    LeaveEffect(s2, 1, 0, {});
    assert IsMember(s2, 2);
  }

  /** Then the host leaves, and 2, the only other member, is elected. */
  lemma StaleGuest(a: Id, b: Id) returns (s: Sys)
    requires a != b
    ensures Reachable(s) && s.hostID == Some(b) && !s.closed && s.clients == map[b := 2] && s.pending == map[] && s.limit == 0
    ensures s.conns.Keys == {0, 1, 2} && s.conns[1].id == b && s.conns[1].pc == Inside(Reading) && s.conns[1].shut
    ensures s.conns[2].id == b && s.conns[2].pc == Inside(Broadcasting(PeerJoined(b), Some(b))) && !s.conns[2].shut
  {
    var s1 := Replaced(a, b);
    s := HostLeavesTo(s1, a, 2, b, {});
  }

  /**
   * The host check compares ids: a connection that was kicked, is shut and is no member of a living
   * room passes it, because its id has become the host's.
   */
  lemma StaleConnectionPassesTheHostCheck(a: Id, b: Id)
    requires a != b
    ensures exists s, c ::
      && Reachable(s) && s.hostID.Some? && !Dead(s)
      && c in s.conns && s.conns[c].shut && !IsMember(s, c) && Privileged(s.conns[c].pc)
  {
    var s := StaleGuest(a, b);
    Extend(s, Move(1, Inside(LookingUpRequest(0, Approve))));
    var s' := Goto(s, 1, Inside(LookingUpRequest(0, Approve)));
    assert Reachable(s') && Privileged(s'.conns[1].pc) && !IsMember(s', 1) && !Dead(s');
  }

  /** The new host, alone, ends its announcement, lets 3 in as x, and looks 3 up to kick it; 3 reads on. */
  lemma KickBegins(a: Id, b: Id, x: Id) returns (s: Sys)
    requires a != b && b != x
    ensures Reachable(s) && s.hostID == Some(b) && !s.closed && s.clients == map[b := 2, x := 3] && s.pending == map[] && s.limit == 0
    ensures s.conns.Keys == {0, 1, 2, 3} && s.conns[1].id == b && s.conns[1].pc == Inside(Reading)
    ensures s.conns[2].id == b && s.conns[2].pc == Inside(TellingTarget(x, 3)) && !s.conns[2].shut
    ensures s.conns[3].id == x && s.conns[3].pc == Inside(Reading)
  {
    var s1 := StaleGuest(a, b);
    var s2 := AnnounceToNobody(s1, 2, b);
    var s3 := Join(s2, 2, 2, 3, x);
    var s4 := BeginAnnouncing(s3, b, 2, 3, x);
    var s5 := Announce(s4, 2, 3, x);
    s := FindTarget(s5, 2, x);
  }

  lemma AnnounceToNobody(s: Sys, c: Conn, id: Id) returns (s': Sys)
    requires Reachable(s) && s.clients == map[id := c] && c in s.conns
    requires s.conns[c].pc == Inside(Broadcasting(PeerJoined(id), Some(id)))
    ensures Reachable(s') && s' == Goto(s, c, Inside(Reading))
  {
    assert Targets(s, Some(id)) == {};
    Extend(s, Move(c, Inside(Sending(PeerJoined(id), {}))));
    var s1 := Goto(s, c, Inside(Sending(PeerJoined(id), {})));
    Extend(s1, Move(c, Inside(Reading)));
    s' := Goto(s1, c, Inside(Reading));
  }

  /** The target leaves by itself before the kick tells it, and shuts it down, all the same. */
  lemma TargetLeaves(a: Id, b: Id, x: Id) returns (s: Sys)
    requires a != b && b != x
    ensures Reachable(s) && s.hostID == Some(b) && !s.closed && s.clients == map[b := 2] && s.pending == map[] && s.limit == 0
    ensures s.conns.Keys == {0, 1, 2, 3} && s.conns[1].id == b && s.conns[1].pc == Inside(Reading)
    ensures s.conns[2].pc == Inside(DeletingTarget(x, 3))
  {
    var s1 := KickBegins(a, b, x);
    var s2 := Quit(s1, 3);
    var s3 := LeaveToHost(s2, b, 2, 3, x);
    s := Strike(s3, 2, x, 3);
  }

  /**
   * A kick removes a connection that nobody kicked: between its lookup and its delete the target leaves,
   * and the stale connection, passing the host check, lets a newcomer in under the same id.
   */
  lemma KickRemovesAnother(a: Id, b: Id, x: Id)
    requires a != b && b != x
    ensures exists s, c, d ::
      && Reachable(s) && CanRemove(s, c) && s.conns[c].pc.work.target != d
      && d in s.conns && IsMember(s, d) && !s.conns[d].shut && s.conns[d].pc.Inside?
      && !IsMember(Removing(s, c), d)
  {
    var s1 := TargetLeaves(a, b, x);
    var s2 := Join(s1, 2, 1, 4, x);
    assert CanRemove(s2, 2) && s2.conns[2].pc.work.target == 3 && IsMember(s2, 4);
    assert !IsMember(Removing(s2, 2), 4);
  }

  // ---------------------------------------------------------------- FreshId: views

  lemma LeftUntold(a: Id, b: Id) returns (s: Sys)
    requires a != b
    ensures Reachable(s) && HostReads(s, 0, a) && s.clients == map[a := 0] && s.pending == map[] && s.limit == 0
    ensures s.conns.Keys == {0, 1} && s.conns[1].pc == Parting(TellingPeers(b, {0}, false))
  {
    var s1 := TwoMembers(a, b);
    var s2 := Announce(s1, 0, 1, b);
    var s3 := Quit(s2, 1);
    s := LeaveToHost(s3, a, 0, 1, b);
  }

  /** A member leaves and has yet to tell the host; another comes in under its id, and announces itself. */
  lemma RejoinedBeforeReported(a: Id, b: Id) returns (s: Sys)
    requires a != b
    ensures Reachable(s) && HostReads(s, 0, a) && s.clients == map[a := 0, b := 2] && s.conns.Keys == {0, 1, 2}
    ensures s.conns[1].pc == Parting(TellingPeers(b, {0}, false)) && s.conns[2].pc == Inside(Reading)
  {
    var s1 := LeftUntold(a, b);
    var s2 := Join(s1, 0, 0, 2, b);
    var s3 := BeginAnnouncing(s2, a, 0, 2, b);
    s := Announce(s3, 0, 2, b);
  }

  /** The late peer_left takes the newcomer out of the host's view, for good. */
  lemma LateNoticeHidesTheNewcomer(a: Id, b: Id)
    requires a != b
    ensures exists s ::
      && Reachable(s) && Open(s, 0) && NothingInFlight(s)
      && b in s.clients && b != s.conns[0].id && b !in View(s.conns[0].queue)
  {
    var s1 := RejoinedBeforeReported(a, b);
    ViewOfQueue(s1.conns[0], PeerLeft(b), false);
    Extend(s1, Deliver(1, 0, false));
    var s2 := Delivering(s1, 1, 0, false);
    assert {0} - {0} == {};
    assert s2.conns[1].pc == Parting(TellingPeers(b, {}, false)) && s2.conns.Keys == {0, 1, 2};
    assert NothingInFlight(s2);
  }

  // ---------------------------------------------------------------- KicksSettled

  /** A kick that overtakes its target's own announcement leaves the host seeing a peer for good. */
  lemma OvertakenAnnouncementLeavesGhost(a: Id, b: Id)
    requires a != b
    ensures exists s ::
      && Reachable(s) && Open(s, 0) && NothingInFlight(s)
      && b !in s.clients && b in View(s.conns[0].queue)
  {
    var s1 := TwoMembers(a, b);
    var s2 := KickTheOther(s1, a, b);
    var s3 := Announce(s2, 0, 1, b);
    var s4 := Quit(s3, 1);
    var s5 := LeaveUnseen(s4, 1);
    assert s5.conns.Keys == {0, 1};
    assert NothingInFlight(s5);
  }

  // ---------------------------------------------------------------- dropped announcements

  /** The host's full channel drops a newcomer's announcement, and the host never hears of it. */
  lemma DroppedNoticeHidesTheNewcomer(a: Id, b: Id)
    requires a != b
    ensures exists s ::
      && Reachable(s) && Open(s, 0) && NothingInFlight(s)
      && b in s.clients && b != s.conns[0].id && b !in View(s.conns[0].queue)
  {
    var s1 := TwoMembers(a, b);
    Extend(s1, Deliver(1, 0, true));
    var s2 := Delivering(s1, 1, 0, true);
    assert {0} - {0} == {};
    assert s2.conns[1].pc == Inside(Sending(PeerJoined(b), {})) && s2.conns[0] == s1.conns[0];
    Extend(s2, Move(1, Inside(Reading)));
    var s3 := Goto(s2, 1, Inside(Reading));
    assert s3.conns.Keys == {0, 1} && NothingInFlight(s3);
  }

  /** A migration whose announcement the heir's full channel drops: the heir goes on naming the old host. */
  lemma MissedAnnouncementMisleads(a: Id, b: Id)
    requires a != b
    ensures exists s :: Reachable(s) && IsMember(s, 1) && !s.conns[1].shut && LastHost(s.conns[1].queue) != s.hostID
  {
    var s1 := TwoMembers(a, b);
    var s2 := HostLeavesTo(s1, a, 1, b, {1});
    assert s2.hostID == Some(b) && LastHost(s2.conns[1].queue) == Some(a);
  }

  // ---------------------------------------------------------------- roles

  /** A presence update that read its role before a migration makes the new host a "collaborator". */
  lemma StalePresenceDemotesTheHost(a: Id, b: Id)
    requires a != b
    ensures exists s :: Reachable(s) && IsMember(s, 1) && IsHost(s, 1) && s.conns[1].role == Collaborator
  {
    var s1 := TwoMembers(a, b);
    var s2 := Announce(s1, 0, 1, b);
    Extend(s2, Move(1, Inside(WritingPresence(Collaborator))));
    var s3 := Goto(s2, 1, Inside(WritingPresence(Collaborator)));
    var s4 := HostLeavesTo(s3, a, 1, b, {});
    Extend(s4, WritePresence(1));
    assert IsHost(WritingRole(s4, 1), 1);
  }
}
