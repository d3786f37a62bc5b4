/** What happens when a host leaves: the room closes and answers everyone who waits, or elects another host. */
module MembershipClosing {
  import opened Options
  import opened Membership
  import opened MembershipStructure
  import opened MembershipTraces

  // ---------------------------------------------------------------- closing

  /** c waits for a decision that it has yet to be told to read. */
  predicate StillWaits(k: Client) {
    k.pc.Knocking? && !k.pc.knock.Decided?
  }

  /**
   * Closing answers exactly those who wait: a leave that closes the room rejects every pending request
   * that nothing answered before, forgets them all, and changes no other decision.
   */
  lemma ClosingAnswersExactlyTheWaiters(s: Sys, c: Conn, heir: Conn, missed: set<Conn>)
    requires Structure(s) && CanLeave(s, c, heir) && !s.closed && Step(s, Leave(c, heir, missed)).closed
    ensures
      var s' := Step(s, Leave(c, heir, missed));
      && s'.pending == map[] && s'.conns.Keys == s.conns.Keys
      && (forall i :: i in s.pending ==>
            && s.pending[i] in s.conns
            && s'.conns[s.pending[i]].slot == if s.conns[s.pending[i]].slot == None then Some(Reject) else s.conns[s.pending[i]].slot)
      && (forall d :: d in s.conns && (forall i :: i in s.pending ==> s.pending[i] != d) ==> s'.conns[d].slot == s.conns[d].slot)
  {
    forall i | i in s.pending ensures s.pending[i] in s.conns && s.pending[i] in Waiters(s) { assert IdOk(s, i); }
  }

  /** In a closed room, whoever waits has its decision. */
  predicate AnsweredAt(s: Sys, c: Conn) {
    s.closed && c in s.conns && StillWaits(s.conns[c]) ==> s.conns[c].slot.Some?
  }

  ghost predicate Answered(s: Sys) { forall c :: AnsweredAt(s, c) }

  lemma AnsweredLeave(s: Sys, c: Conn, heir: Conn, missed: set<Conn>)
    requires Structure(s) && Answered(s) && CanLeave(s, c, heir)
    ensures Answered(Leaving(s, c, heir, missed))
  {
    var s' := Leaving(s, c, heir, missed);
    LeaveEffect(s, c, heir, missed);
    if !s.closed && s'.closed { ClosingAnswersExactlyTheWaiters(s, c, heir, missed); }
    forall d ensures AnsweredAt(s', d) {
      assert AnsweredAt(s, d) && KnockOk(s, d);
      if d in s.conns { LeaveKeepsSlot(s, c, heir, missed, d); }
    }
  }

  lemma LeaveKeepsSlot(s: Sys, c: Conn, heir: Conn, missed: set<Conn>, d: Conn)
    requires CanLeave(s, c, heir) && d in s.conns
    ensures d in Leaving(s, c, heir, missed).conns
    ensures s.conns[d].slot.Some? ==> Leaving(s, c, heir, missed).conns[d].slot == s.conns[d].slot
  {}

  /** What else empties a slot is reading it, or entering; and nobody comes to wait in a closed room. */
  lemma AnsweredElse(s: Sys, e: Event, c: Conn)
    requires Structure(s) && AnsweredAt(s, c) && Enabled(s, e) && !e.Leave?
    ensures AnsweredAt(Step(s, e), c)
  {
    SameConns(s, e, c);
    if c in s.conns {
      if Actor(e) != Some(c) { OthersStay(s, e, c); }
    }
  }

  lemma {:induction false} AnsweredRun(s: Sys, es: seq<Event>)
    requires Structure(s) && Answered(s) && Runs(s, es)
    ensures Answered(Outcome(s, es))
    decreases |es|
  {
    if es != [] {
      var s' := Step(s, es[0]);
      StructureStep(s, es[0]);
      if es[0].Leave? {
        AnsweredLeave(s, es[0].c, es[0].heir, es[0].missed);
      } else {
        forall c ensures AnsweredAt(s', c) { AnsweredElse(s, es[0], c); }
      }
      AnsweredRun(s', es[1..]);
    }
  }

  /** In every run, whoever still waits in a closed room finds a decision to read, and waits for no time-out. */
  lemma ClosedRoomsKeepNobodyWaiting(limit: nat, es: seq<Event>, c: Conn)
    requires Runs(Init(limit), es)
    ensures
      var s := Outcome(Init(limit), es);
      && (s.closed && c in s.conns && StillWaits(s.conns[c]) ==> s.conns[c].slot.Some?)
      && (s.closed && c in s.conns && s.conns[c].pc == Knocking(Waiting) ==> Enabled(s, Receive(c)))
  {
    StructureInit(limit);
    AnsweredRun(Init(limit), es);
    assert AnsweredAt(Outcome(Init(limit), es), c);
  }

  // ---------------------------------------------------------------- migrating

  /** When c came to the room object, and connected at `at`. */
  predicate ArrivedAt(es: seq<Event>, i: nat, c: Conn, at: int) {
    i < |es| && es[i].Arrive? && es[i].c == c && es[i].joinedAt == at
  }

  ghost predicate Connected(es: seq<Event>, n: nat, c: Conn, at: int) {
    exists i: nat :: i < n && ArrivedAt(es, i, c, at)
  }

  lemma JoinedAtStays(s: Sys, e: Event, c: Conn)
    requires Enabled(s, e) && c in s.conns
    ensures c in Step(s, e).conns && Step(s, e).conns[c].joinedAt == s.conns[c].joinedAt
  {
    if !WritesRoom(e) {
      QuietStep(s, e);
    } else if e.Leave? {
      LeaveEffect(s, e.c, e.heir, e.missed);
    }
  }

  lemma {:induction false} JoinedAtIs(ss: seq<Sys>, es: seq<Event>, n: nat, c: Conn)
    requires IsTrace(ss, es) && n <= |es| && c in ss[n].conns
    ensures Connected(es, n, c, ss[n].conns[c].joinedAt)
  {
    if n > 0 {
      TraceStep(ss, es, n - 1);
      SameConns(ss[n - 1], es[n - 1], c);
      if c in ss[n - 1].conns {
        JoinedAtIs(ss, es, n - 1, c);
        JoinedAtStays(ss[n - 1], es[n - 1], c);
      } else {
        assert ArrivedAt(es, n - 1, c, ss[n].conns[c].joinedAt);
      }
    }
  }

  /** The heir connected no later than m. */
  ghost predicate NoLater(es: seq<Event>, n: nat, heir: Conn, m: Conn) {
    exists at, at' :: Connected(es, n, heir, at) && Connected(es, n, m, at') && at <= at'
  }

  /** c's leave takes the host out of an open room in which others are left. */
  predicate Succeeded(s: Sys, c: Conn) {
    && c in s.conns && s.conns[c].id in s.clients && s.hostID == Some(s.conns[c].id) && !s.closed
    && s.clients.Keys != {s.conns[c].id}
  }

  lemma LeaveRole(s: Sys, c: Conn, heir: Conn, missed: set<Conn>)
    requires CanLeave(s, c, heir) && HostLeaves(s, c) && Remaining(s, c) != map[]
    ensures heir in Leaving(s, c, heir, missed).conns && Leaving(s, c, heir, missed).conns[heir].role == Host
  {}

  lemma RemainingIs(s: Sys, c: Conn)
    requires c in s.conns && s.conns[c].id in s.clients
    ensures Remaining(s, c) == map[] <==> s.clients.Keys == {s.conns[c].id}
  {
    assert Remaining(s, c).Keys == s.clients.Keys - {s.conns[c].id};
    if Remaining(s, c) == map[] { assert Remaining(s, c).Keys == {}; }
  }

  lemma Succession(s: Sys, c: Conn, heir: Conn, missed: set<Conn>)
    requires Structure(s) && CanLeave(s, c, heir)
    ensures
      var s' := Leaving(s, c, heir, missed);
      if Succeeded(s, c) then
        && IsMember(s', heir) && s'.hostID == Some(s'.conns[heir].id) && s'.conns[heir].role == Host && heir in s.conns
        && forall m :: IsMember(s', m) ==> m in s.conns && s.conns[heir].joinedAt <= s.conns[m].joinedAt
      else s'.hostID == s.hostID
  {
    var s' := Leaving(s, c, heir, missed);
    LeaveEffect(s, c, heir, missed);
    if s.conns[c].id in s.clients { RemainingIs(s, c); }
    if Succeeded(s, c) {
      LeaveRole(s, c, heir, missed);
      forall m | IsMember(s', m) ensures m in s.conns && s.conns[heir].joinedAt <= s.conns[m].joinedAt {
        assert Remaining(s, c)[s'.conns[m].id] == m;
      }
    }
  }

  /**
   * The room goes to whoever connected first.  In every trace, when the host of an open room leaves and others
   * are left, the new host is one of those, carries the role "host", and connected no later than any of
   * them; every other leave keeps the host's id as it is.
   */
  lemma MigrationElectsTheFirstConnected(ss: seq<Sys>, es: seq<Event>, n: nat)
    requires IsTrace(ss, es) && n < |es| && es[n].Leave?
    ensures
      var s' := ss[n + 1];
      if Succeeded(ss[n], es[n].c) then
        exists heir :: IsMember(s', heir) && s'.hostID == Some(s'.conns[heir].id) && s'.conns[heir].role == Host
          && forall m :: IsMember(s', m) ==> NoLater(es, n, heir, m)
      else s'.hostID == ss[n].hostID
  {
    TraceStep(ss, es, n);
    var s, s', heir := ss[n], ss[n + 1], es[n].heir;
    Succession(s, es[n].c, heir, es[n].missed);
    if Succeeded(s, es[n].c) {
      forall m | IsMember(s', m) ensures NoLater(es, n, heir, m) {
        JoinedAtIs(ss, es, n, heir);
        JoinedAtIs(ss, es, n, m);
      }
    }
  }
}
