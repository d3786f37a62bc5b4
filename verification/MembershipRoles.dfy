/**
 * Who carries the role "host".  The role is a label that presence updates write in a later step than
 * they read it (1105-1112).  No member but the host ever carries it, in any run; the host itself can
 * lose it, and exactly when is said here too.
 */
module MembershipRoles {
  import opened Options
  import opened Membership
  import opened MembershipStructure

  /** Carries the role "host", or is about to write it. */
  predicate CalledHost(k: Client) {
    k.role == Host || k.pc == Inside(WritingPresence(Host))
  }

  predicate RoleAt(s: Sys, c: Conn) {
    c in s.conns ==>
      && (s.conns[c].pc.Arrived? || s.conns[c].pc.Knocking? ==> s.conns[c].role == Collaborator)
      && (IsMember(s, c) && CalledHost(s.conns[c]) ==> IsHost(s, c))
  }

  ghost predicate Roles(s: Sys) { forall c :: RoleAt(s, c) }

  lemma LeaveRoles(s: Sys, c: Conn, heir: Conn, missed: set<Conn>)
    requires Structure(s) && Roles(s) && CanLeave(s, c, heir)
    ensures Roles(Leaving(s, c, heir, missed))
  {
    var s' := Leaving(s, c, heir, missed);
    LeaveEffect(s, c, heir, missed);
    if HostLeaves(s, c) && Remaining(s, c) != map[] { assert IdOk(s, s.conns[heir].id); }
    forall d ensures RoleAt(s', d) {
      assert RoleAt(s, d);
    }
  }

  lemma EnterRoles(s: Sys, c: Conn, id: Id, request: nat)
    requires Structure(s) && Roles(s) && CanEnter(s, c, id)
    ensures Roles(Entering(s, c, id, request))
  {
    forall d ensures RoleAt(Entering(s, c, id, request), d) {
      assert RoleAt(s, d);
      if d in s.conns { assert IdOk(s, s.conns[d].id); }
    }
  }

  lemma AdmitRoles(s: Sys, c: Conn)
    requires Structure(s) && Roles(s) && CanAdmit(s, c)
    ensures Roles(Admitting(s, c))
  {
    forall d ensures RoleAt(Admitting(s, c), d) { assert RoleAt(s, d) && RoleAt(s, c); }
  }

  /** Nothing but entering, admission and leaving makes anyone host or member. */
  lemma RoleKept(s: Sys, e: Event, d: Conn)
    requires RoleAt(s, d) && Enabled(s, e) && !e.Leave? && !e.Enter? && !e.Admit?
    ensures RoleAt(Step(s, e), d)
  {}

  lemma RolesStep(s: Sys, e: Event)
    requires Structure(s) && Roles(s) && Enabled(s, e)
    ensures Roles(Step(s, e))
  {
    if e.Leave? {
      LeaveRoles(s, e.c, e.heir, e.missed);
    } else if e.Enter? {
      EnterRoles(s, e.c, e.id, e.request);
    } else if e.Admit? {
      AdmitRoles(s, e.c);
    } else {
      forall d ensures RoleAt(Step(s, e), d) { RoleKept(s, e, d); }
    }
  }

  lemma {:induction false} RolesRun(s: Sys, es: seq<Event>)
    requires Structure(s) && Roles(s) && Runs(s, es)
    ensures Structure(Outcome(s, es)) && Roles(Outcome(s, es))
    decreases |es|
  {
    if es != [] {
      StructureStep(s, es[0]);
      RolesStep(s, es[0]);
      RolesRun(Step(s, es[0]), es[1..]);
    }
  }

  /** After every run whatever, no member other than the one named by hostID carries the role "host". */
  lemma OnlyTheHostIsCalledHost(limit: nat, es: seq<Event>, m: Conn)
    requires Runs(Init(limit), es)
    ensures
      var s := Outcome(Init(limit), es);
      IsMember(s, m) && s.conns[m].role == Host ==> s.hostID == Some(s.conns[m].id)
  {
    StructureInit(limit);
    RolesRun(Init(limit), es);
    assert RoleAt(Outcome(Init(limit), es), m);
  }

  // ---------------------------------------------------------------- does the host keep its role?

  predicate HostRoleAt(s: Sys, c: Conn) {
    IsMember(s, c) && IsHost(s, c) ==> s.conns[c].role == Host
  }

  /** The member named by hostID carries the role "host". */
  ghost predicate HostHasRole(s: Sys) { forall c :: HostRoleAt(s, c) }

  /** A presence update written by the present host was read while it was host already. */
  predicate FreshRole(s: Sys, e: Event) {
    e.WritePresence? && CanWritePresence(s, e.c) && IsMember(s, e.c) && IsHost(s, e.c) ==> s.conns[e.c].pc.work.role == Host
  }

  lemma LeaveKeepsRole(s: Sys, c: Conn, heir: Conn, missed: set<Conn>)
    requires Structure(s) && HostHasRole(s) && CanLeave(s, c, heir)
    ensures HostHasRole(Leaving(s, c, heir, missed))
  {
    var s' := Leaving(s, c, heir, missed);
    LeaveEffect(s, c, heir, missed);
    forall d ensures HostRoleAt(s', d) {
      assert HostRoleAt(s, d);
    }
  }

  lemma OtherRoleKept(s: Sys, e: Event, d: Conn)
    requires Structure(s) && HostRoleAt(s, d) && Enabled(s, e) && !e.Leave? && !e.WritePresence?
    ensures HostRoleAt(Step(s, e), d)
  {
    if e.Admit? { assert KnockOk(s, e.c) && IdOk(s, s.conns[e.c].id); }
    if d in Step(s, e).conns { assert IdOk(s, Step(s, e).conns[d].id); }
  }

  /** A step leaves the host its role exactly when it is not a presence update read before a migration. */
  lemma HostKeepsRoleIff(s: Sys, e: Event)
    requires Structure(s) && HostHasRole(s) && Enabled(s, e)
    ensures HostHasRole(Step(s, e)) <==> FreshRole(s, e)
  {
    if e.Leave? {
      LeaveKeepsRole(s, e.c, e.heir, e.missed);
    } else if e.WritePresence? {
      forall d | d != e.c ensures HostRoleAt(Step(s, e), d) { assert HostRoleAt(s, d); }
      assert HostRoleAt(Step(s, e), e.c) <==> FreshRole(s, e);
    } else {
      forall d ensures HostRoleAt(Step(s, e), d) { OtherRoleKept(s, e, d); }
    }
  }

  /** The host carries its role in every state of the run. */
  ghost predicate RoleThroughout(s: Sys, es: seq<Event>)
    requires Runs(s, es)
    decreases |es|
  {
    HostHasRole(s) && (es == [] || RoleThroughout(Step(s, es[0]), es[1..]))
  }

  ghost predicate FreshRoles(s: Sys, es: seq<Event>)
    requires Runs(s, es)
    decreases |es|
  {
    es == [] || (FreshRole(s, es[0]) && FreshRoles(Step(s, es[0]), es[1..]))
  }

  lemma {:induction false} RoleThroughoutIff(s: Sys, es: seq<Event>)
    requires Structure(s) && HostHasRole(s) && Runs(s, es)
    ensures RoleThroughout(s, es) <==> FreshRoles(s, es)
    decreases |es|
  {
    if es != [] {
      StructureStep(s, es[0]);
      HostKeepsRoleIff(s, es[0]);
      if HostHasRole(Step(s, es[0])) { RoleThroughoutIff(Step(s, es[0]), es[1..]); }
    }
  }

  /** Exactly which runs leave the host its role in every state: those whose hosts write fresh roles. */
  lemma HostKeepsItsRoleThroughoutIff(limit: nat, es: seq<Event>)
    requires Runs(Init(limit), es)
    ensures RoleThroughout(Init(limit), es) <==> FreshRoles(Init(limit), es)
  {
    StructureInit(limit);
    RoleThroughoutIff(Init(limit), es);
  }
}
