/**
 * The host's powers are exercised by the host alone, removals by id hit the connection they were
 * meant for, and the host is always present.
 *
 * FreshId: an id is not given out while an earlier connection bearing it still has to run
 * leaveRoom or to finish its notifications (leaveRoom deletes by id, 734-737).  Only what is about
 * single connections needs it.
 * NoSelfKick: the host does not name itself in peer_kick (1237-1246 would remove it without
 * electing a successor).  Only the presence of the host needs it.
 */
module MembershipHost {
  import opened Options
  import opened Membership
  import opened MembershipStructure

  predicate FreshId(s: Sys, e: Event) {
    e.Enter? ==> forall d :: d in s.conns && Live(s.conns[d].pc) ==> s.conns[d].id != e.id
  }

  predicate NoSelfKick(s: Sys, e: Event) {
    e.Move? && e.next.Inside? && e.next.work.LookingUpTarget? && e.c in s.conns ==>
      e.next.work.x != s.conns[e.c].id
  }

  predicate Careful(s: Sys, e: Event) {
    FreshId(s, e) && NoSelfKick(s, e)
  }

  ghost predicate FreshRun(s: Sys, es: seq<Event>)
    decreases |es|
  {
    es == [] || (Enabled(s, es[0]) && FreshId(s, es[0]) && FreshRun(Step(s, es[0]), es[1..]))
  }

  ghost predicate CarefulRun(s: Sys, es: seq<Event>)
    decreases |es|
  {
    es == [] || (Enabled(s, es[0]) && Careful(s, es[0]) && CarefulRun(Step(s, es[0]), es[1..]))
  }

  // ---------------------------------------------------------------- the invariant

  predicate Engaged(pc: PC) {
    pc.Knocking? || pc.Inside? || pc.Parting?
  }

  predicate DistinctAt(s: Sys, c: Conn, d: Conn) {
    c in s.conns && d in s.conns && c != d && Engaged(s.conns[c].pc) && Engaged(s.conns[d].pc) ==>
      s.conns[c].id != s.conns[d].id
  }

  /** Work begun after a host check (1191, 1226, 1106) and not yet finished. */
  predicate Privileged(pc: PC) {
    pc.Inside? &&
    match pc.work
    case WritingPresence(role) => role.Host?
    case LookingUpRequest(_, _) => true
    case PlacingDecision(_, _) => true
    case LookingUpTarget(_) => true
    case TellingTarget(_, _) => true
    case ShuttingTarget(_, _) => true
    case DeletingTarget(_, _) => true
    case Broadcasting(m, _) => m.PeerLeft?
    case Sending(m, _) => m.PeerLeft?
    case _ => false
  }

  predicate PrivAt(s: Sys, c: Conn) {
    c in s.conns && Privileged(s.conns[c].pc) ==> IsHost(s, c)
  }

  predicate Unapproved(k: Client) {
    k.pc.Knocking? ==> k.slot != Some(Approve) && k.pc != Knocking(Decided(Approve))
  }

  /** Nobody waiting under id x has been approved. */
  predicate NoApproval(s: Sys, x: Id) {
    forall d :: d in s.conns && s.conns[d].id == x ==> Unapproved(s.conns[d])
  }

  predicate Aims(s: Sys, x: Id, t: Conn) {
    t in s.conns && !s.conns[t].pc.Arrived? && s.conns[t].id == x && (x in s.clients ==> s.clients[x] == t)
  }

  /** Between its target lookup and its delete, a kick knows the only connection that id can name. */
  predicate KickFor(s: Sys, w: Work) {
    match w
    case TellingTarget(x, t) => NoApproval(s, x) && Aims(s, x, t)
    case ShuttingTarget(x, t) => NoApproval(s, x) && Aims(s, x, t)
    case DeletingTarget(x, t) => NoApproval(s, x) && Aims(s, x, t)
    case Broadcasting(m, _) => m.PeerLeft? ==> NoApproval(s, m.who) && m.who !in s.clients
    case Sending(m, _) => m.PeerLeft? ==> NoApproval(s, m.who) && m.who !in s.clients
    case _ => true
  }

  predicate KickAt(s: Sys, c: Conn) {
    c in s.conns && s.conns[c].pc.Inside? ==> KickFor(s, s.conns[c].pc.work)
  }

  ghost predicate Distinct(s: Sys) { forall c, d :: DistinctAt(s, c, d) }
  ghost predicate Privs(s: Sys) { forall c :: PrivAt(s, c) }
  ghost predicate Kicks(s: Sys) { forall c :: KickAt(s, c) }

  /** What fresh ids keep. */
  ghost predicate Core(s: Sys) {
    Distinct(s) && Privs(s) && Kicks(s)
  }

  /** Only the host is privileged, and it is one connection. */
  lemma OneHost(s: Sys, c: Conn, d: Conn)
    requires Distinct(s) && Privs(s) && c in s.conns && d in s.conns
    requires Privileged(s.conns[c].pc) && Privileged(s.conns[d].pc)
    ensures c == d
  {
    assert PrivAt(s, c) && PrivAt(s, d) && DistinctAt(s, c, d);
  }

  // ---------------------------------------------------------------- distinct ids

  lemma EnterDistinct(s: Sys, c: Conn, id: Id, request: nat)
    requires Structure(s) && Distinct(s) && CanEnter(s, c, id) && FreshId(s, Enter(c, id, request))
    ensures Distinct(Entering(s, c, id, request))
  {
    var s' := Entering(s, c, id, request);
    forall a, b ensures DistinctAt(s', a, b) {
      assert DistinctAt(s, a, b) && KnockOk(s, a) && KnockOk(s, b);
    }
  }

  lemma DistinctStep(s: Sys, e: Event)
    requires Structure(s) && Distinct(s) && Enabled(s, e) && FreshId(s, e)
    ensures Distinct(Step(s, e))
  {
    var s' := Step(s, e);
    match e
    case Enter(c, id, request) => EnterDistinct(s, c, id, request);
    case Admit(c) => forall a, b ensures DistinctAt(s', a, b) { assert DistinctAt(s, a, b); }
    case Remove(c) => forall a, b ensures DistinctAt(s', a, b) { assert DistinctAt(s, a, b); }
    case Leave(c, heir, missed) =>
      LeaveEffect(s, c, heir, missed);
      forall a, b ensures DistinctAt(s', a, b) { assert DistinctAt(s, a, b); }
    case _ =>
      QuietStep(s, e);
      QuietDistinct(s, s');
  }

  lemma QuietDistinct(s: Sys, s': Sys)
    requires Quiet(s, s') && Distinct(s)
    ensures Distinct(s')
  {
    forall a, b ensures DistinctAt(s', a, b) { assert DistinctAt(s, a, b); }
  }

  // ---------------------------------------------------------------- host checks stay true

  lemma MovePriv(s: Sys, c: Conn, next: PC)
    requires Privs(s) && CanMove(s, c, next)
    ensures Privs(Goto(s, c, next))
  {
    forall d ensures PrivAt(Goto(s, c, next), d) { assert PrivAt(s, d) && PrivAt(s, c); }
  }

  lemma LeavePriv(s: Sys, c: Conn, heir: Conn, missed: set<Conn>)
    requires Structure(s) && Core(s) && CanLeave(s, c, heir)
    ensures Privs(Leaving(s, c, heir, missed))
  {
    var s' := Leaving(s, c, heir, missed);
    LeaveEffect(s, c, heir, missed);
    forall d ensures PrivAt(s', d) { assert PrivAt(s, d) && DistinctAt(s, d, c); }
  }

  lemma PrivStep(s: Sys, e: Event)
    requires Structure(s) && Core(s) && Enabled(s, e)
    ensures Privs(Step(s, e))
  {
    var s' := Step(s, e);
    match e
    case Move(c, next) => MovePriv(s, c, next);
    case Leave(c, heir, missed) => LeavePriv(s, c, heir, missed);
    case _ => forall d ensures PrivAt(s', d) { assert PrivAt(s, d); }
  }

  // ---------------------------------------------------------------- kicks hit what they looked up

  lemma UnapprovedStep(s: Sys, e: Event, d: Conn)
    requires Enabled(s, e) && !e.PlaceDecision? && d in s.conns
    requires Unapproved(s.conns[d]) || (e.Enter? && e.c == d)
    ensures d in Step(s, e).conns && Unapproved(Step(s, e).conns[d])
  {
    match e
    case Leave(c, heir, missed) => LeaveEffect(s, c, heir, missed);
    case _ =>
  }

  /** Only the busy host could approve a newcomer under the kicked id. */
  lemma NoApprovalStep(s: Sys, e: Event, x: Id)
    requires NoApproval(s, x) && Enabled(s, e) && !e.PlaceDecision?
    ensures NoApproval(Step(s, e), x)
  {
    forall d | d in Step(s, e).conns && Step(s, e).conns[d].id == x
      ensures Unapproved(Step(s, e).conns[d])
    {
      SameConns(s, e, d);
      if d in s.conns {
        if !(e.Enter? && e.c == d) { SameId(s, e, d); }
        UnapprovedStep(s, e, d);
      }
    }
  }

  lemma NoNewMember(s: Sys, e: Event, x: Id)
    requires NoApproval(s, x) && s.hostID.Some? && Enabled(s, e)
    ensures x in Step(s, e).clients ==> x in s.clients && Step(s, e).clients[x] == s.clients[x]
  {}

  /** Another goroutine's step leaves a kick in progress as it was. */
  lemma KickFrame(s: Sys, e: Event, c: Conn)
    requires Structure(s) && Core(s) && Enabled(s, e) && c in s.conns && s.conns[c].pc.Inside?
    requires Actor(e) != Some(c)
    ensures KickFor(Step(s, e), s.conns[c].pc.work)
  {
    assert KickAt(s, c) && PrivAt(s, c);
    var w := s.conns[c].pc.work;
    if Privileged(s.conns[c].pc) && e.PlaceDecision? {
      OneHost(s, c, e.c);
    } else if w.TellingTarget? || w.ShuttingTarget? || w.DeletingTarget? {
      NoApprovalStep(s, e, w.x);
      NoNewMember(s, e, w.x);
      GrowsStep(s, e);
      SameId(s, e, w.target);
    } else if (w.Broadcasting? || w.Sending?) && w.msg.PeerLeft? {
      NoApprovalStep(s, e, w.msg.who);
      NoNewMember(s, e, w.msg.who);
    }
  }

  lemma MemberNotApproved(s: Sys, x: Id)
    requires Structure(s) && x in s.clients
    ensures NoApproval(s, x)
  {
    assert IdOk(s, x);
    forall d | d in s.conns && s.conns[d].id == x
      ensures Unapproved(s.conns[d])
    {
      assert KnockOk(s, d);
    }
  }

  lemma MoveKick(s: Sys, c: Conn, next: PC)
    requires Structure(s) && Core(s) && CanMove(s, c, next)
    ensures next.Inside? ==> KickFor(Goto(s, c, next), next.work)
  {
    var s' := Goto(s, c, next);
    assert KickAt(s, c);
    if next.Inside? && next.work.TellingTarget? {
      MemberNotApproved(s, next.work.x);
      assert IdOk(s, next.work.x);
      NoApprovalStep(s, Move(c, next), next.work.x);
    } else if next.Inside? && next.work.Sending? && next.work.msg.PeerLeft? {
      NoApprovalStep(s, Move(c, next), next.work.msg.who);
    }
  }

  lemma KickDeliver(s: Sys, c: Conn, target: Conn, lost: bool)
    requires KickAt(s, c) && CanDeliver(s, c, target, lost)
    ensures KickAt(Delivering(s, c, target, lost), c)
  {}

  /** The acting goroutine's own kick, if it is kicking. */
  lemma KickActor(s: Sys, e: Event, c: Conn)
    requires Structure(s) && Core(s) && Enabled(s, e) && Actor(e) == Some(c)
    ensures KickAt(Step(s, e), c)
  {
    assert KickAt(s, c);
    match e
    case Move(_, next) => MoveKick(s, c, next);
    case Deliver(_, _, _) => KickDeliver(s, c, e.target, e.lost);
    case Shut(_) =>
      if s.conns[c].pc.Inside? && s.conns[c].pc.work.ShuttingTarget? { NoApprovalStep(s, e, s.conns[c].pc.work.x); }
    case Remove(_) => NoApprovalStep(s, e, s.conns[c].pc.work.x);
    case Leave(_, heir, missed) => LeaveEffect(s, c, heir, missed);
    case _ =>
  }

  lemma KickStep(s: Sys, e: Event)
    requires Structure(s) && Core(s) && Enabled(s, e)
    ensures Kicks(Step(s, e))
  {
    forall c: Conn ensures KickAt(Step(s, e), c) {
      SameConns(s, e, c);
      if Actor(e) == Some(c) {
        KickActor(s, e, c);
      } else if c in s.conns {
        OthersStay(s, e, c);
        SameId(s, e, c);
        if s.conns[c].pc.Inside? {
          KickFrame(s, e, c);
        }
      }
    }
  }

  lemma SameId(s: Sys, e: Event, c: Conn)
    requires Enabled(s, e) && c in s.conns && (e.Enter? ==> e.c != c)
    ensures c in Step(s, e).conns && Step(s, e).conns[c].id == s.conns[c].id
  {
    match e
    case Leave(d, heir, missed) => LeaveEffect(s, d, heir, missed);
    case _ =>
  }

  lemma CoreStep(s: Sys, e: Event)
    requires Structure(s) && Core(s) && Enabled(s, e) && FreshId(s, e)
    ensures Core(Step(s, e))
  {
    DistinctStep(s, e);
    PrivStep(s, e);
    KickStep(s, e);
  }

  lemma {:induction false} CoreRun(s: Sys, es: seq<Event>)
    requires Structure(s) && Core(s) && FreshRun(s, es)
    ensures Runs(s, es) && Structure(Outcome(s, es)) && Core(Outcome(s, es))
    decreases |es|
  {
    if es != [] {
      StructureStep(s, es[0]);
      CoreStep(s, es[0]);
      CoreRun(Step(s, es[0]), es[1..]);
    }
  }

  lemma RemovalAt(s: Sys, e: Event)
    requires Structure(s) && Core(s) && Enabled(s, e) && (e.Remove? || e.Leave?)
    ensures
      var target := if e.Remove? then s.conns[e.c].pc.work.target else e.c;
      forall i :: i in s.clients ==>
        if s.clients[i] == target then i !in Step(s, e).clients
        else i in Step(s, e).clients && Step(s, e).clients[i] == s.clients[i]
  {
    if e.Leave? {
      LeaveEffect(s, e.c, e.heir, e.missed);
    } else {
      assert KickAt(s, e.c);
    }
    forall i | i in s.clients
      ensures IdOk(s, i) && DistinctAt(s, s.clients[i], e.c)
    {}
  }

  /**
   * Removals hit the right connection, after every run with fresh ids: the delete of a kick removes
   * exactly the connection the kick shut down, or nothing; the delete of a leave only its own entry.
   */
  lemma RemovalsHitTheRightConnection(limit: nat, es: seq<Event>, e: Event)
    requires FreshRun(Init(limit), es)
    ensures Runs(Init(limit), es)
    ensures
      var s := Outcome(Init(limit), es);
      Enabled(s, e) && (e.Remove? || e.Leave?) ==>
        var target := if e.Remove? then s.conns[e.c].pc.work.target else e.c;
        forall i :: i in s.clients ==>
          if s.clients[i] == target then i !in Step(s, e).clients
          else i in Step(s, e).clients && Step(s, e).clients[i] == s.clients[i]
  {
    StructureInit(limit);
    CoreRun(Init(limit), es);
    var s := Outcome(Init(limit), es);
    if Enabled(s, e) && (e.Remove? || e.Leave?) {
      RemovalAt(s, e);
    }
  }

  // ---------------------------------------------------------------- the host is present

  predicate HostPresent(s: Sys) { s.hostID.Some? ==> s.closed || s.hostID.value in s.clients }

  /** The delete of a kick names the host of the open room. */
  predicate RemovesHost(s: Sys, e: Event) {
    e.Remove? && CanRemove(s, e.c) && !s.closed && s.hostID == Some(s.conns[e.c].pc.work.x)
  }

  /** With no hypothesis at all: a step keeps the host present exactly when it is not a kick deleting the host. */
  lemma HostKeptIff(s: Sys, e: Event)
    requires Structure(s) && HostPresent(s) && Enabled(s, e)
    ensures HostPresent(Step(s, e)) <==> !RemovesHost(s, e)
  {
    match e
    case Enter(_, _, _) =>
    case Admit(_) =>
    case Remove(_) =>
    case Leave(c, heir, missed) => LeaveEffect(s, c, heir, missed);
    case _ => QuietStep(s, e);
  }

  /** The host is present in every state of the run. */
  ghost predicate HostThroughout(s: Sys, es: seq<Event>)
    requires Runs(s, es)
    decreases |es|
  {
    HostPresent(s) && (es == [] || HostThroughout(Step(s, es[0]), es[1..]))
  }

  ghost predicate NeverRemovesHost(s: Sys, es: seq<Event>)
    requires Runs(s, es)
    decreases |es|
  {
    es == [] || (!RemovesHost(s, es[0]) && NeverRemovesHost(Step(s, es[0]), es[1..]))
  }

  lemma {:induction false} HostThroughoutIff(s: Sys, es: seq<Event>)
    requires Structure(s) && HostPresent(s) && Runs(s, es)
    ensures HostThroughout(s, es) <==> NeverRemovesHost(s, es)
    decreases |es|
  {
    if es != [] {
      StructureStep(s, es[0]);
      HostKeptIff(s, es[0]);
      if HostPresent(Step(s, es[0])) { HostThroughoutIff(Step(s, es[0]), es[1..]); }
    }
  }

  /** Exactly which runs of a room keep its host present in every state: those in which no kick deletes the host. */
  lemma HostIsPresentThroughoutIff(limit: nat, es: seq<Event>)
    requires Runs(Init(limit), es)
    ensures HostThroughout(Init(limit), es) <==> NeverRemovesHost(Init(limit), es)
  {
    StructureInit(limit);
    HostThroughoutIff(Init(limit), es);
  }

  // ---------------------------------------------------------------- in careful runs it is

  /** A connection bearing the host's id, up to leaveRoom's locked section, is the registered host. */
  predicate HostInAt(s: Sys, c: Conn) {
    c in s.conns && s.conns[c].pc.Inside? && IsHost(s, c) ==> IsMember(s, c)
  }

  /** A kick up to its delete does not name its own host. */
  predicate SelflessAt(s: Sys, c: Conn) {
    c in s.conns && s.conns[c].pc.Inside? ==>
      match s.conns[c].pc.work
      case LookingUpTarget(x) => x != s.conns[c].id
      case TellingTarget(x, _) => x != s.conns[c].id
      case ShuttingTarget(x, _) => x != s.conns[c].id
      case DeletingTarget(x, _) => x != s.conns[c].id
      case _ => true
  }

  ghost predicate HostIn(s: Sys) { forall c :: HostInAt(s, c) }
  ghost predicate Selfless(s: Sys) { forall c :: SelflessAt(s, c) }

  /** What careful runs keep on top of Core. */
  ghost predicate Hosted(s: Sys) {
    HostIn(s) && Selfless(s) && HostPresent(s)
  }

  lemma SelflessStep(s: Sys, e: Event)
    requires Selfless(s) && Enabled(s, e) && NoSelfKick(s, e)
    ensures Selfless(Step(s, e))
  {
    forall c ensures SelflessAt(Step(s, e), c) { SelflessKept(s, e, c); }
  }

  lemma SelflessKept(s: Sys, e: Event, c: Conn)
    requires SelflessAt(s, c) && Enabled(s, e) && NoSelfKick(s, e)
    ensures SelflessAt(Step(s, e), c)
  {
    SameConns(s, e, c);
    if Actor(e) != Some(c) && c in s.conns {
      OthersStay(s, e, c);
      SameId(s, e, c);
    } else if e.Leave? {
      LeaveEffect(s, e.c, e.heir, e.missed);
    }
  }

  lemma LeaveHostIn(s: Sys, c: Conn, heir: Conn, missed: set<Conn>)
    requires Structure(s) && Core(s) && HostIn(s) && CanLeave(s, c, heir)
    ensures HostIn(Leaving(s, c, heir, missed))
  {
    var s' := Leaving(s, c, heir, missed);
    LeaveEffect(s, c, heir, missed);
    assert HostInAt(s, c);
    if HostLeaves(s, c) && Remaining(s, c) != map[] {
      assert s.conns[heir].pc.Inside? by { assert IdOk(s, s.conns[heir].id); }
    }
    forall d ensures HostInAt(s', d) {
      assert HostInAt(s, d) && DistinctAt(s, d, c) && DistinctAt(s, d, heir);
    }
  }

  lemma AdmitHostIn(s: Sys, c: Conn)
    requires Structure(s) && HostIn(s) && CanAdmit(s, c)
    ensures HostIn(Admitting(s, c))
  {
    assert KnockOk(s, c) && IdOk(s, s.conns[c].id);
    forall d ensures HostInAt(Admitting(s, c), d) { assert HostInAt(s, d); }
  }

  lemma QuietHostIn(s: Sys, s': Sys)
    requires Quiet(s, s') && HostIn(s)
    ensures HostIn(s')
  {
    forall d ensures HostInAt(s', d) { assert HostInAt(s, d); }
  }

  lemma HostedStep(s: Sys, e: Event)
    requires Structure(s) && Core(s) && Hosted(s) && Enabled(s, e) && Careful(s, e)
    ensures Hosted(Step(s, e))
  {
    SelflessStep(s, e);
    HostKeptIff(s, e);
    if e.Enter? {
      forall d ensures HostInAt(Step(s, e), d) { assert HostInAt(s, d); }
    } else if e.Admit? {
      AdmitHostIn(s, e.c);
    } else if e.Remove? {
      assert PrivAt(s, e.c) && SelflessAt(s, e.c);
      forall d ensures HostInAt(Step(s, e), d) { assert HostInAt(s, d); }
    } else if e.Leave? {
      LeaveHostIn(s, e.c, e.heir, e.missed);
    } else {
      QuietStep(s, e);
      QuietHostIn(s, Step(s, e));
    }
  }

  lemma {:induction false} HostedRun(s: Sys, es: seq<Event>)
    requires Structure(s) && Core(s) && Hosted(s) && CarefulRun(s, es)
    ensures Runs(s, es) && Structure(Outcome(s, es)) && Core(Outcome(s, es)) && Hosted(Outcome(s, es))
    decreases |es|
  {
    if es != [] {
      StructureStep(s, es[0]);
      CoreStep(s, es[0]);
      HostedStep(s, es[0]);
      HostedRun(Step(s, es[0]), es[1..]);
    }
  }

  /**
   * The host is always present: after every careful run, an open room that ever had a host names a
   * current member as its host, and that member is alone in having passed a host check.
   */
  lemma HostAlwaysPresent(limit: nat, es: seq<Event>)
    requires CarefulRun(Init(limit), es)
    ensures Runs(Init(limit), es)
    ensures
      var s := Outcome(Init(limit), es);
      && (s.hostID.Some? && !s.closed ==> s.hostID.value in s.clients && IsMember(s, s.clients[s.hostID.value]))
      && (forall c :: c in s.conns && Privileged(s.conns[c].pc) ==> IsHost(s, c) && IsMember(s, c))
  {
    StructureInit(limit);
    HostedRun(Init(limit), es);
    var s := Outcome(Init(limit), es);
    if s.hostID.Some? && !s.closed {
      assert IdOk(s, s.hostID.value);
    }
    forall c | c in s.conns && Privileged(s.conns[c].pc)
      ensures IsHost(s, c) && IsMember(s, c)
    {
      assert PrivAt(s, c) && HostInAt(s, c);
    }
  }

  // ---------------------------------------------------------------- who is past a host check, exactly

  predicate PowerAt(s: Sys, c: Conn) {
    c in s.conns && Privileged(s.conns[c].pc) ==> IsHost(s, c) && IsMember(s, c)
  }

  /** Whoever is past a host check is the member that hosts the room. */
  ghost predicate Powers(s: Sys) { forall c :: PowerAt(s, c) }

  /**
   * What a step must not do.  The host check compares ids (1190, 1225, 1105), so a connection that is
   * no member can pass it if it bears the host's id; a kick may name its own host; and a leave deletes
   * whoever bears the leaver's id.
   */
  predicate KeepsPower(s: Sys, e: Event) {
    match e
    case Move(c, next) => Privileged(next) ==> IsMember(s, c)
    case Remove(c) => CanRemove(s, c) ==> s.conns[c].pc.work.x != s.conns[c].id
    case Leave(c, _, _) =>
      c in s.conns ==> forall d :: d in s.conns && d != c && Privileged(s.conns[d].pc) ==> s.conns[d].id != s.conns[c].id
    case _ => true
  }

  lemma RemovePowerIff(s: Sys, c: Conn)
    requires Structure(s) && Powers(s) && CanRemove(s, c)
    ensures Powers(Removing(s, c)) <==> KeepsPower(s, Remove(c))
  {
    assert PowerAt(s, c);
    if KeepsPower(s, Remove(c)) {
      forall d ensures PowerAt(Removing(s, c), d) { assert PowerAt(s, d); }
    } else {
      assert !PowerAt(Removing(s, c), c);
    }
  }

  lemma LeavePowerIff(s: Sys, c: Conn, heir: Conn, missed: set<Conn>)
    requires Structure(s) && Powers(s) && CanLeave(s, c, heir)
    ensures Powers(Leaving(s, c, heir, missed)) <==> KeepsPower(s, Leave(c, heir, missed))
  {
    var s' := Leaving(s, c, heir, missed);
    LeaveEffect(s, c, heir, missed);
    if KeepsPower(s, Leave(c, heir, missed)) {
      forall d ensures PowerAt(s', d) { assert PowerAt(s, d); }
    } else {
      var d :| d in s.conns && d != c && Privileged(s.conns[d].pc) && s.conns[d].id == s.conns[c].id;
      assert PowerAt(s, d) && !PowerAt(s', d);
    }
  }

  lemma MovePowerIff(s: Sys, c: Conn, next: PC)
    requires Powers(s) && CanMove(s, c, next)
    ensures Powers(Goto(s, c, next)) <==> KeepsPower(s, Move(c, next))
  {
    assert PowerAt(s, c);
    if KeepsPower(s, Move(c, next)) {
      forall d ensures PowerAt(Goto(s, c, next), d) { assert PowerAt(s, d); }
    } else {
      assert !PowerAt(Goto(s, c, next), c);
    }
  }

  lemma OtherPower(s: Sys, e: Event, d: Conn)
    requires Structure(s) && PowerAt(s, d) && Enabled(s, e) && !e.Move? && !e.Remove? && !e.Leave?
    ensures PowerAt(Step(s, e), d)
  {
    SameConns(s, e, d);
    if e.Admit? { assert KnockOk(s, e.c) && IdOk(s, s.conns[e.c].id); }
  }

  /** A step leaves host powers with the present host exactly when it does none of the three. */
  lemma PowersStepIff(s: Sys, e: Event)
    requires Structure(s) && Powers(s) && Enabled(s, e)
    ensures Powers(Step(s, e)) <==> KeepsPower(s, e)
  {
    if e.Move? {
      MovePowerIff(s, e.c, e.next);
    } else if e.Remove? {
      RemovePowerIff(s, e.c);
    } else if e.Leave? {
      LeavePowerIff(s, e.c, e.heir, e.missed);
    } else {
      forall d ensures PowerAt(Step(s, e), d) {
        assert PowerAt(s, d);
        OtherPower(s, e, d);
      }
    }
  }

  ghost predicate PowersThroughout(s: Sys, es: seq<Event>)
    requires Runs(s, es)
    decreases |es|
  {
    Powers(s) && (es == [] || PowersThroughout(Step(s, es[0]), es[1..]))
  }

  ghost predicate AllKeepPower(s: Sys, es: seq<Event>)
    requires Runs(s, es)
    decreases |es|
  {
    es == [] || (KeepsPower(s, es[0]) && AllKeepPower(Step(s, es[0]), es[1..]))
  }

  lemma {:induction false} PowersThroughoutIff(s: Sys, es: seq<Event>)
    requires Structure(s) && Powers(s) && Runs(s, es)
    ensures PowersThroughout(s, es) <==> AllKeepPower(s, es)
    decreases |es|
  {
    if es != [] {
      StructureStep(s, es[0]);
      PowersStepIff(s, es[0]);
      if Powers(Step(s, es[0])) { PowersThroughoutIff(Step(s, es[0]), es[1..]); }
    }
  }

  /** Exactly which runs, of all runs, leave host powers with the present host in every state. */
  lemma HostPowersStayThroughoutIff(limit: nat, es: seq<Event>)
    requires Runs(Init(limit), es)
    ensures PowersThroughout(Init(limit), es) <==> AllKeepPower(Init(limit), es)
  {
    StructureInit(limit);
    PowersThroughoutIff(Init(limit), es);
  }

  // ---------------------------------------------------------------- which removals take another, exactly

  /** A kick's delete takes out another connection than its target exactly when the id names another by then. */
  lemma KickTakesAnotherIff(s: Sys, c: Conn)
    requires Structure(s) && CanRemove(s, c)
    ensures
      var x, target := s.conns[c].pc.work.x, s.conns[c].pc.work.target;
      (exists i :: i in s.clients && s.clients[i] != target && i !in Removing(s, c).clients) <==>
        x in s.clients && s.clients[x] != target
  {}

  /** A leave takes out another connection exactly when its id names another by then. */
  lemma LeaveTakesAnotherIff(s: Sys, c: Conn, heir: Conn, missed: set<Conn>)
    requires Structure(s) && CanLeave(s, c, heir)
    ensures (exists i :: i in s.clients && s.clients[i] != c && i !in Leaving(s, c, heir, missed).clients)
      <==> s.conns[c].id in s.clients && s.clients[s.conns[c].id] != c
  {}

  // ---------------------------------------------------------------- closing

  lemma LastOneOut(s: Sys, c: Conn)
    requires c in s.conns && s.conns[c].id in s.clients
    ensures Remaining(s, c) == map[] <==> s.clients.Keys == {s.conns[c].id}
  {
    assert Remaining(s, c).Keys == s.clients.Keys - {s.conns[c].id};
    assert Remaining(s, c) == map[] <==> Remaining(s, c).Keys == {};
  }

  /**
   * A room becomes closed exactly when its last member leaves as host; no member is left for the
   * room_closed loop (752-758) to reach.  This needs neither hypothesis.
   */
  lemma ClosesExactlyWithItsLastHost(s: Sys, e: Event)
    requires Structure(s) && Enabled(s, e) && !s.closed
    ensures Step(s, e).closed <==>
      e.Leave? && s.hostID == Some(s.conns[e.c].id) && s.clients.Keys == {s.conns[e.c].id}
    ensures Step(s, e).closed ==> Targets(Step(s, e), None) == {}
  {
    match e
    case Leave(c, heir, missed) =>
      LeaveEffect(s, c, heir, missed);
      if s.conns[c].id in s.clients { LastOneOut(s, c); }
    case _ =>
  }
}
