/**
 * What every step of the membership protocol keeps, whatever ids clients ask for and however the
 * host uses its powers: id bookkeeping and who may be named by a pending send.
 */
module MembershipStructure {
  import opened Options
  import opened Membership

  /** The connection obtained membership at some time. */
  predicate WasAdmitted(s: Sys, c: Conn) {
    c in s.conns && Joined(s.conns[c].pc)
  }

  /** Key i of `clients` and `pending`: each maps to a connection bearing that id, never both. */
  predicate IdOk(s: Sys, i: Id) {
    && (i in s.clients ==>
          s.clients[i] in s.conns && s.conns[s.clients[i]].id == i && s.conns[s.clients[i]].pc.Inside?)
    && (i in s.pending ==>
          s.pending[i] in s.conns && s.conns[s.pending[i]].id == i && s.conns[s.pending[i]].pc.Knocking?)
    && !(i in s.clients && i in s.pending)
  }

  /** A connection waiting for approval owns its entry in `pending`. */
  predicate KnockOk(s: Sys, c: Conn) {
    c in s.conns && s.conns[c].pc.Knocking? && !s.closed ==>
      s.conns[c].id in s.pending && s.pending[s.conns[c].id] == c
  }

  /** Every connection that a goroutine at `pc` still means to act on was once admitted. */
  predicate RefsFor(s: Sys, pc: PC) {
    match pc
    case Knocking(TellingPending(h)) => h.Some? ==> WasAdmitted(s, h.value)
    case Knocking(TellingHost(h)) => h.Some? ==> WasAdmitted(s, h.value)
    case Inside(Sending(_, targets)) => forall t :: t in targets ==> WasAdmitted(s, t)
    case Inside(PlacingDecision(p, _)) => p in s.conns && !s.conns[p].pc.Arrived?
    case Inside(TellingTarget(_, t)) => WasAdmitted(s, t)
    case Inside(ShuttingTarget(_, t)) => WasAdmitted(s, t)
    case Inside(DeletingTarget(_, t)) => WasAdmitted(s, t)
    case Parting(TellingPeers(_, targets, _)) => forall t :: t in targets ==> WasAdmitted(s, t)
    case _ => true
  }

  predicate RoomOk(s: Sys) {
    && (s.closed ==> s.clients == map[] && s.pending == map[] && s.hostID.Some?)
    && (s.hostID.None? ==> s.clients == map[] && s.pending == map[] && s.mail == {})
  }

  ghost predicate Ids(s: Sys) { forall i :: IdOk(s, i) }
  ghost predicate Knocks(s: Sys) { forall c :: KnockOk(s, c) }
  ghost predicate Refs(s: Sys) { forall c :: c in s.conns ==> RefsFor(s, s.conns[c].pc) }
  predicate Mails(s: Sys) { forall t :: t in s.mail ==> WasAdmitted(s, t) }
  predicate Unhosted(s: Sys) { s.hostID.None? ==> forall c :: c in s.conns ==> s.conns[c].pc.Arrived? }

  ghost predicate Structure(s: Sys) {
    Ids(s) && Knocks(s) && RoomOk(s) && Unhosted(s) && Refs(s) && Mails(s)
  }

  lemma StructureInit(limit: nat)
    ensures Structure(Init(limit))
  {}

  // ---------------------------------------------------------------- quiet steps

  predicate SameStage(pc: PC, pc': PC) {
    && (pc.Arrived? <==> pc'.Arrived?) && (pc.Knocking? <==> pc'.Knocking?)
    && (pc.Refused? <==> pc'.Refused?) && (pc.Inside? <==> pc'.Inside?)
    && (pc'.Parting? ==> pc.Parting?) && (pc.Gone? ==> pc'.Gone?)
  }

  predicate QuietClient(k: Client, k': Client) {
    k'.id == k.id && k'.joinedAt == k.joinedAt && k'.request == k.request && SameStage(k.pc, k'.pc)
  }

  /** A step outside the four locked sections that write: the room's own fields stay, nobody moves between stages. */
  ghost predicate Quiet(s: Sys, s': Sys) {
    && s'.hostID == s.hostID && s'.closed == s.closed && s'.clients == s.clients && s'.pending == s.pending
    && s'.limit == s.limit
    && (forall d :: d in s.conns ==> d in s'.conns && QuietClient(s.conns[d], s'.conns[d]))
    && (forall d :: d in s'.conns && d !in s.conns ==> s'.conns[d].pc.Arrived?)
  }

  predicate WritesRoom(e: Event) {
    e.Enter? || e.Admit? || e.Remove? || e.Leave?
  }

  lemma QuietMove(s: Sys, c: Conn, next: PC)
    requires CanMove(s, c, next)
    ensures Quiet(s, Goto(s, c, next))
  {}

  lemma QuietDeliver(s: Sys, c: Conn, target: Conn, lost: bool)
    requires CanDeliver(s, c, target, lost)
    ensures Quiet(s, Delivering(s, c, target, lost))
  {}

  lemma QuietShut(s: Sys, c: Conn)
    requires CanShut(s, c)
    ensures Quiet(s, Shutting(s, c))
  {}

  lemma QuietStep(s: Sys, e: Event)
    requires Enabled(s, e) && !WritesRoom(e)
    ensures Quiet(s, Step(s, e))
  {
    match e
    case Move(c, next) => QuietMove(s, c, next);
    case Deliver(c, target, lost) => QuietDeliver(s, c, target, lost);
    case Shut(c) => QuietShut(s, c);
    case _ =>
  }

  lemma QuietKeeps(s: Sys, s': Sys)
    requires Quiet(s, s') && Ids(s) && Knocks(s) && Unhosted(s)
    ensures Ids(s') && Knocks(s') && Unhosted(s')
  {
    forall i ensures IdOk(s', i) { assert IdOk(s, i); }
    forall c ensures KnockOk(s', c) { assert KnockOk(s, c); }
  }

  // ---------------------------------------------------------------- ids

  lemma EnterIds(s: Sys, c: Conn, id: Id, request: nat)
    requires Ids(s) && Knocks(s) && RoomOk(s) && CanEnter(s, c, id)
    ensures var s' := Entering(s, c, id, request); Ids(s') && Knocks(s')
  {
    var s' := Entering(s, c, id, request);
    forall i ensures IdOk(s', i) { assert IdOk(s, i); }
    forall d ensures KnockOk(s', d) { assert KnockOk(s, d); }
  }

  lemma AdmitIds(s: Sys, c: Conn)
    requires Ids(s) && Knocks(s) && RoomOk(s) && CanAdmit(s, c)
    ensures var s' := Admitting(s, c); Ids(s') && Knocks(s')
  {
    var s' := Admitting(s, c);
    assert KnockOk(s, c);
    forall i ensures IdOk(s', i) { assert IdOk(s, i); }
    forall d ensures KnockOk(s', d) { assert KnockOk(s, d); }
  }

  lemma RemoveIds(s: Sys, c: Conn)
    requires Ids(s) && Knocks(s) && CanRemove(s, c)
    ensures var s' := Removing(s, c); Ids(s') && Knocks(s')
  {
    var s' := Removing(s, c);
    forall i ensures IdOk(s', i) { assert IdOk(s, i); }
    forall d ensures KnockOk(s', d) { assert KnockOk(s, d); }
  }

  /** leaveRoom's locked section changes the leaver's stage only; the clients left are those not bearing its id. */
  lemma LeaveEffect(s: Sys, c: Conn, heir: Conn, missed: set<Conn>)
    requires CanLeave(s, c, heir)
    ensures
      var s' := Leaving(s, c, heir, missed);
      && s'.conns.Keys == s.conns.Keys && s'.limit == s.limit && s'.mail == s.mail
      && s'.clients == Remaining(s, c)
      && s'.closed == (s.closed || (HostLeaves(s, c) && Remaining(s, c) == map[]))
      && s'.pending == (if s'.closed && !s.closed then map[] else s.pending)
      && s'.hostID == (if HostLeaves(s, c) && Remaining(s, c) != map[] then Some(s.conns[heir].id) else s.hostID)
      && (s'.conns[c].pc.Parting? || s'.conns[c].pc.Gone?)
      && (forall d :: d in s.conns && d != c ==> QuietClient(s.conns[d], s'.conns[d]) && s'.conns[d].pc == s.conns[d].pc)
      && s'.conns[c].id == s.conns[c].id
  {}

  lemma LeaveIds(s: Sys, c: Conn, heir: Conn, missed: set<Conn>)
    requires Ids(s) && Knocks(s) && RoomOk(s) && CanLeave(s, c, heir)
    ensures var s' := Leaving(s, c, heir, missed); Ids(s') && Knocks(s')
  {
    var s' := Leaving(s, c, heir, missed);
    LeaveEffect(s, c, heir, missed);
    forall i ensures IdOk(s', i) { assert IdOk(s, i); }
    forall d ensures KnockOk(s', d) { assert KnockOk(s, d); }
  }

  // ---------------------------------------------------------------- references

  lemma TargetsAreInside(s: Sys, except: Option<Id>)
    requires forall i :: i in s.clients ==> IdOk(s, i)
    ensures forall t :: t in Targets(s, except) ==> t in s.conns && s.conns[t].pc.Inside? && IsMember(s, t)
    ensures forall t :: t in Targets(s, except) ==> Some(s.conns[t].id) != except
    ensures forall t :: IsMember(s, t) && Some(s.conns[t].id) != except ==> t in Targets(s, except)
  {}

  /** Nobody ever goes back to before its admission. */
  ghost predicate Grows(s: Sys, s': Sys) {
    && (forall d :: WasAdmitted(s, d) ==> WasAdmitted(s', d))
    && (forall d :: d in s.conns && !s.conns[d].pc.Arrived? ==> d in s'.conns && !s'.conns[d].pc.Arrived?)
  }

  lemma GrowsStep(s: Sys, e: Event)
    requires Enabled(s, e)
    ensures Grows(s, Step(s, e))
  {
    if !WritesRoom(e) {
      QuietStep(s, e);
    } else if e.Leave? {
      LeaveEffect(s, e.c, e.heir, e.missed);
    }
  }

  /** The places a goroutine may go: what it will act on was admitted. */
  lemma MoveRefs(s: Sys, c: Conn, next: PC)
    requires Ids(s) && Refs(s) && CanMove(s, c, next)
    ensures RefsFor(s, next)
  {
    if s.conns[c].pc.Inside? {
      var w := s.conns[c].pc.work;
      match w
      case Broadcasting(m, except) => TargetsAreInside(s, except);
      case LookingUpRequest(_, _) =>
        if next.work.PlacingDecision? {
          var i :| i in s.pending && s.pending[i] == next.work.pending;
          assert IdOk(s, i);
        }
      case LookingUpTarget(x) => assert IdOk(s, x);
      case Reading =>
        if next.work.Sending? && SendsTo(s, next.work.targets) {
          var i :| i in s.clients && next.work.targets == {s.clients[i]};
          assert IdOk(s, i);
        }
      case _ =>
    }
  }

  lemma LeaveIdsOnly(s: Sys, c: Conn, heir: Conn, missed: set<Conn>)
    requires Ids(s) && CanLeave(s, c, heir)
    ensures
      var s' := Leaving(s, c, heir, missed);
      && (forall i :: i in s'.clients ==> IdOk(s', i))
      && Targets(s', None) == Targets(s.(clients := Remaining(s, c)), None)
  {
    LeaveEffect(s, c, heir, missed);
    forall i | i in Leaving(s, c, heir, missed).clients
      ensures IdOk(Leaving(s, c, heir, missed), i)
    {
      assert IdOk(s, i);
    }
  }

  lemma LeaveRefs(s: Sys, c: Conn, heir: Conn, missed: set<Conn>)
    requires Ids(s) && CanLeave(s, c, heir)
    ensures RefsFor(s, Leaving(s, c, heir, missed).conns[c].pc)
  {
    var rest := s.(clients := Remaining(s, c));
    forall i ensures IdOk(rest, i) { assert IdOk(s, i); }
    TargetsAreInside(rest, None);
    assert Targets(Leaving(s, c, heir, missed), None) == Targets(rest, None);
  }

  /** Which goroutine an event belongs to; background events belong to none. */
  function Actor(e: Event): Option<Conn> {
    if e.MailSnapshot? || e.MailSend? then None else Some(e.c)
  }

  /** An event moves no other goroutine than its own. */
  lemma OthersStay(s: Sys, e: Event, d: Conn)
    requires Enabled(s, e) && d in s.conns && Actor(e) != Some(d)
    ensures d in Step(s, e).conns && Step(s, e).conns[d].pc == s.conns[d].pc
  {
    if e.Leave? {
      LeaveEffect(s, e.c, e.heir, e.missed);
    }
  }

  lemma ActorRefs(s: Sys, e: Event)
    requires Ids(s) && Refs(s) && Mails(s) && Enabled(s, e) && Actor(e).Some?
    ensures Grows(s, Step(s, e))
    ensures RefsFor(Step(s, e), Step(s, e).conns[e.c].pc)
  {
    var s' := Step(s, e);
    GrowsStep(s, e);
    match e
    case Move(c, next) => MoveRefs(s, c, next);
    case Enter(c, id, _) => if s.hostID.Some? { assert IdOk(s, s.hostID.value); }
    case Leave(c, heir, missed) => LeaveRefs(s, c, heir, missed);
    case Deliver(c, _, _) =>
    case Shut(c) =>
    case _ =>
  }

  lemma RefsStep(s: Sys, e: Event)
    requires Ids(s) && Refs(s) && Mails(s) && Enabled(s, e)
    ensures Refs(Step(s, e))
  {
    var s' := Step(s, e);
    GrowsStep(s, e);
    if Actor(e).Some? {
      ActorRefs(s, e);
    }
    forall d | d in s'.conns
      ensures RefsFor(s', s'.conns[d].pc)
    {
      if Actor(e) != Some(d) {
        SameConns(s, e, d);
        OthersStay(s, e, d);
      }
    }
  }

  lemma SameConns(s: Sys, e: Event, d: Conn)
    requires Enabled(s, e)
    ensures d in Step(s, e).conns <==> d in s.conns || (e.Arrive? && d == e.c)
  {
    if e.Leave? {
      LeaveEffect(s, e.c, e.heir, e.missed);
    }
  }

  lemma MailsStep(s: Sys, e: Event)
    requires Ids(s) && Mails(s) && Enabled(s, e)
    ensures Mails(Step(s, e))
  {
    GrowsStep(s, e);
    match e
    case MailSnapshot(_) => TargetsAreInside(s, None);
    case Leave(c, heir, missed) => LeaveEffect(s, c, heir, missed);
    case _ =>
  }

  lemma IdsStep(s: Sys, e: Event)
    requires Ids(s) && Knocks(s) && RoomOk(s) && Unhosted(s) && Enabled(s, e)
    ensures Ids(Step(s, e)) && Knocks(Step(s, e))
  {
    match e
    case Enter(c, id, request) => EnterIds(s, c, id, request);
    case Admit(c) => AdmitIds(s, c);
    case Remove(c) => RemoveIds(s, c);
    case Leave(c, heir, missed) => LeaveIds(s, c, heir, missed);
    case _ => QuietStep(s, e); QuietKeeps(s, Step(s, e));
  }

  lemma RoomStep(s: Sys, e: Event)
    requires Structure(s) && Enabled(s, e)
    ensures RoomOk(Step(s, e)) && Unhosted(Step(s, e))
  {
    match e
    case Enter(_, _, _) =>
    case Admit(c) => assert KnockOk(s, c);
    case Remove(_) =>
    case Leave(c, heir, missed) => LeaveEffect(s, c, heir, missed);
    case MailSnapshot(_) => TargetsAreInside(s, None);
    case _ => QuietStep(s, e); QuietKeeps(s, Step(s, e));
  }

  /** Every step, of any goroutine, under any scheduling, keeps the structure. */
  lemma StructureStep(s: Sys, e: Event)
    requires Structure(s) && Enabled(s, e)
    ensures Structure(Step(s, e))
  {
    IdsStep(s, e);
    RoomStep(s, e);
    RefsStep(s, e);
    MailsStep(s, e);
  }

  lemma {:induction false} StructureRun(s: Sys, es: seq<Event>)
    requires Structure(s) && Runs(s, es)
    ensures Structure(Outcome(s, es))
    decreases |es|
  {
    if es != [] {
      StructureStep(s, es[0]);
      StructureRun(Step(s, es[0]), es[1..]);
    }
  }

  /**
   * Id bookkeeping over every run: no id is both a member's and a waiter's, each entry maps to a
   * connection bearing that id, and every connection waiting in an open room owns its entry.
   */
  lemma IdBookkeeping(limit: nat, es: seq<Event>)
    requires Runs(Init(limit), es)
    ensures
      var s := Outcome(Init(limit), es);
      && s.clients.Keys !! s.pending.Keys
      && (forall i :: i in s.clients ==> s.clients[i] in s.conns && s.conns[s.clients[i]].id == i)
      && (forall i :: i in s.pending ==> s.pending[i] in s.conns && s.conns[s.pending[i]].id == i)
      && (forall c :: c in s.conns && s.conns[c].pc.Knocking? && !s.closed ==>
            s.conns[c].id in s.pending && s.pending[s.conns[c].id] == c)
  {
    StructureInit(limit);
    StructureRun(Init(limit), es);
    var s := Outcome(Init(limit), es);
    forall i | i in s.clients ensures i !in s.pending && s.clients[i] in s.conns && s.conns[s.clients[i]].id == i {
      assert IdOk(s, i);
    }
    forall i | i in s.pending ensures s.pending[i] in s.conns && s.conns[s.pending[i]].id == i { assert IdOk(s, i); }
    forall c | c in s.conns && s.conns[c].pc.Knocking? && !s.closed
      ensures s.conns[c].id in s.pending && s.pending[s.conns[c].id] == c
    {
      assert KnockOk(s, c);
    }
  }

  /**
   * A waiter's delete-by-id (698) removes no other waiter, and approval moves its id from `pending`
   * to `clients` in one step, overwriting nobody.
   */
  lemma ApprovalMovesTheId(s: Sys, c: Conn)
    requires Structure(s) && CanAdmit(s, c)
    ensures
      var s' := Admitting(s, c);
      var id := s.conns[c].id;
      && (forall i :: i in s.pending && s.pending[i] != c ==> i in s'.pending && s'.pending[i] == s.pending[i])
      && (forall i :: i in s.clients ==> i in s'.clients && s'.clients[i] == s.clients[i])
      && id !in s'.pending
      && (id in s'.clients && id !in s.clients <==> !Dead(s) && s.conns[c].pc.knock.decision == Approve)
      && (id in s'.clients && id !in s.clients ==> s'.clients[id] == c && id in s.pending)
  {
    assert KnockOk(s, c) && IdOk(s, s.conns[c].id);
  }

  // ---------------------------------------------------------------- dead rooms

  /** A client that will never be admitted: turned away, decided against, or outside a dead room. */
  predicate Doomed(s: Sys, c: Conn) {
    c in s.conns ==>
      && !Joined(s.conns[c].pc)
      && (Dead(s) || s.conns[c].pc.Refused? || s.conns[c].pc == Knocking(Decided(Reject)))
  }

  lemma DeadStep(s: Sys, e: Event)
    requires Structure(s) && Enabled(s, e) && Dead(s)
    ensures Dead(Step(s, e))
    ensures forall i :: i in Step(s, e).clients ==> i in s.clients && Step(s, e).clients[i] == s.clients[i]
  {}

  lemma DoomedStep(s: Sys, e: Event, c: Conn)
    requires Structure(s) && Enabled(s, e) && Doomed(s, c) && (c in s.conns || Dead(s))
    ensures Doomed(Step(s, e), c) && (c in Step(s, e).conns || Dead(Step(s, e)))
  {
    if Dead(s) {
      DeadStep(s, e);
    }
    SameConns(s, e, c);
    if c in s.conns && Actor(e) != Some(c) {
      OthersStay(s, e, c);
    }
  }
}
