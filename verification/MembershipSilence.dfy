/**
 * What a client is told, and when: nothing but join_pending before auth_ok, and nothing but
 * join_pending and join_rejected if it is never admitted.
 */
module MembershipSilence {
  import opened Options
  import opened Membership
  import opened MembershipStructure

  /** Messages meant for admitted clients. */
  predicate ForMembers(m: Msg) {
    !m.AuthOk? && !m.JoinPending? && !m.JoinRejected?
  }

  /** A history whose first message other than one optional join_pending is auth_ok. */
  predicate Admitted(q: seq<Msg>) {
    || (|q| > 0 && q[0].AuthOk? && forall j :: 1 <= j < |q| ==> ForMembers(q[j]))
    || (|q| > 1 && q[0] == JoinPending && q[1].AuthOk? && forall j :: 2 <= j < |q| ==> ForMembers(q[j]))
  }

  /** What the queue of a client at each stage may hold. */
  predicate HistoryOk(k: Client) {
    match k.pc
    case Arrived => k.queue == [] && !k.shut
    case Knocking(TellingPending(_)) => k.queue == [] && !k.shut
    case Knocking(_) => k.queue == [JoinPending] && !k.shut
    case Refused(TellingRefused) => (k.queue == [] || k.queue == [JoinPending]) && !k.shut
    case Refused(_) => k.queue == [JoinRejected] || k.queue == [JoinPending, JoinRejected]
    case _ => Admitted(k.queue)
  }

  /** What `broadcast` and `sendTo` carry. */
  predicate Notice(m: Msg) {
    m.PeerJoined? || m.PeerLeft? || m.Relayed?
  }

  predicate MessageOk(pc: PC) {
    pc.Inside? && (pc.work.Broadcasting? || pc.work.Sending?) ==> Notice(pc.work.msg)
  }

  predicate ClientOk(k: Client) {
    HistoryOk(k) && MessageOk(k.pc)
  }

  ghost predicate Histories(s: Sys) {
    forall c :: c in s.conns ==> ClientOk(s.conns[c])
  }

  lemma QueueAdmitted(k: Client, m: Msg, lost: bool)
    requires Admitted(k.queue) && ForMembers(m)
    ensures Admitted(Queue(k, m, lost).queue)
  {}

  lemma DeliverHistories(s: Sys, c: Conn, target: Conn, lost: bool)
    requires Refs(s) && Histories(s) && CanDeliver(s, c, target, lost)
    ensures Histories(Delivering(s, c, target, lost))
  {
    if target != c {
      var k := s.conns[c];
      assert ClientOk(k.(pc := AfterDelivery(k.pc, target))) by { assert ClientOk(k); }
    }
  }

  /** leaveRoom's locked section queues at most one host_changed, and only to members. */
  lemma LeaveQueues(s: Sys, c: Conn, heir: Conn, missed: set<Conn>, d: Conn)
    requires CanLeave(s, c, heir) && d in s.conns
    ensures
      var s' := Leaving(s, c, heir, missed);
      var told := HostLeaves(s, c) && Remaining(s, c) != map[] && d in Targets(s', None);
      && d in s'.conns && s'.conns[d].shut == s.conns[d].shut
      && s'.conns[d].queue ==
         (if told then Queue(s.conns[d], HostChanged(s.conns[heir].id), d in missed) else s.conns[d]).queue
  {}

  lemma LeaveHistories(s: Sys, c: Conn, heir: Conn, missed: set<Conn>)
    requires Ids(s) && Histories(s) && CanLeave(s, c, heir)
    ensures Histories(Leaving(s, c, heir, missed))
  {
    var s' := Leaving(s, c, heir, missed);
    LeaveEffect(s, c, heir, missed);
    LeaveIdsOnly(s, c, heir, missed);
    TargetsAreInside(s', None);
    forall d | d in s'.conns
      ensures ClientOk(s'.conns[d])
    {
      assert ClientOk(s.conns[d]);
      LeaveQueues(s, c, heir, missed, d);
      if HostLeaves(s, c) && Remaining(s, c) != map[] && d in Targets(s', None) {
        QueueAdmitted(s.conns[d], HostChanged(s.conns[heir].id), d in missed);
      }
    }
  }

  lemma EnterHistories(s: Sys, c: Conn, id: Id, request: nat)
    requires Histories(s) && CanEnter(s, c, id)
    ensures Histories(Entering(s, c, id, request))
  {}

  lemma PlaceHistories(s: Sys, c: Conn)
    requires Histories(s) && CanPlaceDecision(s, c)
    ensures Histories(Placing(s, c))
  {}

  lemma MoveHistories(s: Sys, c: Conn, next: PC)
    requires Histories(s) && CanMove(s, c, next)
    ensures Histories(Goto(s, c, next))
  {}

  lemma SimpleHistories(s: Sys, e: Event)
    requires Structure(s) && Histories(s) && Enabled(s, e)
    requires e.Arrive? || e.Receive? || e.WritePresence? || e.Remove? || e.MailSnapshot? || e.MailSend?
    ensures Histories(Step(s, e))
  {
    if e.MailSend? {
      QueueAdmitted(s.conns[e.target], Relayed, e.lost);
    } else if Actor(e).Some? && !e.Arrive? {
      assert ClientOk(s.conns[e.c]);
    }
  }

  lemma HistoriesStep(s: Sys, e: Event)
    requires Structure(s) && Histories(s) && Enabled(s, e)
    ensures Histories(Step(s, e))
  {
    match e
    case Enter(c, id, request) => EnterHistories(s, c, id, request);
    case Admit(c) =>
    case Deliver(c, target, lost) => DeliverHistories(s, c, target, lost);
    case Shut(c) =>
    case Leave(c, heir, missed) => LeaveHistories(s, c, heir, missed);
    case Move(c, next) => MoveHistories(s, c, next);
    case PlaceDecision(c) => PlaceHistories(s, c);
    case _ => SimpleHistories(s, e);
  }

  lemma {:induction false} HistoriesRun(s: Sys, es: seq<Event>)
    requires Structure(s) && Histories(s) && Runs(s, es)
    ensures Structure(Outcome(s, es)) && Histories(Outcome(s, es))
    decreases |es|
  {
    if es != [] {
      StructureStep(s, es[0]);
      HistoriesStep(s, es[0]);
      HistoriesRun(Step(s, es[0]), es[1..]);
    }
  }

  /**
   * Silence before admission, over every run: the whole queue history of an admitted client is at
   * most one join_pending, then auth_ok, then messages for members; the history of a client that
   * was never admitted holds nothing but join_pending and join_rejected.
   */
  lemma SilenceBeforeAdmission(limit: nat, es: seq<Event>, c: Conn)
    requires Runs(Init(limit), es) && c in Outcome(Init(limit), es).conns
    ensures
      var k := Outcome(Init(limit), es).conns[c];
      if Joined(k.pc) then
        exists n | 0 <= n < |k.queue| && n <= 1 ::
          && k.queue[n].AuthOk?
          && (forall j :: 0 <= j < n ==> k.queue[j] == JoinPending)
          && (forall j :: n < j < |k.queue| ==> ForMembers(k.queue[j]))
      else
        forall j :: 0 <= j < |k.queue| ==> k.queue[j] in {JoinPending, JoinRejected}
  {
    StructureInit(limit);
    HistoriesRun(Init(limit), es);
    var k := Outcome(Init(limit), es).conns[c];
    assert HistoryOk(k);
    if Joined(k.pc) {
      var n := if k.queue[0].AuthOk? then 0 else 1;
      assert k.queue[n].AuthOk?;
    }
  }

  // ---------------------------------------------------------------- dead rooms stay dead

  lemma {:induction false} DoomedRun(s: Sys, es: seq<Event>, c: Conn)
    requires Structure(s) && Runs(s, es) && Doomed(s, c) && (c in s.conns || Dead(s))
    ensures Doomed(Outcome(s, es), c)
    decreases |es|
  {
    if es != [] {
      StructureStep(s, es[0]);
      DoomedStep(s, es[0], c);
      DoomedRun(Step(s, es[0]), es[1..], c);
    }
  }

  lemma {:induction false} DeadRun(s: Sys, es: seq<Event>)
    requires Structure(s) && Runs(s, es) && Dead(s)
    ensures Dead(Outcome(s, es))
    ensures forall i :: i in Outcome(s, es).clients ==> i in s.clients && Outcome(s, es).clients[i] == s.clients[i]
    decreases |es|
  {
    if es != [] {
      StructureStep(s, es[0]);
      DeadStep(s, es[0]);
      DeadRun(Step(s, es[0]), es[1..]);
    }
  }

  /**
   * Dead rooms stay dead.  From any reachable dead room, whatever happens next, the membership only
   * shrinks, and a client that was not yet admitted (waiting, or not even arrived) is not admitted:
   * it has read no auth_ok, and if its goroutine is done with joinRoom, it was rejected.
   */
  lemma DeadRoomsStayDead(limit: nat, es: seq<Event>, more: seq<Event>, c: Conn)
    requires Runs(Init(limit), es)
    requires var s := Outcome(Init(limit), es);
      Dead(s) && Runs(s, more) && (c in s.conns ==> !Joined(s.conns[c].pc))
    ensures
      var s := Outcome(Init(limit), es);
      var s' := Outcome(s, more);
      && Dead(s')
      && (forall i :: i in s'.clients ==> i in s.clients && s'.clients[i] == s.clients[i])
      && (c in s'.conns ==>
            && !Joined(s'.conns[c].pc)
            && (forall m :: m in s'.conns[c].queue ==> m in {JoinPending, JoinRejected})
            && (s'.conns[c].pc == Refused(Rejected) ==> JoinRejected in s'.conns[c].queue))
  {
    var s := Outcome(Init(limit), es);
    StructureInit(limit);
    HistoriesRun(Init(limit), es);
    DeadRun(s, more);
    DoomedRun(s, more, c);
    HistoriesRun(s, more);
  }

  // ---------------------------------------------------------------- the first decision wins

  /** Turned away already, or holding a rejection as the decision it will read. */
  predicate TurnedDown(k: Client) {
    || k.pc.Refused?
    || k.pc == Knocking(Decided(Reject))
    || (k.pc.Knocking? && !k.pc.knock.Decided? && k.slot == Some(Reject))
  }

  lemma TurnedDownLeave(s: Sys, c: Conn, heir: Conn, missed: set<Conn>, d: Conn)
    requires CanLeave(s, c, heir) && d in s.conns && d != c
    ensures d in Leaving(s, c, heir, missed).conns
    ensures Leaving(s, c, heir, missed).conns[d].pc == s.conns[d].pc
    ensures s.conns[d].slot.Some? ==> Leaving(s, c, heir, missed).conns[d].slot == s.conns[d].slot
  {}

  lemma TurnedDownStep(s: Sys, e: Event, c: Conn)
    requires Enabled(s, e) && c in s.conns && TurnedDown(s.conns[c])
    ensures c in Step(s, e).conns && TurnedDown(Step(s, e).conns[c])
  {
    if e.Leave? { TurnedDownLeave(s, e.c, e.heir, e.missed, c); }
  }

  /**
   * The first decision wins: once a rejection is in a request's slot, or the wait timed out, no
   * decision placed later admits the client, in any continuation.
   */
  lemma {:induction false} FirstRejectionWins(s: Sys, es: seq<Event>, c: Conn)
    requires Runs(s, es) && c in s.conns && TurnedDown(s.conns[c])
    ensures c in Outcome(s, es).conns && TurnedDown(Outcome(s, es).conns[c])
    ensures !Joined(Outcome(s, es).conns[c].pc)
    decreases |es|
  {
    if es != [] {
      TurnedDownStep(s, es[0], c);
      FirstRejectionWins(Step(s, es[0]), es[1..], c);
    }
  }

  /** Waiting, with no decision read yet. */
  predicate Undecided(pc: PC) {
    pc.Knocking? && !pc.knock.Decided?
  }

  /** Where a connection can be once `decision` was the first to be placed on its request. */
  predicate Bound(s: Sys, c: Conn, decision: Decision) {
    && c in s.conns
    && var k := s.conns[c];
       || (Undecided(k.pc) && k.slot == Some(decision))
       || k.pc == Knocking(Decided(decision))
       || (decision == Approve && Joined(k.pc))
       || (k.pc.Refused? && (decision == Reject || Dead(s)))
  }

  predicate TimesOut(e: Event, c: Conn) {
    e == Move(c, Knocking(Decided(Reject)))
  }

  /** What c's own goroutine makes of the decision. */
  lemma BoundOwn(s: Sys, e: Event, c: Conn, decision: Decision)
    requires Enabled(s, e) && Actor(e) == Some(c) && Bound(s, c, decision) && (decision == Approve ==> !TimesOut(e, c))
    requires Dead(s) ==> Dead(Step(s, e))
    ensures Bound(Step(s, e), c, decision)
  {
    match e
    case Deliver(_, _, _) =>
    case Leave(_, heir, missed) => LeaveEffect(s, c, heir, missed);
    case _ =>
  }

  /** Another's step takes no decision away. */
  lemma BoundOther(s: Sys, e: Event, c: Conn, decision: Decision)
    requires Enabled(s, e) && Actor(e) != Some(c) && Bound(s, c, decision)
    requires Dead(s) ==> Dead(Step(s, e))
    ensures Bound(Step(s, e), c, decision)
  {
    OthersStay(s, e, c);
    if e.Leave? { TurnedDownLeave(s, e.c, e.heir, e.missed, c); }
  }

  lemma BoundStep(s: Sys, e: Event, c: Conn, decision: Decision)
    requires Structure(s) && Enabled(s, e) && Bound(s, c, decision) && (decision == Approve ==> !TimesOut(e, c))
    ensures Bound(Step(s, e), c, decision)
  {
    if Dead(s) { DeadStep(s, e); }
    if Actor(e) == Some(c) { BoundOwn(s, e, c, decision); } else { BoundOther(s, e, c, decision); }
  }

  lemma {:induction false} BoundRun(s: Sys, es: seq<Event>, c: Conn, decision: Decision)
    requires Structure(s) && Runs(s, es) && Bound(s, c, decision)
    requires decision == Approve ==> forall i :: 0 <= i < |es| ==> !TimesOut(es[i], c)
    ensures Bound(Outcome(s, es), c, decision)
    decreases |es|
  {
    if es != [] {
      StructureStep(s, es[0]);
      BoundStep(s, es[0], c, decision);
      BoundRun(Step(s, es[0]), es[1..], c, decision);
    }
  }

  /**
   * The first decision stands: once d places it on the request of c, which waits undecided, d reads on, and in
   * every continuation c waits with that decision in its slot, or has read it; or it was approved and is
   * admitted, if its wait does not time out; or it is turned away, having been rejected or the room having died.
   */
  lemma FirstDecisionStands(s: Sys, d: Conn, c: Conn, es: seq<Event>)
    requires Structure(s) && Enabled(s, PlaceDecision(d)) && s.conns[d].pc.work.pending == c
    requires Undecided(s.conns[c].pc) && s.conns[c].slot == None && Runs(Step(s, PlaceDecision(d)), es)
    requires s.conns[d].pc.work.decision == Approve ==> forall i :: 0 <= i < |es| ==> !TimesOut(es[i], c)
    ensures d in Step(s, PlaceDecision(d)).conns && Step(s, PlaceDecision(d)).conns[d].pc == Inside(Reading)
    ensures
      var decision, s' := s.conns[d].pc.work.decision, Outcome(Step(s, PlaceDecision(d)), es);
      && c in s'.conns
      && var k := s'.conns[c];
         || (Undecided(k.pc) && k.slot == Some(decision)) || k.pc == Knocking(Decided(decision))
         || (decision == Approve && Joined(k.pc)) || (k.pc.Refused? && (decision == Reject || Dead(s')))
  {
    StructureStep(s, PlaceDecision(d));
    BoundRun(Step(s, PlaceDecision(d)), es, c, s.conns[d].pc.work.decision);
  }
}
