/**
 * Everyone agrees on the host: the last host announcement in the queue of every open member names
 * `room.hostID` after every step, as long as no full channel drops one.
 */
module MembershipAgreement {
  import opened Options
  import opened Membership
  import opened MembershipStructure
  import opened MembershipSilence

  /** The host a client believes in after reading all of q: auth_ok.HostID, later host_changed. */
  function LastHost(q: seq<Msg>): Option<Id> {
    if q == [] then None
    else
      match q[|q| - 1]
      case AuthOk(_, host) => host
      case HostChanged(newHost) => Some(newHost)
      case _ => LastHost(q[..|q| - 1])
  }

  /** No host announcement is dropped by a full channel in this step. */
  predicate NoneMissed(e: Event) {
    e.Leave? ==> e.missed == {}
  }

  ghost predicate RunsUndropped(s: Sys, es: seq<Event>)
    decreases |es|
  {
    es == [] || (Enabled(s, es[0]) && NoneMissed(es[0]) && RunsUndropped(Step(s, es[0]), es[1..]))
  }

  predicate AgreesAt(s: Sys, i: Id) {
    i in s.clients && s.clients[i] in s.conns && !s.conns[s.clients[i]].shut ==>
      LastHost(s.conns[s.clients[i]].queue) == s.hostID
  }

  ghost predicate Agree(s: Sys) {
    forall i :: AgreesAt(s, i)
  }

  lemma LastHostOfQueue(k: Client, m: Msg, lost: bool)
    ensures !m.AuthOk? && !m.HostChanged? ==> LastHost(Queue(k, m, lost).queue) == LastHost(k.queue)
    ensures !k.shut && !lost && m.HostChanged? ==> LastHost(Queue(k, m, lost).queue) == Some(m.newHost)
    ensures !k.shut && !lost && m.AuthOk? ==> LastHost(Queue(k, m, lost).queue) == m.host
  {}

  lemma EnterAgree(s: Sys, c: Conn, id: Id, request: nat)
    requires Structure(s) && Histories(s) && Agree(s) && CanEnter(s, c, id)
    ensures Agree(Entering(s, c, id, request))
  {
    var s' := Entering(s, c, id, request);
    assert ClientOk(s.conns[c]);
    if s.hostID.None? {
      LastHostOfQueue(s.conns[c], AuthOk(s.clients.Keys - {id}, Some(id)), false);
    }
    forall i ensures AgreesAt(s', i) { assert AgreesAt(s, i); assert IdOk(s, i); }
  }

  lemma AdmitAgree(s: Sys, c: Conn)
    requires Structure(s) && Histories(s) && Agree(s) && CanAdmit(s, c)
    ensures Agree(Admitting(s, c))
  {
    var s' := Admitting(s, c);
    assert ClientOk(s.conns[c]);
    LastHostOfQueue(s.conns[c], AuthOk(s.clients.Keys - {s.conns[c].id}, s.hostID), false);
    forall i ensures AgreesAt(s', i) { assert AgreesAt(s, i); assert IdOk(s, i); }
  }

  lemma DeliverAgree(s: Sys, c: Conn, target: Conn, lost: bool)
    requires Structure(s) && Histories(s) && Agree(s) && CanDeliver(s, c, target, lost)
    ensures Agree(Delivering(s, c, target, lost))
  {
    var s' := Delivering(s, c, target, lost);
    assert ClientOk(s.conns[c]);
    LastHostOfQueue(s.conns[target], Message(s.conns[c]), lost);
    forall i ensures AgreesAt(s', i) { assert AgreesAt(s, i); assert IdOk(s, i); }
  }

  /** A migration leaves an open member right about the host exactly when its announcement was not dropped. */
  lemma MigrationReachesExactlyTheUnmissed(s: Sys, c: Conn, heir: Conn, missed: set<Conn>, m: Conn)
    requires Structure(s) && Agree(s) && CanLeave(s, c, heir) && HostLeaves(s, c) && Remaining(s, c) != map[]
    requires IsMember(s, m) && !s.conns[m].shut && s.conns[m].id != s.conns[c].id
    ensures
      var s' := Leaving(s, c, heir, missed);
      && IsMember(s', m) && !s'.conns[m].shut
      && (LastHost(s'.conns[m].queue) == s'.hostID <==> m !in missed)
  {
    var s' := Leaving(s, c, heir, missed);
    assert AgreesAt(s, s.conns[m].id) && IdOk(s, s.conns[m].id);
    LeaveEffect(s, c, heir, missed);
    LeaveIdsOnly(s, c, heir, missed);
    LeaveQueues(s, c, heir, missed, m);
    TargetsAreInside(s', None);
    LastHostOfQueue(s.conns[m], HostChanged(s.conns[heir].id), m in missed);
  }

  /** No open member is left out of a migration's announcement. */
  predicate Heard(s: Sys, e: Event) {
    e.Leave? && e.c in s.conns && HostLeaves(s, e.c) ==>
      forall i :: i in Remaining(s, e.c) && s.clients[i] in s.conns && !s.conns[s.clients[i]].shut ==> s.clients[i] !in e.missed
  }

  lemma LeaveAgree(s: Sys, c: Conn, heir: Conn, missed: set<Conn>)
    requires Structure(s) && Agree(s) && CanLeave(s, c, heir)
    ensures Agree(Leaving(s, c, heir, missed)) <==> Heard(s, Leave(c, heir, missed))
  {
    var s' := Leaving(s, c, heir, missed);
    LeaveEffect(s, c, heir, missed);
    forall i ensures AgreesAt(s', i) <==>
      (HostLeaves(s, c) && i in Remaining(s, c) && s.clients[i] in s.conns && !s.conns[s.clients[i]].shut ==> s.clients[i] !in missed)
    {
      assert AgreesAt(s, i) && IdOk(s, i);
      if i in Remaining(s, c) {
        LeaveQueues(s, c, heir, missed, s.clients[i]);
        if HostLeaves(s, c) && !s.conns[s.clients[i]].shut {
          MigrationReachesExactlyTheUnmissed(s, c, heir, missed, s.clients[i]);
        }
      }
    }
    assert Agree(s') <==> forall i :: AgreesAt(s', i);
  }

  lemma QuietAgree(s: Sys, e: Event)
    requires Structure(s) && Agree(s) && Enabled(s, e)
    requires !e.Enter? && !e.Admit? && !e.Deliver? && !e.Leave?
    ensures Agree(Step(s, e))
  {
    if e.MailSend? {
      LastHostOfQueue(s.conns[e.target], Relayed, e.lost);
    }
    forall i ensures AgreesAt(Step(s, e), i) { assert AgreesAt(s, i) && IdOk(s, i); }
  }

  /** A step keeps every open member right about the host exactly when no migration misses one. */
  lemma AgreeStepIff(s: Sys, e: Event)
    requires Structure(s) && Histories(s) && Agree(s) && Enabled(s, e)
    ensures Agree(Step(s, e)) <==> Heard(s, e)
  {
    match e
    case Enter(c, id, request) => EnterAgree(s, c, id, request);
    case Admit(c) => AdmitAgree(s, c);
    case Deliver(c, target, lost) => DeliverAgree(s, c, target, lost);
    case Leave(c, heir, missed) => LeaveAgree(s, c, heir, missed);
    case _ => QuietAgree(s, e);
  }

  lemma {:induction false} AgreeRun(s: Sys, es: seq<Event>)
    requires Structure(s) && Histories(s) && Agree(s) && RunsUndropped(s, es)
    ensures Runs(s, es) && Agree(Outcome(s, es)) && Structure(Outcome(s, es))
    decreases |es|
  {
    if es != [] {
      StructureStep(s, es[0]);
      HistoriesStep(s, es[0]);
      AgreeStepIff(s, es[0]);
      AgreeRun(Step(s, es[0]), es[1..]);
    }
  }

  /** Every open member is right about the host in every state of the run. */
  ghost predicate AgreeThroughout(s: Sys, es: seq<Event>)
    requires Runs(s, es)
    decreases |es|
  {
    Agree(s) && (es == [] || AgreeThroughout(Step(s, es[0]), es[1..]))
  }

  ghost predicate AllHeard(s: Sys, es: seq<Event>)
    requires Runs(s, es)
    decreases |es|
  {
    es == [] || (Heard(s, es[0]) && AllHeard(Step(s, es[0]), es[1..]))
  }

  lemma {:induction false} AgreeThroughoutIff(s: Sys, es: seq<Event>)
    requires Structure(s) && Histories(s) && Agree(s) && Runs(s, es)
    ensures AgreeThroughout(s, es) <==> AllHeard(s, es)
    decreases |es|
  {
    if es != [] {
      StructureStep(s, es[0]);
      HistoriesStep(s, es[0]);
      AgreeStepIff(s, es[0]);
      if Agree(Step(s, es[0])) { AgreeThroughoutIff(Step(s, es[0]), es[1..]); }
    }
  }

  /** Exactly which runs keep every open member right about the host: those whose migrations all are heard. */
  lemma EveryoneAgreesThroughoutIff(limit: nat, es: seq<Event>)
    requires Runs(Init(limit), es)
    ensures AgreeThroughout(Init(limit), es) <==> AllHeard(Init(limit), es)
  {
    StructureInit(limit);
    AgreeThroughoutIff(Init(limit), es);
  }

  /** After every run without dropped announcements, every open member's last word on the host is right. */
  lemma EveryoneAgreesOnTheHost(limit: nat, es: seq<Event>, m: Conn)
    requires RunsUndropped(Init(limit), es)
    ensures Runs(Init(limit), es)
    ensures
      var s := Outcome(Init(limit), es);
      IsMember(s, m) && !s.conns[m].shut ==> LastHost(s.conns[m].queue) == s.hostID && s.hostID.Some?
  {
    StructureInit(limit);
    AgreeRun(Init(limit), es);
    var s := Outcome(Init(limit), es);
    if IsMember(s, m) {
      assert AgreesAt(s, s.conns[m].id);
    }
  }
}
