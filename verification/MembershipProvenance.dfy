/**
 * Where admissions and refusals come from, over whole runs.
 */
module MembershipProvenance {
  import opened Options
  import opened Membership
  import opened MembershipStructure
  import opened MembershipTraces

  /** At step k, d passed the host check for answering `request` (1189-1195). */
  ghost predicate CheckedAt(ss: seq<Sys>, es: seq<Event>, k: nat, d: Conn, request: nat, decision: Decision)
    requires k < |es| == |ss| - 1
  {
    && es[k] == Move(d, Inside(LookingUpRequest(request, decision)))
    && d in ss[k].conns && IsHost(ss[k], d)
  }

  ghost predicate Checked(ss: seq<Sys>, es: seq<Event>, n: nat, d: Conn, request: nat, decision: Decision)
    requires n <= |es| == |ss| - 1
  {
    exists k: nat :: k < n && CheckedAt(ss, es, k, d, request, decision)
  }

  /** At step j, d placed the first decision on c's request, after its host check for it. */
  ghost predicate PlacedAt(ss: seq<Sys>, es: seq<Event>, j: nat, d: Conn, c: Conn, request: nat, decision: Decision)
    requires j < |es| == |ss| - 1
  {
    && es[j] == PlaceDecision(d)
    && d in ss[j].conns && ss[j].conns[d].pc == Inside(PlacingDecision(c, decision))
    && c in ss[j].conns && ss[j].conns[c].slot == None && ss[j].conns[c].request == request
    && Checked(ss, es, j, d, request, decision)
  }

  ghost predicate WasPlaced(ss: seq<Sys>, es: seq<Event>, n: nat, c: Conn, request: nat, decision: Decision)
    requires n <= |es| == |ss| - 1
  {
    exists j: nat, d: Conn :: j < n && PlacedAt(ss, es, j, d, c, request, decision)
  }

  /** At step j, the room closed while c was waiting, or c's wait timed out (694). */
  predicate LetDownAt(ss: seq<Sys>, es: seq<Event>, j: nat, c: Conn)
    requires j < |es| == |ss| - 1
  {
    && c in ss[j].conns
    && ((es[j].Leave? && !ss[j].closed && ss[j + 1].closed && ss[j].conns[c].pc.Knocking?)
        || (es[j] == Move(c, Knocking(Decided(Reject))) && ss[j].conns[c].pc == Knocking(Waiting)))
  }

  ghost predicate LetDown(ss: seq<Sys>, es: seq<Event>, n: nat, c: Conn)
    requires n <= |es| == |ss| - 1
  {
    exists j: nat :: j < n && LetDownAt(ss, es, j, c)
  }

  /** Where a decision that c holds comes from. */
  ghost predicate Resolved(ss: seq<Sys>, es: seq<Event>, n: nat, c: Conn, request: nat, decision: Decision)
    requires n <= |es| == |ss| - 1
  {
    WasPlaced(ss, es, n, c, request, decision) || (decision == Reject && LetDown(ss, es, n, c))
  }

  /** At step i, c became the first occupant of the room. */
  predicate FirstAt(ss: seq<Sys>, es: seq<Event>, i: nat, c: Conn)
    requires i < |es| == |ss| - 1
  {
    es[i].Enter? && es[i].c == c && ss[i].hostID == None
  }

  /** At step i, c was admitted on an approval of its own request. */
  ghost predicate AdmittedAt(ss: seq<Sys>, es: seq<Event>, i: nat, c: Conn)
    requires i < |es| == |ss| - 1
  {
    && es[i] == Admit(c) && c in ss[i].conns
    && !Dead(ss[i])
    && WasPlaced(ss, es, i, c, ss[i].conns[c].request, Approve)
  }

  ghost predicate CameIn(ss: seq<Sys>, es: seq<Event>, n: nat, c: Conn)
    requires n <= |es| == |ss| - 1
  {
    exists i: nat :: i < n && (FirstAt(ss, es, i, c) || AdmittedAt(ss, es, i, c))
  }

  /** At step i, c came to a room that is hosted and closed, or hosted and full. */
  predicate NoPlaceAt(ss: seq<Sys>, es: seq<Event>, i: nat, c: Conn)
    requires i < |es| == |ss| - 1
  {
    && es[i].Enter? && es[i].c == c && ss[i].hostID.Some?
    && (ss[i].closed || (ss[i].limit > 0 && |ss[i].clients| >= ss[i].limit))
  }

  /** At step i, c was turned away from a room that died while it waited, or on a rejection. */
  ghost predicate RejectedAt(ss: seq<Sys>, es: seq<Event>, i: nat, c: Conn)
    requires i < |es| == |ss| - 1
  {
    && es[i] == Admit(c) && c in ss[i].conns
    && (ss[i].closed || HostAbsent(ss[i]) || Resolved(ss, es, i, c, ss[i].conns[c].request, Reject))
  }

  ghost predicate TurnedAway(ss: seq<Sys>, es: seq<Event>, n: nat, c: Conn)
    requires n <= |es| == |ss| - 1
  {
    exists i: nat :: i < n && (NoPlaceAt(ss, es, i, c) || RejectedAt(ss, es, i, c))
  }

  // ---------------------------------------------------------------- the induction

  ghost predicate DeciderOk(ss: seq<Sys>, es: seq<Event>, n: nat, d: Conn)
    requires n <= |es| == |ss| - 1
  {
    d in ss[n].conns && ss[n].conns[d].pc.Inside? ==>
      match ss[n].conns[d].pc.work
      case LookingUpRequest(request, decision) => Checked(ss, es, n, d, request, decision)
      case PlacingDecision(p, decision) =>
        p in ss[n].conns && !ss[n].conns[p].pc.Arrived? && Checked(ss, es, n, d, ss[n].conns[p].request, decision)
      case _ => true
  }

  predicate Holds(k: Client, decision: Decision) {
    k.slot == Some(decision) || k.pc == Knocking(Decided(decision))
  }

  ghost predicate HolderOk(ss: seq<Sys>, es: seq<Event>, n: nat, c: Conn)
    requires n <= |es| == |ss| - 1
  {
    c in ss[n].conns ==>
      && (ss[n].conns[c].pc.Arrived? ==> ss[n].conns[c].slot == None)
      && (forall decision :: Holds(ss[n].conns[c], decision) ==> Resolved(ss, es, n, c, ss[n].conns[c].request, decision))
      && (Joined(ss[n].conns[c].pc) ==> CameIn(ss, es, n, c))
      && (ss[n].conns[c].pc.Refused? ==> TurnedAway(ss, es, n, c))
  }

  lemma DeciderStep(ss: seq<Sys>, es: seq<Event>, n: nat, d: Conn)
    requires StepAt(ss, es, n) && DeciderOk(ss, es, n, d)
    ensures DeciderOk(ss, es, n + 1, d)
  {
    var s, e := ss[n], es[n];
    var s' := ss[n + 1];
    SameConns(s, e, d);
    if d in s'.conns && s'.conns[d].pc.Inside? && (s'.conns[d].pc.work.LookingUpRequest? || s'.conns[d].pc.work.PlacingDecision?) {
      var w := s'.conns[d].pc.work;
      ComesFrom(s, e, d);
      if w.PlacingDecision? {
        if s.conns[d].pc != s'.conns[d].pc {
          var i :| i in s.pending && s.pending[i] == w.pending;
          assert IdOk(s, i);
        }
        RequestStays(s, e, w.pending);
      } else if s.conns[d].pc != s'.conns[d].pc {
        assert CheckedAt(ss, es, n, d, w.request, w.decision);
      }
    }
  }

  /** The decision handler's program counters are entered from nowhere else. */
  lemma ComesFrom(s: Sys, e: Event, d: Conn)
    requires Enabled(s, e) && d in Step(s, e).conns
    requires var pc := Step(s, e).conns[d].pc; pc.Inside? && (pc.work.LookingUpRequest? || pc.work.PlacingDecision?)
    ensures d in s.conns
    ensures
      var pc := Step(s, e).conns[d].pc;
      || s.conns[d].pc == pc
      || (pc.work.LookingUpRequest? && e == Move(d, pc) && IsHost(s, d))
      || (pc.work.PlacingDecision? && s.conns[d].pc.Inside? && s.conns[d].pc.work.LookingUpRequest?
          && pc.work.decision == s.conns[d].pc.work.decision
          && Finds(s, pc.work.pending, s.conns[d].pc.work.request))
  {
    SameConns(s, e, d);
    if Actor(e) != Some(d) {
      OthersStay(s, e, d);
    } else if e.Leave? {
      LeaveEffect(s, e.c, e.heir, e.missed);
    }
  }

  /** What leaveRoom's locked section does to the slot and the stage of another connection, and of the leaver. */
  lemma LeaveSlots(s: Sys, c: Conn, heir: Conn, missed: set<Conn>, d: Conn)
    requires CanLeave(s, c, heir) && d in s.conns
    ensures
      var s' := Leaving(s, c, heir, missed);
      && d in s'.conns && (d != c ==> s'.conns[d].pc == s.conns[d].pc) && Joined(s'.conns[c].pc)
      && (s'.conns[d].slot == s.conns[d].slot
          || (s.conns[d].slot == None && s'.conns[d].slot == Some(Reject) && !s.closed && s'.closed && d in Waiters(s)))
  {}

  lemma ClosingLetsDown(s: Sys, c: Conn, heir: Conn, missed: set<Conn>, d: Conn)
    requires Structure(s) && CanLeave(s, c, heir) && d in s.conns
    ensures
      var s' := Leaving(s, c, heir, missed);
      && d in s'.conns && (d != c ==> s'.conns[d].pc == s.conns[d].pc) && Joined(s'.conns[c].pc)
      && (s'.conns[d].slot == s.conns[d].slot
          || (s.conns[d].slot == None && s'.conns[d].slot == Some(Reject) && !s.closed && s'.closed && s.conns[d].pc.Knocking?))
  {
    LeaveSlots(s, c, heir, missed, d);
    if d in Waiters(s) {
      var i :| i in s.pending && s.pending[i] == d;
      assert IdOk(s, i);
    }
  }

  /** Only a decision or the room's closing fills a slot. */
  lemma SlotAfter(s: Sys, e: Event, c: Conn)
    requires Enabled(s, e) && c in s.conns && !e.Leave? && !e.PlaceDecision?
    ensures c in Step(s, e).conns && (Step(s, e).conns[c].slot == s.conns[c].slot || Step(s, e).conns[c].slot == None)
  {}

  /** A decision is what was read from the slot, or the time-out's rejection. */
  lemma KnockAfter(s: Sys, e: Event, c: Conn, decision: Decision)
    requires Enabled(s, e) && c in s.conns && c in Step(s, e).conns && !e.Leave?
    requires Step(s, e).conns[c].pc == Knocking(Decided(decision))
    ensures
      || Holds(s.conns[c], decision)
      || (decision == Reject && e == Move(c, Knocking(Decided(Reject))) && s.conns[c].pc == Knocking(Waiting))
  {
    if Actor(e) != Some(c) { OthersStay(s, e, c); }
  }

  /** A decision that c holds is old, or was placed just now in an empty slot, or the room closed on c, or its wait timed out. */
  lemma DecisionComesFrom(s: Sys, e: Event, c: Conn, decision: Decision)
    requires Structure(s) && Enabled(s, e) && c in s.conns && c in Step(s, e).conns && Holds(Step(s, e).conns[c], decision)
    requires s.conns[c].pc.Arrived? ==> s.conns[c].slot == None
    ensures
      || Holds(s.conns[c], decision)
      || (e.PlaceDecision? && s.conns[e.c].pc == Inside(PlacingDecision(c, decision)) && s.conns[c].slot == None)
      || (decision == Reject && e.Leave? && !s.closed && Step(s, e).closed && s.conns[c].pc.Knocking?)
      || (decision == Reject && e == Move(c, Knocking(Decided(Reject))) && s.conns[c].pc == Knocking(Waiting))
  {
    if e.Leave? {
      ClosingLetsDown(s, e.c, e.heir, e.missed, c);
    } else if Step(s, e).conns[c].slot != Some(decision) {
      KnockAfter(s, e, c, decision);
    } else if !e.PlaceDecision? {
      SlotAfter(s, e, c);
    }
  }

  lemma HolderDecision(ss: seq<Sys>, es: seq<Event>, n: nat, c: Conn, decision: Decision)
    requires StepAt(ss, es, n) && HolderOk(ss, es, n, c) && c in ss[n].conns && c in ss[n + 1].conns
    requires es[n].PlaceDecision? ==> DeciderOk(ss, es, n, es[n].c)
    requires Holds(ss[n + 1].conns[c], decision)
    ensures Resolved(ss, es, n + 1, c, ss[n + 1].conns[c].request, decision)
  {
    var s, e := ss[n], es[n];
    DecisionComesFrom(s, e, c, decision);
    if s.conns[c].pc.Arrived? {
      assert false;
    } else {
      RequestStays(s, e, c);
      if !Holds(s.conns[c], decision) {
        assert PlacedAt(ss, es, n, e.c, c, s.conns[c].request, decision) || LetDownAt(ss, es, n, c);
      }
    }
  }

  lemma NeverBackToArrived(s: Sys, e: Event, c: Conn)
    requires Enabled(s, e) && c in s.conns && c in Step(s, e).conns
    ensures Step(s, e).conns[c].pc.Arrived? ==> s.conns[c].pc.Arrived?
  {
    if !s.conns[c].pc.Arrived? { RequestStays(s, e, c); }
  }

  lemma ArrivedSlots(ss: seq<Sys>, es: seq<Event>, n: nat, c: Conn)
    requires StepAt(ss, es, n) && HolderOk(ss, es, n, c) && c in ss[n].conns && ss[n].conns[c].pc.Arrived?
    requires es[n].PlaceDecision? ==> DeciderOk(ss, es, n, es[n].c)
    ensures c in ss[n + 1].conns && ss[n + 1].conns[c].slot == None
  {
    if es[n].Leave? { ClosingLetsDown(ss[n], es[n].c, es[n].heir, es[n].missed, c); }
  }

  lemma JoinComesFrom(s: Sys, e: Event, c: Conn)
    requires Enabled(s, e) && c in s.conns && c in Step(s, e).conns && Joined(Step(s, e).conns[c].pc)
    ensures
      || Joined(s.conns[c].pc)
      || (e.Enter? && e.c == c && s.hostID == None)
      || (e == Admit(c) && s.conns[c].pc == Knocking(Decided(Approve)) && !Dead(s))
  {
    StageChange(s, e, c);
    if e.Leave? { LeaveEffect(s, e.c, e.heir, e.missed); }
  }

  lemma RefusalComesFrom(s: Sys, e: Event, c: Conn)
    requires Enabled(s, e) && c in s.conns && c in Step(s, e).conns && Step(s, e).conns[c].pc.Refused?
    ensures
      || s.conns[c].pc.Refused?
      || (e.Enter? && e.c == c && s.hostID.Some? && (s.closed || (s.limit > 0 && |s.clients| >= s.limit)))
      || (e == Admit(c) && (Dead(s) || s.conns[c].pc == Knocking(Decided(Reject))))
  {
    StageChange(s, e, c);
    if e.Leave? { LeaveEffect(s, e.c, e.heir, e.missed); }
  }

  lemma HolderStep(ss: seq<Sys>, es: seq<Event>, n: nat, c: Conn)
    requires StepAt(ss, es, n) && HolderOk(ss, es, n, c)
    requires es[n].PlaceDecision? ==> DeciderOk(ss, es, n, es[n].c)
    ensures HolderOk(ss, es, n + 1, c)
  {
    var s, e := ss[n], es[n];
    var s' := ss[n + 1];
    SameConns(s, e, c);
    if c in s.conns {
      NeverBackToArrived(s, e, c);
      if s'.conns[c].pc.Arrived? { ArrivedSlots(ss, es, n, c); }
      forall decision | Holds(s'.conns[c], decision)
        ensures Resolved(ss, es, n + 1, c, s'.conns[c].request, decision)
      {
        HolderDecision(ss, es, n, c, decision);
      }
      if Joined(s'.conns[c].pc) {
        JoinComesFrom(s, e, c);
        assert s.conns[c].pc == Knocking(Decided(Approve)) ==> Holds(s.conns[c], Approve);
        assert Joined(s.conns[c].pc) || FirstAt(ss, es, n, c) || AdmittedAt(ss, es, n, c);
      } else if s'.conns[c].pc.Refused? {
        RefusalComesFrom(s, e, c);
        assert s.conns[c].pc == Knocking(Decided(Reject)) ==> Holds(s.conns[c], Reject);
        assert s.conns[c].pc.Refused? || NoPlaceAt(ss, es, n, c) || RejectedAt(ss, es, n, c);
      }
    }
  }

  lemma {:induction false} ProvenanceAt(ss: seq<Sys>, es: seq<Event>, n: nat)
    requires IsTrace(ss, es) && n <= |es|
    ensures forall d :: DeciderOk(ss, es, n, d)
    ensures forall c :: HolderOk(ss, es, n, c)
  {
    if n > 0 {
      ProvenanceAt(ss, es, n - 1);
      TraceStep(ss, es, n - 1);
      forall d: Conn ensures DeciderOk(ss, es, n, d) { DeciderStep(ss, es, n - 1, d); }
      forall c: Conn ensures HolderOk(ss, es, n, c) { HolderStep(ss, es, n - 1, c); }
    }
  }

  // ---------------------------------------------------------------- main results

  /**
   * Admission provenance.  In every trace, whoever is a member at the end either was the first
   * occupant of this Room object, or was admitted while the room was alive after some connection d
   * passed the host check for the member's own request number and then placed the first decision
   * on that request, an approval.
   */
  lemma AdmissionProvenance(ss: seq<Sys>, es: seq<Event>, m: Conn)
    requires IsTrace(ss, es) && IsMember(ss[|es|], m)
    ensures
      || (exists i: nat :: i < |es| && FirstAt(ss, es, i, m))
      || (exists i: nat, j: nat, k: nat, d: Conn ::
            && k < j < i < |es|
            && es[i] == Admit(m) && m in ss[i].conns && !Dead(ss[i])
            && PlacedAt(ss, es, j, d, m, ss[i].conns[m].request, Approve)
            && CheckedAt(ss, es, k, d, ss[i].conns[m].request, Approve))
  {
    ProvenanceAt(ss, es, |es|);
    TraceStructure(ss, es, |es|);
    assert HolderOk(ss, es, |es|, m) && IdOk(ss[|es|], ss[|es|].conns[m].id);
    var i: nat :| i < |es| && (FirstAt(ss, es, i, m) || AdmittedAt(ss, es, i, m));
    if AdmittedAt(ss, es, i, m) {
      var j: nat, d: Conn :| j < i && PlacedAt(ss, es, j, d, m, ss[i].conns[m].request, Approve);
      var k: nat :| k < j && CheckedAt(ss, es, k, d, ss[i].conns[m].request, Approve);
    }
  }

  /**
   * Refusal provenance.  In every trace, whoever was turned away came to a hosted room that was closed or
   * full; or waited, and then found the room closed or without its host, or held a rejection.  And that
   * rejection was the first decision placed on its own request, after a host check for its number, or the
   * room closed while it waited, or its wait timed out.
   */
  lemma RefusalProvenance(ss: seq<Sys>, es: seq<Event>, c: Conn)
    requires IsTrace(ss, es) && c in ss[|es|].conns && ss[|es|].conns[c].pc.Refused?
    ensures
      || (exists i: nat :: i < |es| && NoPlaceAt(ss, es, i, c))
      || (exists i: nat :: i < |es| && es[i] == Admit(c) && Dead(ss[i]))
      || (exists i: nat, j: nat :: j < i < |es| && es[i] == Admit(c) && LetDownAt(ss, es, j, c))
      || (exists i: nat, j: nat, k: nat, d: Conn ::
            && k < j < i < |es|
            && es[i] == Admit(c) && c in ss[i].conns
            && PlacedAt(ss, es, j, d, c, ss[i].conns[c].request, Reject)
            && CheckedAt(ss, es, k, d, ss[i].conns[c].request, Reject))
  {
    ProvenanceAt(ss, es, |es|);
    assert HolderOk(ss, es, |es|, c);
    var i: nat :| i < |es| && (NoPlaceAt(ss, es, i, c) || RejectedAt(ss, es, i, c));
    if RejectedAt(ss, es, i, c) && !Dead(ss[i]) && !LetDown(ss, es, i, c) {
      var j: nat, d: Conn :| j < i && PlacedAt(ss, es, j, d, c, ss[i].conns[c].request, Reject);
      var k: nat :| k < j && CheckedAt(ss, es, k, d, ss[i].conns[c].request, Reject);
    }
  }
}
