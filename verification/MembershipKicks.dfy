/**
 * The stages of a kick (1224-1248), each a step of its own, and shutting down, over whole runs: nobody is
 * kicked or shut but in the order host check, lookup, notice, shutdown, delete, or by its own goroutine.
 */
module MembershipKicks {
  import opened Options
  import opened Membership
  import opened MembershipStructure
  import opened MembershipTraces

  /** At step a, c passed the host check for kicking x (1225-1231). */
  predicate CheckedAt(ss: seq<Sys>, es: seq<Event>, a: nat, c: Conn, x: Id)
    requires a < |es| == |ss| - 1
  {
    es[a] == Move(c, Inside(LookingUpTarget(x))) && c in ss[a].conns && ss[a].hostID == Some(ss[a].conns[c].id)
  }

  /** At step b, c found the member t under x (1236-1238). */
  ghost predicate FoundAt(ss: seq<Sys>, es: seq<Event>, b: nat, c: Conn, x: Id, t: Conn)
    requires b < |es| == |ss| - 1
  {
    && es[b] == Move(c, Inside(TellingTarget(x, t))) && IsMember(ss[b], t) && ss[b].conns[t].id == x
    && exists a: nat :: a < b && CheckedAt(ss, es, a, c, x)
  }

  /** At step j, c told t that it is kicked (1243). */
  ghost predicate ToldAt(ss: seq<Sys>, es: seq<Event>, j: nat, c: Conn, x: Id, t: Conn)
    requires j < |es| == |ss| - 1
  {
    PutAt(ss, es, j, c, t, PeerKicked) && exists b: nat :: b < j && FoundAt(ss, es, b, c, x, t)
  }

  /** At step k, c shut t down (1244). */
  ghost predicate ShutAt(ss: seq<Sys>, es: seq<Event>, k: nat, c: Conn, x: Id, t: Conn)
    requires k < |es| == |ss| - 1
  {
    es[k] == Shut(c) && t in ss[k + 1].conns && ss[k + 1].conns[t].shut && exists j: nat :: j < k && ToldAt(ss, es, j, c, x, t)
  }

  // ---------------------------------------------------------------- the stages, in order

  ghost predicate KickOk(ss: seq<Sys>, es: seq<Event>, n: nat, c: Conn)
    requires n <= |es| == |ss| - 1
  {
    c in ss[n].conns ==>
      match ss[n].conns[c].pc
      case Inside(LookingUpTarget(x)) => exists a: nat :: a < n && CheckedAt(ss, es, a, c, x)
      case Inside(TellingTarget(x, t)) => exists b: nat :: b < n && FoundAt(ss, es, b, c, x, t)
      case Inside(ShuttingTarget(x, t)) => exists j: nat :: j < n && ToldAt(ss, es, j, c, x, t)
      case Inside(DeletingTarget(x, t)) => exists k: nat :: k < n && ShutAt(ss, es, k, c, x, t)
      case _ => true
  }

  predicate Kicking(pc: PC) {
    pc.Inside? && (pc.work.LookingUpTarget? || pc.work.TellingTarget? || pc.work.ShuttingTarget? || pc.work.DeletingTarget?)
  }

  /** The ways to a stage of a kick. */
  lemma KickComesFrom(s: Sys, e: Event, c: Conn)
    requires Enabled(s, e) && c in Step(s, e).conns && Kicking(Step(s, e).conns[c].pc)
    ensures c in s.conns
    ensures
      var pc, w' := s.conns[c].pc, Step(s, e).conns[c].pc.work;
      || pc == Inside(w')
      || (w'.LookingUpTarget? && e == Move(c, Inside(w')) && IsHost(s, c))
      || (w'.TellingTarget? && e == Move(c, Inside(w')) && pc == Inside(LookingUpTarget(w'.x)) && w'.x in s.clients && w'.target == s.clients[w'.x])
      || (w'.ShuttingTarget? && e.Deliver? && e.c == c && e.target == w'.target && pc == Inside(TellingTarget(w'.x, w'.target)))
      || (w'.DeletingTarget? && e == Shut(c) && pc == Inside(ShuttingTarget(w'.x, w'.target)))
  {
    SameConns(s, e, c);
    if c in s.conns {
      if Actor(e) != Some(c) {
        OthersStay(s, e, c);
      } else if e.Leave? {
        LeaveEffect(s, e.c, e.heir, e.missed);
      }
    }
  }

  lemma PutKicked(s: Sys, c: Conn, t: Conn, lost: bool)
    requires CanDeliver(s, c, t, lost) && s.conns[c].pc.Inside? && s.conns[c].pc.work.TellingTarget?
    ensures
      var s' := Delivering(s, c, t, lost);
      t in s'.conns && s'.conns[t].queue == s.conns[t].queue + if s.conns[t].shut || lost then [] else [PeerKicked]
  {}

  lemma ShutsTarget(s: Sys, c: Conn)
    requires CanShut(s, c) && s.conns[c].pc.Inside? && s.conns[c].pc.work.ShuttingTarget?
    ensures var t := s.conns[c].pc.work.target; t in Shutting(s, c).conns && Shutting(s, c).conns[t].shut
  {}

  lemma KickStep(ss: seq<Sys>, es: seq<Event>, n: nat, c: Conn)
    requires StepAt(ss, es, n) && KickOk(ss, es, n, c)
    ensures KickOk(ss, es, n + 1, c)
  {
    var s, e := ss[n], es[n];
    if c in ss[n + 1].conns && Kicking(ss[n + 1].conns[c].pc) {
      KickComesFrom(s, e, c);
      var w' := ss[n + 1].conns[c].pc.work;
      if s.conns[c].pc != Inside(w') {
        match w'
        case LookingUpTarget(x) => assert CheckedAt(ss, es, n, c, x);
        case TellingTarget(x, t) => assert IdOk(s, x); assert FoundAt(ss, es, n, c, x, t);
        case ShuttingTarget(x, t) => PutKicked(s, c, t, e.lost); assert ToldAt(ss, es, n, c, x, t);
        case DeletingTarget(x, t) => ShutsTarget(s, c); assert ShutAt(ss, es, n, c, x, t);
      }
    }
  }

  lemma {:induction false} KickAt(ss: seq<Sys>, es: seq<Event>, n: nat)
    requires IsTrace(ss, es) && n <= |es|
    ensures forall c :: KickOk(ss, es, n, c)
  {
    if n > 0 {
      KickAt(ss, es, n - 1);
      TraceStep(ss, es, n - 1);
      forall c: Conn ensures KickOk(ss, es, n, c) { KickStep(ss, es, n - 1, c); }
    }
  }

  /** The stages that lead to a shutdown. */
  lemma KickHistory(ss: seq<Sys>, es: seq<Event>, n: nat, c: Conn, x: Id, t: Conn) returns (a: nat, b: nat, j: nat, k: nat)
    requires n <= |es| == |ss| - 1 && exists k: nat :: k < n && ShutAt(ss, es, k, c, x, t)
    ensures a < b < j < k < n && CheckedAt(ss, es, a, c, x) && FoundAt(ss, es, b, c, x, t)
    ensures PutAt(ss, es, j, c, t, PeerKicked) && ShutAt(ss, es, k, c, x, t)
  {
    k :| k < n && ShutAt(ss, es, k, c, x, t);
    j :| j < k && ToldAt(ss, es, j, c, x, t);
    b :| b < j && FoundAt(ss, es, b, c, x, t);
    a :| a < b && CheckedAt(ss, es, a, c, x);
  }

  lemma RemoveEffect(s: Sys, c: Conn)
    requires CanRemove(s, c)
    ensures
      var s', x := Removing(s, c), s.conns[c].pc.work.x;
      s'.clients == s.clients - {x} && c in s'.conns && s'.conns[c].pc == Inside(Broadcasting(PeerLeft(x), None))
  {}

  /**
   * A kick keeps its order.  In every trace, whoever deletes x from the room in a kick had passed the host
   * check for x, then found the member t under x, then put peer_kicked into t's queue (unless t was shut or
   * its full channel dropped it), then shut t down; and it goes on to tell everybody that x left.
   */
  lemma KickKeepsItsOrder(ss: seq<Sys>, es: seq<Event>, n: nat, c: Conn)
    requires IsTrace(ss, es) && n < |es| && es[n] == Remove(c)
    ensures exists a: nat, b: nat, j: nat, k: nat, x, t ::
      && a < b < j < k < n
      && CheckedAt(ss, es, a, c, x) && FoundAt(ss, es, b, c, x, t)
      && PutAt(ss, es, j, c, t, PeerKicked) && ShutAt(ss, es, k, c, x, t)
      && ss[n + 1].clients == ss[n].clients - {x}
      && c in ss[n + 1].conns && ss[n + 1].conns[c].pc == Inside(Broadcasting(PeerLeft(x), None))
  {
    KickAt(ss, es, n);
    assert KickOk(ss, es, n, c) && CanRemove(ss[n], c) && ss[n + 1] == Removing(ss[n], c);
    RemoveEffect(ss[n], c);
    var x, t := ss[n].conns[c].pc.work.x, ss[n].conns[c].pc.work.target;
    var a, b, j, k := KickHistory(ss, es, n, c, x, t);
  }

  // ---------------------------------------------------------------- who is shut

  /** c's own goroutine has shut c down: it was turned away, or it is leaving or has left. */
  predicate ShutItself(pc: PC) {
    pc == Refused(Rejected) || pc == Inside(LeavingLock) || pc.Parting? || pc.Gone?
  }

  /** Some kick has shut c down. */
  ghost predicate ShutByKick(ss: seq<Sys>, es: seq<Event>, n: nat, c: Conn)
    requires n <= |es| == |ss| - 1
  {
    exists k: nat, d, x :: k < n && ShutAt(ss, es, k, d, x, c)
  }

  ghost predicate ShutOk(ss: seq<Sys>, es: seq<Event>, n: nat, c: Conn)
    requires n <= |es| == |ss| - 1
  {
    if c in ss[n].conns then ss[n].conns[c].shut <==> ShutItself(ss[n].conns[c].pc) || ShutByKick(ss, es, n, c)
    else !ShutByKick(ss, es, n, c)
  }

  lemma LeaveShuts(s: Sys, c: Conn, heir: Conn, missed: set<Conn>, d: Conn)
    requires CanLeave(s, c, heir) && d in s.conns
    ensures
      var s' := Leaving(s, c, heir, missed);
      && d in s'.conns && s'.conns[d].shut == s.conns[d].shut
      && (s.conns[d].shut ==> s'.conns[d].queue == s.conns[d].queue)
  {}

  /** Who a step shuts down: the one it says. */
  lemma ShutChange(s: Sys, e: Event, c: Conn)
    requires Enabled(s, e) && c in s.conns
    ensures c in Step(s, e).conns
    ensures Step(s, e).conns[c].shut <==> s.conns[c].shut || (e.Shut? && ShutTarget(e.c, s.conns[e.c].pc) == c)
    ensures s.conns[c].shut ==> Step(s, e).conns[c].queue == s.conns[c].queue
  {
    if e.Leave? { LeaveShuts(s, e.c, e.heir, e.missed, c); }
  }

  /** c comes to a stage at which it has shut itself from another such stage, or by shutting itself. */
  lemma ItselfComesFrom(s: Sys, e: Event, c: Conn)
    requires Enabled(s, e) && c in s.conns && c in Step(s, e).conns
    ensures ShutItself(Step(s, e).conns[c].pc) <==>
      ShutItself(s.conns[c].pc) || (e == Shut(c) && !(s.conns[c].pc.Inside? && s.conns[c].pc.work.ShuttingTarget?))
  {
    if Actor(e) != Some(c) {
      OthersStay(s, e, c);
    } else if e.Leave? {
      LeaveEffect(s, c, e.heir, e.missed);
    }
  }

  lemma ByKickNow(ss: seq<Sys>, es: seq<Event>, n: nat, c: Conn)
    requires n < |es| == |ss| - 1
    ensures ShutByKick(ss, es, n + 1, c) <==> ShutByKick(ss, es, n, c) || exists d, x :: ShutAt(ss, es, n, d, x, c)
  {
    if ShutByKick(ss, es, n + 1, c) {
      var k: nat, d, x :| k < n + 1 && ShutAt(ss, es, k, d, x, c);
    }
  }

  lemma ShutStep(ss: seq<Sys>, es: seq<Event>, n: nat, c: Conn)
    requires StepAt(ss, es, n) && ShutOk(ss, es, n, c)
    requires es[n].Shut? ==> KickOk(ss, es, n, es[n].c)
    ensures ShutOk(ss, es, n + 1, c)
  {
    var s, e := ss[n], es[n];
    SameConns(s, e, c);
    ByKickNow(ss, es, n, c);
    if c in s.conns {
      ShutChange(s, e, c);
      ItselfComesFrom(s, e, c);
      if e.Shut? && s.conns[e.c].pc.Inside? && s.conns[e.c].pc.work.ShuttingTarget? && s.conns[e.c].pc.work.target == c {
        assert ShutAt(ss, es, n, e.c, s.conns[e.c].pc.work.x, c);
      }
    }
  }

  lemma {:induction false} ShutAtN(ss: seq<Sys>, es: seq<Event>, n: nat)
    requires IsTrace(ss, es) && n <= |es|
    ensures forall c :: ShutOk(ss, es, n, c)
  {
    if n > 0 {
      ShutAtN(ss, es, n - 1);
      TraceStep(ss, es, n - 1);
      KickAt(ss, es, n - 1);
      forall c: Conn ensures ShutOk(ss, es, n, c) { ShutStep(ss, es, n - 1, c); }
    }
  }

  /**
   * Exactly who is shut, in every trace: those whose own goroutine is done with the room, having been turned
   * away or having left, and those that a kick shut down after it told them.
   */
  lemma ShutIff(ss: seq<Sys>, es: seq<Event>, c: Conn)
    requires IsTrace(ss, es) && c in ss[|es|].conns
    ensures ss[|es|].conns[c].shut <==>
      || ss[|es|].conns[c].pc == Refused(Rejected) || ss[|es|].conns[c].pc == Inside(LeavingLock)
      || ss[|es|].conns[c].pc.Parting? || ss[|es|].conns[c].pc.Gone?
      || exists k: nat, d, x :: k < |es| && ShutAt(ss, es, k, d, x, c)
  {
    ShutAtN(ss, es, |es|);
    assert ShutOk(ss, es, |es|, c);
  }

  /** Whoever is shut stays shut and is sent nothing more, in every continuation. */
  lemma {:induction false} ShutIsSilence(s: Sys, es: seq<Event>, c: Conn)
    requires Runs(s, es) && c in s.conns && s.conns[c].shut
    ensures
      var s' := Outcome(s, es);
      c in s'.conns && s'.conns[c].shut && s'.conns[c].queue == s.conns[c].queue
    decreases |es|
  {
    if es != [] {
      ShutChange(s, es[0], c);
      ShutIsSilence(Step(s, es[0]), es[1..], c);
    }
  }
}
