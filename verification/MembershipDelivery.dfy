/**
 * Who gets what is sent to the room.  A broadcast and a departure snapshot their targets under the lock and
 * queue to them one by one outside it, while everybody else goes on; over whole runs, each target is served
 * exactly once, and nobody else is.
 */
module MembershipDelivery {
  import opened Options
  import opened Membership
  import opened MembershipStructure
  import opened MembershipTraces

  // ---------------------------------------------------------------- going through a list of targets

  /** In the delivery loop of broadcast or sendTo (871-887), or of leaveRoom (775-779). */
  predicate Telling(pc: PC) {
    (pc.Inside? && pc.work.Sending?) || (pc.Parting? && pc.part.TellingPeers?)
  }

  function Notice(pc: PC): Msg
    requires Telling(pc)
  {
    if pc.Inside? then pc.work.msg else PeerLeft(pc.part.who)
  }

  function Left(pc: PC): set<Conn>
    requires Telling(pc)
  {
    if pc.Inside? then pc.work.targets else pc.part.targets
  }

  predicate TellsAt(ss: seq<Sys>, k: nat, c: Conn) {
    k < |ss| && c in ss[k].conns && Telling(ss[k].conns[c].pc)
  }

  /** c is in one delivery loop from i to n. */
  ghost predicate TellsFrom(ss: seq<Sys>, i: nat, n: nat, c: Conn) {
    i <= n && forall k :: i <= k <= n ==> TellsAt(ss, k, c)
  }

  /** One of c's own deliveries, to d. */
  predicate DeliversAt(es: seq<Event>, j: nat, c: Conn, d: Conn) {
    j < |es| && es[j].Deliver? && es[j].c == c && es[j].target == d
  }

  ghost predicate Delivered(es: seq<Event>, i: nat, n: nat, c: Conn, d: Conn) {
    exists j: nat :: i <= j < n && DeliversAt(es, j, c, d)
  }

  /** In a delivery loop c does nothing but deliver to one of the targets left, until none is. */
  lemma LoopStep(ss: seq<Sys>, es: seq<Event>, n: nat, c: Conn)
    requires StepAt(ss, es, n) && TellsAt(ss, n, c) && n + 1 < |ss|
    ensures c in ss[n + 1].conns
    ensures
      var pc, pc' := ss[n].conns[c].pc, ss[n + 1].conns[c].pc;
      if Actor(es[n]) != Some(c) then pc' == pc
      else if es[n].Deliver? then
        && DeliversAt(es, n, c, es[n].target) && es[n].target in Left(pc) && PutAt(ss, es, n, c, es[n].target, Notice(pc))
        && Telling(pc') && Notice(pc') == Notice(pc) && Left(pc') == Left(pc) - {es[n].target}
      else
        es[n].Move? && Left(pc) == {} && !Telling(pc') && (pc.Inside? ==> pc' == Inside(Reading))
  {
    SameConns(ss[n], es[n], c);
    if Actor(es[n]) != Some(c) { OthersStay(ss[n], es[n], c); }
  }

  /** One step inside a delivery loop of c's. */
  predicate LoopAt(ss: seq<Sys>, es: seq<Event>, n: nat, c: Conn) {
    && n < |es| == |ss| - 1 && TellsAt(ss, n, c) && TellsAt(ss, n + 1, c)
    && var pc, pc' := ss[n].conns[c].pc, ss[n + 1].conns[c].pc;
       && Notice(pc') == Notice(pc) && (pc'.Inside? <==> pc.Inside?)
       && if es[n].Deliver? && es[n].c == c then
            es[n].target in Left(pc) && PutAt(ss, es, n, c, es[n].target, Notice(pc)) && Left(pc') == Left(pc) - {es[n].target}
          else Left(pc') == Left(pc)
  }

  ghost predicate Loop(ss: seq<Sys>, es: seq<Event>, i: nat, n: nat, c: Conn) {
    i <= n && TellsAt(ss, i, c) && forall k: nat :: i <= k < n ==> LoopAt(ss, es, k, c)
  }

  lemma LoopIs(ss: seq<Sys>, es: seq<Event>, i: nat, n: nat, c: Conn)
    requires IsTrace(ss, es) && TellsFrom(ss, i, n, c)
    ensures Loop(ss, es, i, n, c)
  {
    assert TellsAt(ss, i, c) && TellsAt(ss, n, c);
    forall k: nat | i <= k < n ensures LoopAt(ss, es, k, c) {
      assert TellsAt(ss, k, c) && TellsAt(ss, k + 1, c);
      TraceStep(ss, es, k);
      LoopStep(ss, es, k, c);
    }
  }

  /** What is left in the middle of a delivery loop is what was not delivered to yet. */
  lemma {:induction false} LoopProgress(ss: seq<Sys>, es: seq<Event>, i: nat, n: nat, c: Conn)
    requires Loop(ss, es, i, n, c)
    ensures TellsAt(ss, n, c) && (ss[n].conns[c].pc.Inside? <==> ss[i].conns[c].pc.Inside?)
    ensures Notice(ss[n].conns[c].pc) == Notice(ss[i].conns[c].pc)
    ensures forall d :: d in Left(ss[n].conns[c].pc) <==> d in Left(ss[i].conns[c].pc) && !Delivered(es, i, n, c, d)
  {
    if i < n {
      LoopProgress(ss, es, i, n - 1, c);
      assert LoopAt(ss, es, n - 1, c);
      forall d ensures Delivered(es, i, n, c, d) <==> Delivered(es, i, n - 1, c, d) || DeliversAt(es, n - 1, c, d) {
        if DeliversAt(es, n - 1, c, d) { assert i <= n - 1 < n; }
      }
    }
  }

  /** A delivery inside the loop is to a target not served before, and puts the loop's message. */
  lemma LoopDelivers(ss: seq<Sys>, es: seq<Event>, i: nat, j: nat, n: nat, c: Conn, d: Conn)
    requires Loop(ss, es, i, n, c) && i <= j < n && DeliversAt(es, j, c, d)
    ensures d in Left(ss[i].conns[c].pc) && j < |es| == |ss| - 1
    ensures PutAt(ss, es, j, c, d, Notice(ss[i].conns[c].pc)) && !Delivered(es, i, j, c, d)
  {
    LoopProgress(ss, es, i, j, c);
    assert LoopAt(ss, es, j, c);
  }

  /** Each of `all` gets m from c between i and n, exactly once, and nobody else gets anything from c. */
  ghost predicate ServesExactly(ss: seq<Sys>, es: seq<Event>, i: nat, n: nat, c: Conn, m: Msg, all: iset<Conn>)
    requires n <= |es| == |ss| - 1
  {
    && (forall d :: d in all <==> Delivered(es, i, n, c, d))
    && (forall j: nat, d :: i <= j < n && DeliversAt(es, j, c, d) ==> PutAt(ss, es, j, c, d, m))
    && (forall j: nat, k: nat, d :: i <= j < n && i <= k < n && DeliversAt(es, j, c, d) && DeliversAt(es, k, c, d) ==> j == k)
  }

  /** A finished delivery loop served exactly its targets. */
  lemma LoopServes(ss: seq<Sys>, es: seq<Event>, i: nat, n: nat, c: Conn)
    requires |es| == |ss| - 1 && n < |es| && Loop(ss, es, i, n, c) && TellsAt(ss, n, c) && Left(ss[n].conns[c].pc) == {}
    ensures ServesExactly(ss, es, i, n, c, Notice(ss[i].conns[c].pc), iset d | d in Left(ss[i].conns[c].pc))
  {
    LoopProgress(ss, es, i, n, c);
    forall d ensures d in Left(ss[i].conns[c].pc) <==> Delivered(es, i, n, c, d) {
      if j: nat :| i <= j < n && DeliversAt(es, j, c, d) { LoopDelivers(ss, es, i, j, n, c, d); }
    }
    forall j: nat, d | i <= j < n && DeliversAt(es, j, c, d)
      ensures PutAt(ss, es, j, c, d, Notice(ss[i].conns[c].pc)) && !Delivered(es, i, j, c, d)
    {
      LoopDelivers(ss, es, i, j, n, c, d);
    }
  }

  lemma LoopEnds(ss: seq<Sys>, es: seq<Event>, i: nat, n: nat, c: Conn)
    requires IsTrace(ss, es) && TellsFrom(ss, i, n, c) && n < |es| && !TellsAt(ss, n + 1, c)
    ensures TellsAt(ss, i, c) && c in ss[n + 1].conns
    ensures ServesExactly(ss, es, i, n, c, Notice(ss[i].conns[c].pc), iset d | d in Left(ss[i].conns[c].pc))
    ensures ss[i].conns[c].pc.Inside? ==> ss[n + 1].conns[c].pc == Inside(Reading)
  {
    LoopIs(ss, es, i, n, c);
    LoopProgress(ss, es, i, n, c);
    TraceStep(ss, es, n);
    LoopStep(ss, es, n, c);
    LoopServes(ss, es, i, n, c);
  }

  // ---------------------------------------------------------------- what is broadcast, and to whom

  /** Whom a broadcast leaves out: the sender, unless it tells of a kick. */
  predicate BroadcastOk(k: Client) {
    k.pc.Inside? && k.pc.work.Broadcasting? ==>
      || (k.pc.work.msg == Relayed && k.pc.work.except == Some(k.id))
      || (k.pc.work.msg == PeerJoined(k.id) && k.pc.work.except == Some(k.id))
      || (k.pc.work.msg.PeerLeft? && k.pc.work.except == None)
  }

  ghost predicate BroadcastsAt(s: Sys, c: Conn) {
    c in s.conns ==> BroadcastOk(s.conns[c])
  }

  lemma BroadcastOkStep(s: Sys, e: Event, c: Conn)
    requires Enabled(s, e) && BroadcastsAt(s, c)
    ensures BroadcastsAt(Step(s, e), c)
  {
    SameConns(s, e, c);
    if c in s.conns {
      if !WritesRoom(e) {
        QuietStep(s, e);
        if Actor(e) != Some(c) { OthersStay(s, e, c); } else { OwnBroadcast(s, e, c); }
      } else if e.Leave? {
        LeaveEffect(s, e.c, e.heir, e.missed);
      }
    }
  }

  /** How c's own goroutine comes to a broadcast. */
  lemma OwnBroadcast(s: Sys, e: Event, c: Conn)
    requires Enabled(s, e) && c in s.conns && Actor(e) == Some(c) && !WritesRoom(e) && c in Step(s, e).conns
    ensures
      var pc' := Step(s, e).conns[c].pc;
      pc'.Inside? && pc'.work.Broadcasting? ==> pc' == Inside(Broadcasting(Relayed, Some(s.conns[c].id)))
  {}

  lemma {:induction false} BroadcastsAtN(ss: seq<Sys>, es: seq<Event>, n: nat, c: Conn)
    requires IsTrace(ss, es) && n <= |es|
    ensures BroadcastsAt(ss[n], c)
  {
    if n > 0 {
      BroadcastsAtN(ss, es, n - 1, c);
      BroadcastOkStep(ss[n - 1], es[n - 1], c);
    }
  }

  /** The members of the room but for one that bears `except`. */
  ghost function MembersBut(s: Sys, except: Option<Id>): iset<Conn> {
    iset d | IsMember(s, d) && Some(s.conns[d].id) != except
  }

  lemma TargetsAreMembers(s: Sys, except: Option<Id>)
    requires Structure(s)
    ensures (iset d | d in Targets(s, except)) == MembersBut(s, except)
  {
    TargetsAreInside(s, except);
  }

  lemma SnapshotTargets(s: Sys, c: Conn, next: PC)
    requires Structure(s) && CanMove(s, c, next) && s.conns[c].pc.Inside? && s.conns[c].pc.work.Broadcasting?
    ensures Telling(next) && Notice(next) == s.conns[c].pc.work.msg
    ensures (iset d | d in Left(next)) == MembersBut(s, s.conns[c].pc.work.except)
  {
    TargetsAreMembers(s, s.conns[c].pc.work.except);
  }

  /**
   * A broadcast reaches everybody once.  In every trace, when c takes its snapshot at step i and is through
   * at step n, then between the two exactly the members at i, but for c itself unless c tells of a kick,
   * had the message put into their queues by c, each once (or dropped by a full channel, or by a client
   * that was shut), and c goes on reading.
   */
  lemma BroadcastReachesEveryoneOnce(ss: seq<Sys>, es: seq<Event>, i: nat, n: nat, c: Conn)
    requires IsTrace(ss, es) && i < n < |es| && es[i].Move? && es[i].c == c
    requires c in ss[i].conns && ss[i].conns[c].pc.Inside? && ss[i].conns[c].pc.work.Broadcasting?
    requires TellsFrom(ss, i + 1, n, c) && !TellsAt(ss, n + 1, c)
    ensures
      var m, except := ss[i].conns[c].pc.work.msg, ss[i].conns[c].pc.work.except;
      && ServesExactly(ss, es, i + 1, n, c, m, MembersBut(ss[i], except))
      && (m == Relayed || m == PeerJoined(ss[i].conns[c].id) || m.PeerLeft?)
      && except == (if m.PeerLeft? then None else Some(ss[i].conns[c].id))
      && c in ss[n + 1].conns && ss[n + 1].conns[c].pc == Inside(Reading)
  {
    TraceStructure(ss, es, i);
    BroadcastsAtN(ss, es, i, c);
    SnapshotTargets(ss[i], c, es[i].next);
    LoopEnds(ss, es, i + 1, n, c);
  }

  lemma LeaveTargets(s: Sys, c: Conn, heir: Conn, missed: set<Conn>)
    requires Structure(s) && CanLeave(s, c, heir)
    ensures
      var s' := Leaving(s, c, heir, missed);
      && Structure(s') && c in s'.conns
      && (Telling(s'.conns[c].pc) <==> s.conns[c].id in s.clients && (s.closed || !s'.closed))
      && (Telling(s'.conns[c].pc) ==>
            && Notice(s'.conns[c].pc) == PeerLeft(s.conns[c].id)
            && (iset d | d in Left(s'.conns[c].pc)) == MembersBut(s', None))
  {
    StructureStep(s, Leave(c, heir, missed));
    TargetsAreMembers(Leaving(s, c, heir, missed), None);
    LeaveEffect(s, c, heir, missed);
    LeaveTargetsAre(s, c, heir, missed);
  }

  lemma LeaveTargetsAre(s: Sys, c: Conn, heir: Conn, missed: set<Conn>)
    requires CanLeave(s, c, heir)
    ensures
      var s' := Leaving(s, c, heir, missed);
      && (Telling(s'.conns[c].pc) <==> s.conns[c].id in s.clients && !(HostLeaves(s, c) && Remaining(s, c) == map[]))
      && (Telling(s'.conns[c].pc) ==>
            Notice(s'.conns[c].pc) == PeerLeft(s.conns[c].id) && Left(s'.conns[c].pc) == Targets(s', None))
  {}

  /**
   * A departure reaches everybody once.  In every trace, when c leaves at step i, its id still being
   * registered and the room not closing, and c is through at step n, then between the two exactly the
   * members that remained at i had its peer_left put into their queues by c, each once.
   */
  lemma DepartureReachesEveryoneOnce(ss: seq<Sys>, es: seq<Event>, i: nat, n: nat, c: Conn)
    requires IsTrace(ss, es) && i < n < |es| && es[i].Leave? && es[i].c == c && c in ss[i].conns
    requires ss[i].conns[c].id in ss[i].clients && (ss[i].closed || !ss[i + 1].closed)
    requires TellsFrom(ss, i + 1, n, c) && !TellsAt(ss, n + 1, c)
    ensures ServesExactly(ss, es, i + 1, n, c, PeerLeft(ss[i].conns[c].id), MembersBut(ss[i + 1], None))
  {
    TraceStep(ss, es, i);
    LeaveTargets(ss[i], c, es[i].heir, es[i].missed);
    LoopEnds(ss, es, i + 1, n, c);
  }

  /** What a handler sends without a broadcast goes to its own client, or to one member, or nowhere. */
  lemma HandlersSendToOne(s: Sys, c: Conn, next: PC)
    requires Structure(s) && CanMove(s, c, next) && s.conns[c].pc == Inside(Reading) && Telling(next)
    ensures Notice(next) == Relayed
    ensures Left(next) <= {c} || exists d: Conn :: IsMember(s, d) && Left(next) == {d}
  {
    if !(Left(next) <= {c}) {
      var i :| i in s.clients && Left(next) == {s.clients[i]};
      assert IdOk(s, i);
      assert IsMember(s, s.clients[i]);
    }
  }
}
