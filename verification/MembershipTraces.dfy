/** Runs with all their intermediate states, and how a step changes what a connection has been sent. */
module MembershipTraces {
  import opened Options
  import opened Membership
  import opened MembershipStructure

  /** ss[0], es[0], ss[1], ..., es[n-1], ss[n] from the empty room. */
  ghost predicate IsTrace(ss: seq<Sys>, es: seq<Event>) {
    && |ss| == |es| + 1
    && ss[0] == Init(ss[0].limit)
    && forall n :: 0 <= n < |es| ==> Enabled(ss[n], es[n]) && ss[n + 1] == Step(ss[n], es[n])
  }

  lemma {:induction false} TraceStructure(ss: seq<Sys>, es: seq<Event>, n: nat)
    requires IsTrace(ss, es) && n < |ss|
    ensures Structure(ss[n])
  {
    if n == 0 {
      StructureInit(ss[0].limit);
    } else {
      TraceStructure(ss, es, n - 1);
      StructureStep(ss[n - 1], es[n - 1]);
    }
  }

  /** One step of a trace. */
  ghost predicate StepAt(ss: seq<Sys>, es: seq<Event>, n: nat) {
    n < |es| == |ss| - 1 && Structure(ss[n]) && Enabled(ss[n], es[n]) && ss[n + 1] == Step(ss[n], es[n])
  }

  lemma TraceStep(ss: seq<Sys>, es: seq<Event>, n: nat)
    requires IsTrace(ss, es) && n < |es|
    ensures StepAt(ss, es, n) && Structure(ss[n + 1])
  {
    TraceStructure(ss, es, n);
    TraceStructure(ss, es, n + 1);
  }

  /** A request keeps its number once the connection has entered. */
  lemma RequestStays(s: Sys, e: Event, p: Conn)
    requires Enabled(s, e) && p in s.conns && !s.conns[p].pc.Arrived?
    ensures p in Step(s, e).conns && !Step(s, e).conns[p].pc.Arrived?
    ensures Step(s, e).conns[p].request == s.conns[p].request
  {
    if !WritesRoom(e) {
      QuietStep(s, e);
    } else if e.Leave? {
      LeaveEffect(s, e.c, e.heir, e.missed);
    }
  }

  /** Only the three locked sections move a connection from one stage to another. */
  lemma StageChange(s: Sys, e: Event, c: Conn)
    requires Enabled(s, e) && c in s.conns
    ensures c in Step(s, e).conns
    ensures SameStage(s.conns[c].pc, Step(s, e).conns[c].pc) || ((e.Enter? || e.Admit? || e.Leave?) && e.c == c)
  {
    if !WritesRoom(e) {
      QuietStep(s, e);
    } else if Actor(e) != Some(c) {
      OthersStay(s, e, c);
    }
  }

  // ---------------------------------------------------------------- queues

  /** At step j, c put m into d's queue, unless d is shut or its full channel drops it. */
  predicate PutAt(ss: seq<Sys>, es: seq<Event>, j: nat, c: Conn, d: Conn, m: Msg)
    requires j < |es| == |ss| - 1
  {
    && es[j].Deliver? && es[j].c == c && es[j].target == d && d in ss[j].conns && d in ss[j + 1].conns
    && ss[j + 1].conns[d].queue == ss[j].conns[d].queue + if ss[j].conns[d].shut || es[j].lost then [] else [m]
  }

  /** How m can get into c's queue. */
  predicate Puts(s: Sys, e: Event, c: Conn, m: Msg) {
    || (m.AuthOk? && (e.Enter? || e.Admit?) && e.c == c)
    || (m.HostChanged? && e.Leave?)
    || (m.Relayed? && e.MailSend? && e.target == c)
    || (e.Deliver? && e.target == c && !e.lost && e.c in s.conns && m == Message(s.conns[e.c]))
  }

  /** q' is q with at most one message more, one that e puts there. */
  predicate Grown(s: Sys, e: Event, c: Conn, q: seq<Msg>, q': seq<Msg>) {
    q' == q || (|q'| == |q| + 1 && q' == q + [q'[|q|]] && Puts(s, e, c, q'[|q|]))
  }

  lemma GrownLeave(s: Sys, c: Conn, heir: Conn, missed: set<Conn>, d: Conn)
    requires CanLeave(s, c, heir) && d in s.conns
    ensures d in Leaving(s, c, heir, missed).conns
    ensures Grown(s, Leave(c, heir, missed), d, s.conns[d].queue, Leaving(s, c, heir, missed).conns[d].queue)
  {}

  lemma GrownDeliver(s: Sys, c: Conn, target: Conn, lost: bool, d: Conn)
    requires CanDeliver(s, c, target, lost) && d in s.conns
    ensures Grown(s, Deliver(c, target, lost), d, s.conns[d].queue, Delivering(s, c, target, lost).conns[d].queue)
  {}

  lemma GrownEnter(s: Sys, c: Conn, id: Id, request: nat, d: Conn)
    requires CanEnter(s, c, id) && d in s.conns
    ensures Grown(s, Enter(c, id, request), d, s.conns[d].queue, Entering(s, c, id, request).conns[d].queue)
  {}

  /** A step adds at most one message to a queue, and takes none away. */
  lemma QueueGrows(s: Sys, e: Event, c: Conn)
    requires Enabled(s, e) && c in s.conns
    ensures c in Step(s, e).conns && Grown(s, e, c, s.conns[c].queue, Step(s, e).conns[c].queue)
  {
    match e
    case Enter(d, id, request) => GrownEnter(s, d, id, request, c);
    case Leave(l, heir, missed) => GrownLeave(s, l, heir, missed, c);
    case Deliver(d, target, lost) => GrownDeliver(s, d, target, lost, c);
    case _ =>
  }
}
