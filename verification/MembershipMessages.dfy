/** Where join_request, auth_ok and peer_kicked come from, and what they say, over whole runs. */
module MembershipMessages {
  import opened Options
  import opened Membership
  import opened MembershipStructure
  import opened MembershipSilence
  import opened MembershipTraces
  import opened MembershipKicks

  /** Who is there as the room's host, if anyone. */
  ghost predicate HostIs(s: Sys, host: Option<Conn>) {
    match host
    case Some(h) => IsMember(s, h) && s.hostID == Some(s.conns[h].id)
    case None => forall h :: IsMember(s, h) ==> s.hostID != Some(s.conns[h].id)
  }

  /** At step i, c asked to join a room that had a host once, was open and had a place left. */
  ghost predicate AskedAt(ss: seq<Sys>, es: seq<Event>, i: nat, c: Conn, request: nat, host: Option<Conn>)
    requires i < |es| == |ss| - 1
  {
    && es[i].Enter? && es[i].c == c && es[i].request == request
    && ss[i].hostID.Some? && !ss[i].closed && (ss[i].limit == 0 || |ss[i].clients| < ss[i].limit)
    && HostIs(ss[i], host)
  }

  ghost predicate Asked(ss: seq<Sys>, es: seq<Event>, n: nat, c: Conn, request: nat, host: Option<Conn>)
    requires n <= |es| == |ss| - 1
  {
    exists i: nat :: i < n && AskedAt(ss, es, i, c, request, host)
  }

  /** At step j, the host that was there when c asked is sent c's request. */
  ghost predicate HostToldAt(ss: seq<Sys>, es: seq<Event>, j: nat, c: Conn, request: nat, h: Conn)
    requires j < |es| == |ss| - 1
  {
    PutAt(ss, es, j, c, h, JoinRequest(request)) && Asked(ss, es, j, c, request, Some(h))
  }

  ghost predicate HostTold(ss: seq<Sys>, es: seq<Event>, n: nat, c: Conn, request: nat, host: Option<Conn>)
    requires n <= |es| == |ss| - 1
  {
    host.Some? ==> exists j: nat :: j < n && HostToldAt(ss, es, j, c, request, host.value)
  }

  // ---------------------------------------------------------------- asking

  ghost predicate AskOk(ss: seq<Sys>, es: seq<Event>, n: nat, c: Conn)
    requires n <= |es| == |ss| - 1
  {
    c in ss[n].conns ==>
      match ss[n].conns[c].pc
      case Knocking(TellingPending(host)) => Asked(ss, es, n, c, ss[n].conns[c].request, host)
      case Knocking(TellingHost(host)) => Asked(ss, es, n, c, ss[n].conns[c].request, host)
      case Knocking(_) => exists host ::
        Asked(ss, es, n, c, ss[n].conns[c].request, host) && HostTold(ss, es, n, c, ss[n].conns[c].request, host)
      case _ => true
  }

  lemma EnteringAsks(s: Sys, c: Conn, id: Id, request: nat)
    requires Structure(s) && CanEnter(s, c, id) && Entering(s, c, id, request).conns[c].pc.Knocking?
    ensures
      var k := Entering(s, c, id, request).conns[c];
      && k.pc.knock.TellingPending? && HostIs(s, k.pc.knock.hostClient) && k.request == request
      && s.hostID.Some? && !s.closed && (s.limit == 0 || |s.clients| < s.limit)
  {
    assert IdOk(s, s.hostID.value);
  }

  /** The ways to a stage of waiting. */
  lemma KnockComesFrom(s: Sys, e: Event, c: Conn)
    requires Enabled(s, e) && c in s.conns && c in Step(s, e).conns && Step(s, e).conns[c].pc.Knocking? && !e.Enter? && !e.Leave?
    ensures
      var pc, pc' := s.conns[c].pc, Step(s, e).conns[c].pc;
      || pc == pc'
      || (pc.Knocking? && pc.knock.TellingPending? && pc' == Knocking(TellingHost(pc.knock.hostClient)))
      || (pc == Knocking(TellingHost(None)) && pc' == Knocking(Waiting))
      || (pc.Knocking? && pc.knock.TellingHost? && pc' == Knocking(Waiting) && e.Deliver? && e.c == c && pc.knock.hostClient == Some(e.target))
      || (pc == Knocking(Waiting) && pc'.knock.Decided?)
  {
    if Actor(e) != Some(c) { OthersStay(s, e, c); }
  }

  /** What is put into the host's queue is the request of the one who asks. */
  lemma PutRequest(ss: seq<Sys>, es: seq<Event>, n: nat, c: Conn, h: Conn)
    requires StepAt(ss, es, n) && es[n].Deliver? && es[n].c == c && es[n].target == h
    requires c in ss[n].conns && ss[n].conns[c].pc == Knocking(TellingHost(Some(h)))
    ensures PutAt(ss, es, n, c, h, JoinRequest(ss[n].conns[c].request))
  {
    assert ss[n + 1] == Delivering(ss[n], c, h, es[n].lost);
  }

  lemma AskStep(ss: seq<Sys>, es: seq<Event>, n: nat, c: Conn)
    requires StepAt(ss, es, n) && AskOk(ss, es, n, c)
    ensures AskOk(ss, es, n + 1, c)
  {
    var s, e := ss[n], es[n];
    SameConns(s, e, c);
    if c in s.conns && ss[n + 1].conns[c].pc.Knocking? {
      StageChange(s, e, c);
      if e.Enter? && e.c == c {
        EnteringAsks(s, c, e.id, e.request);
        assert AskedAt(ss, es, n, c, e.request, ss[n + 1].conns[c].pc.knock.hostClient);
      } else {
        WaitStep(ss, es, n, c);
      }
    }
  }

  lemma WaitStep(ss: seq<Sys>, es: seq<Event>, n: nat, c: Conn)
    requires StepAt(ss, es, n) && AskOk(ss, es, n, c) && c in ss[n].conns && c in ss[n + 1].conns
    requires ss[n + 1].conns[c].pc.Knocking? && ss[n].conns[c].pc.Knocking? && !(es[n].Enter? && es[n].c == c)
    ensures AskOk(ss, es, n + 1, c)
  {
    var s, e := ss[n], es[n];
    var request := s.conns[c].request;
    RequestStays(s, e, c);
    if Actor(e) != Some(c) {
      OthersStay(s, e, c);
    } else {
      KnockComesFrom(s, e, c);
    }
    if s.conns[c].pc.knock.TellingHost? && ss[n + 1].conns[c].pc == Knocking(Waiting) {
      var host := s.conns[c].pc.knock.hostClient;
      if host.Some? {
        PutRequest(ss, es, n, c, host.value);
        assert HostToldAt(ss, es, n, c, request, host.value);
      }
      assert Asked(ss, es, n + 1, c, request, host) && HostTold(ss, es, n + 1, c, request, host);
    } else if s.conns[c].pc.knock.Waiting? || s.conns[c].pc.knock.Decided? {
      var host :| Asked(ss, es, n, c, request, host) && HostTold(ss, es, n, c, request, host);
      assert Asked(ss, es, n + 1, c, request, host) && HostTold(ss, es, n + 1, c, request, host);
    }
  }

  lemma {:induction false} AskAt(ss: seq<Sys>, es: seq<Event>, n: nat)
    requires IsTrace(ss, es) && n <= |es|
    ensures forall c :: AskOk(ss, es, n, c)
  {
    if n > 0 {
      AskAt(ss, es, n - 1);
      TraceStep(ss, es, n - 1);
      forall c: Conn ensures AskOk(ss, es, n, c) { AskStep(ss, es, n - 1, c); }
    }
  }

  /**
   * The host hears of everyone who waits.  In every trace, whoever waits for a decision, or has one, asked
   * an open room with a place left; and if a host was there then, the request, under its own number, has
   * since been put into that host's queue, unless the host was shut or its full channel dropped it.
   */
  lemma HostHearsOfEveryWaiter(ss: seq<Sys>, es: seq<Event>, c: Conn)
    requires IsTrace(ss, es) && c in ss[|es|].conns
    requires ss[|es|].conns[c].pc == Knocking(Waiting) || (ss[|es|].conns[c].pc.Knocking? && ss[|es|].conns[c].pc.knock.Decided?)
    ensures
      var request := ss[|es|].conns[c].request;
      exists i: nat, host :: i < |es| && AskedAt(ss, es, i, c, request, host)
        && (host.Some? ==> exists j: nat :: j < |es| && PutAt(ss, es, j, c, host.value, JoinRequest(request)))
  {
    AskAt(ss, es, |es|);
    assert AskOk(ss, es, |es|, c);
    var request := ss[|es|].conns[c].request;
    var host :| Asked(ss, es, |es|, c, request, host) && HostTold(ss, es, |es|, c, request, host);
    var i: nat :| i < |es| && AskedAt(ss, es, i, c, request, host);
    if host.Some? {
      var j: nat :| j < |es| && HostToldAt(ss, es, j, c, request, host.value);
    }
  }

  // ---------------------------------------------------------------- queues

  predicate MemberAs(s: Sys, m: Conn, x: Id) {
    IsMember(s, m) && s.conns[m].id == x
  }

  /** Some member bears x. */
  ghost predicate IsIn(s: Sys, x: Id) {
    exists m :: MemberAs(s, m, x)
  }

  /** At step i, c became a member, and this is the room it found, with its host. */
  ghost predicate WelcomedAt(ss: seq<Sys>, es: seq<Event>, i: nat, c: Conn, peers: set<Id>, host: Option<Id>)
    requires i < |es| == |ss| - 1
  {
    && !IsMember(ss[i], c) && IsMember(ss[i + 1], c) && host == ss[i + 1].hostID
    && forall x :: x in peers <==> x != ss[i + 1].conns[c].id && IsIn(ss[i + 1], x)
  }

  /** Where a message in d's queue comes from. */
  ghost predicate Explained(ss: seq<Sys>, es: seq<Event>, n: nat, d: Conn, m: Msg)
    requires n <= |es| == |ss| - 1
  {
    match m
    case JoinRequest(request) => exists j: nat, c :: j < n && HostToldAt(ss, es, j, c, request, d)
    case AuthOk(peers, host) => exists i: nat :: i < n && WelcomedAt(ss, es, i, d, peers, host)
    case PeerKicked => exists j: nat, c, x :: j < n && ToldAt(ss, es, j, c, x, d)
    case RoomClosed => false
    case _ => true
  }

  ghost predicate QueueOk(ss: seq<Sys>, es: seq<Event>, n: nat, d: Conn)
    requires n <= |es| == |ss| - 1
  {
    d in ss[n].conns ==> forall q :: 0 <= q < |ss[n].conns[d].queue| ==> Explained(ss, es, n, d, ss[n].conns[d].queue[q])
  }

  lemma ExplainedLater(ss: seq<Sys>, es: seq<Event>, n: nat, d: Conn, m: Msg)
    requires n < |es| == |ss| - 1 && Explained(ss, es, n, d, m)
    ensures Explained(ss, es, n + 1, d, m)
  {}

  lemma MembersAre(s: Sys, x: Id)
    requires Structure(s)
    ensures x in s.clients <==> IsIn(s, x)
  {
    assert IdOk(s, x);
    if x in s.clients { assert MemberAs(s, s.clients[x], x); }
  }

  /** What auth_ok tells is the room as c finds it. */
  lemma Welcomes(ss: seq<Sys>, es: seq<Event>, n: nat, c: Conn)
    requires StepAt(ss, es, n) && Structure(ss[n + 1]) && (es[n].Enter? || es[n].Admit?) && es[n].c == c
    requires c in ss[n].conns && c in ss[n + 1].conns
    requires |ss[n + 1].conns[c].queue| == |ss[n].conns[c].queue| + 1
    ensures
      var m := ss[n + 1].conns[c].queue[|ss[n].conns[c].queue|];
      m.AuthOk? && WelcomedAt(ss, es, n, c, m.peers, m.host)
  {
    var s := ss[n];
    var m := ss[n + 1].conns[c].queue[|s.conns[c].queue|];
    if es[n].Admit? { assert KnockOk(s, c); }
    assert IdOk(s, s.conns[c].id);
    forall x ensures x in m.peers <==> x != ss[n + 1].conns[c].id && IsIn(ss[n + 1], x) {
      MembersAre(ss[n + 1], x);
    }
  }

  /** The only join_request that a goroutine sends is its own, to the host that was there when it asked. */
  lemma RequestIsReal(ss: seq<Sys>, es: seq<Event>, n: nat, h: Conn)
    requires StepAt(ss, es, n) && es[n].Deliver? && es[n].target == h && es[n].c in ss[n].conns && !es[n].lost && !ss[n].conns[h].shut
    requires AskOk(ss, es, n, es[n].c) && ClientOk(ss[n].conns[es[n].c]) && Message(ss[n].conns[es[n].c]).JoinRequest?
    ensures HostToldAt(ss, es, n, es[n].c, Message(ss[n].conns[es[n].c]).request, h)
  {
    PutRequest(ss, es, n, es[n].c, h);
  }

  /** The only peer_kicked that a goroutine sends is to the member it found, in a kick. */
  lemma KickIsReal(ss: seq<Sys>, es: seq<Event>, n: nat, t: Conn)
    requires StepAt(ss, es, n) && es[n].Deliver? && es[n].target == t && es[n].c in ss[n].conns
    requires KickOk(ss, es, n, es[n].c) && ClientOk(ss[n].conns[es[n].c]) && Message(ss[n].conns[es[n].c]).PeerKicked?
    ensures exists c, x :: ToldAt(ss, es, n, c, x, t)
  {
    var c := es[n].c;
    PutKicked(ss[n], c, t, es[n].lost);
    assert ToldAt(ss, es, n, c, ss[n].conns[c].pc.work.x, t);
  }

  lemma NewMessage(ss: seq<Sys>, es: seq<Event>, n: nat, d: Conn)
    requires StepAt(ss, es, n) && Structure(ss[n + 1]) && d in ss[n].conns && d in ss[n + 1].conns
    requires es[n].Deliver? && es[n].c in ss[n].conns ==>
      AskOk(ss, es, n, es[n].c) && KickOk(ss, es, n, es[n].c) && ClientOk(ss[n].conns[es[n].c])
    requires |ss[n + 1].conns[d].queue| == |ss[n].conns[d].queue| + 1
    ensures Explained(ss, es, n + 1, d, ss[n + 1].conns[d].queue[|ss[n].conns[d].queue|])
  {
    var s, e := ss[n], es[n];
    QueueGrows(s, e, d);
    if (e.Enter? || e.Admit?) && e.c == d {
      Welcomes(ss, es, n, d);
    } else if e.Deliver? && Message(s.conns[e.c]).JoinRequest? {
      RequestIsReal(ss, es, n, d);
    } else if e.Deliver? && Message(s.conns[e.c]).PeerKicked? {
      KickIsReal(ss, es, n, d);
      var c, x :| ToldAt(ss, es, n, c, x, d);
    }
  }

  lemma QueueStep(ss: seq<Sys>, es: seq<Event>, n: nat, d: Conn)
    requires StepAt(ss, es, n) && Structure(ss[n + 1]) && QueueOk(ss, es, n, d)
    requires es[n].Deliver? && es[n].c in ss[n].conns ==>
      AskOk(ss, es, n, es[n].c) && KickOk(ss, es, n, es[n].c) && ClientOk(ss[n].conns[es[n].c])
    ensures QueueOk(ss, es, n + 1, d)
  {
    SameConns(ss[n], es[n], d);
    if d in ss[n].conns {
      QueueGrows(ss[n], es[n], d);
      var q, q' := ss[n].conns[d].queue, ss[n + 1].conns[d].queue;
      forall k | 0 <= k < |q'| ensures Explained(ss, es, n + 1, d, q'[k]) {
        if k < |q| {
          assert q'[k] == q[k];
          ExplainedLater(ss, es, n, d, q[k]);
        } else {
          NewMessage(ss, es, n, d);
        }
      }
    }
  }

  lemma {:induction false} QueuesAt(ss: seq<Sys>, es: seq<Event>, n: nat)
    requires IsTrace(ss, es) && n <= |es|
    ensures Histories(ss[n])
    ensures forall d :: QueueOk(ss, es, n, d)
  {
    if n > 0 {
      QueuesAt(ss, es, n - 1);
      TraceStep(ss, es, n - 1);
      HistoriesStep(ss[n - 1], es[n - 1]);
      AskAt(ss, es, n - 1);
      KickAt(ss, es, n - 1);
      forall d: Conn ensures QueueOk(ss, es, n, d) { QueueStep(ss, es, n - 1, d); }
    }
  }

  /**
   * No join_request is made up.  In every trace, a join_request in h's queue bears the number under which
   * some connection asked to join, at a time when h was there as the host and the room was open with a
   * place left, and it was that connection that put it there.
   */
  lemma JoinRequestsAreReal(ss: seq<Sys>, es: seq<Event>, h: Conn, q: nat)
    requires IsTrace(ss, es) && h in ss[|es|].conns && q < |ss[|es|].conns[h].queue| && ss[|es|].conns[h].queue[q].JoinRequest?
    ensures
      var request := ss[|es|].conns[h].queue[q].request;
      exists i: nat, j: nat, c :: i < j < |es| && AskedAt(ss, es, i, c, request, Some(h)) && PutAt(ss, es, j, c, h, JoinRequest(request))
  {
    QueuesAt(ss, es, |es|);
    assert QueueOk(ss, es, |es|, h);
    var request := ss[|es|].conns[h].queue[q].request;
    assert Explained(ss, es, |es|, h, JoinRequest(request));
    var j: nat, c :| j < |es| && HostToldAt(ss, es, j, c, request, h);
    var i: nat :| i < j && AskedAt(ss, es, i, c, request, Some(h));
  }

  /**
   * auth_ok tells the truth.  In every trace, an auth_ok in c's queue was put there by the step that made c
   * a member; its host is the room's, and its peers are exactly the other members, never c itself.
   */
  lemma WelcomesAreTrue(ss: seq<Sys>, es: seq<Event>, c: Conn, q: nat)
    requires IsTrace(ss, es) && c in ss[|es|].conns && q < |ss[|es|].conns[c].queue| && ss[|es|].conns[c].queue[q].AuthOk?
    ensures
      var m := ss[|es|].conns[c].queue[q];
      exists i: nat :: i < |es| && WelcomedAt(ss, es, i, c, m.peers, m.host)
  {
    QueuesAt(ss, es, |es|);
    assert QueueOk(ss, es, |es|, c);
  }

  /**
   * Only the kicked are told so.  In every trace, a peer_kicked in t's queue was put there by a connection
   * that had passed the host check for some id and then found t under it; and room_closed is in no queue.
   */
  lemma KickNoticesAreReal(ss: seq<Sys>, es: seq<Event>, t: Conn, q: nat)
    requires IsTrace(ss, es) && t in ss[|es|].conns && q < |ss[|es|].conns[t].queue|
    ensures ss[|es|].conns[t].queue[q] == PeerKicked ==>
      exists a: nat, b: nat, j: nat, c, x ::
        a < b < j < |es| && CheckedAt(ss, es, a, c, x) && FoundAt(ss, es, b, c, x, t) && PutAt(ss, es, j, c, t, PeerKicked)
    ensures ss[|es|].conns[t].queue[q] != RoomClosed
  {
    QueuesAt(ss, es, |es|);
    assert QueueOk(ss, es, |es|, t) && Explained(ss, es, |es|, t, ss[|es|].conns[t].queue[q]);
    if ss[|es|].conns[t].queue[q] == PeerKicked {
      var j: nat, c, x :| j < |es| && ToldAt(ss, es, j, c, x, t);
      var b: nat :| b < j && FoundAt(ss, es, b, c, x, t);
      var a: nat :| a < b && CheckedAt(ss, es, a, c, x);
    }
  }
}
