/**
 * Membership views converge.  A client's view of who is in the room is built from its queue: the
 * peers of auth_ok, plus every peer_joined, minus every peer_left.  The view of an open member is to
 * differ from the room's other members only by notices still in flight.  In runs with fresh ids that
 * holds as long as no notice is dropped and no kick overtakes its target's announcement; and exactly
 * which deliveries break it is said as well.
 */
module MembershipViews {
  import opened Options
  import opened Membership
  import opened MembershipStructure
  import opened MembershipSilence
  import opened MembershipHost

  /** A view after one more message. */
  function Told(v: set<Id>, m: Msg): set<Id> {
    match m
    case AuthOk(peers, _) => peers
    case PeerJoined(who) => v + {who}
    case PeerLeft(who) => v - {who}
    case _ => v
  }

  function View(q: seq<Msg>): set<Id> {
    if q == [] then {} else Told(View(q[..|q| - 1]), q[|q| - 1])
  }

  // ---------------------------------------------------------------- hypotheses on runs

  /** No full channel drops a peer_joined or peer_left. */
  predicate NoticeKept(s: Sys, e: Event) {
    e.Deliver? && e.c in s.conns && (Message(s.conns[e.c]).PeerJoined? || Message(s.conns[e.c]).PeerLeft?) ==> !e.lost
  }

  /** peer_kick finds no target that is still announcing its own arrival. */
  predicate KicksSettled(s: Sys, e: Event) {
    e.Move? && e.next.Inside? && e.next.work.TellingTarget? && e.next.work.target in s.conns ==>
      !Announcing(s.conns[e.next.work.target].pc)
  }

  predicate Orderly(s: Sys, e: Event) {
    FreshId(s, e) && NoticeKept(s, e) && KicksSettled(s, e)
  }

  ghost predicate OrderlyRun(s: Sys, es: seq<Event>)
    decreases |es|
  {
    es == [] || (Enabled(s, es[0]) && Orderly(s, es[0]) && OrderlyRun(Step(s, es[0]), es[1..]))
  }

  // ---------------------------------------------------------------- notices in flight

  /** A goroutine at pc will still put peer_joined(x) into m's queue. */
  predicate WillAnnounce(pc: PC, x: Id, m: Conn) {
    pc.Inside? &&
    (pc.work == Broadcasting(PeerJoined(x), Some(x))
     || (pc.work.Sending? && pc.work.msg == PeerJoined(x) && m in pc.work.targets))
  }

  /** A goroutine at pc will still put peer_left(x) into m's queue. */
  predicate WillReportLeft(pc: PC, x: Id, m: Conn) {
    || (pc.Inside? &&
        (pc.work == Broadcasting(PeerLeft(x), None)
         || (pc.work.Sending? && pc.work.msg == PeerLeft(x) && m in pc.work.targets)))
    || (pc.Parting? && pc.part.TellingPeers? && pc.part.who == x && m in pc.part.targets)
  }

  predicate JoinInFlight(s: Sys, x: Id, m: Conn) {
    x in s.clients && s.clients[x] in s.conns && WillAnnounce(s.conns[s.clients[x]].pc, x, m)
  }

  ghost predicate LeaveInFlight(s: Sys, x: Id, m: Conn) {
    exists g :: g in s.conns && WillReportLeft(s.conns[g].pc, x, m)
  }

  predicate Open(s: Sys, m: Conn) {
    IsMember(s, m) && !s.conns[m].shut
  }

  ghost predicate ViewAt(s: Sys, m: Conn, x: Id) {
    Open(s, m) && x != s.conns[m].id ==>
      && (x in s.clients && x !in View(s.conns[m].queue) ==> JoinInFlight(s, x, m))
      && (x !in s.clients && x in View(s.conns[m].queue) ==> LeaveInFlight(s, x, m))
  }

  /** What goroutines with notices are telling. */
  predicate NoticeAt(s: Sys, c: Conn) {
    c in s.conns ==>
      match s.conns[c].pc
      case Inside(Broadcasting(m, except)) =>
        && (m.PeerJoined? ==> m.who == s.conns[c].id && except == Some(m.who))
        && (m.PeerLeft? ==> except == None)
      case Inside(Sending(m, _)) => m.PeerJoined? ==> m.who == s.conns[c].id
      case Parting(TellingPeers(who, _, _)) => who == s.conns[c].id
      case _ => true
  }

  ghost predicate Notices(s: Sys) { forall c :: NoticeAt(s, c) }
  ghost predicate Views(s: Sys) { forall m, x :: ViewAt(s, m, x) }

  lemma ViewsInit(limit: nat)
    ensures Notices(Init(limit)) && Views(Init(limit))
  {}

  lemma NoticeDeliver(s: Sys, c: Conn, target: Conn, lost: bool)
    requires NoticeAt(s, c) && CanDeliver(s, c, target, lost)
    ensures NoticeAt(Delivering(s, c, target, lost), c)
  {}

  lemma NoticeKeeps(s: Sys, e: Event, c: Conn)
    requires NoticeAt(s, c) && Enabled(s, e)
    ensures NoticeAt(Step(s, e), c)
  {
    SameConns(s, e, c);
    if Actor(e) != Some(c) {
      if c in s.conns {
        OthersStay(s, e, c);
        SameId(s, e, c);
      }
    } else if e.Leave? {
      LeaveEffect(s, c, e.heir, e.missed);
      LeaveTells(s, c, e.heir, e.missed);
    } else if e.Deliver? {
      NoticeDeliver(s, c, e.target, e.lost);
    }
  }

  lemma LeaveTells(s: Sys, c: Conn, heir: Conn, missed: set<Conn>)
    requires CanLeave(s, c, heir)
    ensures NoticeAt(Leaving(s, c, heir, missed), c)
  {}

  lemma NoticesStep(s: Sys, e: Event)
    requires Notices(s) && Enabled(s, e)
    ensures Notices(Step(s, e))
  {
    forall c ensures NoticeAt(Step(s, e), c) { NoticeKeeps(s, e, c); }
  }

  // ---------------------------------------------------------------- views

  lemma ViewOfQueue(k: Client, m: Msg, lost: bool)
    ensures View(Queue(k, m, lost).queue) == if k.shut || lost then View(k.queue) else Told(View(k.queue), m)
  {}

  lemma EngagedDiffer(s: Sys, c: Conn, d: Conn)
    requires Distinct(s) && c in s.conns && d in s.conns && c != d
    requires Engaged(s.conns[c].pc) && Engaged(s.conns[d].pc)
    ensures s.conns[c].id != s.conns[d].id
  {
    assert DistinctAt(s, c, d);
  }

  /** While somebody is still to be told that x left, nobody bears x in the room. */
  lemma ReportedIsGone(s: Sys, g: Conn, x: Id, m: Conn)
    requires Structure(s) && Core(s) && Notices(s) && g in s.conns && WillReportLeft(s.conns[g].pc, x, m)
    ensures x !in s.clients
  {
    assert NoticeAt(s, g) && KickAt(s, g) && IdOk(s, x);
    if x in s.clients && s.conns[g].pc.Parting? {
      EngagedDiffer(s, g, s.clients[x]);
    }
  }

  predicate HasNotice(pc: PC) {
    (pc.Inside? && (pc.work.Broadcasting? || pc.work.Sending?)) || (pc.Parting? && pc.part.TellingPeers?)
  }

  /** The goroutine that moved was telling nothing, and no view or membership changed. */
  ghost predicate Unnoticed(s: Sys, s': Sys) {
    && s'.clients == s.clients
    && forall g :: g in s.conns ==>
         && g in s'.conns && s'.conns[g].id == s.conns[g].id && (s.conns[g].shut ==> s'.conns[g].shut)
         && (s'.conns[g].pc == s.conns[g].pc || !HasNotice(s.conns[g].pc))
         && View(s'.conns[g].queue) == View(s.conns[g].queue)
  }

  lemma UnnoticedViews(s: Sys, s': Sys, m: Conn, x: Id)
    requires Structure(s) && ViewAt(s, m, x) && Unnoticed(s, s')
    ensures ViewAt(s', m, x)
  {
    if Open(s', m) && x != s'.conns[m].id {
      assert IdOk(s, s'.conns[m].id) && IdOk(s, x);
      if LeaveInFlight(s, x, m) {
        var g :| g in s.conns && WillReportLeft(s.conns[g].pc, x, m);
        assert WillReportLeft(s'.conns[g].pc, x, m);
      }
    }
  }

  lemma UnnoticedMail(s: Sys, target: Conn, last: bool, lost: bool)
    requires CanMailSend(s, target)
    ensures Unnoticed(s, MailSending(s, target, last, lost))
  {}

  lemma UnnoticedShut(s: Sys, c: Conn)
    requires CanShut(s, c)
    ensures Unnoticed(s, Shutting(s, c))
  {}

  lemma UnnoticedPlace(s: Sys, c: Conn)
    requires CanPlaceDecision(s, c)
    ensures Unnoticed(s, Placing(s, c))
  {}

  lemma SilentViews(s: Sys, e: Event, m: Conn, x: Id)
    requires Structure(s) && Enabled(s, e) && ViewAt(s, m, x)
    requires e.Arrive? || e.Receive? || e.Shut? || e.WritePresence? || e.PlaceDecision? || e.MailSnapshot? || e.MailSend?
    ensures ViewAt(Step(s, e), m, x)
  {
    if e.MailSend? {
      UnnoticedMail(s, e.target, e.last, e.lost);
    } else if e.Shut? {
      UnnoticedShut(s, e.c);
    } else if e.PlaceDecision? {
      UnnoticedPlace(s, e.c);
    }
    UnnoticedViews(s, Step(s, e), m, x);
  }

  lemma EnterViews(s: Sys, c: Conn, id: Id, request: nat, m: Conn, x: Id)
    requires Structure(s) && ViewAt(s, m, x) && CanEnter(s, c, id)
    ensures ViewAt(Entering(s, c, id, request), m, x)
  {
    var s' := Entering(s, c, id, request);
    if s.hostID.None? {
      ViewOfQueue(s.conns[c], AuthOk(s.clients.Keys - {id}, Some(id)), false);
    } else if Open(s', m) && x != s'.conns[m].id {
      assert IdOk(s, s'.conns[m].id) && IdOk(s, x);
      if LeaveInFlight(s, x, m) {
        var g :| g in s.conns && WillReportLeft(s.conns[g].pc, x, m);
        assert WillReportLeft(s'.conns[g].pc, x, m);
      }
    }
  }

  lemma AdmitViews(s: Sys, c: Conn, m: Conn, x: Id)
    requires Structure(s) && Histories(s) && ViewAt(s, m, x) && CanAdmit(s, c)
    ensures ViewAt(Admitting(s, c), m, x)
  {
    var s' := Admitting(s, c);
    var k := s.conns[c];
    assert ClientOk(k) && KnockOk(s, c) && IdOk(s, k.id);
    ViewOfQueue(k, AuthOk(s.clients.Keys - {k.id}, s.hostID), false);
    if Open(s', m) && x != s'.conns[m].id && m != c {
      assert IdOk(s, s'.conns[m].id) && IdOk(s, x);
      if LeaveInFlight(s, x, m) {
        var g :| g in s.conns && WillReportLeft(s.conns[g].pc, x, m);
        assert WillReportLeft(s'.conns[g].pc, x, m);
      }
    }
  }

  lemma MoveViews(s: Sys, c: Conn, next: PC, m: Conn, x: Id)
    requires Structure(s) && Notices(s) && ViewAt(s, m, x) && CanMove(s, c, next)
    ensures ViewAt(Goto(s, c, next), m, x)
  {
    var s' := Goto(s, c, next);
    assert NoticeAt(s, c);
    if Open(s', m) && x != s'.conns[m].id {
      TargetsAreInside(s, None);
      TargetsAreInside(s, Some(x));
      assert Open(s, m);
      if LeaveInFlight(s, x, m) {
        var g :| g in s.conns && WillReportLeft(s.conns[g].pc, x, m);
        assert WillReportLeft(s'.conns[g].pc, x, m);
      }
    }
  }

  /** A notice about x is on its way to m until it is the one delivered; none appears by delivering. */
  lemma NoticeStays(s: Sys, c: Conn, target: Conn, lost: bool, g: Conn, x: Id, m: Conn)
    requires CanDeliver(s, c, target, lost) && g in s.conns
    ensures var s' := Delivering(s, c, target, lost);
      && g in s'.conns
      && (WillAnnounce(s'.conns[g].pc, x, m) <==>
            WillAnnounce(s.conns[g].pc, x, m) && !(g == c && target == m && Message(s.conns[c]) == PeerJoined(x)))
      && (WillReportLeft(s'.conns[g].pc, x, m) <==>
            WillReportLeft(s.conns[g].pc, x, m) && !(g == c && target == m && Message(s.conns[c]) == PeerLeft(x)))
  {}

  lemma DeliverQueue(s: Sys, c: Conn, target: Conn, lost: bool, m: Conn)
    requires CanDeliver(s, c, target, lost) && m in s.conns
    ensures var s' := Delivering(s, c, target, lost);
      && s'.clients == s.clients && s'.conns.Keys == s.conns.Keys
      && s'.conns[m].id == s.conns[m].id && s'.conns[m].shut == s.conns[m].shut
      && s'.conns[m].queue == (if m == target then Queue(s.conns[m], Message(s.conns[c]), lost) else s.conns[m]).queue
  {}

  lemma DeliverFrame(s: Sys, c: Conn, target: Conn, lost: bool, m: Conn)
    requires CanDeliver(s, c, target, lost) && m in s.conns
    ensures var s' := Delivering(s, c, target, lost);
      && s'.clients == s.clients && s'.conns.Keys == s.conns.Keys
      && s'.conns[m].id == s.conns[m].id && s'.conns[m].shut == s.conns[m].shut
      && View(s'.conns[m].queue) ==
           (if m == target && !lost && !s.conns[m].shut then Told(View(s.conns[m].queue), Message(s.conns[c])) else View(s.conns[m].queue))
  {
    DeliverQueue(s, c, target, lost, m);
    ViewOfQueue(s.conns[m], Message(s.conns[c]), lost);
  }

  /** Somebody other than c still has to tell m that x left. */
  ghost predicate OthersReport(s: Sys, c: Conn, x: Id, m: Conn) {
    exists g :: g in s.conns && g != c && WillReportLeft(s.conns[g].pc, x, m)
  }

  /**
   * What c's notice about x may do at m, m being open and not x.  A peer_joined that arrives finds x in
   * the room, or its departure still to be reported; one that is lost was known already, or is not of
   * the connection that is in the room as x.  A peer_left that arrives finds x gone, or announced anew
   * later; one that is lost finds x back, unknown, or still to be reported by somebody else.
   */
  ghost predicate Fits(s: Sys, c: Conn, m: Conn, lost: bool)
    requires c in s.conns && m in s.conns
  {
    var msg := Message(s.conns[c]);
    var view := View(s.conns[m].queue);
    Open(s, m) ==>
      && (msg.PeerJoined? && msg.who != s.conns[m].id ==>
            if lost then msg.who in s.clients && s.clients[msg.who] == c ==> msg.who in view
            else msg.who in s.clients || LeaveInFlight(s, msg.who, m))
      && (msg.PeerLeft? && msg.who != s.conns[m].id ==>
            if lost then msg.who !in s.clients && msg.who in view ==> OthersReport(s, c, msg.who, m)
            else msg.who in s.clients ==> JoinInFlight(s, msg.who, m))
  }

  ghost predicate NoticeFits(s: Sys, e: Event) {
    e.Deliver? && CanDeliver(s, e.c, e.target, e.lost) ==> Fits(s, e.c, e.target, e.lost)
  }

  lemma NeverRepeatsAuthOk(s: Sys, c: Conn)
    requires Histories(s) && c in s.conns
    ensures !Message(s.conns[c]).AuthOk?
  {
    assert ClientOk(s.conns[c]);
  }

  /** A view that the delivery does not concern. */
  lemma DeliverElsewhere(s: Sys, c: Conn, target: Conn, lost: bool, m: Conn, x: Id)
    requires Histories(s) && ViewAt(s, m, x) && CanDeliver(s, c, target, lost)
    requires var msg := Message(s.conns[c]); m != target || !(msg == PeerJoined(x) || msg == PeerLeft(x))
    ensures ViewAt(Delivering(s, c, target, lost), m, x)
  {
    var s' := Delivering(s, c, target, lost);
    if m in s.conns && Open(s', m) && x != s'.conns[m].id {
      DeliverFrame(s, c, target, lost, m);
      NeverRepeatsAuthOk(s, c);
      assert Open(s, m);
      if x in s.clients && JoinInFlight(s, x, m) {
        NoticeStays(s, c, target, lost, s.clients[x], x, m);
      }
      if LeaveInFlight(s, x, m) {
        var g :| g in s.conns && WillReportLeft(s.conns[g].pc, x, m);
        NoticeStays(s, c, target, lost, g, x, m);
      }
    }
  }

  lemma SendsNotice(s: Sys, c: Conn, target: Conn, lost: bool)
    requires CanDeliver(s, c, target, lost)
    ensures Message(s.conns[c]).PeerJoined? ==> s.conns[c].pc.Inside?
    ensures var msg := Message(s.conns[c]); msg.PeerLeft? ==> WillReportLeft(s.conns[c].pc, msg.who, target)
  {}

  /** Who still reports x's departure to m after the delivery. */
  lemma StillReported(s: Sys, c: Conn, target: Conn, lost: bool, x: Id, m: Conn)
    requires CanDeliver(s, c, target, lost)
    ensures LeaveInFlight(Delivering(s, c, target, lost), x, m) <==>
      if target == m && Message(s.conns[c]) == PeerLeft(x) then OthersReport(s, c, x, m) else LeaveInFlight(s, x, m)
  {
    var s' := Delivering(s, c, target, lost);
    forall g | g in s.conns
      ensures g in s'.conns
      ensures WillReportLeft(s'.conns[g].pc, x, m) <==>
        WillReportLeft(s.conns[g].pc, x, m) && !(g == c && target == m && Message(s.conns[c]) == PeerLeft(x))
    {
      NoticeStays(s, c, target, lost, g, x, m);
    }
    assert s'.conns.Keys == s.conns.Keys;
    if LeaveInFlight(s', x, m) {
      var g :| g in s'.conns && WillReportLeft(s'.conns[g].pc, x, m);
      assert WillReportLeft(s.conns[g].pc, x, m);
    }
  }

  /** Who still announces x to m after the delivery. */
  lemma StillAnnounced(s: Sys, c: Conn, target: Conn, lost: bool, x: Id, m: Conn)
    requires Structure(s) && CanDeliver(s, c, target, lost)
    ensures JoinInFlight(Delivering(s, c, target, lost), x, m) <==>
      JoinInFlight(s, x, m) && !(target == m && Message(s.conns[c]) == PeerJoined(x) && s.clients[x] == c)
  {
    if x in s.clients {
      assert IdOk(s, x);
      NoticeStays(s, c, target, lost, s.clients[x], x, m);
    }
  }

  /** The view of m on the one whom a notice is about, after the notice came or was lost. */
  lemma NoticeViews(s: Sys, c: Conn, m: Conn, lost: bool, x: Id)
    requires Structure(s) && CanDeliver(s, c, m, lost)
    requires Message(s.conns[c]) == PeerJoined(x) || Message(s.conns[c]) == PeerLeft(x)
    requires ViewAt(s, m, x)
    ensures ViewAt(Delivering(s, c, m, lost), m, x) <==> Fits(s, c, m, lost)
  {
    DeliverFrame(s, c, m, lost, m);
    StillReported(s, c, m, lost, x, m);
    StillAnnounced(s, c, m, lost, x, m);
  }

  /** A delivery keeps every view right exactly when its notice fits. */
  lemma DeliverViews(s: Sys, c: Conn, target: Conn, lost: bool)
    requires Structure(s) && Histories(s) && Views(s) && CanDeliver(s, c, target, lost)
    ensures Views(Delivering(s, c, target, lost)) <==> Fits(s, c, target, lost)
  {
    var s' := Delivering(s, c, target, lost);
    var msg := Message(s.conns[c]);
    forall m, x | m != target || !(msg == PeerJoined(x) || msg == PeerLeft(x))
      ensures ViewAt(s', m, x)
    {
      assert ViewAt(s, m, x);
      DeliverElsewhere(s, c, target, lost, m, x);
    }
    if msg.PeerJoined? || msg.PeerLeft? {
      assert ViewAt(s, target, msg.who);
      NoticeViews(s, c, target, lost, msg.who);
    }
    assert Fits(s, c, target, lost) ==> forall m, x :: ViewAt(s', m, x);
  }

  lemma RemoveViews(s: Sys, c: Conn, m: Conn, x: Id)
    requires Structure(s) && ViewAt(s, m, x) && CanRemove(s, c)
    ensures ViewAt(Removing(s, c), m, x)
  {
    var s' := Removing(s, c);
    if Open(s', m) && x != s'.conns[m].id {
      assert Open(s, m);
      if x == s.conns[c].pc.work.x {
        assert WillReportLeft(s'.conns[c].pc, x, m);
      } else if LeaveInFlight(s, x, m) {
        var g :| g in s.conns && WillReportLeft(s.conns[g].pc, x, m);
        assert WillReportLeft(s'.conns[g].pc, x, m);
      }
    }
  }

  lemma HostChangeKeepsView(k: Client, i: Id, lost: bool)
    ensures View(Queue(k, HostChanged(i), lost).queue) == View(k.queue)
  {}

  /** What leaving puts into another member's queue is no notice. */
  lemma LeaveKeepsView(s: Sys, c: Conn, heir: Conn, missed: set<Conn>, m: Conn)
    requires CanLeave(s, c, heir) && m in s.conns
    ensures
      var s' := Leaving(s, c, heir, missed);
      && m in s'.conns && s'.conns[m].shut == s.conns[m].shut
      && View(s'.conns[m].queue) == View(s.conns[m].queue)
  {
    LeaveQueues(s, c, heir, missed, m);
    if HostLeaves(s, c) && Remaining(s, c) != map[] {
      HostChangeKeepsView(s.conns[m], s.conns[heir].id, m in missed);
    }
  }

  /** Views follow when one member is taken out, and whoever stays will be told. */
  lemma OneFewer(s: Sys, s': Sys, c: Conn, m: Conn, x: Id)
    requires Structure(s) && ViewAt(s, m, x) && c in s.conns && s'.clients == Remaining(s, c)
    requires s'.conns.Keys == s.conns.Keys && s'.conns[c].id == s.conns[c].id
    requires forall d :: d in s.conns && d != c ==> s'.conns[d].id == s.conns[d].id && s'.conns[d].pc == s.conns[d].pc
    requires m in s.conns ==> s'.conns[m].shut == s.conns[m].shut && View(s'.conns[m].queue) == View(s.conns[m].queue)
    requires IsMember(s', m) && ((x == s.conns[c].id && x in s.clients) || LeaveInFlight(s, x, m)) ==> LeaveInFlight(s', x, m)
    ensures ViewAt(s', m, x)
  {
    if Open(s', m) && x != s'.conns[m].id {
      assert IdOk(s, x);
      assert Open(s, m);
    }
  }

  lemma LeaveViews(s: Sys, c: Conn, heir: Conn, missed: set<Conn>, m: Conn, x: Id)
    requires Structure(s) && ViewAt(s, m, x) && CanLeave(s, c, heir)
    ensures ViewAt(Leaving(s, c, heir, missed), m, x)
  {
    var s' := Leaving(s, c, heir, missed);
    LeaveEffect(s, c, heir, missed);
    if m in s.conns { LeaveKeepsView(s, c, heir, missed, m); }
    if IsMember(s', m) && ((x == s.conns[c].id && x in s.clients) || LeaveInFlight(s, x, m)) {
      LeaveIdsOnly(s, c, heir, missed);
      TargetsAreInside(s', None);
      LeaveInFlightStays(s, c, heir, missed, m, x);
    }
    OneFewer(s, s', c, m, x);
  }

  lemma LeaveInFlightStays(s: Sys, c: Conn, heir: Conn, missed: set<Conn>, m: Conn, x: Id)
    requires Structure(s) && CanLeave(s, c, heir)
    requires var s' := Leaving(s, c, heir, missed); m in Targets(s', None) && ((x == s.conns[c].id && x in s.clients) || LeaveInFlight(s, x, m))
    ensures LeaveInFlight(Leaving(s, c, heir, missed), x, m)
  {
    var s' := Leaving(s, c, heir, missed);
    LeaveEffect(s, c, heir, missed);
    if x == s.conns[c].id && x in s.clients {
      assert WillReportLeft(s'.conns[c].pc, x, m);
    } else {
      var g :| g in s.conns && WillReportLeft(s.conns[g].pc, x, m);
      assert WillReportLeft(s'.conns[g].pc, x, m);
    }
  }

  lemma ViewKept(s: Sys, e: Event, m: Conn, x: Id)
    requires Structure(s) && Histories(s) && Notices(s) && ViewAt(s, m, x) && Enabled(s, e) && !e.Deliver?
    ensures ViewAt(Step(s, e), m, x)
  {
    if e.Enter? {
      EnterViews(s, e.c, e.id, e.request, m, x);
    } else if e.Admit? {
      AdmitViews(s, e.c, m, x);
    } else if e.Move? {
      MoveViews(s, e.c, e.next, m, x);
    } else if e.Remove? {
      RemoveViews(s, e.c, m, x);
    } else if e.Leave? {
      LeaveViews(s, e.c, e.heir, e.missed, m, x);
    } else {
      SilentViews(s, e, m, x);
    }
  }

  /** A step keeps every view right exactly when it delivers no notice that does not fit. */
  lemma ViewsStepIff(s: Sys, e: Event)
    requires Structure(s) && Histories(s) && Notices(s) && Views(s) && Enabled(s, e)
    ensures Views(Step(s, e)) <==> NoticeFits(s, e)
  {
    if e.Deliver? {
      DeliverViews(s, e.c, e.target, e.lost);
    } else {
      forall m: Conn, x: Id ensures ViewAt(Step(s, e), m, x) {
        assert ViewAt(s, m, x);
        ViewKept(s, e, m, x);
      }
    }
  }

  /** Every view is right, up to notices in flight, in every state of the run. */
  ghost predicate ViewsThroughout(s: Sys, es: seq<Event>)
    requires Runs(s, es)
    decreases |es|
  {
    Views(s) && (es == [] || ViewsThroughout(Step(s, es[0]), es[1..]))
  }

  ghost predicate NoticesFit(s: Sys, es: seq<Event>)
    requires Runs(s, es)
    decreases |es|
  {
    es == [] || (NoticeFits(s, es[0]) && NoticesFit(Step(s, es[0]), es[1..]))
  }

  lemma {:induction false} ViewsThroughoutIff(s: Sys, es: seq<Event>)
    requires Structure(s) && Histories(s) && Notices(s) && Views(s) && Runs(s, es)
    ensures ViewsThroughout(s, es) <==> NoticesFit(s, es)
    decreases |es|
  {
    if es != [] {
      StructureStep(s, es[0]);
      HistoriesStep(s, es[0]);
      NoticesStep(s, es[0]);
      ViewsStepIff(s, es[0]);
      if Views(Step(s, es[0])) { ViewsThroughoutIff(Step(s, es[0]), es[1..]); }
    }
  }

  /**
   * Exactly which runs, of all runs, keep every member's view right, up to notices in flight, in every
   * state: those in which every notice fits where it is delivered or dropped.
   */
  lemma ViewsAreRightThroughoutIff(limit: nat, es: seq<Event>)
    requires Runs(Init(limit), es)
    ensures ViewsThroughout(Init(limit), es) <==> NoticesFit(Init(limit), es)
  {
    StructureInit(limit);
    ViewsInit(limit);
    ViewsThroughoutIff(Init(limit), es);
  }

  // ---------------------------------------------------------------- settled kicks and kept notices suffice

  predicate Settled(s: Sys, t: Conn) {
    t in s.conns && Joined(s.conns[t].pc) && !Announcing(s.conns[t].pc)
  }

  /** Who announces itself is a member, and kicks aim at nobody who does. */
  predicate AnnouncerAt(s: Sys, c: Conn) {
    c in s.conns ==>
      && (Announcing(s.conns[c].pc) ==> IsMember(s, c))
      && (s.conns[c].pc.Inside? ==>
            match s.conns[c].pc.work
            case TellingTarget(_, t) => Settled(s, t)
            case ShuttingTarget(_, t) => Settled(s, t)
            case DeletingTarget(_, t) => Settled(s, t)
            case _ => true)
  }

  ghost predicate Announcers(s: Sys) { forall c :: AnnouncerAt(s, c) }

  lemma SettledStep(s: Sys, e: Event, t: Conn)
    requires Settled(s, t) && Enabled(s, e)
    ensures Settled(Step(s, e), t)
  {
    if Actor(e) == Some(t) {
      match e
      case Leave(c, heir, missed) => LeaveEffect(s, c, heir, missed);
      case _ =>
    } else {
      OthersStay(s, e, t);
    }
  }

  /** Only a kick or its own leave takes a member out, and neither happens while it announces itself. */
  lemma AnnouncerStays(s: Sys, e: Event, c: Conn)
    requires Structure(s) && Core(s) && Announcers(s) && Enabled(s, e) && Actor(e) != Some(c)
    requires IsMember(s, c) && Announcing(s.conns[c].pc)
    ensures IsMember(Step(s, e), c)
  {
    SameId(s, e, c);
    match e
    case Remove(d) => assert AnnouncerAt(s, d) && KickAt(s, d);
    case Leave(d, heir, missed) => LeaveEffect(s, d, heir, missed); assert DistinctAt(s, c, d) && IdOk(s, s.conns[c].id);
    case Enter(d, _, _) => assert IdOk(s, s.conns[c].id);
    case Admit(d) => assert KnockOk(s, d) && IdOk(s, s.conns[c].id);
    case _ => QuietStep(s, e);
  }

  lemma AnnouncerOther(s: Sys, e: Event, c: Conn)
    requires Structure(s) && Core(s) && Announcers(s) && Enabled(s, e) && Actor(e) != Some(c) && c in s.conns
    ensures AnnouncerAt(Step(s, e), c)
  {
    assert AnnouncerAt(s, c);
    OthersStay(s, e, c);
    SameId(s, e, c);
    if Announcing(s.conns[c].pc) {
      AnnouncerStays(s, e, c);
    } else if s.conns[c].pc.Inside? {
      var w := s.conns[c].pc.work;
      if w.TellingTarget? || w.ShuttingTarget? || w.DeletingTarget? {
        SettledStep(s, e, w.target);
      }
    }
  }

  lemma AnnouncerMove(s: Sys, c: Conn, next: PC)
    requires Structure(s) && Announcers(s) && CanMove(s, c, next) && KicksSettled(s, Move(c, next))
    ensures AnnouncerAt(Goto(s, c, next), c)
  {
    assert AnnouncerAt(s, c);
    if next.Inside? && next.work.TellingTarget? {
      assert IdOk(s, next.work.x);
    }
  }

  lemma AnnouncerDeliver(s: Sys, c: Conn, target: Conn, lost: bool)
    requires Structure(s) && Announcers(s) && CanDeliver(s, c, target, lost)
    ensures AnnouncerAt(Delivering(s, c, target, lost), c)
  {
    assert AnnouncerAt(s, c);
    if s.conns[c].pc.Inside? && s.conns[c].pc.work.TellingTarget? {
      SettledStep(s, Deliver(c, target, lost), target);
    }
  }

  lemma AnnouncerShut(s: Sys, c: Conn)
    requires Structure(s) && Announcers(s) && CanShut(s, c)
    ensures AnnouncerAt(Shutting(s, c), c)
  {
    assert AnnouncerAt(s, c);
    if s.conns[c].pc.Inside? && s.conns[c].pc.work.ShuttingTarget? {
      SettledStep(s, Shut(c), s.conns[c].pc.work.target);
    }
  }

  lemma AnnouncersStep(s: Sys, e: Event)
    requires Structure(s) && Core(s) && Announcers(s) && Enabled(s, e) && KicksSettled(s, e)
    ensures Announcers(Step(s, e))
  {
    forall c: Conn ensures AnnouncerAt(Step(s, e), c) {
      SameConns(s, e, c);
      if Actor(e) != Some(c) {
        if c in s.conns { AnnouncerOther(s, e, c); }
      } else {
        match e
        case Move(_, next) => AnnouncerMove(s, c, next);
        case Deliver(_, target, lost) => AnnouncerDeliver(s, c, target, lost);
        case Shut(_) => AnnouncerShut(s, c);
        case Leave(_, heir, missed) => LeaveEffect(s, c, heir, missed);
        case _ =>
      }
    }
  }

  lemma OrderlyFits(s: Sys, e: Event)
    requires Structure(s) && Core(s) && Notices(s) && Announcers(s) && NoticeKept(s, e)
    ensures NoticeFits(s, e)
  {
    if e.Deliver? && CanDeliver(s, e.c, e.target, e.lost) {
      assert NoticeAt(s, e.c) && AnnouncerAt(s, e.c);
      SendsNotice(s, e.c, e.target, e.lost);
      var msg := Message(s.conns[e.c]);
      if msg.PeerLeft? { ReportedIsGone(s, e.c, msg.who, e.target); }
    }
  }

  lemma {:induction false} ViewsRun(s: Sys, es: seq<Event>)
    requires Structure(s) && Core(s) && Histories(s) && Notices(s) && Announcers(s) && Views(s) && OrderlyRun(s, es)
    ensures Runs(s, es)
    ensures var s' := Outcome(s, es); Structure(s') && Views(s')
    decreases |es|
  {
    if es != [] {
      StructureStep(s, es[0]);
      CoreStep(s, es[0]);
      HistoriesStep(s, es[0]);
      NoticesStep(s, es[0]);
      AnnouncersStep(s, es[0]);
      OrderlyFits(s, es[0]);
      ViewsStepIff(s, es[0]);
      ViewsRun(Step(s, es[0]), es[1..]);
    }
  }

  lemma SameSets(a: set<Id>, b: set<Id>)
    requires a - b == {} && b - a == {}
    ensures a == b
  {}

  /** Nobody still has a peer_joined or peer_left to deliver. */
  predicate NothingInFlight(s: Sys) {
    forall g :: g in s.conns ==>
      && !(s.conns[g].pc.Inside? && (s.conns[g].pc.work.Broadcasting? || s.conns[g].pc.work.Sending?)
           && (s.conns[g].pc.work.msg.PeerJoined? || s.conns[g].pc.work.msg.PeerLeft?))
      && !(s.conns[g].pc.Parting? && s.conns[g].pc.part.TellingPeers? && s.conns[g].pc.part.targets != {})
  }

  /**
   * Membership views converge.  After every orderly run, whoever an open member is wrong about is the
   * subject of a notice on its way to that member; once no notice is in flight, the member's view is
   * exactly the room's other members.
   */
  lemma ViewsConverge(limit: nat, es: seq<Event>, m: Conn)
    requires OrderlyRun(Init(limit), es)
    ensures Runs(Init(limit), es)
    ensures
      var s := Outcome(Init(limit), es);
      Open(s, m) ==>
        var view := View(s.conns[m].queue) - {s.conns[m].id};
        var others := s.clients.Keys - {s.conns[m].id};
        && (forall x :: x in others - view ==> JoinInFlight(s, x, m))
        && (forall x :: x in view - others ==> LeaveInFlight(s, x, m))
        && (NothingInFlight(s) ==> view == others)
  {
    StructureInit(limit);
    ViewsInit(limit);
    ViewsRun(Init(limit), es);
    var s := Outcome(Init(limit), es);
    if Open(s, m) {
      var view := View(s.conns[m].queue) - {s.conns[m].id};
      var others := s.clients.Keys - {s.conns[m].id};
      forall x | x in others - view ensures JoinInFlight(s, x, m) { assert ViewAt(s, m, x); }
      forall x | x in view - others ensures LeaveInFlight(s, x, m) { assert ViewAt(s, m, x); }
      if NothingInFlight(s) {
        assert others - view == {} && view - others == {};
        SameSets(others, view);
      }
    }
  }
}
