/**
 * The membership protocol of one Room object (internal/server/hub.go) as a transition system.
 *
 * A connection has an identity (`Conn`) and, separately, a string id (`Id`); the room's maps are
 * keyed by id, goroutines belong to identities.  Every section executed under `room.mu` is one
 * step, and so is every `queue` or `shutdown` made outside the lock.  The program counter of a
 * connection's own goroutine says which step of joinRoom / readLoop / leaveRoom comes next.
 */
module Membership {
  import opened Options

  type Id(==, !new)
  type Conn = nat

  datatype Role = Host | Collaborator

  datatype Decision = Approve | Reject

  datatype Msg =
    | JoinPending
    | JoinRejected
    | JoinRequest(request: nat)
    | AuthOk(peers: set<Id>, host: Option<Id>)
    | PeerJoined(who: Id)
    | PeerLeft(who: Id)
    | HostChanged(newHost: Id)
    | PeerKicked
    | RoomClosed
    | Relayed  // presence, chat, signals, relayed updates, errors, pong, sync and compaction requests

  /** Inside joinRoom, with a request in `pending`. */
  datatype Knock =
    | TellingPending(hostClient: Option<Conn>)                  // 684
    | TellingHost(hostClient: Option<Conn>)                     // 685-690
    | Waiting                                                   // 691-696
    | Decided(decision: Decision)                               // 697: about to lock the room again

  /** Inside joinRoom, already turned away. */
  datatype Refusal =
    | TellingRefused                                            // 664, 670, 701, 707
    | ShuttingRefused                                           // 665, 671, 702, 708
    | Rejected

  /** Admitted: announcing (723), in readLoop, or in leaveRoom up to its locked section. */
  datatype Work =
    | Reading                                                   // 968
    | Broadcasting(msg: Msg, except: Option<Id>)                // 862: about to snapshot the targets
    | Sending(msg: Msg, targets: set<Conn>)                     // 871-875
    | WritingPresence(role: Role)                               // 1112
    | LookingUpRequest(request: nat, decision: Decision)        // 1200
    | PlacingDecision(pending: Conn, decision: Decision)        // 1210
    | LookingUpTarget(x: Id)                                    // 1236
    | TellingTarget(x: Id, target: Conn)                        // 1243
    | ShuttingTarget(x: Id, target: Conn)                       // 1244
    | DeletingTarget(x: Id, target: Conn)                       // 1245-1247
    | LeavingShut                                               // 730
    | LeavingLock                                               // 733

  /** Inside leaveRoom, after its locked section. */
  datatype Part =
    | TellingPeers(who: Id, targets: set<Conn>, unregister: bool)  // 775-779
    | Unregistering                                                // 785-796

  datatype PC =
    | Arrived                                                   // 629: about to lock the room
    | Knocking(knock: Knock)
    | Refused(refusal: Refusal)
    | Inside(work: Work)
    | Parting(part: Part)
    | Gone

  datatype Client = Client(
    id: Id,
    role: Role,
    joinedAt: int,
    request: nat,              // PendingJoin.requestID
    slot: Option<Decision>,    // PendingJoin.result, a channel of capacity one
    shut: bool,
    queue: seq<Msg>,           // everything ever put on `send`, oldest first
    pc: PC)

  datatype Sys = Sys(
    limit: nat,                // maxClientsPerRoom; 0 means no limit
    hostID: Option<Id>,        // None stands for the empty string
    closed: bool,
    clients: map<Id, Conn>,
    pending: map<Id, Conn>,
    conns: map<Conn, Client>,  // every connection that ever obtained this Room object
    mail: set<Conn>)           // clients some background goroutine still means to queue to

  datatype Event =
    | Arrive(c: Conn, want: Id, joinedAt: int)       // room() returned this Room object to c
    | Enter(c: Conn, id: Id, request: nat)           // 629-683
    | Receive(c: Conn)                               // 693
    | Admit(c: Conn)                                 // 697-722
    | Move(c: Conn, next: PC)                        // steps that change only c's program counter
    | Deliver(c: Conn, target: Conn, lost: bool)     // one `queue` call made by c's goroutine
    | Shut(c: Conn)                                  // one `shutdown` call made by c's goroutine
    | WritePresence(c: Conn)                         // 1112
    | PlaceDecision(c: Conn)                         // 1210
    | Remove(c: Conn)                                // 1245-1247
    | Leave(c: Conn, heir: Conn, missed: set<Conn>)  // 733-771
    | MailSnapshot(targets: set<Conn>)               // 1008, 1067, 1262-1266, 1288-1291
    | MailSend(target: Conn, last: bool, lost: bool) // 1268, 1293, 1021, 1031, 1038

  function Init(limit: nat): Sys {
    Sys(limit, None, false, map[], map[], map[], {})
  }

  // ---------------------------------------------------------------- program-counter classes

  /** The connection was admitted at some time. */
  predicate Joined(pc: PC) {
    pc.Inside? || pc.Parting? || pc.Gone?
  }

  /** Admitted, and leaveRoom still has something to do. */
  predicate Live(pc: PC) {
    pc.Inside? || pc.Parting?
  }

  /** Still announcing its own arrival (723). */
  predicate Announcing(pc: PC) {
    pc.Inside? && (pc.work.Broadcasting? || pc.work.Sending?) && pc.work.msg.PeerJoined?
  }

  predicate IsMember(s: Sys, c: Conn) {
    c in s.conns && s.conns[c].id in s.clients && s.clients[s.conns[c].id] == c
  }

  /** The snapshot `broadcast` takes under the read lock. */
  function Targets(s: Sys, except: Option<Id>): set<Conn> {
    set i | i in s.clients && Some(i) != except :: s.clients[i]
  }

  predicate HostAbsent(s: Sys) {
    s.hostID.Some? && s.hostID.value !in s.clients
  }

  /** Closed, or hosted by nobody who is present: 699. */
  predicate Dead(s: Sys) {
    s.closed || HostAbsent(s)
  }

  predicate IsHost(s: Sys, c: Conn)
    requires c in s.conns
  {
    s.hostID == Some(s.conns[c].id)
  }

  // ---------------------------------------------------------------- primitive effects

  /** Client.queue: nothing happens on a client that is shut, or when the full channel drops it. */
  function Queue(k: Client, m: Msg, lost: bool): Client {
    if k.shut || lost then k else k.(queue := k.queue + [m])
  }

  function Goto(s: Sys, c: Conn, pc: PC): Sys
    requires c in s.conns
  {
    s.(conns := s.conns[c := s.conns[c].(pc := pc)])
  }

  /** PendingJoin.decide: the first decision fills the one-place channel, later ones are dropped. */
  function Decide(k: Client, d: Decision): Client {
    if k.slot.None? then k.(slot := Some(d)) else k
  }

  // ---------------------------------------------------------------- joinRoom

  predicate CanArrive(s: Sys, c: Conn) {
    c !in s.conns
  }

  function Arriving(s: Sys, c: Conn, want: Id, joinedAt: int): Sys {
    s.(conns := s.conns[c := Client(want, Collaborator, joinedAt, 0, None, false, [], Arrived)])
  }

  predicate Free(s: Sys, id: Id) {
    id !in s.clients && id !in s.pending
  }

  /** `id` is what uniqueClientIDLocked may return to c: the id asked for if that one is free. */
  predicate CanEnter(s: Sys, c: Conn, id: Id) {
    && c in s.conns && s.conns[c].pc.Arrived?
    && Free(s, id)
    && (Free(s, s.conns[c].id) ==> id == s.conns[c].id)
  }

  predicate Full(s: Sys) {
    s.limit > 0 && |s.clients| >= s.limit
  }

  function HostClient(s: Sys): Option<Conn> {
    if s.hostID.Some? && s.hostID.value in s.clients then Some(s.clients[s.hostID.value]) else None
  }

  function Entering(s: Sys, c: Conn, id: Id, request: nat): Sys
    requires c in s.conns
  {
    var k := s.conns[c].(id := id);
    if s.hostID.None? then
      var k' := Queue(k.(role := Host, pc := Inside(Reading)), AuthOk(s.clients.Keys - {id}, Some(id)), false);
      s.(hostID := Some(id), clients := s.clients[id := c], conns := s.conns[c := k'])
    else if s.closed || Full(s) then
      s.(conns := s.conns[c := k.(role := Collaborator, pc := Refused(TellingRefused))])
    else
      s.(pending := s.pending[id := c],
         conns := s.conns[c := k.(role := Collaborator, request := request, slot := None,
                                  pc := Knocking(TellingPending(HostClient(s))))])
  }

  predicate CanReceive(s: Sys, c: Conn) {
    c in s.conns && s.conns[c].pc == Knocking(Waiting) && s.conns[c].slot.Some?
  }

  function Receiving(s: Sys, c: Conn): Sys
    requires CanReceive(s, c)
  {
    var k := s.conns[c];
    s.(conns := s.conns[c := k.(slot := None, pc := Knocking(Decided(k.slot.value)))])
  }

  predicate CanAdmit(s: Sys, c: Conn) {
    c in s.conns && s.conns[c].pc.Knocking? && s.conns[c].pc.knock.Decided?
  }

  function Admitting(s: Sys, c: Conn): Sys
    requires CanAdmit(s, c)
  {
    var k := s.conns[c];
    var s1 := s.(pending := s.pending - {k.id});
    if Dead(s) || k.pc.knock.decision.Reject? then
      s1.(conns := s.conns[c := k.(pc := Refused(TellingRefused))])
    else
      var k' := Queue(k.(pc := Inside(Broadcasting(PeerJoined(k.id), Some(k.id)))),
                      AuthOk(s.clients.Keys - {k.id}, s.hostID), false);
      s1.(clients := s.clients[k.id := c], conns := s.conns[c := k'])
  }

  // ---------------------------------------------------------------- readLoop

  /** The steps that change nothing but c's program counter. */
  ghost predicate CanMove(s: Sys, c: Conn, next: PC) {
    c in s.conns &&
    match s.conns[c].pc
    case Knocking(k) =>
      || (k == TellingHost(None) && next == Knocking(Waiting))
      || (k == Waiting && next == Knocking(Decided(Reject)))  // approval timed out
    case Inside(w) => next.Inside? && CanWork(s, c, w, next.work)
    case Parting(p) =>
      && (p.TellingPeers? ==> p.targets == {})
      && next == (if p.TellingPeers? && p.unregister then Parting(Unregistering) else Gone)
    case _ => false
  }

  ghost predicate CanWork(s: Sys, c: Conn, w: Work, next: Work)
    requires c in s.conns
  {
    match w
    case Broadcasting(m, except) => next == Sending(m, Targets(s, except))
    case Sending(m, targets) => targets == {} && next == Reading
    case Reading => CanHandle(s, c, next)
    case LookingUpRequest(request, d) =>
      || (next.PlacingDecision? && next.decision == d && Finds(s, next.pending, request))
      || (next == Reading && forall i :: i in s.pending ==> !Requests(s, s.pending[i], request))
    case LookingUpTarget(x) =>
      if x in s.clients then next == TellingTarget(x, s.clients[x]) else next == Reading
    case _ => false
  }

  /** How handling one envelope can begin (990-1257), or the read loop end. */
  ghost predicate CanHandle(s: Sys, c: Conn, next: Work)
    requires c in s.conns
  {
    || next == Broadcasting(Relayed, Some(s.conns[c].id))            // relayed to the others
    || next == Sending(Relayed, {c})                                 // an error or a pong
    || next == Sending(Relayed, {})                                  // no recipient
    || (next.Sending? && next.msg == Relayed && SendsTo(s, next.targets))
    || next == WritingPresence(if IsHost(s, c) then Host else Collaborator)
    || (IsHost(s, c) && next.LookingUpRequest?)
    || (IsHost(s, c) && next.LookingUpTarget?)
    || next == LeavingShut
  }

  /** sendTo: the one client registered under some id. */
  ghost predicate SendsTo(s: Sys, targets: set<Conn>) {
    exists i :: i in s.clients && targets == {s.clients[i]}
  }

  ghost predicate Finds(s: Sys, p: Conn, request: nat) {
    exists i :: i in s.pending && s.pending[i] == p && Requests(s, p, request)
  }

  predicate Requests(s: Sys, p: Conn, request: nat) {
    p in s.conns && s.conns[p].request == request
  }

  /** Whom c's goroutine may queue to next. */
  predicate CanDeliver(s: Sys, c: Conn, target: Conn, lost: bool) {
    && c in s.conns && target in s.conns
    && match s.conns[c].pc
       case Knocking(TellingPending(_)) => target == c && !lost
       case Knocking(TellingHost(h)) => h == Some(target)
       case Refused(TellingRefused) => target == c && !lost
       case Inside(Sending(_, targets)) => target in targets
       case Inside(TellingTarget(_, t)) => target == t
       case Parting(TellingPeers(_, targets, _)) => target in targets
       case _ => false
  }

  function Message(k: Client): Msg {
    match k.pc
    case Knocking(TellingPending(_)) => JoinPending
    case Knocking(_) => JoinRequest(k.request)
    case Inside(Sending(m, _)) => m
    case Inside(_) => PeerKicked
    case Parting(TellingPeers(who, _, _)) => PeerLeft(who)
    case _ => JoinRejected
  }

  function AfterDelivery(pc: PC, target: Conn): PC {
    match pc
    case Knocking(TellingPending(h)) => Knocking(TellingHost(h))
    case Knocking(TellingHost(_)) => Knocking(Waiting)
    case Refused(_) => Refused(ShuttingRefused)
    case Inside(Sending(m, targets)) => Inside(Sending(m, targets - {target}))
    case Inside(TellingTarget(x, t)) => Inside(ShuttingTarget(x, t))
    case Parting(TellingPeers(who, targets, u)) => Parting(TellingPeers(who, targets - {target}, u))
    case _ => pc
  }

  function Delivering(s: Sys, c: Conn, target: Conn, lost: bool): Sys
    requires c in s.conns && target in s.conns
  {
    var k := s.conns[c];
    var s1 := s.(conns := s.conns[target := Queue(s.conns[target], Message(k), lost)]);
    Goto(s1, c, AfterDelivery(k.pc, target))
  }

  /** Whom c's goroutine shuts down next. */
  function ShutTarget(c: Conn, pc: PC): Conn {
    match pc
    case Inside(ShuttingTarget(_, t)) => t
    case _ => c
  }

  predicate ShutsDown(pc: PC) {
    || pc == Refused(ShuttingRefused)
    || (pc.Inside? && (pc.work.ShuttingTarget? || pc.work.LeavingShut?))
  }

  predicate CanShut(s: Sys, c: Conn) {
    && c in s.conns
    && ShutsDown(s.conns[c].pc)
    && ShutTarget(c, s.conns[c].pc) in s.conns
  }

  function AfterShut(pc: PC): PC {
    match pc
    case Inside(ShuttingTarget(x, t)) => Inside(DeletingTarget(x, t))
    case Inside(_) => Inside(LeavingLock)
    case _ => Refused(Rejected)
  }

  function Shutting(s: Sys, c: Conn): Sys
    requires CanShut(s, c)
  {
    var pc := s.conns[c].pc;
    var t := ShutTarget(c, pc);
    var s1 := s.(conns := s.conns[t := s.conns[t].(shut := true)]);
    Goto(s1, c, AfterShut(pc))
  }

  predicate CanWritePresence(s: Sys, c: Conn) {
    c in s.conns && s.conns[c].pc.Inside? && s.conns[c].pc.work.WritingPresence?
  }

  function WritingRole(s: Sys, c: Conn): Sys
    requires CanWritePresence(s, c)
  {
    var k := s.conns[c];
    s.(conns := s.conns[c := k.(role := k.pc.work.role, pc := Inside(Broadcasting(Relayed, Some(k.id))))])
  }

  predicate CanPlaceDecision(s: Sys, c: Conn) {
    && c in s.conns && s.conns[c].pc.Inside? && s.conns[c].pc.work.PlacingDecision?
    && s.conns[c].pc.work.pending in s.conns
  }

  function Placing(s: Sys, c: Conn): Sys
    requires CanPlaceDecision(s, c)
  {
    var w := s.conns[c].pc.work;
    Goto(s.(conns := s.conns[w.pending := Decide(s.conns[w.pending], w.decision)]), c, Inside(Reading))
  }

  predicate CanRemove(s: Sys, c: Conn) {
    c in s.conns && s.conns[c].pc.Inside? && s.conns[c].pc.work.DeletingTarget?
  }

  function Removing(s: Sys, c: Conn): Sys
    requires CanRemove(s, c)
  {
    var x := s.conns[c].pc.work.x;
    Goto(s.(clients := s.clients - {x}), c, Inside(Broadcasting(PeerLeft(x), None)))
  }

  // ---------------------------------------------------------------- leaveRoom

  function Remaining(s: Sys, c: Conn): map<Id, Conn>
    requires c in s.conns
  {
    s.clients - {s.conns[c].id}
  }

  predicate HostLeaves(s: Sys, c: Conn)
    requires c in s.conns
  {
    s.conns[c].id in s.clients && IsHost(s, c) && !s.closed
  }

  /** tryHostMigrationLocked elects a remaining client whose JoinedAt is earliest. */
  predicate Earliest(s: Sys, members: map<Id, Conn>, heir: Conn) {
    && heir in s.conns && s.conns[heir].id in members && members[s.conns[heir].id] == heir
    && forall i :: i in members && members[i] in s.conns ==> s.conns[heir].joinedAt <= s.conns[members[i]].joinedAt
  }

  predicate CanLeave(s: Sys, c: Conn, heir: Conn) {
    && c in s.conns && s.conns[c].pc == Inside(LeavingLock)
    && (HostLeaves(s, c) && Remaining(s, c) != map[] ==> Earliest(s, Remaining(s, c), heir))
  }

  /** The HostChanged announcement, queued to every remaining client under the lock. */
  function AnnounceHost(conns: map<Conn, Client>, targets: set<Conn>, newHost: Id, lost: set<Conn>): map<Conn, Client> {
    map d | d in conns :: if d in targets then Queue(conns[d], HostChanged(newHost), d in lost) else conns[d]
  }

  /** Closing answers every waiting request with a rejection. */
  function RejectAll(conns: map<Conn, Client>, waiting: set<Conn>): map<Conn, Client> {
    map d | d in conns :: if d in waiting then Decide(conns[d], Reject) else conns[d]
  }

  function Waiters(s: Sys): set<Conn> {
    set i | i in s.pending :: s.pending[i]
  }

  function Migrating(s: Sys, c: Conn, heir: Conn, lost: set<Conn>): Sys
    requires c in s.conns && heir in s.conns
  {
    var rest := s.(clients := Remaining(s, c));
    var conns := s.conns[heir := s.conns[heir].(role := Host)];
    rest.(hostID := Some(s.conns[heir].id),
          conns := AnnounceHost(conns, Targets(rest, None), s.conns[heir].id, lost))
  }

  function Closing(s: Sys): Sys {
    s.(closed := true, clients := map[], pending := map[], conns := RejectAll(s.conns, Waiters(s)))
  }

  function Leaving(s: Sys, c: Conn, heir: Conn, lost: set<Conn>): Sys
    requires CanLeave(s, c, heir)
  {
    var id := s.conns[c].id;
    var rest := Remaining(s, c);
    if HostLeaves(s, c) && rest == map[] then
      Goto(Closing(s), c, Parting(Unregistering))
    else
      var s1 := if HostLeaves(s, c) then Migrating(s, c, heir, lost) else s.(clients := rest);
      if id in s.clients then
        Goto(s1, c, Parting(TellingPeers(id, Targets(s1, None), rest == map[])))
      else
        Goto(s1, c, if rest == map[] then Parting(Unregistering) else Gone)
  }

  // ---------------------------------------------------------------- background goroutines

  /** Sync and compaction requests go to members; what a client's own writes come to goes to that client. */
  predicate CanMail(s: Sys, targets: set<Conn>) {
    forall t :: t in targets ==> t in Targets(s, None) || (t in s.conns && s.conns[t].pc.Inside?)
  }

  predicate CanMailSend(s: Sys, target: Conn) {
    target in s.mail && target in s.conns
  }

  function MailSending(s: Sys, target: Conn, last: bool, lost: bool): Sys
    requires CanMailSend(s, target)
  {
    s.(mail := if last then s.mail - {target} else s.mail,
       conns := s.conns[target := Queue(s.conns[target], Relayed, lost)])
  }

  // ---------------------------------------------------------------- the system

  ghost predicate Enabled(s: Sys, e: Event) {
    match e
    case Arrive(c, _, _) => CanArrive(s, c)
    case Enter(c, id, _) => CanEnter(s, c, id)
    case Receive(c) => CanReceive(s, c)
    case Admit(c) => CanAdmit(s, c)
    case Move(c, to) => CanMove(s, c, to)
    case Deliver(c, to, lost) => CanDeliver(s, c, to, lost)
    case Shut(c) => CanShut(s, c)
    case WritePresence(c) => CanWritePresence(s, c)
    case PlaceDecision(c) => CanPlaceDecision(s, c)
    case Remove(c) => CanRemove(s, c)
    case Leave(c, heir, _) => CanLeave(s, c, heir)
    case MailSnapshot(targets) => CanMail(s, targets)
    case MailSend(target, _, _) => CanMailSend(s, target)
  }

  ghost function Step(s: Sys, e: Event): Sys
    requires Enabled(s, e)
  {
    match e
    case Arrive(c, want, at) => Arriving(s, c, want, at)
    case Enter(c, id, request) => Entering(s, c, id, request)
    case Receive(c) => Receiving(s, c)
    case Admit(c) => Admitting(s, c)
    case Move(c, to) => Goto(s, c, to)
    case Deliver(c, to, lost) => Delivering(s, c, to, lost)
    case Shut(c) => Shutting(s, c)
    case WritePresence(c) => WritingRole(s, c)
    case PlaceDecision(c) => Placing(s, c)
    case Remove(c) => Removing(s, c)
    case Leave(c, heir, lost) => Leaving(s, c, heir, lost)
    case MailSnapshot(targets) => s.(mail := s.mail + targets)
    case MailSend(target, last, lost) => MailSending(s, target, last, lost)
  }

  /** A run from `s`: every event is enabled where it happens. */
  ghost predicate Runs(s: Sys, es: seq<Event>)
    decreases |es|
  {
    es == [] || (Enabled(s, es[0]) && Runs(Step(s, es[0]), es[1..]))
  }

  ghost function Outcome(s: Sys, es: seq<Event>): Sys
    requires Runs(s, es)
    decreases |es|
  {
    if es == [] then s else Outcome(Step(s, es[0]), es[1..])
  }
}
