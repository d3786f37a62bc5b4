# A verified model of the collaboration server

The server lets people edit shared notes. This project models the three parts of it where correctness
is least obvious, and proves in Dafny what they keep:

* the **room membership protocol** of `internal/server/hub.go`: who is in a room, who hosts it, who is
  told what, while every connection runs `joinRoom`, `readLoop` and `leaveRoom` in its own goroutine;
* the **durable update log** of `internal/storage/sqlite/sqlite.go` and the concurrent write path above
  it: what the log, its counters, its snapshots and the storage quota mean over whole runs;
* the **STUN Binding responder** of `internal/server/stun.go`: the bytes of an answer, read back by a
  decoder written from RFC 5389.

`dafny verify dfyconfig.toml` checks everything.

## How the model is built

**Membership** (`Membership*.dfy`). One Room object is a transition system (`Membership.Step`). A
connection has an identity (`Conn`) and, separately, a string id (`Id`): the room's maps are keyed by
id, goroutines belong to identities, and the difference between the two is where the hard cases are.
Each section under `room.mu` is one step, each `queue` or `shutdown` made outside the lock is one step,
and each reading of the room under `room.mu.RLock` is one step; a program counter per connection says
which comes next. `queue` fields keep the whole history of what was put on a client's `send` channel.
Any interleaving of enabled steps is a run, so checks and effects that sit in different lock sections
really are apart. `HubRegistry` puts any number of Room objects under `Hub.rooms`, with lookup, steps
inside rooms and unregistering interleaved freely; `HubHosts` carries the results about hosts over all
Room objects of one id, `HubTenancy` those about who unregisters a room, and `RoomRows`, `RoomKeys` and
`RoomClosure` add the store: passing `EnsureRoom` with a key before a room is entered, and closing a room's row after it was
left. `MembershipTraces` is about runs with all their states, in which `MembershipProvenance`,
`MembershipMessages`, `MembershipDelivery`, `MembershipKicks` and `MembershipClosing` trace every admission,
refusal, message, kick and succession back to the steps that caused it. `MembershipRuns` and
`MembershipScenes` put runs together for the counterexamples in `MembershipLimits`.

**The same code as objects** (`RoomObject.dfy`, `StoreObject.dfy`, `HubObject.dfy`). Where the server
updates objects in place, so do classes here: `Room` and `Connection`, `Store`, `RoomTable`,
`Serializers`. Each method runs the loops and assignments of one locked section or one transaction, and
its postcondition equates the new state with the step of the transition system it implements, so the
theorems about runs are theorems about what those methods do.

**The store** (`Timestamps.dfy`, `UpdateLog.dfy`, `Compaction.dfy`, `WriteGate.dfy`). The two tables are
maps, each transaction one function, `LoadRoomState` two reads. A `History` says, without looking at the
tables, what each transaction means for a room: which key it was made with, whether it is closed, what was
accepted; the tables, and what every transaction answers, are always explained by it. Documents are elements of any
commutative, associative, idempotent merge with a unit. `WriteGate` runs any number of update and
snapshot goroutines through fetch, acquire, quota check, write and release. Timestamps are calendar
fields printed as RFC3339Nano prints them, compared as SQLite compares text.

**STUN** (`Stun.dfy`). `StunFormat` is the reading side, from sections 6, 15 and 15.2 of RFC 5389; `Stun`
fills byte arrays in place as the code does. Bytes are 8-bit vectors, masking is bit-vector xor.

## Hypotheses, and what happens without them

Some properties are not true of every run. Each hypothesis below is stated as a predicate on steps and
used only where it is needed; the third column names a run that breaks the property without it, and the
lemma that says exactly when the property holds. Where that lemma is about runs (`...ThroughoutIff`) it
characterises all of them.

| hypothesis | meaning | without it |
|---|---|---|
| `MembershipHost.FreshId` | an id is not handed out while an earlier connection bearing it has not finished `leaveRoom` | removals: `ReusedIdIsRemoved`, `KickRemovesAnother`; `LeaveTakesAnotherIff`, `KickTakesAnotherIff`. Views: `LateNoticeHidesTheNewcomer`; `ViewsAreRightThroughoutIff`. Host powers: `StaleConnectionPassesTheHostCheck`; `HostPowersStayThroughoutIff` |
| `MembershipHost.NoSelfKick` | the host never names itself in `peer_kick`; only for the presence of the host | `SelfKickLosesTheHost`; `HostIsPresentThroughoutIff` |
| `MembershipAgreement.NoneMissed` | no full channel drops a `host_changed` | `MissedAnnouncementMisleads`; `EveryoneAgreesThroughoutIff` |
| `MembershipViews.NoticeKept` | no full channel drops a `peer_joined` or `peer_left` | `DroppedNoticeHidesTheNewcomer`; `ViewsAreRightThroughoutIff` |
| `MembershipViews.KicksSettled` | a kick finds no target still announcing its own arrival | `OvertakenAnnouncementLeavesGhost`; `ViewsAreRightThroughoutIff` |
| `Compaction.SnapshotsCover` | a snapshot holds what was dropped before and what it deletes, and nothing never accepted | `StaleSnapshotLosesAnUpdate`, `LegacySnapshotLosesAnUpdate`; `DocumentIsRightThroughoutIff` |
| `Compaction.NoSnapshot` | no snapshot commits between the two reads of a load | `TornLoadLosesAnUpdate`; `TornLoadIff`, `LoadIsRightIff` |
| `UpdateLog.SnapshotsCoverAll` | every snapshot deletes the whole log | `RetainedIsNotCounted`; `CounterIsTrueSizeIff` |
| `WriteGate.Readable` | the quota's read of `storage_bytes` succeeds | `UnreadableQuotaOverflows`; `CheckKeepsClearedIff`, `CheckedWriteOverflowsIff` |
| `WriteGate.Unused` | a room's serializer entry is not deleted while a writer of that room uses it | `DroppedSerializerOverflows`; `DropSplitsTheRoomIff` |

## Where the code and its documentation disagree

The model follows the code.

* `Client.JoinedAt` is documented as the time of joining (hub.go 141) and set when the connection is made
  (547), before approval. Migration therefore elects the earliest connected member, not the earliest
  admitted one (`MigrationElectsTheFirstConnected`).
* `room_closed` is documented as telling the other collaborators that the host has left for good
  (protocol.go 50). A room closes only when its host leaves alone, so nobody is ever sent it
  (`KickNoticesAreReal`, `ClosesExactlyWithItsLastHost`); those who wait are sent `join_rejected`.
* `storage_bytes` is documented as the bytes of the compact state and every stored update
  (migrations/002_counters.sql 2, storage.go 36). `SaveSnapshot` resets it as if nothing were retained
  (sqlite.go 196). `CounterAccounting` states the difference exactly, and `QuotaDoesNotBoundTheTruth`
  shows a room that keeps its quota by the counter while it stores more.
* Cleanup is documented as deleting closed rooms only (the repository's README.md 145, storage.go 38).
  `DeleteInactiveRooms` deletes every room with an old `updated_at`, closed or not.
* A snapshot with `baseSeq <= 0` deletes the whole log, also for a client that did send 0 for a snapshot
  taken before the first update (sqlite.go 207-212).
* `baseSeq` is documented as protecting what was appended while a snapshot was prepared (protocol.go
  217-219), and does (`SnapshotPreparedEarlierCovers`). Nothing protects a newer snapshot: each is saved
  by its own goroutine, and `SaveSnapshot` overwrites `compact_state` whatever its `baseSeq`
  (sqlite.go 196-206), so an older snapshot can take the place of a newer one after the log was pruned
  (`StaleSnapshotLosesAnUpdate`, `StaleSnapshotLosesIff`).
* Cleanup is documented as deleting rooms with an `updated_at` earlier than the cutoff (storage.go 38).
  Within the cutoff's own second the comparison of strings can go the other way (`CleanupIsExact`).
* Only the host is to approve, reject and kick (hub.go 1188, 1224). The check compares ids, and a connection
  that was kicked reads on until its own goroutine stops: if a newcomer with its old id becomes the host,
  the old connection passes the check (`StaleConnectionPassesTheHostCheck`), and what it approves can make
  the host's own kick remove somebody else (`KickRemovesAnother`). `PowersStepIff` says exactly which steps
  let host powers go to anyone but the present host.
* A closed room is not to be joined again with its old key (storage.go 32). Cleanup deletes the row, and then
  any key makes it anew (`ClosedRoomReopened`, `ClosedRoomsStayShutThroughoutIff`). Also, the row is closed
  after the Room object is unregistered, so a client that passed `EnsureRoom` before can open a new Room
  object whose row is then closed under it; its updates are all refused (`NewRoomLosesItsRow`).
  `RoomsWithMembersHaveOpenRowsIff` says exactly when that, or a cleanup, happens.
* Cleanup also deletes rows of rooms whose members are idle, and the next `EnsureRoom` makes the row anew
  with whatever key it brings: then the room holds people with another key than its row
  (`RowRemadeWithAnotherKey`). `EveryoneHoldsTheKeyThroughoutIff` says exactly when that happens.
* A host's role label can be lost: a presence update that read its role before a migration writes
  "collaborator" over the new host's "host" (`StalePresenceDemotesTheHost`), and nothing else takes it
  away (`HostKeepsItsRoleThroughoutIff`). The other direction never happens (`OnlyTheHostIsCalledHost`).
* `maxClientsPerRoom` is checked when a client knocks and not again when it is admitted, so a room can
  hold more members than that (`LimitIsExceeded`, `AdmissionPassesTheLimitIff`). `maxGlobalRooms` is never
  exceeded (`MaxRoomsHolds`).
* The comment on `Client.ctx` says the context is cancelled when `readLoop` exits (hub.go 143); nothing
  calls `cancel`. Nothing here depends on it.

## Model

| member | source | states |
|---|---|---|
| MembershipViews.ViewsConverge | internal/server/hub.go:711-780 | after every run with fresh ids, kept notices and settled kicks, the view an open member builds from its own queue differs from the other members only by ids whose notice is still on its way to that member, and with nothing in flight it is exactly the other members |
| MembershipViews.ViewsAreRightThroughoutIff | internal/server/hub.go:711-780 | of all runs, exactly those keep every member's view right, up to notices in flight, in every state in which each notice fits where it is delivered or dropped: a peer_joined that arrives finds its subject in the room or its departure still to be reported, a peer_left finds it gone or its announcement still to come, and what is dropped was known already, concerns another connection, or is still to be reported by somebody else |
| MembershipViews.ViewsStepIff | internal/server/hub.go:711-780 | the same of one step, with no hypothesis on ids: only the delivery or loss of a notice that does not fit makes a view wrong |
| MembershipViews.ReportedIsGone | internal/server/hub.go:773-780 | while any goroutine still has to tell somebody that x left, no member bears x |
| HubRegistry.NoSplitBrain | internal/server/hub.go:572-584 | after every interleaving of lookups, room steps and unregistrations, a Room object with a member is the one registered for its id, and every other Room object of that id is empty and dead |
| HubRegistry.RoomsRunTheProtocol | internal/server/hub.go:622-628 | every Room object of a running hub is in a state that its own protocol reaches from the empty room, so what holds of every run of one room holds in every room of the hub |
| HubRegistry.OneLivingRoomPerId | internal/server/hub.go:572-789 | in every run of the hub, a Room object that is neither closed nor without its host is the registered one of its id, and every other of that id is dead |
| HubTenancy.NoRoomIsAbandoned | internal/server/hub.go:761-789 | in every run of the hub, every registered Room object has a connection that is about to be its first occupant, has yet to leave it, or is about to unregister it |
| HubTenancy.NothingIsLeftBehind | internal/server/hub.go:761-789 | when every connection was turned away or is gone, no room is registered |
| HubRegistry.MaxRoomsHolds | internal/server/hub.go:577-582 | in every run of the hub, at most maxGlobalRooms Room objects are registered |
| RoomRows.RoomsWithMembersHaveOpenRowsIff | internal/server/hub.go:519-796 | of all runs of rooms and store together, exactly those keep the row of every room with members open in which no first occupant enters after its row was closed, no row is closed while a new Room object of its id has members, and no cleanup finds such a room inactive |
| RoomRows.RowsStepIff | internal/server/hub.go:519-796 | the same of one step |
| RoomRows.NewRoomLosesItsRow | internal/server/hub.go:785-796 | a run in which a client passes EnsureRoom, opens a new Room object after the old one is unregistered, and has the row closed under it, so that every append fails |
| RoomKeys.EveryoneHoldsTheKeyThroughoutIff | internal/server/hub.go:519-628 | of all runs of rooms and store together, exactly those have everyone who passed EnsureRoom or is in a room hold the key its row was made with, in every state, that never make a row anew with another key than those hold |
| RoomKeys.KeysStepIff | internal/server/hub.go:519-628 | the same of one step |
| RoomKeys.RowRemadeWithAnotherKey | internal/storage/sqlite/sqlite.go:106-138 | a run in which the row of a room with a host is cleaned up and made anew with another key |
| RoomClosure.ClosedRowsHaveClosedRooms | internal/server/hub.go:745-796 | in every run of rooms and store together, a row is closed only if some Room object of its id has closed |
| RoomClosure.ClosedRoomsStayShutThroughoutIff | internal/server/hub.go:745-796 | of all runs, exactly those have the row of every closed Room object closed, gone, or about to be closed, in every state, that make no row anew for a room that has closed |
| RoomClosure.ClosedStepIff | internal/server/hub.go:745-796 | the same of one step |
| RoomClosure.ClosedRoomReopened | internal/storage/sqlite/sqlite.go:106-138 | a run in which the row of a closed room is cleaned up and made anew, open |
| HubHosts.OneHostPerRoomId | internal/server/hub.go:572-789 | after every careful run of the hub, two Room objects of one id are never both open with a host, the open one is registered, and at most one connection in all of them is past a host check |
| MembershipHost.HostIsPresentThroughoutIff | internal/server/hub.go:634-760 | with no hypothesis, a run keeps the host of the open room present in every state if and only if no kick's delete names the host |
| MembershipHost.HostKeptIff | internal/server/hub.go:629-771 | with no hypothesis, a step loses the host if and only if it is the delete of a kick that names the host of the open room |
| MembershipHost.HostAlwaysPresent | internal/server/hub.go:634-760 | in every state of every careful run, an open room that has had a host names a present member as host, and whoever is past a host check is that member |
| MembershipHost.ClosesExactlyWithItsLastHost | internal/server/hub.go:738-760 | a step closes an open room if and only if it is the leave of a host that is the only member, and nobody is left for the close loop to tell |
| MembershipHost.HostPowersStayThroughoutIff | internal/server/hub.go:1188-1247 | of all runs, exactly those leave whoever is past a host check the present host in every state in which only members pass it, no kick deletes its own host, and no leave deletes a connection past the check that bears the leaver's id |
| MembershipHost.PowersStepIff | internal/server/hub.go:1187-1247 | the same of one step |
| MembershipHost.KickTakesAnotherIff | internal/server/hub.go:1236-1247 | the delete of a kick takes out another connection than its target if and only if the id names another by then |
| MembershipHost.LeaveTakesAnotherIff | internal/server/hub.go:734-737 | a leave takes out another connection if and only if its id names another by then |
| MembershipHost.RemovalsHitTheRightConnection | internal/server/hub.go:1236-1248 | after every run with fresh ids, the delete of a kick removes exactly the connection the kick shut down or nothing, and the delete of a leave only its own entry; every other entry stays |
| MembershipRoles.HostKeepsItsRoleThroughoutIff | internal/server/hub.go:1105-1112 | a run leaves the member named by hostID its role "host" in every state if and only if every presence update written by the present host was read while it was host |
| MembershipRoles.HostKeepsRoleIff | internal/server/hub.go:1105-1112 | the same of one step |
| MembershipRoles.OnlyTheHostIsCalledHost | internal/server/hub.go:1105-1112 | after every run, without hypotheses, no member but the one named by hostID carries role "host", although presence reads and writes the role in separate steps |
| MembershipAgreement.EveryoneAgreesOnTheHost | internal/server/hub.go:802-829 | after every run without a dropped host_changed, the last host announcement in every open member's queue is the room's hostID |
| MembershipAgreement.EveryoneAgreesThroughoutIff | internal/server/hub.go:802-829 | a run keeps every open member right about the host in every state if and only if no migration's announcement is dropped on an open member |
| MembershipAgreement.MigrationReachesExactlyTheUnmissed | internal/server/hub.go:820-826 | after a migration an open member's last word on the host is right if and only if its announcement was not dropped |
| MembershipDelivery.BroadcastReachesEveryoneOnce | internal/server/hub.go:861-877 | in every trace, between the snapshot of a broadcast and its end exactly the members at the snapshot had the message put into their queues by the sender, each once, or dropped by a full channel or a client that was shut; a relayed message and an announcement leave out exactly the sender's own id, the notice of a kick nobody; then the sender reads on |
| MembershipDelivery.DepartureReachesEveryoneOnce | internal/server/hub.go:761-780 | the same of the peer_left of a leave that does not close the room: exactly the members that remained at the leave, each once |
| MembershipDelivery.HandlersSendToOne | internal/server/hub.go:879-887 | what a handler sends without a broadcast goes to its own client, to one member, or nowhere |
| MembershipMessages.HostHearsOfEveryWaiter | internal/server/hub.go:674-690 | in every trace, whoever waits or has a decision asked an open room with a place left, and if its host was there then, the request under its own number was put into that host's queue, unless the host was shut or its full channel dropped it |
| MembershipMessages.JoinRequestsAreReal | internal/server/hub.go:681-690 | in every trace, every join_request in a queue bears the number of a connection that asked to join while the receiver was there as host, and was put there by that connection |
| MembershipMessages.WelcomesAreTrue | internal/server/hub.go:710-721 | in every trace, every auth_ok in a queue was put there by the step that made its receiver a member, names the room's host, and lists exactly the other members, never the receiver |
| MembershipMessages.KickNoticesAreReal | internal/server/hub.go:1224-1243 | in every trace, every peer_kicked in a queue comes from a connection that passed the host check and then found the receiver under the id it named; room_closed is in no queue |
| MembershipKicks.KickKeepsItsOrder | internal/server/hub.go:1224-1248 | in every trace, whoever deletes a member in a kick passed the host check, then found the target under that id, then told it, then shut it down, in this order, and goes on to tell everybody that the id left |
| MembershipKicks.ShutIff | internal/server/hub.go:915-921 | in every trace, exactly those are shut whose own goroutine was turned away or is leaving, and those a kick shut down after telling them |
| MembershipKicks.ShutIsSilence | internal/server/hub.go:889-921 | whoever is shut stays shut and is sent nothing more in any continuation |
| MembershipClosing.ClosingAnswersExactlyTheWaiters | internal/server/hub.go:745-750 | a leave that closes the room rejects exactly the pending requests that nothing answered before, forgets them all, and changes no other decision |
| MembershipClosing.ClosedRoomsKeepNobodyWaiting | internal/server/hub.go:691-696 | in every run, whoever waits in a closed room has a decision to read |
| MembershipClosing.MigrationElectsTheFirstConnected | internal/server/hub.go:802-829 | in every trace, when the host of an open room leaves others behind, the new host is one of them, carries role "host" and connected no later than any of them; every other leave keeps the host's id |
| MembershipProvenance.RefusalProvenance | internal/server/hub.go:662-709 | in every trace, whoever was turned away came to a closed or full room, or found the room dead after its wait, or was rejected by a first decision placed on its own request after a host check for it, or the room closed while it waited, or its wait timed out |
| MembershipProvenance.AdmissionProvenance | internal/server/hub.go:1187-1211 | in every trace a member was the first occupant, or was admitted to a live room after some connection passed the host check for that member's own request number and later placed the first decision on it, an approval |
| MembershipSilence.FirstRejectionWins | internal/server/hub.go:119-126 | once a rejection fills a request's slot or the wait has timed out, no later decision admits the client in any continuation |
| MembershipSilence.FirstDecisionStands | internal/server/hub.go:1200-1211 | once a decision is the first to be placed on a waiting client's request, then in every continuation the client holds it or has read it; approved and not timed out, it is admitted unless the room died; a rejection turns it away; and the decider reads on |
| MembershipSilence.DeadRoomsStayDead | internal/server/hub.go:697-704 | from any reachable closed or hostless room, every continuation leaves it dead, only shrinks its membership, and admits nobody who was not admitted; they read nothing but join_pending and join_rejected |
| MembershipSilence.SilenceBeforeAdmission | internal/server/hub.go:639-723 | over every run, an admitted client's whole queue history is at most one join_pending, then auth_ok, then messages for members; a client never admitted got only join_pending and join_rejected, whatever runs concurrently |
| MembershipStructure.IdBookkeeping | internal/server/hub.go:629-712 | after every run the keys of clients and pending are disjoint, each maps to a connection bearing that id, and everyone waiting in an open room owns its pending entry |
| MembershipStructure.ApprovalMovesTheId | internal/server/hub.go:697-722 | approval moves an id from pending to clients in one step and overwrites no one, it happens exactly when the room is alive and the decision approves, and the delete by id removes no other waiter |
| MembershipLimits.SelfKickLosesTheHost | internal/server/hub.go:1237-1246 | a reachable open room whose host is absent, after the host kicked itself |
| MembershipLimits.ReusedIdIsRemoved | internal/server/hub.go:734-737 | a reachable state in which an old connection's leave removes a live newcomer that bears the same id |
| MembershipLimits.KickRemovesAnother | internal/server/hub.go:1236-1247 | a reachable state in which the delete of a kick removes a live newcomer: its target left after the lookup, and a stale connection that passes the host check let the newcomer in under the same id |
| MembershipLimits.StaleConnectionPassesTheHostCheck | internal/server/hub.go:1189-1191 | a reachable living room in which a kicked, shut connection that is no member is past the host check |
| MembershipLimits.LateNoticeHidesTheNewcomer | internal/server/hub.go:773-780 | a reachable state, with nothing in flight, in which the host does not see a member, because the peer_left of an earlier bearer of its id came after its peer_joined |
| MembershipLimits.OvertakenAnnouncementLeavesGhost | internal/server/hub.go:1242-1248 | a kick that overtakes its target's own peer_joined leaves a reachable state, with nothing in flight, in which the host still sees the kicked peer |
| MembershipLimits.DroppedNoticeHidesTheNewcomer | internal/server/hub.go:861-877 | a reachable state, with nothing in flight, in which the host does not see a member because its full channel dropped peer_joined |
| MembershipLimits.MissedAnnouncementMisleads | internal/server/hub.go:820-826 | a reachable state in which an open member's last word on the host is wrong, its full channel having dropped host_changed |
| MembershipLimits.LimitIsExceeded | internal/server/hub.go:668-712 | a reachable room with more members than maxClientsPerRoom: two clients knock while one place is left, and both are admitted |
| MembershipLimits.AdmissionPassesTheLimitIff | internal/server/hub.go:697-712 | an admission takes the room over maxClientsPerRoom if and only if the room is full, alive, and the decision approves |
| MembershipLimits.StalePresenceDemotesTheHost | internal/server/hub.go:1105-1112 | a reachable state in which the room's host carries role "collaborator" |
| RoomObject.Connection.Queue | internal/server/hub.go:889-913 | appends to the client's queue unless it is shut, or the channel is full and the message transient or no room made in time; tells which |
| RoomObject.Connection.Decide | internal/server/hub.go:119-126 | the first decision fills the one-place channel, later ones are dropped |
| RoomObject.Room.UniqueClientIDLocked | internal/server/hub.go:842-859 | returns the id asked for if it is free, else a free candidate, and the fallback only when all eight candidates are taken |
| RoomObject.Room.PeersLocked | internal/server/hub.go:831-840 | collects exactly the members other than the one excluded |
| RoomObject.Room.TargetsLocked | internal/server/hub.go:861-869 | collects exactly the clients a broadcast is for |
| RoomObject.Room.FindPendingLocked | internal/server/hub.go:1200-1208 | finds a pending request bearing the number if and only if there is one |
| RoomObject.Room.JoinLocked | internal/server/hub.go:629-683 | the section before waiting, as the transition Entering of the protocol: host, turned away or waiting |
| RoomObject.Room.AdmitLocked | internal/server/hub.go:697-722 | the section after waiting, as the transition Admitting, and whether it admitted |
| RoomObject.Room.RemoveLocked | internal/server/hub.go:1245-1247 | the delete of a kick, as the transition Removing |
| RoomObject.Room.ElectLocked | internal/server/hub.go:806-811 | elects a member whose JoinedAt no other member's precedes |
| RoomObject.Room.TryHostMigrationLocked | internal/server/hub.go:802-829 | migrates exactly when somebody is left: the earliest member becomes host and every member is told, except those whose channel drops it |
| RoomObject.Room.RejectPendingLocked | internal/server/hub.go:747-750 | answers every waiting request with a rejection, if nothing answered it before, and forgets them all |
| RoomObject.Room.ShutEveryoneLocked | internal/server/hub.go:751-758 | tells, deletes and shuts down every member |
| RoomObject.Room.CloseLocked | internal/server/hub.go:745-759 | the closing branch, as the transition Closing, in which the loop over members has no one to tell |
| RoomObject.Room.LeaveLocked | internal/server/hub.go:733-771 | the whole locked section of leaveRoom, as the transition Leaving, with the peers to notify and whether to unregister |
| HubObject.RoomTable.Room | internal/server/hub.go:572-584 | finds or makes the Room object of an id as the transition LookUp, and returns none exactly when the id is unknown and the hub is full |
| HubObject.RoomTable.Forget | internal/server/hub.go:785-789 | unregisters the Room object only if it is still the registered one, as the transition Unregister |
| Timestamps.FormatOrder | internal/storage/sqlite/sqlite.go:107-107 | for instants printed with trailing fractional zeros dropped, string order is time order whenever the whole seconds differ; within one second it is, unless the earlier one's fraction begins the later one's, and then the later sorts first |
| Timestamps.WrongWithinASecond | internal/storage/sqlite/sqlite.go:247-247 | .5 and .55 of one second sort the wrong way round |
| UpdateLog.LogIsContiguousSuffix | internal/storage/sqlite/sqlite.go:163-212 | after every run of transactions the stored numbers of a room are exactly (low, update_seq] for some low, number k holds the k-th accepted update, and no update row is orphaned |
| UpdateLog.OnlyTheMakersKeyOpens | internal/storage/sqlite/sqlite.go:106-138 | once EnsureRoom made the row, and over every run of transactions in which the row stays, it answers "closed" exactly if some transaction closed the room, else "wrong key" exactly if the hash is not the one the row was made with, else succeeds |
| UpdateLog.AnswersFollowTheHistory | internal/storage/sqlite/sqlite.go:106-214 | after every run, what EnsureRoom, AppendUpdate and SaveSnapshot answer follows from the recorded lifetime alone: no room, closed, or open with this key and this many accepted updates |
| UpdateLog.NumbersAreFresh | internal/storage/sqlite/sqlite.go:163-187 | an append is accepted exactly in an existing open room, never conflicts, and gets the number after all ever accepted in the room's lifetime |
| UpdateLog.CounterAccounting | internal/storage/sqlite/sqlite.go:178-201 | after every run storage_bytes is the compact state plus the updates since the last snapshot, update_count is update_seq minus that snapshot's, and the true size exceeds the counter by exactly the updates that snapshot retained |
| UpdateLog.CounterIsTrueSizeIff | internal/storage/migrations/002_counters.sql:1-11 | storage_bytes is the true size if and only if every update the last snapshot retained is empty |
| UpdateLog.CounterIsTrueSizeWhenCovered | internal/storage/migrations/002_counters.sql:1-11 | in runs whose every snapshot deletes the whole log, storage_bytes is the true size |
| UpdateLog.ClosedRoomIsFrozen | internal/storage/sqlite/sqlite.go:216-220 | after close nothing changes a room's row or log until the row is deleted |
| UpdateLog.CleanupIsExact | internal/storage/sqlite/sqlite.go:246-267 | a room goes with all its updates or survives intact; touched in an earlier second than the cutoff it goes, in a later one it survives; within the cutoff's second a room touched earlier is spared if and only if its fraction begins the cutoff's, and a room touched later goes if and only if the cutoff's fraction begins its own |
| Compaction.CompactionLosesNothing | internal/storage/sqlite/sqlite.go:163-214 | for every document type and every run whose snapshots cover, replaying compact state and stored updates gives the merge of every update ever accepted |
| Compaction.SnapshotKeepsTheDocumentIff | internal/storage/sqlite/sqlite.go:189-214 | a snapshot keeps the document if and only if what it drops is in it or in what it retains, and it holds nothing that was not accepted |
| Compaction.DocumentIsRightThroughoutIff | internal/storage/sqlite/sqlite.go:163-214 | for every document type, a run keeps a room's document equal to its full history after every transaction if and only if every snapshot it accepts drops only what is in it or retained, and holds nothing that was not accepted |
| Compaction.ReplayIsRightIff | internal/storage/sqlite/sqlite.go:140-161 | that equality is what a client gets by replaying the compact state and the stored updates |
| Compaction.SnapshotPreparedEarlierCovers | internal/protocol/protocol.go:217-219 | a snapshot made when n updates were accepted and sent with baseSeq n covers, whatever was appended meanwhile, and if a newer snapshot pruned beyond n, exactly when it holds what that one dropped |
| Compaction.StaleSnapshotLosesIff | internal/storage/sqlite/sqlite.go:196-206 | committed after a newer snapshot pruned beyond n, it keeps the document if and only if what was pruned beyond n is in the first n updates or in those still stored |
| Compaction.StaleSnapshotLosesAnUpdate | internal/storage/sqlite/sqlite.go:196-206 | a run of two updates, a snapshot of both and then one of the first, each with its own baseSeq, that loses the second |
| Compaction.LegacySnapshotLosesIff | internal/storage/sqlite/sqlite.go:207-212 | sent without a positive baseSeq it keeps the document if and only if every later update was already in it |
| Compaction.LegacySnapshotLosesAnUpdate | internal/storage/sqlite/sqlite.go:207-212 | two updates, then a snapshot of the first sent without baseSeq, lose what only the second brought (documents as sets of bytes) |
| Compaction.LettersAreLawful | internal/protocol/protocol.go:148-150 | sets of bytes under union are a document type of the kind the results ask for, so they are not about nothing |
| Compaction.TwoReadLoadIsAState | internal/storage/sqlite/sqlite.go:140-161 | if no snapshot commits between LoadRoomState's two reads, its result replays to exactly the document at the second read |
| Compaction.TornLoadIff | internal/storage/sqlite/sqlite.go:140-161 | with any transactions between the two reads, the row staying, the result is right if and only if what has been dropped by the second read is in what was read |
| Compaction.LoadIsRightIff | internal/storage/sqlite/sqlite.go:140-161 | the same even if the row was deleted and made anew: then the compact state read must also hold nothing that is not accepted by the second read |
| Compaction.SecondReadDecides | internal/storage/sqlite/sqlite.go:140-161 | without a snapshot in between, whatever snapshots came before, the result replays to the document the tables hold at the second read |
| Compaction.TornLoadLosesAnUpdate | internal/storage/sqlite/sqlite.go:140-161 | a run in which a snapshot of the only update commits between the two reads, and the load gives the empty document |
| Compaction.DumpIsSuffix | internal/storage/sqlite/sqlite.go:148-160 | the second read returns exactly the accepted updates above low, in order and without a gap |
| StoreObject.Store.Append | internal/storage/sqlite/sqlite.go:163-187 | the transaction on the tables in place, with its outcomes, as AppendUpdate |
| StoreObject.Store.Save | internal/storage/sqlite/sqlite.go:189-214 | the transaction on the tables in place, as SaveSnapshot |
| StoreObject.Store.Ensure | internal/storage/sqlite/sqlite.go:106-138 | the transaction on the tables in place, with its outcomes, as EnsureRoom |
| StoreObject.Store.Close | internal/storage/sqlite/sqlite.go:216-220 | closes an open room, leaves a closed one alone, as CloseRoom |
| StoreObject.Store.Cleanup | internal/storage/sqlite/sqlite.go:246-267 | deletes children then rooms, as DeleteInactiveRooms, and counts the rooms deleted |
| StoreObject.Store.LoadRoomState | internal/storage/sqlite/sqlite.go:140-161 | returns the compact state and every stored update of the room, once, in strictly increasing order |
| WriteGate.WritersRunTheStore | internal/server/hub.go:1008-1095 | in every run the tables are what the store's transactions make of them: one for each write that did not fail, with the room, bytes and baseSeq its goroutine was started with, in their order |
| WriteGate.NobodyWritesTwice | internal/server/hub.go:604-620 | in every run each job is written at most once, and a writer that gave up waiting does nothing more |
| WriteGate.OneHolderPerChannel | internal/server/hub.go:591-620 | in every run at most one writer is between acquire and release on a channel, a slot is taken exactly when there is one, and when all writers have finished every slot is free |
| WriteGate.QuotaIsRespected | internal/server/hub.go:1017-1034 | with any number of update and snapshot goroutines, storage_bytes never exceeds roomMaxStorageBytes |
| WriteGate.UnreadableQuotaOverflows | internal/server/hub.go:1028-1029 | a quota read that errs lets an update larger than the quota through |
| WriteGate.CheckKeepsClearedIff | internal/server/hub.go:1028-1029 | the check lets a job through within the quota if and only if not both the read fails and the job is over the quota |
| WriteGate.CheckedWriteOverflowsIff | internal/server/hub.go:1028-1034 | a check and its write take a room over the quota if and only if the read failed, the job is over the quota, an update or by itself too large a snapshot, and the room is open |
| WriteGate.DropSplitsTheRoomIff | internal/server/hub.go:591-620 | after a room's serializer entry is deleted, some continuation that respects the hypotheses has two of its writers between acquire and release if and only if a writer of the room used its channel at the time |
| WriteGate.DroppedSerializerOverflows | internal/server/hub.go:790-793 | deleting a serializer entry in use lets two writers pass one check and overflow the quota |
| WriteGate.RetainedIsNotCounted | internal/storage/sqlite/sqlite.go:196-206 | after u, v, a snapshot based on u alone and x, the counter leaves out v, which is still stored |
| WriteGate.QuotaDoesNotBoundTheTruth | internal/server/hub.go:1084-1090 | a run that meets every hypothesis of the quota result and still stores more than roomMaxStorageBytes |
| SerializerObject.Serializers.RoomSerializer | internal/server/hub.go:591-600 | returns the room's channel, made if missing, as the transition Fetch |
| SerializerObject.Serializers.TryAcquire | internal/server/hub.go:604-614 | fills the slot if it is free; otherwise waits on, or gives up on time-out |
| SerializerObject.Serializers.ReleaseRoomWrite | internal/server/hub.go:616-620 | empties the slot of the channel that was acquired |
| Stun.ClientLearnsItsAddress | internal/server/stun.go:148-221 | for every answered packet and every v4 or v6 source, a decoder of section 15.2 of RFC 5389 recovers from the response exactly the source's address, the last four bytes of a v4-mapped one in v4 form, and its port if that is in 0..65535 |
| Stun.AnsweredIffRequest | internal/server/stun.go:150-168 | exactly those packets are answered that come from a v4 or v6 address and begin with bytes that section 6 of RFC 5389 frames as a Binding request |
| Stun.ResponseParses | internal/server/stun.go:175-183 | a response parses by section 6 of RFC 5389: type, cookie, 4-aligned length that matches, the transaction id, and one attribute holding the endpoint |
| Stun.ResponsesTellApart | internal/server/stun.go:175-221 | two responses are equal if and only if transaction id, address and port are |
| Stun.BuildSTUNBindingResponse | internal/server/stun.go:150-183 | answers exactly the packets of the right size, type, length, cookie and source, with exactly the bytes of the response |
| Stun.BuildXORMappedAddressAttribute | internal/server/stun.go:187-221 | builds the attribute for exactly the v4 and v6 addresses, masked with the cookie, or with the cookie and the transaction id |
| Stun.MaskInto | internal/server/stun.go:201-203 | xors an address byte by byte into the buffer after its header |

## Left out

* HTTP routes, WebSocket reads and writes, deadlines, `writeLoop`, configuration, logging, URL building, Origin handling: I/O and wiring.
* Rate limiters and per-IP maps, for WebSocket clients and for STUN: the token bucket is library code.
* Room key HMAC, JSON, base64 and random ids: library code. Generated client ids, request numbers and channel identities are parameters, assumed unused where a step needs a new one.
* The SQL engine and the migration runner: a transaction is one step, an aborted one changes nothing. `LENGTH(?)` is the length of the snapshot, which is taken to be non-NULL.
* 64-bit overflow of `update_seq`, `storage_bytes` and `update_count`: the model's integers are unbounded.
* Texts and reasons of messages, and users beyond id and role: no decision of the server depends on them.
* The content of chat, signal, voice, presence and document messages: they are the message `Relayed`; who gets it is modelled (`BroadcastReachesEveryoneOnce`, `HandlersSendToOne`).
* The window between the `closed` check and the channel send in `queue`: `queue` and `shutdown` are atomic, and nothing is claimed about a send on a closed channel.
* A client's first two messages are taken never to find its channel full: it holds 2048, and `SilenceBeforeAdmission` shows at most one message before them.
* Go's map iteration order: peer lists and broadcast targets are sets, and the election may pick any of several equally early members.
* The room object that a client is refused before entering (hub full): it never reaches a room, so it has no state here.
* RoomObject.Connection.Queue: does not model a shutdown arriving while it waits for room; the shutdown comes before or after the whole call.
* RoomObject.Room: maps hold identities that the field `known` resolves to objects, where the server's maps hold references; a PendingJoin is part of its client's record. Work done outside the lock (the delivery loop of `broadcast`, the stages of a kick) interleaves with everybody else's and is steps of the transition system only.
* Writers give up or fail, but the order in which waiting writers get a channel is left open.
* Liveness: nothing says that a decision, a notice or a write eventually happens.
* Yjs internals: documents are any lawful merge.
* The STUN serve loop and its workers; the code neither parses request attributes nor builds error responses.
