/**
 * The Hub as the object whose two maps its goroutines change under `h.mu` and `roomSerialMu`, and the
 * channels that serialize a room's writes.
 */
module HubObject {
  import opened Base
  import opened Options
  import opened Membership
  import opened HubRegistry

  class RoomTable {
    const maxGlobalRooms: nat
    var rooms: map<RoomId, Ref>
    ghost var hub: Hub  // the state of the transition system this object is in

    constructor (maxGlobalRooms: nat, limit: nat)
      ensures Valid() && hub == HubInit(maxGlobalRooms, limit)
    {
      this.maxGlobalRooms := maxGlobalRooms;
      rooms, hub := map[], HubInit(maxGlobalRooms, limit);
    }

    ghost predicate Valid()
      reads this
    {
      hub.maxRooms == maxGlobalRooms && hub.registry == rooms
    }

    /** 572-584: the Room object c will enter, `unused` if it has to be made; none if the hub is full. */
    method Room(roomID: RoomId, unused: Ref, ghost c: Conn, ghost want: Id, ghost joinedAt: int) returns (room: Option<Ref>)
      requires Valid() && HubEnabled(hub, LookUp(c, roomID, want, joinedAt, unused))
      modifies this
      ensures Valid() && hub == HubStep(old(hub), LookUp(c, roomID, want, joinedAt, unused))
      ensures room.None? <==> roomID !in rooms
      ensures room.Some? ==> rooms[roomID] == room.value && hub.objects[room.value].sys.conns[c].pc == Arrived
      ensures room.None? ==> unchanged(this) && maxGlobalRooms > 0 && |rooms| >= maxGlobalRooms
    {
      if roomID !in rooms {
        if maxGlobalRooms > 0 && |rooms| >= maxGlobalRooms { return None; }
        rooms := rooms[roomID := unused];
      }
      hub := HubStep(hub, LookUp(c, roomID, want, joinedAt, unused));
      return Some(rooms[roomID]);
    }

    /** 785-789 */
    method Forget(room: Ref, roomID: RoomId, ghost c: Conn)
      requires Valid() && HubEnabled(hub, Unregister(room, c)) && hub.objects[room].roomID == roomID
      modifies this
      ensures Valid() && hub == HubStep(old(hub), Unregister(room, c))
    {
      if roomID in rooms && rooms[roomID] == room { rooms := rooms - {roomID}; }
      hub := HubStep(hub, Unregister(room, c));
    }
  }
}

module SerializerObject {
  import opened Base
  import opened WriteGate

  class Serializers {
    var roomSerializers: map<RoomId, Chan>
    var made: set<Chan>
    var full: set<Chan>  // the one-slot channels whose slot is taken
    ghost var gate: Gate

    constructor (max: nat)
      ensures Valid() && gate == GateInit(max)
    {
      roomSerializers, made, full, gate := map[], {}, {}, GateInit(max);
    }

    ghost predicate Valid()
      reads this
    {
      gate.serializers == roomSerializers && gate.made == made && gate.full == full
    }

    /** 591-600 */
    method RoomSerializer(roomID: RoomId, unused: Chan, ghost w: Writer) returns (ch: Chan)
      requires Valid() && GateEnabled(gate, Fetch(w, unused)) && gate.jobs[w].room == roomID
      modifies this
      ensures Valid() && gate == GateStep(old(gate), Fetch(w, unused)) && gate.jobs[w].stage == Fetched(ch)
    {
      gate := GateStep(gate, Fetch(w, unused));
      if roomID !in roomSerializers {
        roomSerializers, made := roomSerializers[roomID := unused], made + {unused};
      }
      ch := roomSerializers[roomID];
    }

    /** 608-613: the slot if it is free; otherwise the caller goes on waiting, or gives up. */
    method TryAcquire(ch: Chan, timedOut: bool, ghost w: Writer) returns (got: bool)
      requires Valid() && w in gate.jobs && gate.jobs[w].stage == Fetched(ch)
      modifies this
      ensures Valid() && (got <==> ch !in old(full))
      ensures gate == if got then GateStep(old(gate), Acquire(w))
                      else if timedOut then GateStep(old(gate), Quit(w)) else old(gate)
    {
      if ch !in full {
        full, gate := full + {ch}, GateStep(gate, Acquire(w));
        return true;
      }
      if timedOut { gate := GateStep(gate, Quit(w)); }
      return false;
    }

    /** 616-620 */
    method ReleaseRoomWrite(ch: Chan, ghost w: Writer)
      requires Valid() && w in gate.jobs && gate.jobs[w].stage == Releasing(ch)
      modifies this
      ensures Valid() && gate == GateStep(old(gate), Release(w))
    {
      full, gate := full - {ch}, GateStep(gate, Release(w));
    }

    /** 791-793 */
    method Delete(roomID: RoomId)
      requires Valid()
      modifies this
      ensures Valid() && gate == GateStep(old(gate), Drop(roomID))
    {
      roomSerializers, gate := roomSerializers - {roomID}, GateStep(gate, Drop(roomID));
    }
  }
}
