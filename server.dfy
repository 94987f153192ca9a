/**
 * The relay server as the source runs it: one object whose fields the four
 * socket event handlers update in place. Each handler runs to completion
 * before the next event is processed, so each is one method here, proved to
 * leave the object in the state the matching function of module Rooms
 * describes.
 */
module Server {
  import opened Protocol
  import Rooms

  class RelayServer {
    /** The `rooms` Map, and its iteration (insertion) order. */
    var rooms: map<RoomCode, Room>
    var order: seq<RoomCode>
    /** socket.io broadcast groups, by room code. */
    var groups: map<RoomCode, set<SocketId>>
    /** Every emission so far, oldest first. */
    var outbox: seq<Emission>

    /** The server's state as a value. */
    function State(): Rooms.State
      reads this
    {
      Rooms.State(rooms, order, groups, outbox)
    }

    ghost predicate Valid()
      reads this
    {
      Rooms.Valid(State())
    }

    constructor ()
      ensures Valid() && State() == Rooms.Init
    {
      rooms, order, groups, outbox := map[], [], map[], [];
    }

    /** io.on("connection", ...): the new socket is already in the group
        named by its own id. */
    method Connect(s: SocketId)
      requires Valid()
      modifies this
      ensures Valid()
      ensures State() == Rooms.OnConnect(old(State()), s)
    {
      groups := groups[s := Group(groups, s) + {s}];
    }

    /** socket.on("create-room", ...) */
    method CreateRoom(caller: SocketId, code: RoomCode)
      requires Valid()
      modifies this
      ensures Valid()
      ensures State() == Rooms.OnCreateRoom(old(State()), caller, code)
    {
      groups := groups[code := Group(groups, code) + {caller}];
      if code !in rooms {
        order := order + [code];
      }
      rooms := rooms[code := Room(caller, None)];
      outbox := outbox + [Emission({caller}, RoomCreated(code))];
    }

    /** socket.on("join-room", ...) */
    method JoinRoom(caller: SocketId, code: RoomCode)
      requires Valid()
      modifies this
      ensures Valid()
      ensures State() == Rooms.OnJoinRoom(old(State()), caller, code)
    {
      if code !in rooms {
        outbox := outbox + [Emission({caller}, JoinError(RoomNotFound))];
        return;
      }
      var room := rooms[code];
      if room.receiver.Some? {
        outbox := outbox + [Emission({caller}, JoinError(RoomIsFull))];
        return;
      }
      groups := groups[code := Group(groups, code) + {caller}];
      rooms := rooms[code := room.(receiver := Some(caller))];
      outbox := outbox + [Emission({caller}, JoinedRoom(code))];
      outbox := outbox + [Emission(Group(groups, code) - {caller}, PeerJoined(code))];
    }

    /** socket.on("signal", ...) */
    method Signal(sender: SocketId, room: RoomCode, data: Payload)
      requires Valid()
      modifies this
      ensures Valid()
      ensures State() == Rooms.OnSignal(old(State()), sender, room, data)
    {
      outbox := outbox + [Emission(Group(groups, room) - {sender}, Event.Signal(data))];
    }

    /** socket.on("disconnect", ...): socket.io has already taken `s` out of
        every group when the handler runs; the handler then deletes every
        room that `s` occupies, telling each room's group. */
    method Disconnect(s: SocketId)
      requires Valid()
      modifies this
      ensures Valid()
      ensures State() == Rooms.OnDisconnect(old(State()), s)
    {
      ghost var before := State();
      groups := Rooms.LeaveAll(groups, s);
      rooms, order, outbox := SweepRooms(order, rooms, groups, outbox, s);
      assert rooms == map k | k in before.rooms && !Involved(before.rooms[k], s) :: before.rooms[k];
      assert State() == Rooms.OnDisconnect(before, s);
    }
  }

  /** The loop of the `disconnect` handler: walks the rooms in map order,
      and for each room that `s` occupies sends `peer-disconnected` to the
      room's group (without `s`) and deletes the room. */
  method SweepRooms(keys: seq<RoomCode>, rooms: map<RoomCode, Room>,
                    groups: map<RoomCode, set<SocketId>>, outbox: seq<Emission>, s: SocketId)
    returns (live: map<RoomCode, Room>, kept: seq<RoomCode>, sent: seq<Emission>)
    requires forall k :: k in rooms <==> k in keys
    ensures forall k :: k in live <==> k in rooms && !Involved(rooms[k], s)
    ensures forall k :: k in live ==> live[k] == rooms[k]
    ensures kept == Rooms.Kept(keys, |keys|, rooms, s)
    ensures sent == outbox + Rooms.Notices(keys, |keys|, rooms, groups, s)
  {
    live, kept, sent := rooms, keys, outbox;
    var i := 0;
    while i < |keys|
      invariant 0 <= i <= |keys|
      invariant kept == Rooms.Kept(keys, i, rooms, s) + keys[i..]
      invariant live == Rooms.Remaining(keys, i, rooms, s)
      invariant sent == outbox + Rooms.Notices(keys, i, rooms, groups, s)
    {
      live, kept, sent := SweepOne(keys, i, rooms, groups, outbox, s, live, kept, sent);
      i := i + 1;
    }
    assert keys[|keys|..] == [];
    Rooms.RemainingAfterAll(keys, rooms, s);
  }

  /** One iteration of the `disconnect` loop, at the `i`-th code in map
      order: when `s` occupies that room, its group (without `s`) is told
      `peer-disconnected` and the room is deleted from the map and from the
      order; otherwise nothing changes. */
  method SweepOne(keys: seq<RoomCode>, i: nat, rooms: map<RoomCode, Room>,
                  groups: map<RoomCode, set<SocketId>>, outbox: seq<Emission>, s: SocketId,
                  live: map<RoomCode, Room>, kept: seq<RoomCode>, sent: seq<Emission>)
    returns (live': map<RoomCode, Room>, kept': seq<RoomCode>, sent': seq<Emission>)
    requires i < |keys| && keys[i] in rooms
    requires kept == Rooms.Kept(keys, i, rooms, s) + keys[i..]
    requires live == Rooms.Remaining(keys, i, rooms, s)
    requires sent == outbox + Rooms.Notices(keys, i, rooms, groups, s)
    ensures kept' == Rooms.Kept(keys, i + 1, rooms, s) + keys[i + 1..]
    ensures live' == Rooms.Remaining(keys, i + 1, rooms, s)
    ensures sent' == outbox + Rooms.Notices(keys, i + 1, rooms, groups, s)
  {
    var code := keys[i];
    Rooms.SweepOrderStep(keys, i, rooms, s);
    live', kept', sent' := live, kept, sent;
    if Involved(rooms[code], s) {
      var j := |kept| - (|keys| - i);
      sent' := sent + [Emission(Group(groups, code) - {s}, PeerDisconnected)];
      live' := live - {code};
      kept' := kept[..j] + kept[j + 1..];
    }
  }
}
