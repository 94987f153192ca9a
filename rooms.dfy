/**
 * The room coordinator as a state machine over values. Each socket event
 * handler of the server is a function from the state before the event to the
 * state after it; the class in module Server is proved against these.
 */
module Rooms {
  import opened Protocol

  /** Everything the handlers read or change.
      - `rooms`: the global `Map` from room code to room.
      - `order`: the iteration order of that `Map` (insertion order).
      - `groups`: socket.io's broadcast groups, joined with `socket.join`;
        socket ids and room codes name groups from one namespace.
      - `outbox`: every emission so far, oldest first. */
  datatype State = State(
    rooms: map<RoomCode, Room>,
    order: seq<RoomCode>,
    groups: map<RoomCode, set<SocketId>>,
    outbox: seq<Emission>)

  /** The state at server start: no rooms, no groups, nothing sent. */
  const Init: State := State(map[], [], map[], [])

  predicate Distinct(q: seq<RoomCode>) {
    forall i, j :: 0 <= i < j < |q| ==> q[i] != q[j]
  }

  /** Both occupants of room `code` are members of its broadcast group. */
  predicate Seated(st: State, code: RoomCode)
    requires code in st.rooms
  {
    var room := st.rooms[code];
    room.initiator in Group(st.groups, code)
    && (room.receiver.Some? ==> room.receiver.value in Group(st.groups, code))
  }

  /** The invariant every reachable state keeps: `order` lists each room code
      exactly once, and each room's occupants can be reached through its
      broadcast group. */
  ghost predicate Valid(st: State) {
    && Distinct(st.order)
    && (forall k :: k in st.rooms <==> k in st.order)
    && (forall k :: k in st.rooms ==> Seated(st, k))
  }

  /** socket.join(code): the caller becomes a member of group `code`. */
  function JoinGroup(groups: map<RoomCode, set<SocketId>>, code: RoomCode, s: SocketId)
    : (g: map<RoomCode, set<SocketId>>)
    ensures Group(g, code) == Group(groups, code) + {s}
    ensures forall c :: c != code ==> Group(g, c) == Group(groups, c)
  {
    groups[code := Group(groups, code) + {s}]
  }

  /** What socket.io does to a socket's groups when it disconnects, before the
      `disconnect` handler runs: the socket leaves every group. */
  function LeaveAll(groups: map<RoomCode, set<SocketId>>, s: SocketId)
    : (g: map<RoomCode, set<SocketId>>)
    ensures forall c :: Group(g, c) == Group(groups, c) - {s}
  {
    map c | c in groups :: groups[c] - {s}
  }

  /** A new connection: socket.io puts socket `s` into the group named by its
      own id before any handler of the socket runs. Nothing else changes. */
  function OnConnect(st: State, s: SocketId): (r: State)
    ensures r.rooms == st.rooms && r.order == st.order && r.outbox == st.outbox
    ensures s in Group(r.groups, s)
    ensures forall c :: Group(r.groups, c) == Group(st.groups, c) + (if c == s then {s} else {})
    ensures Valid(st) ==> Valid(r)
  {
    st.(groups := JoinGroup(st.groups, s, s))
  }

  /** The `create-room` handler. It always succeeds: the code now names a
      fresh room with the caller as initiator, replacing any room that had
      that code; no other room changes; the caller joins the group. */
  function OnCreateRoom(st: State, caller: SocketId, code: RoomCode): (r: State)
    ensures code in r.rooms && r.rooms[code] == Room(caller, None)
    ensures forall k :: k != code ==> (k in r.rooms <==> k in st.rooms)
    ensures forall k :: k != code && k in st.rooms ==> r.rooms[k] == st.rooms[k]
    ensures Group(r.groups, code) == Group(st.groups, code) + {caller}
    ensures forall c :: c != code ==> Group(r.groups, c) == Group(st.groups, c)
    ensures Valid(st) ==> Valid(r)
  {
    State(
      st.rooms[code := Room(caller, None)],
      if code in st.rooms then st.order else st.order + [code],
      JoinGroup(st.groups, code, caller),
      st.outbox + [Emission({caller}, RoomCreated(code))])
  }

  /** The `join-room` handler: "Room not found" when the code names no room,
      "Room is full" when its receiver slot is taken, otherwise the caller
      takes the receiver slot and joins the group. A taken receiver slot is
      never reassigned and an initiator never changes. */
  function OnJoinRoom(st: State, caller: SocketId, code: RoomCode): (r: State)
    ensures r.order == st.order && r.rooms.Keys == st.rooms.Keys
    ensures forall k :: k in st.rooms ==> r.rooms[k].initiator == st.rooms[k].initiator
    ensures forall k :: k in st.rooms && st.rooms[k].receiver.Some? ==> r.rooms[k] == st.rooms[k]
    ensures forall k :: k != code && k in st.rooms ==> r.rooms[k] == st.rooms[k]
    ensures code in st.rooms && st.rooms[code].receiver.None? ==>
              r.rooms[code].receiver == Some(caller)
    ensures forall c :: c != code ==> Group(r.groups, c) == Group(st.groups, c)
    ensures Valid(st) ==> Valid(r)
  {
    if code !in st.rooms then
      st.(outbox := st.outbox + [Emission({caller}, JoinError(RoomNotFound))])
    else if st.rooms[code].receiver.Some? then
      st.(outbox := st.outbox + [Emission({caller}, JoinError(RoomIsFull))])
    else
      var groups := JoinGroup(st.groups, code, caller);
      st.(rooms := st.rooms[code := st.rooms[code].(receiver := Some(caller))],
          groups := groups,
          outbox := st.outbox + [Emission({caller}, JoinedRoom(code)),
                                 Emission(Group(groups, code) - {caller}, PeerJoined(code))])
  }

  /** The `signal` handler: relays `data` to the group of `room` except the
      sender. It never consults or changes the rooms, and no group changes. */
  function OnSignal(st: State, sender: SocketId, room: RoomCode, data: Payload): (r: State)
    ensures r.rooms == st.rooms && r.order == st.order && r.groups == st.groups
    ensures |r.outbox| == |st.outbox| + 1 && r.outbox[..|st.outbox|] == st.outbox
    ensures r.outbox[|st.outbox|].event == Signal(data)
    ensures sender !in r.outbox[|st.outbox|].to
    ensures Valid(st) ==> Valid(r)
  {
    st.(outbox := st.outbox + [Emission(Group(st.groups, room) - {sender}, Signal(data))])
  }

  /** True when the `disconnect` handler for `s` deletes room `code`. */
  predicate Doomed(rooms: map<RoomCode, Room>, code: RoomCode, s: SocketId) {
    code in rooms && Involved(rooms[code], s)
  }

  /* The disconnect handler visits the room codes one by one in map order.
     The functions below describe what it has done after visiting the first
     `n` codes of `keys`. */

  /** The visited codes whose rooms survive, in order. */
  function Kept(keys: seq<RoomCode>, n: nat, rooms: map<RoomCode, Room>, s: SocketId): seq<RoomCode>
    requires n <= |keys|
  {
    if n == 0 then []
    else Kept(keys, n - 1, rooms, s) + (if Doomed(rooms, keys[n - 1], s) then [] else [keys[n - 1]])
  }

  /** The visited codes whose rooms are deleted, in order. */
  function Deleted(keys: seq<RoomCode>, n: nat, rooms: map<RoomCode, Room>, s: SocketId): seq<RoomCode>
    requires n <= |keys|
  {
    if n == 0 then []
    else Deleted(keys, n - 1, rooms, s) + (if Doomed(rooms, keys[n - 1], s) then [keys[n - 1]] else [])
  }

  /** The `peer-disconnected` emissions made so far: one per deleted room,
      to that room's group without `s`. */
  function Notices(keys: seq<RoomCode>, n: nat, rooms: map<RoomCode, Room>,
                   groups: map<RoomCode, set<SocketId>>, s: SocketId): seq<Emission>
    requires n <= |keys|
  {
    if n == 0 then []
    else
      Notices(keys, n - 1, rooms, groups, s)
        + (if Doomed(rooms, keys[n - 1], s)
           then [Emission(Group(groups, keys[n - 1]) - {s}, PeerDisconnected)] else [])
  }

  /** The rooms still in the map. */
  function Remaining(keys: seq<RoomCode>, n: nat, rooms: map<RoomCode, Room>, s: SocketId)
    : map<RoomCode, Room>
    requires n <= |keys|
  {
    if n == 0 then rooms
    else if Doomed(rooms, keys[n - 1], s) then Remaining(keys, n - 1, rooms, s) - {keys[n - 1]}
    else Remaining(keys, n - 1, rooms, s)
  }

  lemma {:induction false} KeptMembers(keys: seq<RoomCode>, n: nat, rooms: map<RoomCode, Room>, s: SocketId)
    requires n <= |keys|
    ensures forall x :: x in Kept(keys, n, rooms, s) <==> x in keys[..n] && !Doomed(rooms, x, s)
    ensures Distinct(keys) ==> Distinct(Kept(keys, n, rooms, s))
  {
    if n > 0 {
      assert keys[..n] == keys[..n - 1] + [keys[n - 1]];
      KeptMembers(keys, n - 1, rooms, s);
    }
  }

  lemma {:induction false} DeletedMembers(keys: seq<RoomCode>, n: nat, rooms: map<RoomCode, Room>, s: SocketId)
    requires n <= |keys|
    ensures forall x :: x in Deleted(keys, n, rooms, s) <==> x in keys[..n] && Doomed(rooms, x, s)
    ensures Distinct(keys) ==> Distinct(Deleted(keys, n, rooms, s))
  {
    if n > 0 {
      assert keys[..n] == keys[..n - 1] + [keys[n - 1]];
      DeletedMembers(keys, n - 1, rooms, s);
    }
  }

  /** The rooms still in the map are those not yet found to hold `s`,
      unchanged. */
  lemma {:induction false} RemainingMembers(keys: seq<RoomCode>, n: nat, rooms: map<RoomCode, Room>, s: SocketId)
    requires n <= |keys|
    ensures forall x :: x in Remaining(keys, n, rooms, s) <==> x in rooms && !(x in keys[..n] && Involved(rooms[x], s))
    ensures forall x :: x in Remaining(keys, n, rooms, s) ==> Remaining(keys, n, rooms, s)[x] == rooms[x]
  {
    if n > 0 {
      assert keys[..n] == keys[..n - 1] + [keys[n - 1]];
      RemainingMembers(keys, n - 1, rooms, s);
    }
  }

  /** The notices are exactly one `peer-disconnected` per deleted room, in
      map order, each to that room's group minus the leaving socket. */
  lemma {:induction false} NoticesShape(keys: seq<RoomCode>, n: nat, rooms: map<RoomCode, Room>,
                                        groups: map<RoomCode, set<SocketId>>, s: SocketId)
    requires n <= |keys|
    ensures var ns, d := Notices(keys, n, rooms, groups, s), Deleted(keys, n, rooms, s);
      |ns| == |d|
      && forall i :: 0 <= i < |ns| ==> ns[i] == Emission(Group(groups, d[i]) - {s}, PeerDisconnected)
  {
    if n > 0 {
      NoticesShape(keys, n - 1, rooms, groups, s);
    }
  }

  /** When `s` occupies no room, the loop keeps every code and emits nothing. */
  lemma {:induction false} NothingDoomed(keys: seq<RoomCode>, n: nat, rooms: map<RoomCode, Room>,
                                         groups: map<RoomCode, set<SocketId>>, s: SocketId)
    requires n <= |keys|
    requires forall k :: k in rooms ==> !Involved(rooms[k], s)
    ensures Kept(keys, n, rooms, s) == keys[..n]
    ensures Notices(keys, n, rooms, groups, s) == []
  {
    if n > 0 {
      assert keys[..n] == keys[..n - 1] + [keys[n - 1]];
      NothingDoomed(keys, n - 1, rooms, groups, s);
    }
  }

  /** The map order after visiting one more code: the visited codes that
      survive, then the codes not yet visited. When the visited room is
      deleted, its code is dropped at position `|Kept(keys, i, rooms, s)|`. */
  lemma SweepOrderStep(keys: seq<RoomCode>, i: nat, rooms: map<RoomCode, Room>, s: SocketId)
    requires i < |keys|
    ensures var q, j := Kept(keys, i, rooms, s) + keys[i..], |Kept(keys, i, rooms, s)|;
      && j < |q| && j == |q| - (|keys| - i)
      && Kept(keys, i + 1, rooms, s) + keys[i + 1..]
           == if Doomed(rooms, keys[i], s) then q[..j] + q[j + 1..] else q
  {
    var done := Kept(keys, i, rooms, s);
    var q := done + keys[i..];
    assert keys[i..] == [keys[i]] + keys[i + 1..];
    assert q[..|done|] == done;
    assert q[|done| + 1..] == keys[i + 1..];
  }

  /** After visiting every code of the map, the rooms left are exactly those
      that `s` does not occupy, unchanged. */
  lemma RemainingAfterAll(keys: seq<RoomCode>, rooms: map<RoomCode, Room>, s: SocketId)
    requires forall k :: k in rooms ==> k in keys
    ensures var live := Remaining(keys, |keys|, rooms, s);
      && (forall k :: k in live <==> k in rooms && !Involved(rooms[k], s))
      && (forall k :: k in live ==> live[k] == rooms[k])
  {
    RemainingMembers(keys, |keys|, rooms, s);
    assert keys[..|keys|] == keys;
  }

  /** The state a disconnect of `s` leaves is valid again: the kept codes
      are listed once each, and the surviving rooms do not hold `s`, so
      their occupants are still in their groups. */
  lemma DisconnectKeepsValid(st: State, s: SocketId, outbox: seq<Emission>)
    ensures Valid(st) ==>
      Valid(State(map k | k in st.rooms && !Involved(st.rooms[k], s) :: st.rooms[k],
                  Kept(st.order, |st.order|, st.rooms, s),
                  LeaveAll(st.groups, s),
                  outbox))
  {
    if Valid(st) {
      var r := State(map k | k in st.rooms && !Involved(st.rooms[k], s) :: st.rooms[k],
                     Kept(st.order, |st.order|, st.rooms, s),
                     LeaveAll(st.groups, s),
                     outbox);
      KeptMembers(st.order, |st.order|, st.rooms, s);
      assert st.order[..|st.order|] == st.order;
      forall k | k in r.rooms
        ensures Seated(r, k)
      {
        assert Seated(st, k);
      }
    }
  }

  /** The `disconnect` handler for socket `s`, after socket.io has removed
      `s` from every group: each room that `s` occupies is deleted and its
      remaining group members are sent `peer-disconnected`; every other room
      is left exactly as it was. */
  function OnDisconnect(st: State, s: SocketId): (r: State)
    ensures forall k :: k in r.rooms <==> k in st.rooms && !Involved(st.rooms[k], s)
    ensures forall k :: k in r.rooms ==> r.rooms[k] == st.rooms[k] && !Involved(r.rooms[k], s)
    ensures forall c :: Group(r.groups, c) == Group(st.groups, c) - {s}
    ensures |st.outbox| <= |r.outbox| && r.outbox[..|st.outbox|] == st.outbox
    ensures Valid(st) ==> Valid(r)
  {
    var groups := LeaveAll(st.groups, s);
    var notices := Notices(st.order, |st.order|, st.rooms, groups, s);
    DisconnectKeepsValid(st, s, st.outbox + notices);
    State(
      map k | k in st.rooms && !Involved(st.rooms[k], s) :: st.rooms[k],
      Kept(st.order, |st.order|, st.rooms, s),
      groups,
      st.outbox + notices)
  }
}
