# Signaling relay: room lifecycle

The backend of this file-sharing app is a small socket.io signaling server.
It holds a single `rooms` Map from a room code to `{initiator, receiver}`.
Four socket event handlers change that Map:

- `create-room` stores a new room with the caller as initiator.
- `join-room` puts a second socket into the receiver slot.
- `signal` relays an opaque WebRTC handshake payload to the other sockets
  in the code's broadcast group.
- `disconnect` deletes every room the leaving socket occupied and tells the
  rest of each room's group.

The model has three layers.

- `Protocol` (protocol.dfy) gives the vocabulary:
  - socket ids, room codes and payloads;
  - `Room`, with an `Option` receiver standing in for JavaScript `null`;
  - the server-to-client `Event`s and the two error strings.

  Each `emit` call becomes an `Emission`, which is an event plus the set of
  sockets it reaches. `socket.emit` reaches the caller alone.
  `socket.to(code).emit` reaches the code's broadcast group without the
  caller. `Inbox(outbox, p)` is the sequence of events socket `p` receives.
- `Rooms` (rooms.dfy) describes each handler as a function from one
  `State` to the next. A `State` holds four parts:
  - the Map's contents, `rooms`;
  - the Map's insertion order, `order`, which fixes the order in which the
    `disconnect` loop visits rooms;
  - the broadcast groups, `groups`, including the group socket.io makes
    for each connected socket, named by the socket's own id;
  - everything emitted so far, `outbox`.

  `Valid` is the invariant every handler keeps:
  - `order` lists exactly the stored codes, each once;
  - every occupant of a room is in that room's group.
- `Server` (server.dfy) is the server as the source runs it. Class
  `RelayServer` has the four parts as fields. Its four handler methods,
  and `Connect` for a new connection, update them in place. Each method is proved to keep `Valid()` and to
  produce the state the matching `Rooms` function describes. The
  `disconnect` loop over the rooms, in Map order, is the method
  `SweepRooms`, proved with loop invariants against the functions `Kept`,
  `Remaining` and `Notices`.
- `RoomProperties` (properties.dfy) states what each handler delivers, and
  to whom, in terms of per-socket inboxes. It also states what a
  disconnect leaves behind, and follows whole sessions of the relay.

The model follows the handlers as written:

- `create-room` on a code already in use replaces the stored room. The
  code keeps its place in the Map order. The old occupants stay in the
  code's group.
- `join-room` tests for the room first and for a filled receiver second.
  A socket id is never the empty string, so the JavaScript truthiness test
  on `receiver` is `receiver.Some?`. Nothing stops the initiator from
  joining its own room as receiver.
- `signal` never consults the rooms Map. It reaches whoever is in the
  code's broadcast group.
- socket.io puts every socket, when it connects, into a group named by its
  own id (`OnConnect`). Socket ids and room codes name groups from one
  namespace. So a `signal`, a `peer-joined` or a `peer-disconnected`
  addressed to a code equal to a connected socket's id reaches that socket
  (`SignalToSocketId`).
- socket.io takes a disconnecting socket out of all its groups before the
  `disconnect` handler runs (`LeaveAll`). Groups are never removed when a
  room is deleted. So a receiver whose initiator left stays in the group,
  and it hears signals sent in a new room created later under the same
  code (`StaleMemberHearsNewRoom`).

## Model

| member | source | states |
|---|---|---|
| Rooms.OnConnect | backend/server.js:17 | a new connection changes no room, no order and no emission; it only adds the socket to the group named by its own id, and every other group is unchanged; `Valid` is preserved |
| Rooms.OnCreateRoom | backend/server.js:21-28 | the code maps to a room with the caller as initiator and no receiver, replacing any previous entry; every other code keeps its entry; the caller is added to the code's group and every other group is unchanged; `Valid` is preserved |
| Rooms.OnJoinRoom | backend/server.js:31-51 | the set of codes and the order never change, no initiator changes, a filled receiver slot is never reassigned, other codes keep their rooms, an empty slot is filled with the caller, and the groups of all other codes are unchanged; `Valid` is preserved |
| Rooms.OnSignal | backend/server.js:54-57 | rooms, order and groups are unchanged; exactly one `signal` carrying the payload unchanged is appended, and the sender is not among its recipients; `Valid` is preserved |
| Rooms.OnDisconnect | backend/server.js:60-72 | a code survives exactly when its room does not involve the socket; surviving rooms are unchanged, so no remaining room involves it; the socket leaves every group; earlier emissions are untouched; `Valid` is preserved |
| Rooms.DisconnectKeepsValid | backend/server.js:64-71 | deleting the rooms the socket occupied, keeping the other codes in Map order, and dropping the socket from every group yields a valid state from a valid one |
| Rooms.KeptMembers | backend/server.js:64-68 | the codes the loop keeps are exactly the visited codes whose rooms do not involve the socket, and they stay distinct |
| Rooms.DeletedMembers | backend/server.js:64-68 | the codes the loop deletes are exactly the visited codes whose rooms involve the socket, each at most once |
| Rooms.RemainingMembers | backend/server.js:64-68 | after the loop has visited a prefix of the codes, the map holds every room except those of the prefix that involve the socket, with their values unchanged |
| Rooms.NoticesShape | backend/server.js:64-67 | the loop emits one `peer-disconnected` per deleted code, in the same order, addressed to that code's group without the socket |
| Rooms.NothingDoomed | backend/server.js:64-65 | when no room involves the socket, the loop keeps every code and emits nothing |
| Rooms.SweepOrderStep | backend/server.js:64-68 | one loop step deletes the visited code from the Map's order exactly when its room involves the socket, and leaves the order alone otherwise |
| Rooms.RemainingAfterAll | backend/server.js:64-71 | after visiting every code, the map holds exactly the rooms that do not involve the socket, unchanged |
| Server.SweepRooms | backend/server.js:64-71 | the loop deletes exactly the rooms involving the socket and leaves the others unchanged; the Map order loses exactly those codes; the emissions are the `peer-disconnected` notices, in Map order |
| Server.SweepOne | backend/server.js:65-68 | one loop iteration advances the working map, order and emissions from their values after `i` codes to their values after `i + 1` codes |
| Server.RelayServer.constructor | backend/server.js:14 | the server starts with no rooms, no groups and no emissions, in a valid state |
| Server.RelayServer.Connect | backend/server.js:17 | the socket's own-id group update keeps `Valid()` and produces exactly `Rooms.OnConnect` of the old state |
| Server.RelayServer.CreateRoom | backend/server.js:21-28 | the in-place updates keep `Valid()` and produce exactly `Rooms.OnCreateRoom` of the old state |
| Server.RelayServer.JoinRoom | backend/server.js:31-51 | the in-place updates, with both early returns, keep `Valid()` and produce exactly `Rooms.OnJoinRoom` of the old state |
| Server.RelayServer.Signal | backend/server.js:54-57 | keeps `Valid()` and produces exactly `Rooms.OnSignal` of the old state |
| Server.RelayServer.Disconnect | backend/server.js:60-72 | removing the socket from its groups and then running the deletion loop keeps `Valid()` and produces exactly `Rooms.OnDisconnect` of the old state |
| Protocol.InboxAppend | backend/server.js:27 | about the delivery abstraction `Inbox` used for every `emit` of the handlers (this line is the first of them): what a socket receives from two batches of emissions is what it receives from the first, followed by what it receives from the second |
| Protocol.InboxGains | backend/server.js:67 | about the delivery abstraction `Inbox`, used here for the notices of the `disconnect` loop: appending emissions only extends what a socket has received, and adds the event of every appended emission addressed to it |
| RoomProperties.CreateRoomNotifies | backend/server.js:21-28 | `create-room` sends one `room-created` with the code to the caller, and nothing to anyone else |
| RoomProperties.JoinRoomNotFound | backend/server.js:32-37 | on an unknown code, rooms and groups are unchanged; the caller alone gets `join-error` "Room not found" |
| RoomProperties.JoinRoomFull | backend/server.js:39-42 | on a room with a receiver, rooms and groups are unchanged; the caller alone gets `join-error` "Room is full" |
| RoomProperties.JoinRoomSucceeds | backend/server.js:44-50 | on a room with an empty slot, the room becomes the same initiator with the caller as receiver; the caller joins the group and gets `joined-room`; every other group member gets `peer-joined`; non-members get nothing |
| RoomProperties.JoinNotifiesInitiator | backend/server.js:44-50 | in a valid state, when another socket joins, the room's initiator receives `peer-joined` |
| RoomProperties.SignalRelays | backend/server.js:54-57 | every socket other than the sender that is in the code's group receives `signal` with the payload unchanged; nobody else receives anything; this holds whether or not a room with that code exists |
| RoomProperties.SignalToSocketId | backend/server.js:54-57 | a `signal` whose `room` is the id of another connected socket delivers the payload to that socket, whether or not it occupies any room |
| RoomProperties.SignalsInOrder | backend/server.js:54-57 | two signals from the same sender reach a peer in the order sent |
| RoomProperties.DisconnectNotices | backend/server.js:60-72 | in a valid state, `disconnect` appends one `peer-disconnected` per deleted room, in Map order, to that room's group without the leaving socket; the deleted rooms are exactly those the socket occupied, each once |
| RoomProperties.DisconnectNotifiesPeer | backend/server.js:64-67 | in a valid state, the other occupant of every room the socket occupied keeps what it had received and then receives `peer-disconnected` |
| RoomProperties.NoticeReachesMember | backend/server.js:64-67 | every other member of the group of a deleted room receives `peer-disconnected`, after what it had already received |
| RoomProperties.DisconnectQuiet | backend/server.js:64-71 | a socket that occupies no room disconnects without changing the rooms, the order or the emissions |
| RoomProperties.DisconnectIdempotent | backend/server.js:60-72 | a second disconnect of the same socket changes nothing |
| RoomProperties.JoinAfterDisconnect | backend/server.js:32-37 | after a socket disconnects, a join on any room it occupied finds no room and gets "Room not found" |
| RoomProperties.DisconnectSoleRoom | backend/server.js:64-68 | a disconnect on a server holding one room that the socket occupies empties the map and sends one notice to that room's group |
| RoomProperties.CreateOnFreshServer | backend/server.js:21-28 | the first `create-room` on a fresh server stores one room, makes the caller the only group member, and only the caller receives anything |
| RoomProperties.SessionPaired | backend/server.js:21-51 | after create and join, the room holds both sockets and both are in its group; the initiator has received `room-created` then `peer-joined`, the receiver `joined-room`, a bystander nothing |
| RoomProperties.SessionOpening | backend/server.js:21-57 | a third socket is turned away with "Room is full", and the initiator's signal reaches the receiver alone |
| RoomProperties.Session | backend/server.js:21-72 | when the receiver disconnects, the initiator is told `peer-disconnected`, the map is empty, and the third socket's next join gets "Room not found" |
| RoomProperties.StaleMemberHearsNewRoom | backend/server.js:22-23 | the room is deleted when its initiator leaves; the receiver stays in the group, so it hears the signals of a room later created under the same code, whose slots it does not occupy |

## Left out

- The Express app, the HTTP server, the socket.io server with its CORS
  settings, and `server.listen` (backend/server.js:1-12, 75-77). This is
  library setup and I/O. Broadcast groups are modelled as a map from room
  code to a set of socket ids instead.
- `console.log` calls, which only write to the log.
- frontend/script.js is not part of this model. It covers:
  - the DOM;
  - the SimplePeer WebRTC handshake;
  - room codes generated with `Math.random()`;
  - the client's use of the event names `create` and `join`, while the
    server listens for `create-room` and `join-room`.
- Concurrency. Handlers run one at a time on the event loop, so each one is
  a single atomic step.
- Transport delivery. An emission is taken as delivered to every socket in
  its recipient set, in emission order. Whether a socket is still
  connected, network loss and timing are not modelled.
- Payload and room-code types. Both are strings here. The source accepts
  any JSON value and relays `data` unchanged.
- Rooms.OnSignal: the handler destructures its argument. A `signal` event
  sent with no argument or with `null` makes the listener throw a
  TypeError. socket.io runs listeners outside any try block, so the
  process exits and every room is lost. The model's `signal` always
  carries a room and a payload, so it cannot represent that input or the
  crash. The same holds for `Server.RelayServer.Signal`.
- Server.RelayServer.Connect: `socket.to(code)` leaves out every socket in
  the caller's own-id group. The model leaves out only the caller. The two
  differ only when another socket has joined a group named by the caller's
  id, by using that id as a room code in `create-room` or `join-room`.
  Nothing prevents that, and the model does not capture it.
- Tracking of connected sockets. Nothing in the model stops a
  disconnected id from sending events again.
- Server.RelayServer.Disconnect: the loop deletes rooms from a working copy
  of the map and order held by `SweepRooms`, which is written back to the
  fields when the handler ends. Deleting entries during iteration of the
  live Map is therefore captured only in its result. That is the same,
  because the handler is atomic and a deleted entry is never revisited.
- Rooms.LeaveAll stands for socket.io removing a disconnecting socket from
  all of its groups before the `disconnect` handler runs. It is a
  library behaviour, not a line of the source.
- The source does not reject a `create-room` on a code already in use, and
  `signal` checks no membership. The model follows the code in both cases
  and proves what then happens: `OnCreateRoom` overwrites, and
  `SignalRelays` holds with no precondition.
