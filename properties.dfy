/**
 * What each handler delivers, and to whom, stated over the per-socket inbox;
 * what a disconnect leaves behind; and whole sessions of the relay.
 */
module RoomProperties {
  import opened Protocol
  import opened Rooms

  /** `create-room` sends exactly one `room-created`, to the caller alone. */
  lemma CreateRoomNotifies(st: State, caller: SocketId, code: RoomCode)
    ensures var r := OnCreateRoom(st, caller, code);
      && Inbox(r.outbox, caller) == Inbox(st.outbox, caller) + [RoomCreated(code)]
      && forall p :: p != caller ==> Inbox(r.outbox, p) == Inbox(st.outbox, p)
  {
    forall p {
      InboxAppendOne(st.outbox, Emission({caller}, RoomCreated(code)), p);
    }
  }

  /** `join-room` on an unknown code: "Room not found" to the caller only,
      and neither the rooms nor the groups change. */
  lemma JoinRoomNotFound(st: State, caller: SocketId, code: RoomCode)
    requires code !in st.rooms
    ensures var r := OnJoinRoom(st, caller, code);
      && r.rooms == st.rooms && r.groups == st.groups
      && Inbox(r.outbox, caller) == Inbox(st.outbox, caller) + [JoinError(RoomNotFound)]
      && forall p :: p != caller ==> Inbox(r.outbox, p) == Inbox(st.outbox, p)
  {
    forall p {
      InboxAppendOne(st.outbox, Emission({caller}, JoinError(RoomNotFound)), p);
    }
  }

  /** `join-room` on a room whose receiver slot is taken: "Room is full" to
      the caller only, and neither the rooms nor the groups change. */
  lemma JoinRoomFull(st: State, caller: SocketId, code: RoomCode)
    requires code in st.rooms && st.rooms[code].receiver.Some?
    ensures var r := OnJoinRoom(st, caller, code);
      && r.rooms == st.rooms && r.groups == st.groups
      && Inbox(r.outbox, caller) == Inbox(st.outbox, caller) + [JoinError(RoomIsFull)]
      && forall p :: p != caller ==> Inbox(r.outbox, p) == Inbox(st.outbox, p)
  {
    forall p {
      InboxAppendOne(st.outbox, Emission({caller}, JoinError(RoomIsFull)), p);
    }
  }

  /** A successful `join-room`: the caller fills the receiver slot under the
      same initiator and joins the group; it is sent `joined-room`, every
      other group member `peer-joined`, and nobody else anything. */
  lemma JoinRoomSucceeds(st: State, caller: SocketId, code: RoomCode)
    requires code in st.rooms && st.rooms[code].receiver.None?
    ensures var r := OnJoinRoom(st, caller, code);
      && r.rooms[code] == Room(st.rooms[code].initiator, Some(caller))
      && Group(r.groups, code) == Group(st.groups, code) + {caller}
      && Inbox(r.outbox, caller) == Inbox(st.outbox, caller) + [JoinedRoom(code)]
      && (forall p :: p != caller && p in Group(st.groups, code) ==>
            Inbox(r.outbox, p) == Inbox(st.outbox, p) + [PeerJoined(code)])
      && (forall p :: p != caller && p !in Group(st.groups, code) ==>
            Inbox(r.outbox, p) == Inbox(st.outbox, p))
  {
    var r := OnJoinRoom(st, caller, code);
    var groups := JoinGroup(st.groups, code, caller);
    var e1 := Emission({caller}, JoinedRoom(code));
    var e2 := Emission(Group(groups, code) - {caller}, PeerJoined(code));
    assert r.outbox == (st.outbox + [e1]) + [e2];
    assert e2.to == Group(st.groups, code) - {caller};
    forall p
      ensures Inbox(r.outbox, p) == Inbox(st.outbox, p)
        + (if p == caller then [JoinedRoom(code)] else [])
        + (if p in e2.to then [PeerJoined(code)] else [])
    {
      InboxAppendOne(st.outbox, e1, p);
      InboxAppendOne(st.outbox + [e1], e2, p);
    }
  }

  /** In a valid state the initiator is in the group, so a successful join by
      another socket tells the initiator `peer-joined`. */
  lemma JoinNotifiesInitiator(st: State, caller: SocketId, code: RoomCode)
    requires Valid(st)
    requires code in st.rooms && st.rooms[code].receiver.None?
    requires st.rooms[code].initiator != caller
    ensures var initiator := st.rooms[code].initiator;
      Inbox(OnJoinRoom(st, caller, code).outbox, initiator)
        == Inbox(st.outbox, initiator) + [PeerJoined(code)]
  {
    assert Seated(st, code);
    JoinRoomSucceeds(st, caller, code);
  }

  /** `signal` delivers `data` unchanged to every member of the room's group
      but the sender, and nothing to anyone else, whether or not a room with
      that code exists. */
  lemma SignalRelays(st: State, sender: SocketId, room: RoomCode, data: Payload)
    ensures var r := OnSignal(st, sender, room, data);
      forall p :: Inbox(r.outbox, p) == Inbox(st.outbox, p)
        + (if p != sender && p in Group(st.groups, room) then [Signal(data)] else [])
  {
    forall p {
      InboxAppendOne(st.outbox, Emission(Group(st.groups, room) - {sender}, Signal(data)), p);
    }
  }

  /** The `room` of a `signal` may be another socket's id: once that socket
      has connected, it receives the payload, whether or not it occupies any
      room. */
  lemma SignalToSocketId(st: State, p: SocketId, sender: SocketId, data: Payload)
    requires p != sender
    ensures var r := OnSignal(OnConnect(st, p), sender, p, data);
      Inbox(r.outbox, p) == Inbox(st.outbox, p) + [Signal(data)]
  {
    var c := OnConnect(st, p);
    SignalRelays(c, sender, p, data);
  }

  /** Two signals from the same sender reach a peer in the order sent. */
  lemma SignalsInOrder(st: State, sender: SocketId, room: RoomCode, m1: Payload, m2: Payload, peer: SocketId)
    requires peer != sender && peer in Group(st.groups, room)
    ensures var r := OnSignal(OnSignal(st, sender, room, m1), sender, room, m2);
      Inbox(r.outbox, peer) == Inbox(st.outbox, peer) + [Signal(m1), Signal(m2)]
  {
    var mid := OnSignal(st, sender, room, m1);
    SignalRelays(st, sender, room, m1);
    SignalRelays(mid, sender, room, m2);
  }

  /** `disconnect` appends one `peer-disconnected` per deleted room, in map
      order, to that room's group without the leaving socket; the deleted
      rooms are exactly those the socket occupied, each listed once. */
  lemma DisconnectNotices(st: State, s: SocketId)
    requires Valid(st)
    ensures var r, d := OnDisconnect(st, s), Deleted(st.order, |st.order|, st.rooms, s);
      && |r.outbox| == |st.outbox| + |d|
      && (forall i :: 0 <= i < |d| ==>
            r.outbox[|st.outbox| + i] == Emission(Group(st.groups, d[i]) - {s}, PeerDisconnected))
      && (forall k :: k in d <==> k in st.rooms && Involved(st.rooms[k], s))
      && Distinct(d)
  {
    var groups := LeaveAll(st.groups, s);
    assert st.order[..|st.order|] == st.order;
    NoticesShape(st.order, |st.order|, st.rooms, groups, s);
    DeletedMembers(st.order, |st.order|, st.rooms, s);
  }

  /** The other occupant of every room a socket leaves is told
      `peer-disconnected`. */
  lemma DisconnectNotifiesPeer(st: State, s: SocketId, code: RoomCode, peer: SocketId)
    requires Valid(st)
    requires code in st.rooms && Involved(st.rooms[code], s)
    requires peer != s
    requires peer == st.rooms[code].initiator || st.rooms[code].receiver == Some(peer)
    ensures var before, after := Inbox(st.outbox, peer), Inbox(OnDisconnect(st, s).outbox, peer);
      && |before| <= |after| && after[..|before|] == before
      && PeerDisconnected in after[|before|..]
  {
    assert code in st.order && Seated(st, code);
    NoticeReachesMember(st, s, code, peer);
  }

  /** The `peer-disconnected` notice for a listed room the leaving socket
      occupies reaches every other member of that room's group. */
  lemma NoticeReachesMember(st: State, s: SocketId, code: RoomCode, peer: SocketId)
    requires code in st.rooms && code in st.order && Involved(st.rooms[code], s)
    requires peer != s && peer in Group(st.groups, code)
    ensures var before, after := Inbox(st.outbox, peer), Inbox(OnDisconnect(st, s).outbox, peer);
      && |before| <= |after| && after[..|before|] == before
      && PeerDisconnected in after[|before|..]
  {
    var groups := LeaveAll(st.groups, s);
    var n := Notices(st.order, |st.order|, st.rooms, groups, s);
    var d := Deleted(st.order, |st.order|, st.rooms, s);
    assert OnDisconnect(st, s).outbox == st.outbox + n;
    assert st.order[..|st.order|] == st.order;
    DeletedMembers(st.order, |st.order|, st.rooms, s);
    var i :| 0 <= i < |d| && d[i] == code;
    NoticesShape(st.order, |st.order|, st.rooms, groups, s);
    assert n[i] == Emission(Group(groups, code) - {s}, PeerDisconnected);
    InboxGains(st.outbox, n, i, peer);
  }

  /** A socket that occupies no room disconnects without deleting a room or
      sending anything. */
  lemma DisconnectQuiet(st: State, s: SocketId)
    requires forall k :: k in st.rooms ==> !Involved(st.rooms[k], s)
    ensures var r := OnDisconnect(st, s);
      r.rooms == st.rooms && r.order == st.order && r.outbox == st.outbox
  {
    NothingDoomed(st.order, |st.order|, st.rooms, LeaveAll(st.groups, s), s);
    assert st.order[..|st.order|] == st.order;
    assert OnDisconnect(st, s).rooms == st.rooms;
  }

  /** A second disconnect of the same socket changes nothing. */
  lemma DisconnectIdempotent(st: State, s: SocketId)
    ensures OnDisconnect(OnDisconnect(st, s), s) == OnDisconnect(st, s)
  {
    var r := OnDisconnect(st, s);
    DisconnectQuiet(r, s);
    forall c | c in r.groups
      ensures LeaveAll(r.groups, s)[c] == r.groups[c]
    {
      assert r.groups[c] == st.groups[c] - {s};
    }
    assert LeaveAll(r.groups, s) == r.groups;
  }

  /** Once a socket has disconnected, joining any room it occupied fails with
      "Room not found". */
  lemma JoinAfterDisconnect(st: State, s: SocketId, code: RoomCode, caller: SocketId)
    requires code in st.rooms && Involved(st.rooms[code], s)
    ensures var r := OnDisconnect(st, s);
      var j := OnJoinRoom(r, caller, code);
      && code !in r.rooms
      && j.rooms == r.rooms
      && Inbox(j.outbox, caller) == Inbox(r.outbox, caller) + [JoinError(RoomNotFound)]
  {
    JoinRoomNotFound(OnDisconnect(st, s), caller, code);
  }

  /** A disconnect from a server holding a single room that the socket
      occupies empties the map and sends one notice to that room's group. */
  lemma DisconnectSoleRoom(st: State, s: SocketId, code: RoomCode)
    requires st.order == [code] && st.rooms.Keys == {code} && Involved(st.rooms[code], s)
    ensures var r := OnDisconnect(st, s);
      && r.rooms == map[]
      && r.outbox == st.outbox + [Emission(Group(st.groups, code) - {s}, PeerDisconnected)]
  {
    var groups := LeaveAll(st.groups, s);
    assert Group(groups, code) - {s} == Group(st.groups, code) - {s};
    assert Notices(st.order, 1, st.rooms, groups, s)
        == [Emission(Group(st.groups, code) - {s}, PeerDisconnected)];
  }

  /** The first `create-room` on a fresh server. */
  lemma CreateOnFreshServer(a: SocketId, code: RoomCode)
    ensures var s1 := OnCreateRoom(Init, a, code);
      && s1.rooms == map[code := Room(a, None)]
      && s1.order == [code]
      && Group(s1.groups, code) == {a}
      && Inbox(s1.outbox, a) == [RoomCreated(code)]
      && forall p :: p != a ==> Inbox(s1.outbox, p) == []
  {
    CreateRoomNotifies(Init, a, code);
  }

  /** A session begins: `a` creates room "ABCDE" and `b` joins it. */
  lemma SessionPaired(a: SocketId, b: SocketId, c: SocketId)
    requires a != b && b != c && a != c
    ensures var code := "ABCDE";
      var s2 := OnJoinRoom(OnCreateRoom(Init, a, code), b, code);
      && s2.rooms == map[code := Room(a, Some(b))]
      && s2.order == [code]
      && Group(s2.groups, code) == {a, b}
      && Inbox(s2.outbox, a) == [RoomCreated(code), PeerJoined(code)]
      && Inbox(s2.outbox, b) == [JoinedRoom(code)]
      && Inbox(s2.outbox, c) == []
  {
    var code := "ABCDE";
    CreateOnFreshServer(a, code);
    JoinRoomSucceeds(OnCreateRoom(Init, a, code), b, code);
  }

  /** The session goes on: a third socket `c` is turned away because the
      room is full, and `a` sends `offer`, which reaches `b` alone. */
  lemma SessionOpening(a: SocketId, b: SocketId, c: SocketId, offer: Payload)
    requires a != b && b != c && a != c
    ensures var code := "ABCDE";
      var s4 := OnSignal(OnJoinRoom(OnJoinRoom(OnCreateRoom(Init, a, code), b, code), c, code), a, code, offer);
      && s4.rooms == map[code := Room(a, Some(b))]
      && s4.order == [code]
      && Group(s4.groups, code) == {a, b}
      && Inbox(s4.outbox, a) == [RoomCreated(code), PeerJoined(code)]
      && Inbox(s4.outbox, b) == [JoinedRoom(code), Signal(offer)]
      && Inbox(s4.outbox, c) == [JoinError(RoomIsFull)]
  {
    var code := "ABCDE";
    var s2 := OnJoinRoom(OnCreateRoom(Init, a, code), b, code);
    SessionPaired(a, b, c);
    var s3 := OnJoinRoom(s2, c, code);
    JoinRoomFull(s2, c, code);
    SignalRelays(s3, a, code, offer);
  }

  /** A full session: after the opening, `b` disconnects, `a` is told, and
      `c`'s next join finds no room. */
  lemma Session(a: SocketId, b: SocketId, c: SocketId, offer: Payload)
    requires a != b && b != c && a != c
    ensures var code := "ABCDE";
      var s4 := OnSignal(OnJoinRoom(OnJoinRoom(OnCreateRoom(Init, a, code), b, code), c, code), a, code, offer);
      var s6 := OnJoinRoom(OnDisconnect(s4, b), c, code);
      && s6.rooms == map[]
      && Inbox(s6.outbox, a) == [RoomCreated(code), PeerJoined(code), PeerDisconnected]
      && Inbox(s6.outbox, b) == [JoinedRoom(code), Signal(offer)]
      && Inbox(s6.outbox, c) == [JoinError(RoomIsFull), JoinError(RoomNotFound)]
  {
    var code := "ABCDE";
    var s4 := OnSignal(OnJoinRoom(OnJoinRoom(OnCreateRoom(Init, a, code), b, code), c, code), a, code, offer);
    SessionOpening(a, b, c, offer);
    var s5 := OnDisconnect(s4, b);
    DisconnectSoleRoom(s4, b, code);
    var bye := Emission(Group(s4.groups, code) - {b}, PeerDisconnected);
    assert bye.to == {a};
    InboxAppendOne(s4.outbox, bye, a);
    InboxAppendOne(s4.outbox, bye, b);
    InboxAppendOne(s4.outbox, bye, c);
    JoinRoomNotFound(s5, c, code);
  }

  /** Broadcast groups outlive their rooms. When initiator `a` of a full
      room leaves, the room is deleted but receiver `b` stays in the group;
      if `c` then creates a room under the same code, `b` occupies neither
      of its slots yet receives its signals. */
  lemma StaleMemberHearsNewRoom(st: State, a: SocketId, b: SocketId, c: SocketId,
                                code: RoomCode, data: Payload)
    requires code in st.rooms && st.rooms[code] == Room(a, Some(b))
    requires b in Group(st.groups, code)
    requires a != b && c != b
    ensures var s1 := OnDisconnect(st, a);
      var s3 := OnSignal(OnCreateRoom(s1, c, code), c, code, data);
      && code !in s1.rooms
      && s3.rooms[code] == Room(c, None)
      && Inbox(s3.outbox, b) == Inbox(s1.outbox, b) + [Signal(data)]
  {
    var s1 := OnDisconnect(st, a);
    assert b in Group(s1.groups, code);
    var s2 := OnCreateRoom(s1, c, code);
    CreateRoomNotifies(s1, c, code);
    SignalRelays(s2, c, code, data);
  }
}
