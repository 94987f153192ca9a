/**
 * The vocabulary of the signaling relay: socket and room identifiers, the
 * events the server emits, and what each socket ends up receiving.
 */
module Protocol {

  /** A socket.io connection id (opaque, unique per live connection). */
  type SocketId = string

  /** A room code chosen by the client; the server treats it as an opaque key. */
  type RoomCode = string

  /** The `data` field of a `signal` message, relayed without inspection. */
  type Payload = string

  datatype Option<T> = None | Some(value: T)

  /** The value stored in the `rooms` map: `{initiator, receiver}`, where a
      JavaScript `null` receiver is `None`. */
  datatype Room = Room(initiator: SocketId, receiver: Option<SocketId>)

  /** Server-to-client events. */
  datatype Event =
    | RoomCreated(code: RoomCode)
    | JoinError(message: string)
    | JoinedRoom(code: RoomCode)
    | PeerJoined(code: RoomCode)
    | Signal(data: Payload)
    | PeerDisconnected

  const RoomNotFound: string := "Room not found"
  const RoomIsFull: string := "Room is full"

  /** One `emit` call: the event and the set of sockets it is delivered to.
      `socket.emit` reaches the caller alone; `socket.to(code).emit` reaches
      every member of the code's broadcast group except the caller. */
  datatype Emission = Emission(to: set<SocketId>, event: Event)

  /** True when socket `s` holds either slot of room `r`. */
  predicate Involved(r: Room, s: SocketId) {
    r.initiator == s || r.receiver == Some(s)
  }

  /** The members of broadcast group `code` (no entry means nobody). */
  function Group(groups: map<RoomCode, set<SocketId>>, code: RoomCode): set<SocketId> {
    if code in groups then groups[code] else {}
  }

  /** The events socket `p` receives from the emissions `out`, in order. */
  function Inbox(out: seq<Emission>, p: SocketId): seq<Event> {
    if out == [] then []
    else (if p in out[0].to then [out[0].event] else []) + Inbox(out[1..], p)
  }

  /** Delivery is compositional: what `p` receives from two batches of
      emissions is what it receives from the first, then from the second. */
  lemma {:induction false} InboxAppend(a: seq<Emission>, b: seq<Emission>, p: SocketId)
    ensures Inbox(a + b, p) == Inbox(a, p) + Inbox(b, p)
  {
    if a == [] {
      assert a + b == b;
    } else {
      assert (a + b)[0] == a[0] && (a + b)[1..] == a[1..] + b;
      InboxAppend(a[1..], b, p);
      assert Inbox(a + b, p) == (if p in a[0].to then [a[0].event] else []) + Inbox(a[1..] + b, p);
    }
  }

  /** Appending one emission adds its event to `p`'s inbox exactly when `p`
      is among its recipients. */
  lemma InboxAppendOne(out: seq<Emission>, e: Emission, p: SocketId)
    ensures Inbox(out + [e], p) == Inbox(out, p) + (if p in e.to then [e.event] else [])
  {
    InboxAppend(out, [e], p);
  }

  /** A batch of emissions appended to `out` extends what `p` receives, and
      `p` receives the event of every emission of the batch addressed to it. */
  lemma InboxGains(out: seq<Emission>, batch: seq<Emission>, i: nat, p: SocketId)
    requires i < |batch| && p in batch[i].to
    ensures var before, after := Inbox(out, p), Inbox(out + batch, p);
      && |before| <= |after| && after[..|before|] == before
      && batch[i].event in after[|before|..]
  {
    InboxAppend(out, batch, p);
    InboxHas(batch, i, p);
    var before, after := Inbox(out, p), Inbox(out + batch, p);
    assert after[|before|..] == Inbox(batch, p);
  }

  /** A socket that is a recipient of some emission receives its event. */
  lemma {:induction false} InboxHas(out: seq<Emission>, i: nat, p: SocketId)
    requires i < |out| && p in out[i].to
    ensures out[i].event in Inbox(out, p)
  {
    if i > 0 {
      InboxHas(out[1..], i - 1, p);
    }
  }
}
