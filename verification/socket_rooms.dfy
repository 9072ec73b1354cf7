/** The socket.io room adapter of the `/stream` namespace, as the gateway
    relies on it: which live connection is in which rooms, and the three
    addressing forms the gateway emits through. A room is named by a
    string; every connection starts out in the room named by its own id,
    which is what makes addressing a single connection by id work. */
module SocketRooms {

  type ConnId = string
  type Room = string

  /** Live connection -> the rooms it is in. A connection absent from the
      map is not connected. */
  type Rooms = map<ConnId, set<Room>>

  /** Every live connection that is in room `room`. */
  function Members(rooms: Rooms, room: Room): set<ConnId> {
    set c | c in rooms && room in rooms[c]
  }

  /** True iff the room named by `c` holds `c` and nobody else, so that
      addressing `c` by id reaches exactly `c`. */
  predicate OwnRoomIntact(rooms: Rooms, c: ConnId) {
    && c in rooms
    && c in rooms[c]
    && forall d :: d in rooms && d != c ==> c !in rooms[d]
  }

  /** A new connection `c`: it is live and in its own room only. */
  function Connect(rooms: Rooms, c: ConnId): (r: Rooms)
    requires c !in rooms
    ensures r.Keys == rooms.Keys + {c}
    ensures forall x :: x in rooms ==> r[x] == rooms[x]
    ensures OwnRoomIntact(r, c) <==> (forall d :: d in rooms ==> c !in rooms[d])
  {
    rooms[c := {c}]
  }

  /** `client.join(room)`: `c` is added to `room`; nothing else changes. */
  function Join(rooms: Rooms, c: ConnId, room: Room): (r: Rooms)
    requires c in rooms
    ensures r.Keys == rooms.Keys
    ensures r[c] == rooms[c] + {room}
    ensures forall x :: x in rooms && x != c ==> r[x] == rooms[x]
  {
    rooms[c := rooms[c] + {room}]
  }

  /** `client.leave(room)`: `c` is taken out of `room` (nothing happens if
      it was not in it); nothing else changes. */
  function Leave(rooms: Rooms, c: ConnId, room: Room): (r: Rooms)
    requires c in rooms
    ensures r.Keys == rooms.Keys
    ensures r[c] == rooms[c] - {room}
    ensures forall x :: x in rooms && x != c ==> r[x] == rooms[x]
  {
    rooms[c := rooms[c] - {room}]
  }

  /** Transport disconnect: `c` is no longer live and leaves every room.
      Disconnecting a connection that is not live changes nothing. */
  function Disconnect(rooms: Rooms, c: ConnId): (r: Rooms)
    ensures r.Keys == rooms.Keys - {c}
    ensures forall x :: x in r ==> r[x] == rooms[x]
  {
    rooms - {c}
  }

  /** Seen from the rooms: a connect adds the new connection to its own
      room and to no other; a join adds `c` to `room` only; a leave
      removes `c` from `room` only; a disconnect removes `c` from every
      room. */
  lemma MembershipChanges(rooms: Rooms, c: ConnId, room: Room, q: Room)
    ensures c !in rooms ==>
              Members(Connect(rooms, c), q) == Members(rooms, q) + (if q == c then {c} else {})
    ensures c in rooms ==>
              Members(Join(rooms, c, room), q) ==
                (if q == room then Members(rooms, q) + {c} else Members(rooms, q))
    ensures c in rooms ==>
              Members(Leave(rooms, c, room), q) ==
                (if q == room then Members(rooms, q) - {c} else Members(rooms, q))
    ensures Members(Disconnect(rooms, c), q) == Members(rooms, q) - {c}
  {
  }

  /** `server.to(room)`: every live member of the room, the sender
      included. */
  function ServerTo(rooms: Rooms, room: Room): (r: set<ConnId>)
    ensures r <= rooms.Keys
    ensures forall x :: x in rooms ==> (x in r <==> room in rooms[x])
  {
    Members(rooms, room)
  }

  /** `client.to(room)` from `sender`: the members of the room, except
      every connection in the room named by the sender's id. While that
      room holds only the sender, this is the room minus the sender; a
      sender that has left its own room is not excluded, and a connection
      that has joined a room named by the sender's id is. */
  function ClientTo(rooms: Rooms, sender: ConnId, room: Room): (r: set<ConnId>)
    ensures r <= ServerTo(rooms, room)
    ensures forall x :: x in ServerTo(rooms, room) ==> (x in r <==> sender !in rooms[x])
    ensures sender in rooms && sender in rooms[sender] ==> sender !in r
    ensures OwnRoomIntact(rooms, sender) ==> r == ServerTo(rooms, room) - {sender}
  {
    Members(rooms, room) - Members(rooms, sender)
  }

  /** `server.emit`: every live connection of the namespace, whatever
      rooms it is in. */
  function ServerEmit(rooms: Rooms): (r: set<ConnId>)
    ensures forall x :: x in r <==> x in rooms
    ensures forall room :: ServerTo(rooms, room) <= r
  {
    rooms.Keys
  }

  /** Addressing one connection by its id, with its own room intact:
      `server.to(c)` reaches exactly `c`; `client.to(c)` reaches `c`
      unless `c` is in the room named by the sender's id, which it always
      is when it is the sender itself. */
  lemma AddressById(rooms: Rooms, sender: ConnId, c: ConnId)
    requires OwnRoomIntact(rooms, c)
    ensures ServerTo(rooms, c) == {c}
    ensures ClientTo(rooms, sender, c) == if sender in rooms[c] then {} else {c}
    ensures sender == c ==> ClientTo(rooms, sender, c) == {}
  {
    assert c in Members(rooms, c);
  }

  /** Leaving a room one had just joined restores the adapter, provided
      the connection was not in that room before. */
  lemma LeaveUndoesJoin(rooms: Rooms, c: ConnId, room: Room)
    requires c in rooms && room !in rooms[c]
    ensures Leave(Join(rooms, c, room), c, room) == rooms
  {
    assert rooms[c] + {room} - {room} == rooms[c];
  }
}
