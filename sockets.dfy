/**
 * The socket.io server as seen by the gateways: which sockets are connected,
 * which sockets are in which room, every event emitted (with the sockets it
 * reached), and every server-side `client.disconnect()`.
 *
 * Each socket is also a member of the room named by its own id, as socket.io
 * arranges on connection, so `server.to(clientId)` reaches exactly that socket.
 */
module Sockets {
  import opened Common

  /** Outbound event names. */
  datatype EventName = NotificationEvent | MessageEvent | NewAssignmentEvent | BroadcastEvent

  /** Outbound payloads: a plain string, a chat line, or an assignment notice. */
  datatype Payload =
    | Text(text: string)
    | ChatLine(sender: UserKey, content: string, createdAt: string)
    | Assignment(ticketId: string, message: string)

  /** `server.to(name)` or a server-wide `server.emit`. */
  datatype Target = Room(name: string) | Everyone

  /** One emitted event and the sockets it reached. */
  datatype Emission = Emission(target: Target, recipients: set<ClientId>, event: EventName, payload: Payload)

  /** The transport state. */
  datatype Io = Io(connected: set<ClientId>, rooms: map<string, set<ClientId>>,
                   log: seq<Emission>, closed: seq<ClientId>)

  /** The sockets in a room; an unknown room is empty. */
  function Members(rooms: map<string, set<ClientId>>, name: string): set<ClientId>
  {
    if name in rooms then rooms[name] else {}
  }

  /** A socket connects and is put in its own room. */
  function Admitted(io: Io, c: ClientId): (r: Io)
    ensures c in r.connected && c in Members(r.rooms, c)
    ensures r.connected == io.connected + {c}
    ensures Members(r.rooms, c) == Members(io.rooms, c) + {c}
    ensures forall n :: n != c ==> Members(r.rooms, n) == Members(io.rooms, n)
    ensures r.log == io.log && r.closed == io.closed
  {
    io.(connected := io.connected + {c}, rooms := io.rooms[c := Members(io.rooms, c) + {c}])
  }

  /** `client.join(room)`. */
  function Joined(io: Io, c: ClientId, room: string): (r: Io)
    ensures Members(r.rooms, room) == Members(io.rooms, room) + {c}
    ensures forall n :: n != room ==> Members(r.rooms, n) == Members(io.rooms, n)
    ensures r.connected == io.connected && r.log == io.log && r.closed == io.closed
  {
    io.(rooms := io.rooms[room := Members(io.rooms, room) + {c}])
  }

  /** `client.leave(room)`. */
  function LeftRoom(io: Io, c: ClientId, room: string): (r: Io)
    ensures Members(r.rooms, room) == Members(io.rooms, room) - {c}
    ensures forall n :: n != room ==> Members(r.rooms, n) == Members(io.rooms, n)
    ensures r.connected == io.connected && r.log == io.log && r.closed == io.closed
  {
    io.(rooms := io.rooms[room := Members(io.rooms, room) - {c}])
  }

  /** The emission `server.to(room).emit(event, payload)` makes: it reaches every socket in the room. */
  function ToRoom(rooms: map<string, set<ClientId>>, room: string, event: EventName, payload: Payload): Emission
  {
    Emission(Room(room), Members(rooms, room), event, payload)
  }

  /** `server.to(room).emit(event, payload)`. */
  function EmittedTo(io: Io, room: string, event: EventName, payload: Payload): (r: Io)
    ensures r.log == io.log + [ToRoom(io.rooms, room, event, payload)]
    ensures r.connected == io.connected && r.rooms == io.rooms && r.closed == io.closed
  {
    io.(log := io.log + [ToRoom(io.rooms, room, event, payload)])
  }

  /** `server.emit(event, payload)`: every connected socket. */
  function EmittedToAll(io: Io, event: EventName, payload: Payload): (r: Io)
    ensures r.log == io.log + [Emission(Everyone, io.connected, event, payload)]
    ensures r.connected == io.connected && r.rooms == io.rooms && r.closed == io.closed
  {
    io.(log := io.log + [Emission(Everyone, io.connected, event, payload)])
  }

  /**
   * `ids.forEach(id => server.to(id).emit(event, payload))`: one emission per
   * entry of `ids`, in list order, each to the room named by that entry.
   */
  function Deliveries(rooms: map<string, set<ClientId>>, ids: seq<ClientId>, event: EventName, payload: Payload): (r: seq<Emission>)
    ensures |r| == |ids|
    ensures forall k :: 0 <= k < |ids| ==> r[k] == ToRoom(rooms, ids[k], event, payload)
  {
    if ids == [] then [] else Deliveries(rooms, ids[..|ids| - 1], event, payload) + [ToRoom(rooms, ids[|ids| - 1], event, payload)]
  }

  /** Deliveries to a concatenation are the deliveries to each part, one after the other. */
  lemma DeliveriesAppend(rooms: map<string, set<ClientId>>, a: seq<ClientId>, b: seq<ClientId>, event: EventName, payload: Payload)
    ensures Deliveries(rooms, a + b, event, payload) == Deliveries(rooms, a, event, payload) + Deliveries(rooms, b, event, payload)
  {
    var l, r1, r2 := Deliveries(rooms, a + b, event, payload), Deliveries(rooms, a, event, payload), Deliveries(rooms, b, event, payload);
    assert |l| == |r1 + r2|;
    forall k | 0 <= k < |l| ensures l[k] == (r1 + r2)[k] {
      if k < |a| {
        assert (a + b)[k] == a[k];
      } else {
        assert (a + b)[k] == b[k - |a|];
      }
    }
  }

  /** Where each emission of a log was addressed. */
  function Targets(es: seq<Emission>): (r: seq<Target>)
    ensures |r| == |es| && forall k :: 0 <= k < |es| ==> r[k] == es[k].target
  {
    seq(|es|, k requires 0 <= k < |es| => es[k].target)
  }

  /** Each id receives as many deliveries as it occurs in the list: duplicates are delivered twice. */
  lemma {:induction false} DeliveriesPerId(rooms: map<string, set<ClientId>>, ids: seq<ClientId>, event: EventName, payload: Payload, x: ClientId)
    ensures multiset(Targets(Deliveries(rooms, ids, event, payload)))[Room(x)] == multiset(ids)[x]
  {
    if ids != [] {
      var init := ids[..|ids| - 1];
      var last := ids[|ids| - 1];
      DeliveriesPerId(rooms, init, event, payload, x);
      assert ids == init + [last];
      var d := Deliveries(rooms, ids, event, payload);
      assert Targets(d) == Targets(Deliveries(rooms, init, event, payload)) + [Room(last)];
    }
  }

  /** The transport's own teardown of a socket: it is no longer connected and is in no room. */
  function TornDown(io: Io, c: ClientId): (r: Io)
    ensures c !in r.connected && forall n :: c !in Members(r.rooms, n)
    ensures r.connected == io.connected - {c}
    ensures forall n :: Members(r.rooms, n) == Members(io.rooms, n) - {c}
    ensures r.log == io.log && r.closed == io.closed
  {
    io.(connected := io.connected - {c}, rooms := map n | n in io.rooms :: io.rooms[n] - {c})
  }

  /** `client.disconnect()` from the server side: recorded, and the socket is torn down. */
  function Closed(io: Io, c: ClientId): (r: Io)
    ensures r.closed == io.closed + [c] && r.log == io.log
    ensures c !in r.connected && forall n :: c !in Members(r.rooms, n)
    ensures r.connected == io.connected - {c}
    ensures forall n :: Members(r.rooms, n) == Members(io.rooms, n) - {c}
  {
    TornDown(io, c).(closed := io.closed + [c])
  }

  /**
   * An emission made right after the close does not reach the closed socket:
   * it is in no room. Only a later join puts it back in a room.
   */
  lemma ClosedSocketReceivesNothing(io: Io, c: ClientId, room: string, event: EventName, payload: Payload)
    ensures c !in ToRoom(Closed(io, c).rooms, room, event, payload).recipients
    ensures c !in Closed(io, c).connected
  {
  }

  /** The socket.io server object. */
  class SocketServer {
    var connected: set<ClientId>
    var rooms: map<string, set<ClientId>>
    var log: seq<Emission>
    var closed: seq<ClientId>

    constructor ()
      ensures Snapshot() == Io({}, map[], [], [])
    {
      connected, rooms, log, closed := {}, map[], [], [];
    }

    function Snapshot(): Io
      reads this
    {
      Io(connected, rooms, log, closed)
    }

    method Admit(c: ClientId)
      modifies this
      ensures Snapshot() == Admitted(old(Snapshot()), c)
    {
      connected := connected + {c};
      rooms := rooms[c := Members(rooms, c) + {c}];
    }

    method Join(c: ClientId, room: string)
      modifies this
      ensures Snapshot() == Joined(old(Snapshot()), c, room)
    {
      rooms := rooms[room := Members(rooms, room) + {c}];
    }

    method Leave(c: ClientId, room: string)
      modifies this
      ensures Snapshot() == LeftRoom(old(Snapshot()), c, room)
    {
      rooms := rooms[room := Members(rooms, room) - {c}];
    }

    method EmitTo(room: string, event: EventName, payload: Payload)
      modifies this
      ensures Snapshot() == EmittedTo(old(Snapshot()), room, event, payload)
    {
      log := log + [ToRoom(rooms, room, event, payload)];
    }

    method EmitAll(event: EventName, payload: Payload)
      modifies this
      ensures Snapshot() == EmittedToAll(old(Snapshot()), event, payload)
    {
      log := log + [Emission(Everyone, connected, event, payload)];
    }

    /** `ids.forEach(id => server.to(id).emit(event, payload))`. */
    method EmitToEach(ids: seq<ClientId>, event: EventName, payload: Payload)
      modifies this
      ensures Snapshot() == old(Snapshot()).(log := old(log) + Deliveries(old(rooms), ids, event, payload))
    {
      var j := 0;
      while j < |ids|
        invariant 0 <= j <= |ids|
        invariant Snapshot() == old(Snapshot()).(log := old(log) + Deliveries(old(rooms), ids[..j], event, payload))
      {
        EmitTo(ids[j], event, payload);
        assert ids[..j + 1][..j] == ids[..j];
        j := j + 1;
      }
      assert ids[..j] == ids;
    }

    method Cleanup(c: ClientId)
      modifies this
      ensures Snapshot() == TornDown(old(Snapshot()), c)
    {
      connected := connected - {c};
      rooms := map n | n in rooms :: rooms[n] - {c};
    }

    method Disconnect(c: ClientId)
      modifies this
      ensures Snapshot() == Closed(old(Snapshot()), c)
    {
      Cleanup(c);
      closed := closed + [c];
    }
  }
}
