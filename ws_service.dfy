/**
 * `WsService`: the HTTP-facing companion of the socket gateway. It writes
 * the user status column on connect/disconnect requests and pushes events
 * through the gateway's server.
 */
module WsService {
  import opened Common
  import opened Sockets
  import opened ClientRegistry
  import opened Users
  import opened WebSocketGateway

  function ConnectText(email: string): string
  {
    "User " + email + " is ready to connect."
  }

  function DisconnectText(userId: UserId): string
  {
    "User with ID " + userId + " disconnected."
  }

  /** A user the gateway has never registered receives nothing from `sendMessageToUser`. */
  lemma UnknownUserGetsNothing(m: Registry, rooms: map<string, set<ClientId>>, u: UserId, message: string)
    requires Some(u) !in m
    ensures Deliveries(rooms, ClientIds(m, Some(u)), MessageEvent, Text(message)) == []
  {
  }

  /**
   * Registering the same socket id twice for a user (the registry does not
   * deduplicate) makes `sendMessageToUser` deliver to that socket two more
   * times than before, while every other socket's count is unchanged.
   */
  lemma DuplicateRegistrationDuplicatesDelivery(m: Registry, rooms: map<string, set<ClientId>>, u: UserId, c: ClientId, x: ClientId, message: string)
    ensures var before := Deliveries(rooms, ClientIds(m, Some(u)), MessageEvent, Text(message));
      var after := Deliveries(rooms, ClientIds(WithClient(WithClient(m, Some(u), c), Some(u), c), Some(u)), MessageEvent, Text(message));
      multiset(Targets(after))[Room(x)] == multiset(Targets(before))[Room(x)] + (if x == c then 2 else 0)
  {
    var ids := ClientIds(m, Some(u));
    var twice := ClientIds(WithClient(WithClient(m, Some(u), c), Some(u), c), Some(u));
    assert twice == ids + [c] + [c];
    DeliveriesPerId(rooms, ids, MessageEvent, Text(message), x);
    DeliveriesPerId(rooms, twice, MessageEvent, Text(message), x);
  }

  class WsService {
    const gateway: WebSocketGate
    const users: UserStatusStore

    constructor (gateway: WebSocketGate, users: UserStatusStore)
      ensures this.gateway == gateway && this.users == users
    {
      this.gateway := gateway;
      this.users := users;
    }

    /** `connect`: writes Online; the promise rejects when the write does. */
    method Connect(userId: UserId, email: string, role: string, saved: bool) returns (r: Reply<string>)
      modifies users
      ensures users.status == StatusAfter(old(users.status), Some(userId), Online, saved)
      ensures r == if saved then Resolved(ConnectText(email)) else Rejected
      ensures gateway.userClientMap == old(gateway.userClientMap)
    {
      users.UpdateUserStatus(Some(userId), Online, saved);
      if saved {
        r := Resolved(ConnectText(email));
      } else {
        r := Rejected;
      }
    }

    /** `disconnect`: writes Offline; the promise rejects when the write does. */
    method Disconnect(userId: UserId, saved: bool) returns (r: Reply<string>)
      modifies users
      ensures users.status == StatusAfter(old(users.status), Some(userId), Offline, saved)
      ensures r == if saved then Resolved(DisconnectText(userId)) else Rejected
      ensures gateway.userClientMap == old(gateway.userClientMap)
    {
      users.UpdateUserStatus(Some(userId), Offline, saved);
      if saved {
        r := Resolved(DisconnectText(userId));
      } else {
        r := Rejected;
      }
    }

    /** `broadcastMessage`: one server-wide `broadcast` event carrying the message. */
    method BroadcastMessage(message: string)
      modifies gateway.server
      ensures gateway.server.Snapshot() == EmittedToAll(old(gateway.server.Snapshot()), BroadcastEvent, Text(message))
    {
      gateway.server.EmitAll(BroadcastEvent, Text(message));
    }

    /** `sendMessageToUser`: one `message` event per registered id of the user, in list order. */
    method SendMessageToUser(userId: UserId, message: string)
      modifies gateway.server
      ensures gateway.server.Snapshot() ==
              old(gateway.server.Snapshot()).(log := old(gateway.server.log) +
                Deliveries(old(gateway.server.rooms), gateway.GetUserClientIds(Some(userId)), MessageEvent, Text(message)))
      ensures gateway.userClientMap == old(gateway.userClientMap)
    {
      var clientIds := gateway.GetUserClientIds(Some(userId));
      gateway.server.EmitToEach(clientIds, MessageEvent, Text(message));
    }
  }
}
