/**
 * The socket gateway `WebSocketGate`: connection lifecycle, room join/leave,
 * chat messages and staff notification fan-out.
 *
 * Each handler is one atomic step. What its collaborators answer (token
 * verification, the user store, the chat store, the admin HTTP service) is
 * passed in as the settled reply of each awaited call; a rejected reply
 * takes the handler's `catch` path. The pure step functions below define the
 * effect of each handler on the whole gateway state; the class methods do the
 * same work imperatively and are proved equal to them.
 */
module WebSocketGateway {
  import opened Common
  import opened Seqs
  import opened Sockets
  import opened ClientRegistry
  import opened Users

  /** The decoded token (`JwtPayload`); a verified token may lack `sub`, which is then `undefined`. */
  datatype JwtPayload = JwtPayload(sub: UserKey, email: string, role: string)

  /** `client.data`, set once the token is verified; `userId` is `undefined` when the token had no `sub`. */
  datatype ClientData = ClientData(userId: UserKey, email: string, role: string)

  /** A user row as the user store returns it. */
  datatype StoredUser = StoredUser(userId: UserId, email: string, role: string)

  /** A conversation as the gateway reads it from the chat store. */
  datatype TicketRef = TicketRef(ticketId: string)
  datatype Participant = Participant(userId: UserId)
  datatype ConversationView = ConversationView(id: string, participants: seq<Participant>)
  datatype SavedMessage = SavedMessage(createdAt: string)
  datatype StaffMember = StaffMember(userId: UserId)

  /** The admin service's answer to `auth/ticket-user/{ticketId}`: `null`, or an object whose `id` may be missing. */
  datatype AssignedUser = AssignedUser(id: Option<string>)

  /** Everything `handleConnection` awaits, in the order it awaits it. */
  datatype ConnectReplies = ConnectReplies(
    decoded: Option<JwtPayload>,                             // jwt.verify; None: it threw
    found: Reply<Option<StoredUser>>,                        // userService.findUserById
    created: Reply<StoredUser>,                              // userService.createUser, consulted only if not found
    statusSaved: bool,                                       // userService.updateUserStatus(Online)
    existing: Reply<ApiResponse<seq<TicketRef>>>,            // chatService.getConversations
    createdConversation: Reply<ApiResponse<TicketRef>>)      // chatService.createConversation

  /** The gateway state: the registry, `client.data` per socket, the transport and the user status column. */
  datatype GatewayState = GatewayState(clients: Registry, data: map<ClientId, ClientData>,
                                       io: Io, status: map<UserKey, UserStatus>)

  /** `client.data.userId` for a socket. */
  function UserKeyOf(data: map<ClientId, ClientData>, c: ClientId): UserKey
  {
    if c in data then data[c].userId else None
  }

  /** The handler's `catch`: `client.disconnect()`. */
  function Reject(s: GatewayState, c: ClientId): (r: GatewayState)
    ensures r.clients == s.clients && r.data == s.data && r.status == s.status
    ensures r.io == Closed(s.io, c)
  {
    s.(io := Closed(s.io, c))
  }

  /** The user the connection continues with: the stored one, else the created one; None when an awaited call rejected. */
  function ResolveUser(r: ConnectReplies): Option<StoredUser>
  {
    match r.found
    case Rejected => None
    case Resolved(Some(u)) => Some(u)
    case Resolved(None) =>
      match r.created
      case Rejected => None
      case Resolved(u) => Some(u)
  }

  const CLIENT_JOINED_TEXT: string := "Client member joined the room for ticket "
  const STAFF_JOINED_TEXT: string := "Staff member joined the room for ticket "

  /** The client-role part of `handleConnection` (lines 75-92). */
  function AutoJoin(s: GatewayState, c: ClientId, r: ConnectReplies): GatewayState
  {
    match r.existing
    case Rejected => Reject(s, c)
    case Resolved(existing) =>
      if existing.data.None? || |existing.data.value| == 0 then
        match r.createdConversation
        case Rejected => Reject(s, c)
        case Resolved(created) =>
          if created.status != Success then s
          else
            match created.data
            case None => Reject(s, c)
            case Some(t) =>
              s.(io := EmittedTo(Joined(s.io, c, t.ticketId), t.ticketId, NotificationEvent, Text(CLIENT_JOINED_TEXT + t.ticketId)))
      else
        s.(io := Joined(s.io, c, existing.data.value[0].ticketId))
  }

  /** `handleConnection`: the socket arrives (and is put in its own room), then the handler runs. */
  function HandleConnectionStep(s: GatewayState, c: ClientId, r: ConnectReplies): GatewayState
  {
    var s0 := s.(io := Admitted(s.io, c));
    match r.decoded
    case None => Reject(s0, c)
    case Some(p) =>
      var s1 := s0.(data := s0.data[c := ClientData(p.sub, p.email, p.role)]);
      match ResolveUser(r)
      case None => Reject(s1, c)
      case Some(user) =>
        var s2 := s1.(clients := WithClient(s1.clients, p.sub, c));
        if !r.statusSaved then Reject(s2, c)
        else
          var s3 := s2.(status := s2.status[p.sub := Online]);
          if user.role == CLIENT_ROLE then AutoJoin(s3, c, r) else s3
  }

  /** `handleDisconnect`: the transport has torn the socket down; the handler unregisters it and writes Offline. */
  function HandleDisconnectStep(s: GatewayState, c: ClientId, statusSaved: bool): GatewayState
  {
    var key := UserKeyOf(s.data, c);
    s.(io := TornDown(s.io, c),
       clients := WithoutClient(s.clients, key, c),
       status := StatusAfter(s.status, key, Offline, statusSaved))
  }

  /** The join guard of `handleJoinRoom`: `assignedUserResponse && assignedUserResponse.id`. */
  predicate AssignmentConfirmed(assignment: Reply<Option<AssignedUser>>)
  {
    assignment.Resolved? && assignment.value.Some? && Truthy(assignment.value.value.id)
  }

  /** `handleJoinRoom`. */
  function HandleJoinRoomStep(s: GatewayState, c: ClientId, ticketId: string, assignment: Reply<Option<AssignedUser>>): GatewayState
  {
    if AssignmentConfirmed(assignment) then
      s.(io := EmittedTo(Joined(s.io, c, ticketId), ticketId, NotificationEvent, Text(STAFF_JOINED_TEXT + ticketId)))
    else s
  }

  /** `participants.some(p => p.userId === userId)`. */
  function SomeParticipant(ps: seq<Participant>, key: UserKey): (r: bool)
    ensures r <==> exists p :: p in ps && Some(p.userId) == key
  {
    if ps == [] then false else Some(ps[0].userId) == key || SomeParticipant(ps[1..], key)
  }

  /** `isUserInConversation`, given the looked-up conversation. */
  function IsUserInConversation(key: UserKey, conversation: Option<ConversationView>): (r: bool)
    ensures r <==> conversation.Some? && exists p :: p in conversation.value.participants && Some(p.userId) == key
  {
    match conversation
    case None => false
    case Some(cv) => SomeParticipant(cv.participants, key)
  }

  function LeftText(key: UserKey, ticketId: string): string
  {
    "User " + KeyText(key) + " has left the room " + ticketId
  }

  /** `leaveRoom`. */
  function LeaveRoomStep(s: GatewayState, c: ClientId, ticketId: string, conversation: Reply<Option<ConversationView>>): GatewayState
  {
    var key := UserKeyOf(s.data, c);
    if conversation.Resolved? && IsUserInConversation(key, conversation.value) then
      s.(io := EmittedTo(LeftRoom(s.io, c, ticketId), ticketId, NotificationEvent, Text(LeftText(key, ticketId))))
    else s
  }

  /** The emission guard of `handleMessage`: the conversation exists and the save reports SUCCESS with data. */
  predicate MessageSaved(conversation: Reply<Option<ConversationView>>, saved: Reply<ApiResponse<SavedMessage>>)
  {
    conversation.Resolved? && conversation.value.Some? &&
    saved.Resolved? && saved.value.status == Success && saved.value.data.Some?
  }

  /** `handleMessage`. */
  function HandleMessageStep(s: GatewayState, c: ClientId, ticketId: string, content: string,
                             conversation: Reply<Option<ConversationView>>,
                             saved: Reply<ApiResponse<SavedMessage>>): GatewayState
  {
    if MessageSaved(conversation, saved) then
      s.(io := EmittedTo(s.io, ticketId, MessageEvent,
                         ChatLine(UserKeyOf(s.data, c), content, saved.value.data.value.createdAt)))
    else s
  }

  /** Every registered id of every staff member, member by member, each member's ids in list order. */
  function StaffClientIds(m: Registry, staff: seq<StaffMember>): (r: seq<ClientId>)
    ensures staff == [] ==> r == []
    ensures |staff| == 1 ==> r == ClientIds(m, Some(staff[0].userId))
  {
    if staff == [] then []
    else StaffClientIds(m, staff[..|staff| - 1]) + ClientIds(m, Some(staff[|staff| - 1].userId))
  }

  /** An id is listed exactly when it is registered for some staff member. */
  lemma {:induction false} StaffClientIdsMembers(m: Registry, staff: seq<StaffMember>)
    ensures forall x :: x in StaffClientIds(m, staff) <==>
              exists i :: 0 <= i < |staff| && x in ClientIds(m, Some(staff[i].userId))
  {
    if staff != [] {
      var init := staff[..|staff| - 1];
      var last := ClientIds(m, Some(staff[|staff| - 1].userId));
      StaffClientIdsMembers(m, init);
      assert StaffClientIds(m, staff) == StaffClientIds(m, init) + last;
      forall x | x in StaffClientIds(m, staff)
        ensures exists i :: 0 <= i < |staff| && x in ClientIds(m, Some(staff[i].userId))
      {
        if x in last {
          assert x in ClientIds(m, Some(staff[|staff| - 1].userId));
        } else {
          var i :| 0 <= i < |init| && x in ClientIds(m, Some(init[i].userId));
          assert staff[i] == init[i];
        }
      }
      forall x, i | 0 <= i < |staff| && x in ClientIds(m, Some(staff[i].userId))
        ensures x in StaffClientIds(m, staff)
      {
        if i < |init| {
          assert staff[i] == init[i];
        }
      }
    }
  }

  lemma StaffClientIdsSnoc(m: Registry, staff: seq<StaffMember>, i: nat)
    requires i < |staff|
    ensures StaffClientIds(m, staff[..i + 1]) == StaffClientIds(m, staff[..i]) + ClientIds(m, Some(staff[i].userId))
  {
    assert staff[..i + 1][..i] == staff[..i];
  }

  /** `notifyStaffOfNewMessageOrAssignment`, given the staff lookup. */
  function NotifyStaffStep(s: GatewayState, ticketId: string, message: string, staff: Reply<seq<StaffMember>>): GatewayState
  {
    match staff
    case Rejected => s
    case Resolved(members) =>
      s.(io := s.io.(log := s.io.log + Deliveries(s.io.rooms, StaffClientIds(s.clients, members),
                                                   NewAssignmentEvent, Assignment(ticketId, message))))
  }

  // ---------------------------------------------------------------------
  // Properties of the handlers
  // ---------------------------------------------------------------------

  /** A token that fails verification disconnects the socket and registers nothing. */
  lemma BadTokenRegistersNothing(s: GatewayState, c: ClientId, r: ConnectReplies)
    requires r.decoded.None?
    ensures HandleConnectionStep(s, c, r).clients == s.clients
    ensures HandleConnectionStep(s, c, r).data == s.data
    ensures HandleConnectionStep(s, c, r).status == s.status
    ensures HandleConnectionStep(s, c, r).io.closed == s.io.closed + [c]
    ensures HandleConnectionStep(s, c, r).io.log == s.io.log
  {
  }

  /** When the user can be neither found nor created the socket is disconnected before it is registered. */
  lemma UserStoreFailureRegistersNothing(s: GatewayState, c: ClientId, r: ConnectReplies)
    requires r.decoded.Some? && ResolveUser(r).None?
    ensures HandleConnectionStep(s, c, r).clients == s.clients
    ensures HandleConnectionStep(s, c, r).status == s.status
    ensures HandleConnectionStep(s, c, r).io.closed == s.io.closed + [c]
  {
  }

  /**
   * Once the user is resolved the socket id is appended to the user's list,
   * whatever happens next; a failing status write then disconnects the socket
   * but leaves the entry in the registry, and a successful one marks the user Online.
   */
  lemma RegisteredBeforeStatus(s: GatewayState, c: ClientId, r: ConnectReplies)
    requires r.decoded.Some? && ResolveUser(r).Some?
    ensures var s' := HandleConnectionStep(s, c, r);
      var u := r.decoded.value.sub;
      && ClientIds(s'.clients, u) == ClientIds(s.clients, u) + [c]
      && (forall v :: v != u ==> ClientIds(s'.clients, v) == ClientIds(s.clients, v))
      && (!r.statusSaved ==> s'.io.closed == s.io.closed + [c] && s'.status == s.status)
      && (r.statusSaved ==> u in s'.status && s'.status[u] == Online)
  {
    var u := r.decoded.value.sub;
    var s2 := GatewayState(WithClient(s.clients, u, c), s.data[c := ClientData(r.decoded.value.sub, r.decoded.value.email, r.decoded.value.role)], Admitted(s.io, c), s.status);
    if r.statusSaved && ResolveUser(r).value.role == CLIENT_ROLE {
      var s3 := s2.(status := s2.status[u := Online]);
      assert HandleConnectionStep(s, c, r) == AutoJoin(s3, c, r);
    }
  }

  /** A user whose role is not `client` joins no room on connection and nothing is emitted. */
  lemma StaffJoinsNothingOnConnect(s: GatewayState, c: ClientId, r: ConnectReplies)
    requires r.decoded.Some? && ResolveUser(r).Some? && r.statusSaved
    requires ResolveUser(r).value.role != CLIENT_ROLE
    ensures HandleConnectionStep(s, c, r).io == Admitted(s.io, c)
  {
  }

  /**
   * A client with an existing conversation joins the room of the first one;
   * a client without one joins the new ticket's room, which is notified, only
   * when creation reports SUCCESS with data; when it reports anything else the
   * client stays connected outside every ticket room. A rejected lookup or
   * creation, and a SUCCESS reply without data (whose `ticketId` read throws),
   * close the socket. In every case the registry entry and the Online status
   * written before this part remain.
   */
  lemma ClientAutoJoin(s: GatewayState, c: ClientId, r: ConnectReplies)
    requires r.decoded.Some? && ResolveUser(r).Some? && r.statusSaved
    requires ResolveUser(r).value.role == CLIENT_ROLE
    ensures var s' := HandleConnectionStep(s, c, r);
      var u := r.decoded.value.sub;
      var io0 := Admitted(s.io, c);
      var cc := r.createdConversation;
      && s'.clients == WithClient(s.clients, u, c)
      && s'.status == s.status[u := Online]
      && (r.existing.Rejected? ==> s'.io == Closed(io0, c))
      && (r.existing.Resolved? ==>
            var data := r.existing.value.data;
            && (data.Some? && |data.value| > 0 ==>
                  s'.io == Joined(io0, c, data.value[0].ticketId))
            && ((data.None? || |data.value| == 0) && cc.Resolved? &&
                cc.value.status == Success && cc.value.data.Some? ==>
                  var t := cc.value.data.value.ticketId;
                  && s'.io.rooms == Joined(io0, c, t).rooms
                  && s'.io.connected == io0.connected
                  && s'.io.closed == io0.closed
                  && s'.io.log == s.io.log + [ToRoom(Joined(io0, c, t).rooms, t, NotificationEvent, Text(CLIENT_JOINED_TEXT + t))]
                  && c in s'.io.log[|s.io.log|].recipients)
            && ((data.None? || |data.value| == 0) && cc.Resolved? && cc.value.status != Success ==>
                  s'.io == io0)
            && ((data.None? || |data.value| == 0) &&
                (cc.Rejected? || (cc.value.status == Success && cc.value.data.None?)) ==>
                  s'.io == Closed(io0, c)))
  {
    var p := r.decoded.value;
    var u := p.sub;
    var s3 := GatewayState(WithClient(s.clients, u, c), s.data[c := ClientData(p.sub, p.email, p.role)], Admitted(s.io, c), s.status[u := Online]);
    assert HandleConnectionStep(s, c, r) == AutoJoin(s3, c, r);
  }

  /**
   * `handleDisconnect` unregisters the socket and, when the write settles,
   * sets the user Offline unconditionally, even while the user keeps other
   * registered sockets.
   */
  lemma DisconnectMarksOffline(s: GatewayState, c: ClientId)
    ensures var s' := HandleDisconnectStep(s, c, true);
      var key := UserKeyOf(s.data, c);
      && c !in ClientIds(s'.clients, key)
      && (forall x :: x != c ==> (x in ClientIds(s'.clients, key) <==> x in ClientIds(s.clients, key)))
      && key in s'.status && s'.status[key] == Offline
      && c !in s'.io.connected
  {
  }

  /**
   * The status column is not derived from the registry: a user with two
   * registered sockets who closes one is written Offline while the other is
   * still registered.
   */
  lemma OfflineWhileStillRegistered(s: GatewayState, c1: ClientId, c2: ClientId)
    requires c1 != c2 && c1 in s.data
    requires ClientIds(s.clients, s.data[c1].userId) == [c1, c2]
    ensures var s' := HandleDisconnectStep(s, c1, true);
      var key := s.data[c1].userId;
      && ClientIds(s'.clients, key) == [c2]
      && key in s'.status && s'.status[key] == Offline
  {
    var ids := [c1, c2];
    assert ids[1..] == [c2];
    assert [c2][1..] == [];
    assert Without(ids, c1) == Filter([c2], x => x != c1);
  }

  /**
   * `handleJoinRoom` joins the room, and notifies it, exactly when the admin
   * service answers with an object carrying an id; it never compares that id
   * with the caller. Otherwise nothing changes.
   */
  lemma JoinRoomIffAssigned(s: GatewayState, c: ClientId, t: string, a: Reply<Option<AssignedUser>>)
    ensures var s' := HandleJoinRoomStep(s, c, t, a);
      && (AssignmentConfirmed(a) ==>
            && Members(s'.io.rooms, t) == Members(s.io.rooms, t) + {c}
            && s'.io.log == s.io.log + [ToRoom(s'.io.rooms, t, NotificationEvent, Text(STAFF_JOINED_TEXT + t))]
            && c in s'.io.log[|s.io.log|].recipients)
      && (!AssignmentConfirmed(a) ==> s' == s)
  {
  }

  /**
   * `leaveRoom` leaves exactly when the conversation exists and lists the
   * caller's user id among its participants; the room is then told, the
   * leaver no longer among the recipients. A failed check changes nothing.
   */
  lemma LeaveRoomIffParticipant(s: GatewayState, c: ClientId, t: string, conv: Reply<Option<ConversationView>>)
    ensures var s' := LeaveRoomStep(s, c, t, conv);
      var key := UserKeyOf(s.data, c);
      var member := conv.Resolved? && conv.value.Some? &&
                    exists p :: p in conv.value.value.participants && Some(p.userId) == key;
      && (member ==>
            && Members(s'.io.rooms, t) == Members(s.io.rooms, t) - {c}
            && s'.io.log == s.io.log + [ToRoom(s'.io.rooms, t, NotificationEvent, Text(LeftText(key, t)))]
            && c !in s'.io.log[|s.io.log|].recipients
            && s'.clients == s.clients && s'.status == s.status)
      && (!member ==> s' == s)
  {
  }

  /**
   * `handleMessage` emits exactly one `message` event, to the whole ticket
   * room, when the conversation exists and the save reports SUCCESS;
   * otherwise it changes nothing.
   */
  lemma MessageEmittedIffSaved(s: GatewayState, c: ClientId, t: string, content: string,
                               conv: Reply<Option<ConversationView>>, saved: Reply<ApiResponse<SavedMessage>>)
    ensures var s' := HandleMessageStep(s, c, t, content, conv, saved);
      && (MessageSaved(conv, saved) ==>
            s'.io.log == s.io.log + [ToRoom(s.io.rooms, t, MessageEvent,
                                            ChatLine(UserKeyOf(s.data, c), content, saved.value.data.value.createdAt))])
      && (!MessageSaved(conv, saved) ==> s' == s)
      && s'.io.rooms == s.io.rooms && s'.clients == s.clients
  {
  }

  /** There is no sender exclusion: a sender in the ticket room receives its own message. */
  lemma MessageReachesSender(s: GatewayState, c: ClientId, t: string, content: string,
                             conv: Reply<Option<ConversationView>>, saved: Reply<ApiResponse<SavedMessage>>)
    requires MessageSaved(conv, saved) && c in Members(s.io.rooms, t)
    ensures var s' := HandleMessageStep(s, c, t, content, conv, saved);
      |s'.io.log| == |s.io.log| + 1 && c in s'.io.log[|s.io.log|].recipients
  {
  }

  /** The staff ids of a concatenation of staff lists are those of each part, one after the other. */
  lemma {:induction false} StaffClientIdsAppend(m: Registry, a: seq<StaffMember>, b: seq<StaffMember>)
    ensures StaffClientIds(m, a + b) == StaffClientIds(m, a) + StaffClientIds(m, b)
    decreases |b|
  {
    if b == [] {
      assert a + b == a;
    } else {
      var b' := b[..|b| - 1];
      assert (a + b)[..|a + b| - 1] == a + b';
      assert (a + b)[|a + b| - 1] == b[|b| - 1];
      StaffClientIdsAppend(m, a, b');
    }
  }

  /**
   * Every staff member contributes all of its registered ids, once each and
   * in list order, between the ids of the members before it and those after it.
   */
  lemma StaffClientIdsSplit(m: Registry, staff: seq<StaffMember>, i: nat)
    requires i < |staff|
    ensures StaffClientIds(m, staff) ==
            StaffClientIds(m, staff[..i]) + ClientIds(m, Some(staff[i].userId)) + StaffClientIds(m, staff[i + 1..])
  {
    assert staff == staff[..i + 1] + staff[i + 1..];
    StaffClientIdsAppend(m, staff[..i + 1], staff[i + 1..]);
    StaffClientIdsSnoc(m, staff, i);
  }

  /**
   * `notifyStaffOfNewMessageOrAssignment` emits one `newAssignment` per
   * (staff member, registered id) pair: the k-th id of the i-th member gets
   * its own emission, addressed to that id, placed after those of the earlier
   * members. Nothing but the log changes.
   */
  lemma NotifyStaffOnePerRegisteredId(s: GatewayState, t: string, msg: string, staff: seq<StaffMember>, i: nat, k: nat)
    requires i < |staff| && k < |ClientIds(s.clients, Some(staff[i].userId))|
    ensures var s' := NotifyStaffStep(s, t, msg, Resolved(staff));
      var pos := |s.io.log| + |StaffClientIds(s.clients, staff[..i])| + k;
      var id := ClientIds(s.clients, Some(staff[i].userId))[k];
      && pos < |s'.io.log|
      && s'.io.log[pos] == ToRoom(s.io.rooms, id, NewAssignmentEvent, Assignment(t, msg))
      && s'.io.log[..|s.io.log|] == s.io.log
      && |s'.io.log| == |s.io.log| + |StaffClientIds(s.clients, staff)|
      && s'.io.rooms == s.io.rooms && s'.clients == s.clients && s'.status == s.status
  {
    StaffClientIdsSplit(s.clients, staff, i);
    var all := StaffClientIds(s.clients, staff);
    var before := StaffClientIds(s.clients, staff[..i]);
    var ids := ClientIds(s.clients, Some(staff[i].userId));
    assert all[|before| + k] == ids[k];
  }

  /** Extending a log of deliveries by the deliveries to more ids gives the deliveries to all of them. */
  lemma DeliveriesExtend(log: seq<Emission>, rooms: map<string, set<ClientId>>, done: seq<ClientId>, ids: seq<ClientId>,
                         event: EventName, payload: Payload)
    ensures log + Deliveries(rooms, done, event, payload) + Deliveries(rooms, ids, event, payload) ==
            log + Deliveries(rooms, done + ids, event, payload)
  {
    DeliveriesAppend(rooms, done, ids, event, payload);
  }

  class WebSocketGate {
    const server: SocketServer
    const users: UserStatusStore
    var userClientMap: Registry
    var clientData: map<ClientId, ClientData>

    constructor (server: SocketServer, users: UserStatusStore)
      ensures this.server == server && this.users == users
      ensures userClientMap == map[] && clientData == map[]
    {
      this.server := server;
      this.users := users;
      userClientMap := map[];
      clientData := map[];
    }

    function State(): GatewayState
      reads this, server, users
    {
      GatewayState(userClientMap, clientData, server.Snapshot(), users.status)
    }

    /** `getUserClientIds`: the registered ids, or `[]` for a user never seen. */
    function GetUserClientIds(u: UserKey): (r: seq<ClientId>)
      reads this
      ensures u in userClientMap ==> r == userClientMap[u]
      ensures u !in userClientMap ==> r == []
    {
      ClientIds(userClientMap, u)
    }

    method AddClientToUser(u: UserKey, c: ClientId)
      modifies this
      ensures userClientMap == WithClient(old(userClientMap), u, c)
      ensures clientData == old(clientData)
    {
      var ids := GetUserClientIds(u);
      ids := ids + [c];
      userClientMap := userClientMap[u := ids];
    }

    method RemoveClientFromUser(u: UserKey, c: ClientId)
      modifies this
      ensures userClientMap == WithoutClient(old(userClientMap), u, c)
      ensures clientData == old(clientData)
    {
      var ids := GetUserClientIds(u);
      var updated := Without(ids, c);
      userClientMap := userClientMap[u := updated];
    }

    method HandleConnection(c: ClientId, r: ConnectReplies)
      modifies this, server, users
      ensures State() == HandleConnectionStep(old(State()), c, r)
    {
      server.Admit(c);
      if r.decoded.None? {
        server.Disconnect(c);
        return;
      }
      var p := r.decoded.value;
      clientData := clientData[c := ClientData(p.sub, p.email, p.role)];
      var user: StoredUser;
      match r.found {
        case Rejected =>
          server.Disconnect(c);
          return;
        case Resolved(found) =>
          if found.Some? {
            user := found.value;
          } else {
            match r.created {
              case Rejected =>
                server.Disconnect(c);
                return;
              case Resolved(u) =>
                user := u;
            }
          }
      }
      AddClientToUser(p.sub, c);
      users.UpdateUserStatus(p.sub, Online, r.statusSaved);
      if !r.statusSaved {
        server.Disconnect(c);
        return;
      }
      if user.role == CLIENT_ROLE {
        match r.existing {
          case Rejected =>
            server.Disconnect(c);
          case Resolved(existing) =>
            if existing.data.None? || |existing.data.value| == 0 {
              match r.createdConversation {
                case Rejected =>
                  server.Disconnect(c);
                case Resolved(created) =>
                  if created.status == Success {
                    match created.data {
                      case None =>
                        server.Disconnect(c);
                      case Some(t) =>
                        server.Join(c, t.ticketId);
                        server.EmitTo(t.ticketId, NotificationEvent, Text(CLIENT_JOINED_TEXT + t.ticketId));
                    }
                  }
              }
            } else {
              server.Join(c, existing.data.value[0].ticketId);
            }
        }
      }
    }

    method HandleDisconnect(c: ClientId, statusSaved: bool)
      modifies this, server, users
      ensures State() == HandleDisconnectStep(old(State()), c, statusSaved)
    {
      server.Cleanup(c);
      var key := UserKeyOf(clientData, c);
      RemoveClientFromUser(key, c);
      users.UpdateUserStatus(key, Offline, statusSaved);
    }

    method HandleJoinRoom(c: ClientId, ticketId: string, assignment: Reply<Option<AssignedUser>>)
      modifies server
      ensures State() == HandleJoinRoomStep(old(State()), c, ticketId, assignment)
    {
      if assignment.Resolved? && assignment.value.Some? && Truthy(assignment.value.value.id) {
        server.Join(c, ticketId);
        server.EmitTo(ticketId, NotificationEvent, Text(STAFF_JOINED_TEXT + ticketId));
      }
    }

    method LeaveRoom(c: ClientId, ticketId: string, conversation: Reply<Option<ConversationView>>)
      modifies server
      ensures State() == LeaveRoomStep(old(State()), c, ticketId, conversation)
    {
      var key := UserKeyOf(clientData, c);
      if conversation.Rejected? {
        return;
      }
      var isPart := IsUserInConversation(key, conversation.value);
      if isPart {
        server.Leave(c, ticketId);
        server.EmitTo(ticketId, NotificationEvent, Text(LeftText(key, ticketId)));
      }
    }

    method HandleMessage(c: ClientId, ticketId: string, content: string,
                         conversation: Reply<Option<ConversationView>>,
                         saved: Reply<ApiResponse<SavedMessage>>)
      modifies server
      ensures State() == HandleMessageStep(old(State()), c, ticketId, content, conversation, saved)
    {
      var userId := UserKeyOf(clientData, c);
      if conversation.Rejected? || conversation.value.None? {
        return;
      }
      if saved.Rejected? {
        return;
      }
      if saved.value.status == Success {
        match saved.value.data {
          case None =>
          case Some(m) =>
            server.EmitTo(ticketId, MessageEvent, ChatLine(userId, content, m.createdAt));
        }
      }
    }

    method NotifyStaffOfNewMessageOrAssignment(ticketId: string, message: string, staff: Reply<seq<StaffMember>>)
      modifies server
      ensures State() == NotifyStaffStep(old(State()), ticketId, message, staff)
    {
      if staff.Rejected? {
        return;
      }
      var members := staff.value;
      var payload := Assignment(ticketId, message);
      ghost var rooms := server.rooms;
      ghost var m := userClientMap;
      ghost var log0 := server.log;
      ghost var done: seq<ClientId> := [];
      var i := 0;
      while i < |members|
        invariant 0 <= i <= |members|
        invariant done == StaffClientIds(m, members[..i])
        invariant server.log == log0 + Deliveries(rooms, done, NewAssignmentEvent, payload)
        invariant server.rooms == rooms && server.connected == old(server.connected) && server.closed == old(server.closed)
      {
        var clientIds := GetUserClientIds(Some(members[i].userId));
        server.EmitToEach(clientIds, NewAssignmentEvent, payload);
        DeliveriesExtend(log0, rooms, done, clientIds, NewAssignmentEvent, payload);
        StaffClientIdsSnoc(m, members, i);
        done := done + clientIds;
        i := i + 1;
      }
      assert members[..i] == members;
    }
  }
}
