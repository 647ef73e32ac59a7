# Chat micro-service: a verified model in Dafny

This project models the real-time and storage core of a NestJS chat
micro-service for support tickets. It covers:

- **The socket gateway `WebSocketGate`.** It authenticates each incoming
  socket by its token and keeps `userClientMap` (user id to socket ids). It
  writes the user's online/offline status and auto-joins clients to their
  ticket room. It also handles `joinRoom`, `leaveRoom` and `message`, and fans
  out `newAssignment` events to every socket of every staff member of a ticket.
- **`WsService`.** It marks users online or offline, broadcasts, and sends a
  message to every socket of one user.
- **The older `ChatGateway`.** It keeps `activeUsers` (socket id to user id).
- **`NotificationService`.** It creates, acknowledges, dismisses and lists
  notification records.
- **`ChatService`.** It creates conversations (rejecting duplicate
  participants, and getting or creating each participant's user row). It
  also sends, updates, deletes and lists messages.

## How the model is built

- **The transport.** socket.io is the value `Sockets.Io`: which sockets are
  connected, the members of each room, and a log of every emission together
  with the sockets it reached. A socket always belongs to the room named by
  its own id, so `server.to(clientId)` reaches exactly that socket. The class
  `Sockets.SocketServer` holds this state in fields. Its methods are proved
  to match the pure functions `Admitted`, `Joined`, `LeftRoom`, `EmittedTo`,
  `EmittedToAll`, `TornDown` and `Closed`.
- **Collaborators.** Every call into code outside the core is an input to
  the handler. An awaited call that returns a value is a `Reply`
  (`Resolved(value)` or `Rejected`): the `UserService` lookup and creation,
  the chat store as the gateway sees it, and the admin HTTP service. The
  synchronous `jwt.verify` is an `Option` of the decoded payload (None when
  it throws). An awaited call whose value is not used, such as the status
  write, is a `bool` saying whether it settled. A rejected or failing call
  takes the handler's `catch` path.
- **Status values.** The gateway imports `UserRole` and `UserStatus` from
  src/users/entities/user.entity.ts, which as shown exports only `User`. The
  model takes the role `client` and the statuses `online` and `offline` from
  that entity's column enum lists.
- **Repository failures.** A failed repository call in a service is an
  input as well: a boolean or an optional `StoreFault`. Generated keys
  (`freshId`) and timestamps (`now`) are inputs too.
- **The gateway.** Each handler is one atomic step. `HandleConnectionStep`,
  `HandleDisconnectStep`, `HandleJoinRoomStep`, `LeaveRoomStep`,
  `HandleMessageStep` and `NotifyStaffStep` give the effect of each handler
  on the whole `GatewayState`. The methods of the `WebSocketGate` class do
  the same work in place and are proved to equal those steps. The lemmas
  state what the source promises about each step.
- **The services.** Each service is a class whose tables are `seq` fields.
  The methods change the tables and return an `Outcome`: a value, or the
  HTTP exception the service throws.
- **Status strings.** `API_STATUS` is `Success` or `Failure`. User status is
  `Online` or `Offline`.

Where the code and its comments or documentation disagree, the model follows
the code:

- **Unawaited saves.** `return this.repo.save(...)` inside a `try` in an
  `async` function is not awaited. So that promise's rejection is not seen
  by the `catch`, and reaches the caller as it is (`Unwrapped`).
- **The status while other sockets remain.** `handleDisconnect` writes
  Offline even when the user still has other sockets registered.
- **Sender exclusion.** The room broadcast of `handleMessage` also reaches
  the sender.
- **A token without `sub`.** `handleConnection` does not check the decoded
  `sub`. A verified token that lacks it sets `client.data.userId` to
  `undefined`, and the socket is registered, and marked Online, under that
  key (`None` in the model).

## Model

| member | source | states |
|---|---|---|
| Seqs.MapSeq | src/chat/service/chat.service.ts:41 | the result has one entry per input element, the k-th being the function applied to the k-th element |
| Seqs.Filter | src/websocket/websocket.gateway.ts:209 | the kept elements are exactly those of the input that satisfy the predicate, and there are no more of them than in the input |
| Seqs.SetSizeIffNoDuplicates | src/chat/service/chat.service.ts:41-42 | the size of the set of a list's elements equals the list's length exactly when no element repeats |
| Sockets.Deliveries | src/ws/ws.service.ts:30-32 | one emission per listed id, in list order, each addressed to the room of that id and reaching that room's members |
| Sockets.DeliveriesAppend | src/websocket/websocket.gateway.ts:187-194 | deliveries to two lists one after the other are the deliveries to their concatenation |
| Sockets.DeliveriesPerId | src/ws/ws.service.ts:30-32 | every id receives as many deliveries as it occurs in the list |
| Sockets.Joined | src/websocket/websocket.gateway.ts:81 | the socket is added to that room and no other room changes |
| Sockets.LeftRoom | src/websocket/websocket.gateway.ts:142 | the socket is removed from that room and no other room changes |
| Sockets.EmittedTo | src/websocket/websocket.gateway.ts:82 | exactly one emission is appended, reaching the room's current members; rooms and connections are unchanged |
| Sockets.EmittedToAll | src/ws/ws.service.ts:25 | exactly one emission is appended, reaching every connected socket |
| Sockets.TornDown | src/websocket/websocket.gateway.ts:101 | the socket is no longer connected and is in no room; every other socket keeps its rooms |
| Sockets.Admitted | src/websocket/websocket.gateway.ts:51 | the arriving socket is connected and in its own room; every other connection and room is unchanged, and nothing is emitted or closed |
| Sockets.Closed | src/websocket/websocket.gateway.ts:96 | `client.disconnect()` is recorded, and afterwards the socket is neither connected nor in any room; every other socket keeps its connection and its rooms, and nothing is emitted |
| Sockets.ClosedSocketReceivesNothing | src/chat/chat.gateway.ts:49-51 | an emission made right after a server-side close does not reach the closed socket, which is in no room; only a later join puts it back in a room |
| Sockets.SocketServer.EmitToEach | src/ws/ws.service.ts:30-32 | the loop appends exactly the deliveries to the listed ids, in order, and changes nothing else |
| ClientRegistry.ClientIds | src/websocket/websocket.gateway.ts:218-220 | a known user's stored list, and `[]` for a user never seen |
| ClientRegistry.Without | src/websocket/websocket.gateway.ts:209 | the removed id is gone and every other id is kept |
| ClientRegistry.WithClient | src/websocket/websocket.gateway.ts:201-205 | the user's list gains the id at its end (missing users start from an empty list); the key is written; other users are unchanged |
| ClientRegistry.WithoutClient | src/websocket/websocket.gateway.ts:207-211 | the id is gone from the user's list and the other ids are kept; the key is written even for an unknown user; other users are unchanged |
| ClientRegistry.RemoveDropsEveryOccurrence | src/websocket/websocket.gateway.ts:207-211 | every occurrence of the id is removed, and every other id keeps its number of occurrences |
| ClientRegistry.RemoveKeepsOrder | src/websocket/websocket.gateway.ts:209 | removal works piecewise on any split of the list, so the remaining ids keep their order |
| ClientRegistry.RemoveAbsentIsIdentity | src/websocket/websocket.gateway.ts:207-211 | removing an id that is not registered leaves the list as it was |
| ClientRegistry.AddThenRemoveRestores | src/websocket/websocket.gateway.ts:201-211 | adding a new id and then removing it restores the user's list (and the whole map, when the user was known) |
| ClientRegistry.StillRegisteredAfterRemove | src/websocket/websocket.gateway.ts:207-211 | after a removal the user still has an id exactly when it had some other id before |
| Users.StatusAfter | src/websocket/websocket.gateway.ts:103-106 | a status write that settles sets that user's status; other users are unchanged; a rejected write changes nothing |
| Users.UserStatusStore.UpdateUserStatus | src/ws/ws.service.ts:14 | the status column becomes `StatusAfter` of the old one |
| WebSocketGateway.Reject | src/websocket/websocket.gateway.ts:94-97 | the catch path closes the socket and changes neither the registry, `client.data` nor the status |
| WebSocketGateway.SomeParticipant | src/websocket/websocket.gateway.ts:215 | true exactly when some participant has that user id |
| WebSocketGateway.IsUserInConversation | src/websocket/websocket.gateway.ts:213-216 | true exactly when the conversation exists and lists the user id among its participants |
| WebSocketGateway.BadTokenRegistersNothing | src/websocket/websocket.gateway.ts:51-97 | a token that fails verification closes the socket and changes neither the registry, `client.data`, the status nor the emissions |
| WebSocketGateway.UserStoreFailureRegistersNothing | src/websocket/websocket.gateway.ts:63-70 | when the user can be neither found nor created the socket is closed before it is registered or marked online |
| WebSocketGateway.RegisteredBeforeStatus | src/websocket/websocket.gateway.ts:71-72 | once the user is resolved the socket id is appended to its list; a failing status write then closes the socket while the entry remains; a successful one marks the user Online |
| WebSocketGateway.StaffJoinsNothingOnConnect | src/websocket/websocket.gateway.ts:75 | a user without the client role joins no room and nothing is emitted |
| WebSocketGateway.ClientAutoJoin | src/websocket/websocket.gateway.ts:75-92 | a client with a conversation joins the first one's ticket room; without one it joins the new ticket's room, which is notified, only when creation reports SUCCESS with data, and a non-SUCCESS reply leaves it connected outside every ticket room; a rejected lookup or creation, or a SUCCESS reply without data, closes the socket; in every case the registry entry and the Online status remain |
| WebSocketGateway.DisconnectMarksOffline | src/websocket/websocket.gateway.ts:101-106 | the socket is unregistered, the other ids remain, and the user is written Offline |
| WebSocketGateway.OfflineWhileStillRegistered | src/websocket/websocket.gateway.ts:101-106 | a user with two sockets who closes one is Offline while the other socket is still registered |
| WebSocketGateway.JoinRoomIffAssigned | src/websocket/websocket.gateway.ts:118-125 | the socket joins the ticket room, which is notified, exactly when the admin service answers with an object carrying an id; otherwise nothing changes |
| WebSocketGateway.LeaveRoomIffParticipant | src/websocket/websocket.gateway.ts:140-147 | exactly when the caller is a participant, the socket leaves the room and exactly one `notification` with the left-room text is emitted to room `ticketId` (the leaver no longer hears it), with the registry and the status unchanged; otherwise nothing changes |
| WebSocketGateway.MessageEmittedIffSaved | src/websocket/websocket.gateway.ts:163-179 | exactly one `message` event goes to the ticket room when the conversation exists and the save reports SUCCESS; otherwise nothing changes |
| WebSocketGateway.MessageReachesSender | src/websocket/websocket.gateway.ts:171-175 | a sender in the room receives its own message |
| WebSocketGateway.StaffClientIds | src/websocket/websocket.gateway.ts:187-189 | the ids the nested forEach visits: none for no staff, exactly the one member's registered ids for one member; `StaffClientIdsSplit` places each member's ids and `StaffClientIdsMembers` gives membership |
| WebSocketGateway.StaffClientIdsMembers | src/websocket/websocket.gateway.ts:187-189 | an id is listed exactly when it is registered for some staff member |
| WebSocketGateway.StaffClientIdsSnoc | src/websocket/websocket.gateway.ts:187-188 | adding one staff member adds that member's registered ids at the end |
| WebSocketGateway.StaffClientIdsAppend | src/websocket/websocket.gateway.ts:187-195 | the ids of two staff lists one after the other are the ids of their concatenation |
| WebSocketGateway.StaffClientIdsSplit | src/websocket/websocket.gateway.ts:187-195 | each staff member contributes all its ids, in order, between those of the earlier and those of the later members |
| WebSocketGateway.NotifyStaffOnePerRegisteredId | src/websocket/websocket.gateway.ts:185-195 | the k-th id of the i-th staff member gets its own `newAssignment` emission at a fixed position after the earlier members' ones, the old log is kept, and the log grows by exactly the number of (member, id) pairs, so there is one emission per pair and no other; nothing else changes |
| WebSocketGateway.WebSocketGate.GetUserClientIds | src/websocket/websocket.gateway.ts:218-220 | the ids registered for a known user, and `[]` for a user never seen |
| WebSocketGateway.WebSocketGate.AddClientToUser | src/websocket/websocket.gateway.ts:201-205 | `userClientMap` becomes `WithClient` of the old map |
| WebSocketGateway.WebSocketGate.RemoveClientFromUser | src/websocket/websocket.gateway.ts:207-211 | `userClientMap` becomes `WithoutClient` of the old map |
| WebSocketGateway.WebSocketGate.HandleConnection | src/websocket/websocket.gateway.ts:51-98 | the new state is `HandleConnectionStep` of the old one |
| WebSocketGateway.WebSocketGate.HandleDisconnect | src/websocket/websocket.gateway.ts:101-108 | the new state is `HandleDisconnectStep` of the old one |
| WebSocketGateway.WebSocketGate.HandleJoinRoom | src/websocket/websocket.gateway.ts:111-129 | the new state is `HandleJoinRoomStep` of the old one |
| WebSocketGateway.WebSocketGate.LeaveRoom | src/websocket/websocket.gateway.ts:132-151 | the new state is `LeaveRoomStep` of the old one |
| WebSocketGateway.WebSocketGate.HandleMessage | src/websocket/websocket.gateway.ts:154-183 | the new state is `HandleMessageStep` of the old one |
| WebSocketGateway.WebSocketGate.NotifyStaffOfNewMessageOrAssignment | src/websocket/websocket.gateway.ts:185-199 | the nested loops append exactly the deliveries to every registered id of every staff member; a rejected lookup changes nothing |
| WsService.UnknownUserGetsNothing | src/ws/ws.service.ts:28-33 | a user the gateway never registered receives nothing |
| WsService.DuplicateRegistrationDuplicatesDelivery | src/ws/ws.service.ts:28-33 | a socket id registered twice more for a user receives two more deliveries; every other socket's count is unchanged |
| WsService.WsService.Connect | src/ws/ws.service.ts:12-16 | the user is written Online; the reply carries the ready message, or rejects when the write does; the registry is untouched |
| WsService.WsService.Disconnect | src/ws/ws.service.ts:18-22 | the user is written Offline; the reply carries the disconnect message, or rejects when the write does; the registry is untouched |
| WsService.WsService.BroadcastMessage | src/ws/ws.service.ts:24-26 | one server-wide `broadcast` emission carrying the message |
| WsService.WsService.SendMessageToUser | src/ws/ws.service.ts:28-33 | exactly the deliveries of `message` to the user's registered ids, in list order |
| ChatGateway.GetJwtSecret | src/chat/chat.gateway.ts:54-61 | a secret is returned exactly when the configuration holds a string, and it is that string |
| ChatGateway.Admission | src/chat/chat.gateway.ts:24-39 | a user id is recorded exactly when there is a string secret, the token verifies with it, and its `sub` is non-empty; the id is that `sub` |
| ChatGateway.NoConfigRejectsEveryone | src/chat/chat.gateway.ts:54-59 | without a configuration service every connection is refused |
| ChatGateway.ActiveAfterConnection | src/chat/chat.gateway.ts:30-32 | an admitted socket is entered under its user id, replacing any earlier entry for that socket; a refused one changes nothing; other sockets are unchanged |
| ChatGateway.ActiveAfterDisconnect | src/chat/chat.gateway.ts:44 | this socket's entry is gone and every other entry is unchanged |
| ChatGateway.ConnectThenDisconnectRestores | src/chat/chat.gateway.ts:24-46 | connecting a new socket and then disconnecting it restores `activeUsers` |
| ChatGateway.ChatGateway.HandleConnection | src/chat/chat.gateway.ts:24-39 | `activeUsers` becomes `ActiveAfterConnection` with the outcome of `Admission`; a refused socket is closed |
| ChatGateway.ChatGateway.HandleDisconnect | src/chat/chat.gateway.ts:42-46 | the transport has torn the socket down, and `activeUsers` becomes `ActiveAfterDisconnect` of the old map |
| ChatGateway.ChatGateway.HandleDisconnectRequest | src/chat/chat.gateway.ts:49-51 | the socket is always closed |
| Notifications.FindById | src/notifications/notifications.service.ts:121 | a record is found exactly when the id is in the table, and it carries that id |
| Notifications.Acknowledged | src/notifications/notifications.service.ts:56 | every record with that id gets `acknowledged = true`; every other record is unchanged |
| Notifications.Dismissed | src/notifications/notifications.service.ts:129-130 | every record with that id gets `dismissed = true`; every other record is unchanged |
| Notifications.ForUser | src/notifications/notifications.service.ts:164 | exactly the records whose user has that userId |
| Notifications.ForConversation | src/notifications/notifications.service.ts:32 | exactly the records whose conversation has that id |
| Notifications.NewNotification | src/notifications/notifications.service.ts:92-96 | the new record links the given user, conversation and content, with both flags false |
| Notifications.AcknowledgeIdempotent | src/notifications/notifications.service.ts:54-60 | acknowledging twice equals acknowledging once |
| Notifications.AcknowledgeAbsentIsNoOp | src/notifications/notifications.service.ts:56-60 | acknowledging an unknown id changes nothing |
| Notifications.AcknowledgeChangesOnlyThatFlag | src/notifications/notifications.service.ts:56 | only the `acknowledged` flag of the record with that id changes |
| Notifications.DismissIdempotent | src/notifications/notifications.service.ts:128-135 | dismissing twice equals dismissing once |
| Notifications.DismissChangesOnlyThatRecord | src/notifications/notifications.service.ts:121-135 | the dismissed record is the one found, with the flag set; the other records and all ids are unchanged |
| Notifications.UpdatesKeepIdsUnique | src/notifications/notifications.service.ts:54-143 | both flag updates keep the primary key unique |
| Notifications.CreatedIsRetrievable | src/notifications/notifications.service.ts:92-101 | a created record is listed last for its user and for its conversation; no other listing changes |
| Notifications.CreateKeepsIdsUnique | src/notifications/notifications.service.ts:92-101 | appending under a fresh id keeps the primary key unique |
| Notifications.NotificationService.GetNotificationsForConversation | src/notifications/notifications.service.ts:30-44 | exactly the conversation's records with SUCCESS; a failed query becomes a not-found error |
| Notifications.NotificationService.AcknowledgeNotification | src/notifications/notifications.service.ts:54-67 | the table becomes `Acknowledged` of the old one and SUCCESS is returned, even for an unknown id; a failed update changes nothing and raises BadRequest/FAILURE; the primary key stays unique |
| Notifications.NotificationService.CreateNotification | src/notifications/notifications.service.ts:79-109 | on success exactly one new record is appended and returned; a rejected lookup, a missing conversation or user, and a failed save each store nothing and raise the same BadRequest/FAILURE; the primary key stays unique |
| Notifications.NotificationService.DismissNotification | src/notifications/notifications.service.ts:119-143 | a present id gets `dismissed = true` and the found record is returned with the flag set; an absent id, a failed lookup or a failed save change nothing and raise the same BadRequest/FAILURE; the primary key stays unique |
| Notifications.NotificationService.GetNotificationsForUser | src/notifications/notifications.service.ts:162-185 | exactly the user's records with SUCCESS, with the "No notifications found" message exactly when there are none; a failed query raises BadRequest/FAILURE |
| ChatService.ParticipantIds | src/chat/service/chat.service.ts:41 | the k-th entry is the k-th participant's userId |
| ChatService.DuplicateCheckIffRepeatedUserId | src/chat/service/chat.service.ts:41-44 | the set-size check fires exactly when two participants share a userId |
| ChatService.FindUser | src/chat/service/chat.service.ts:50 | a row is found exactly when the userId is in the table, and it carries that userId |
| ChatService.FindUserUnique | src/chat/service/chat.service.ts:50 | with unique userIds the row found is the only row with that userId |
| ChatService.GetOrCreate | src/chat/service/chat.service.ts:49-56 | the entity has the participant's userId and is in the table; the table is unchanged or gains exactly the new row; userIds stay unique |
| ChatService.GetOrCreateAll | src/chat/service/chat.service.ts:48-57 | one entity per participant (its other properties are the lemmas below) |
| ChatService.GetOrCreateAllKeepsExisting | src/chat/service/chat.service.ts:48-57 | existing rows stay unchanged at the front of the table, and the userIds stay unique |
| ChatService.GetOrCreateAllRegistersAll | src/chat/service/chat.service.ts:48-57 | afterwards the table holds exactly the userIds it held before and those of the participants |
| ChatService.GetOrCreateAllAddsOnlyGivenRows | src/chat/service/chat.service.ts:52-53 | every added row is a participant's row with the email and role it was given |
| ChatService.EntitiesFollowInput | src/chat/service/chat.service.ts:48-60 | the k-th entity is a stored row with the k-th participant's userId |
| ChatService.EntitiesMatchParticipants | src/chat/service/chat.service.ts:48-60 | for distinct participants each entity is the existing row when there was one, and otherwise the new row |
| ChatService.MissingParticipantsCreated | src/chat/service/chat.service.ts:51-53 | when the duplicate check passes, each missing participant is afterwards stored with its given email and role |
| ChatService.UserFaultMessage | src/chat/service/chat.service.ts:62-68 | the duplicate-entry message is chosen exactly for a query failure whose message contains "Duplicate entry"; otherwise the internal-error message |
| ChatService.FindMessage | src/chat/service/chat.service.ts:135-137 | a message is found exactly when the id is in the table, and it carries that id |
| ChatService.Updated | src/chat/service/chat.service.ts:142 | the content in the request overwrites the message's; a request without content leaves it as it was; the other fields never change |
| ChatService.Replaced | src/chat/service/chat.service.ts:143 | the rows with the message's id are overwritten and the others are unchanged |
| ChatService.Removed | src/chat/service/chat.service.ts:166 | exactly the rows with another id remain |
| ChatService.MessagesOf | src/chat/service/chat.service.ts:219-221 | exactly the messages of that conversation |
| ChatService.ConversationsOf | src/chat/service/chat.service.ts:183-187 | exactly the conversations with a participant of that userId |
| ChatService.UpdateIdempotent | src/chat/service/chat.service.ts:142 | applying the same request twice equals applying it once |
| ChatService.UpdateRewritesOnlyThatMessage | src/chat/service/chat.service.ts:142-143 | the updated message is found under its id afterwards, the ids are unchanged, and every other row is unchanged |
| ChatService.RemoveDropsExactlyThatMessage | src/chat/service/chat.service.ts:159-167 | with unique ids, removal drops exactly that message's row and keeps the others in order |
| ChatService.RemoveKeepsIdsUnique | src/chat/service/chat.service.ts:166 | the remaining ids are still unique |
| ChatService.SentMessageIsListed | src/chat/service/chat.service.ts:111-115 | a sent message is listed last for its conversation; no other conversation's listing changes |
| ChatService.ChatService.GetOrCreateUsers | src/chat/service/chat.service.ts:48-57 | the loop leaves exactly the table and the entities of `GetOrCreateAll` |
| ChatService.ChatService.CreateConversation | src/chat/service/chat.service.ts:39-69 | duplicates are rejected with Forbidden before any write; a user-phase rejection raises Forbidden with the chosen message after the earlier participants' writes; otherwise one conversation is appended with the entities in input order; a save rejection escapes as it is |
| ChatService.ChatService.SendMessage | src/chat/service/chat.service.ts:102-122 | a failed lookup raises Forbidden; a missing conversation or sender raises NotFound; otherwise exactly one message linking them is appended and returned |
| ChatService.ChatService.UpdateMessage | src/chat/service/chat.service.ts:133-147 | a failed lookup or an absent id raises NotFound and changes nothing; otherwise the row is overwritten with the updated message, which is returned |
| ChatService.ChatService.DeleteMessage | src/chat/service/chat.service.ts:157-171 | a present id is removed and its message returned; an absent id, a failed lookup or a failed removal raise NotFound and change nothing |
| ChatService.ChatService.GetConversations | src/chat/service/chat.service.ts:181-191 | exactly the conversations with a participant of that userId; a query rejection escapes as it is |
| ChatService.ChatService.GetMessagesByConversation | src/chat/service/chat.service.ts:217-225 | exactly that conversation's messages; a query rejection escapes as it is |

## Left out

- Token checking: `jwt.verify` and its keys are cryptography. The model takes the decoded payload, or its absence, as an input.
- Logging, Swagger decorators, the controllers, DTO validation and application bootstrap are left out. None of them affects the state.
- Concurrency: every handler is one atomic step, and the Node event loop is not modelled. The disconnect event that socket.io raises after a server-side `client.disconnect()` is a separate `HandleDisconnect` step.
- socket.io is idealised as connected sockets, rooms and an emission log. A room's recipients are fixed at emission time. Namespaces, acknowledgements, adapters and delivery failures are not modelled.
- ChatService.ChatService.GetOrCreateUsers: it handles the participants of `Promise.all` one after the other, in input order. With distinct participants (which the duplicate check ensures) every lookup and write touches a different row, so the result is the same. On a rejection, however, the model keeps exactly the writes of the earlier participants. Under `Promise.all`, writes of later participants may also have completed. That variation is not modelled.
- ChatService.ChatService.CreateConversation: the final save is returned unawaited, so a rejection escapes as it is instead of becoming Forbidden. The new conversation's `ticketId` is never set, and the model leaves it empty (None).
- ChatService.ChatService.GetConversations: returns the stored rows with their participants. The source's query joins the participants only to filter on them, so the rows it returns carry none.
- getMessages (src/chat/service/chat.service.ts:80-89) returns the same rows as `getMessagesByConversation` and has the same unawaited failure path, so `ChatService.ChatService.GetMessagesByConversation` models both. The extra relation loading does not show here, because the model keeps relations as keys.
- getConversationHistory only forwards to `getMessagesByConversation`. It is not modelled separately.
- Replies from collaborators: the gateway reads `ApiResponse` envelopes from `getConversations`, `createConversation` and `sendMessage`. It also calls `findConversationByTicketId` and `getStaffMembersByTicketId`. The `ChatService` shown returns bare rows and defines neither of the last two. `NotificationService` also calls `findConversationByTicketId`. The model follows the reading of the calling code and takes these replies as inputs. It does not connect them to the `ChatService` tables.
- UserService is not part of this model. Its lookups and status writes are inputs, and `UserStatusStore` keys the status column by the user id the caller passes. That `createUser` ignores its `userId` argument, and that `updateUserStatus` addresses rows by primary key, is therefore not reflected.
- ChatGateway: its `configService` field is never assigned, and the class is not registered in any module shown. The model takes the configuration as an optional value (`NoConfigRejectsEveryone` covers the source as it stands). The console output is left out.
- Notifications.NotificationService.DismissNotification: when the save fails, the found entity has already been marked dismissed in memory. That object is discarded, so only the unchanged table is modelled.
- Timestamps and generated keys: these are inputs (`now`, `freshId`). The tables' uniqueness of generated keys is a precondition.
- HTTP exceptions are modelled by their kind, status and message only.
