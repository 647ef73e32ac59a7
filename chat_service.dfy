/**
 * `ChatService`: the conversation, message and user tables behind the chat
 * endpoints. Conversations are created from participant descriptions, with
 * missing users created on the way; messages are sent, updated, deleted and
 * listed.
 */
module ChatService {
  import opened Common
  import opened Seqs

  /** A participant as the caller describes it. */
  datatype UserDto = UserDto(userId: UserId, email: string, role: string)

  /** A user row (the status column is the gateway's concern and is not kept here). */
  datatype UserRow = UserRow(userId: UserId, email: string, role: string)

  /** A conversation row with its participants. */
  datatype Conversation = Conversation(id: string, ticketId: Option<string>, participants: seq<UserRow>)

  /** A message row; the relations are kept as the related rows' keys, the timestamp as a number. */
  datatype Message = Message(id: string, conversationId: string, senderId: UserId, content: string, createdAt: int)

  /** `UpdateMessageDto`: a field left out of the request is None. */
  datatype UpdateMessageDto = UpdateMessageDto(content: Option<string>)

  /** A rejection of the user phase of `createConversation`, raised while handling participant `at`. */
  datatype UserFault = UserFault(at: nat, fault: StoreFault)

  const DUPLICATE_PARTICIPANTS := "Failed to create conversation. Duplicate participants found."
  const DUPLICATE_ENTRY := "Failed to create conversation. Duplicate entry error."
  const CREATE_FAILED := "Failed to create conversation. Internal server error."
  const SEND_FAILED := "Failed to send message."
  const CONVERSATION_OR_SENDER_NOT_FOUND := "Conversation or sender not found."
  const MESSAGE_NOT_FOUND := "Message not found."

  // ---------------------------------------------------------------------------
  // The duplicate-participant check

  /** `participants.map(p => p.userId)`. */
  function ParticipantIds(ps: seq<UserDto>): (r: seq<UserId>)
    ensures |r| == |ps| && forall k :: 0 <= k < |ps| ==> r[k] == ps[k].userId
  {
    MapSeq(ps, (p: UserDto) => p.userId)
  }

  /** `new Set(ids).size !== participants.length`. */
  predicate HasDuplicates(ps: seq<UserDto>)
  {
    |Elements(ParticipantIds(ps))| != |ps|
  }

  /** The set-size check fires exactly when two participants share a userId. */
  lemma DuplicateCheckIffRepeatedUserId(ps: seq<UserDto>)
    ensures HasDuplicates(ps) <==> exists i, j :: 0 <= i < j < |ps| && ps[i].userId == ps[j].userId
  {
    var ids := ParticipantIds(ps);
    SetSizeIffNoDuplicates(ids);
    if !NoDuplicates(ids) {
      var i, j :| 0 <= i < j < |ids| && ids[i] == ids[j];
      assert ps[i].userId == ps[j].userId;
    }
  }

  // ---------------------------------------------------------------------------
  // The user table

  function UserIds(t: seq<UserRow>): (r: seq<UserId>)
    ensures |r| == |t| && forall k :: 0 <= k < |t| ==> r[k] == t[k].userId
  {
    MapSeq(t, (x: UserRow) => x.userId)
  }

  /** `userId` is a unique column. */
  predicate UniqueUserIds(t: seq<UserRow>)
  {
    forall i, j :: 0 <= i < j < |t| ==> t[i].userId != t[j].userId
  }

  /** `userRepository.findOne({ where: { userId } })`. */
  function FindUser(t: seq<UserRow>, u: UserId): (r: Option<UserRow>)
    ensures r.Some? <==> u in UserIds(t)
    ensures r.Some? ==> r.value in t && r.value.userId == u
  {
    var r := Find(t, (x: UserRow) => x.userId == u);
    assert r.Some? ==> u in UserIds(t) by {
      if r.Some? {
        var k :| 0 <= k < |t| && t[k] == r.value;
        assert UserIds(t)[k] == u;
      }
    }
    assert u in UserIds(t) ==> r.Some? by {
      if u in UserIds(t) {
        var k :| 0 <= k < |t| && UserIds(t)[k] == u;
        assert t[k] in t;
      }
    }
    r
  }

  /** In a table with unique userIds the lookup finds the one row with that userId. */
  lemma FindUserUnique(t: seq<UserRow>, x: UserRow)
    requires UniqueUserIds(t) && x in t
    ensures FindUser(t, x.userId) == Some(x)
  {
    var y := FindUser(t, x.userId).value;
    var i :| 0 <= i < |t| && t[i] == x;
    var j :| 0 <= j < |t| && t[j] == y;
    assert !(i < j) && !(j < i);
  }

  /** `userRepository.create({ userId, email, role })`. */
  function RowOf(d: UserDto): UserRow
  {
    UserRow(d.userId, d.email, d.role)
  }

  function RowsOf(ds: seq<UserDto>): (r: seq<UserRow>)
    ensures |r| == |ds| && forall k :: 0 <= k < |ds| ==> r[k] == RowOf(ds[k])
  {
    MapSeq(ds, RowOf)
  }

  /**
   * The table and entity after handling one participant: the existing row,
   * or a new row with the given email and role saved at the end.
   */
  function GetOrCreate(t: seq<UserRow>, d: UserDto): (r: (seq<UserRow>, UserRow))
    ensures t <= r.0 && r.1 in r.0 && r.1.userId == d.userId
    ensures r.0 == t || r.0 == t + [RowOf(d)]
    ensures forall u :: u in UserIds(r.0) <==> u in UserIds(t) || u == d.userId
    ensures UniqueUserIds(t) ==> UniqueUserIds(r.0)
  {
    match FindUser(t, d.userId)
    case Some(x) => (t, x)
    case None =>
      var r := (t + [RowOf(d)], RowOf(d));
      assert UserIds(r.0) == UserIds(t) + [d.userId];
      assert UniqueUserIds(t) ==> UniqueUserIds(r.0) by {
        if UniqueUserIds(t) {
          forall i | 0 <= i < |t| ensures t[i].userId != d.userId {
            assert UserIds(t)[i] == t[i].userId;
          }
        }
      }
      r
  }

  /** The table and the participant entities after handling `ds` in order. */
  function GetOrCreateAll(t: seq<UserRow>, ds: seq<UserDto>): (r: (seq<UserRow>, seq<UserRow>))
    ensures |r.1| == |ds|
  {
    if ds == [] then (t, [])
    else
      var prev := GetOrCreateAll(t, ds[..|ds| - 1]);
      var step := GetOrCreate(prev.0, ds[|ds| - 1]);
      (step.0, prev.1 + [step.1])
  }

  /** Existing rows stay as they are, at the front of the table, and the userIds stay unique. */
  lemma {:induction false} GetOrCreateAllKeepsExisting(t: seq<UserRow>, ds: seq<UserDto>)
    ensures t <= GetOrCreateAll(t, ds).0
    ensures UniqueUserIds(t) ==> UniqueUserIds(GetOrCreateAll(t, ds).0)
  {
    if ds != [] {
      GetOrCreateAllKeepsExisting(t, ds[..|ds| - 1]);
    }
  }

  /** Afterwards the table holds exactly the userIds it held before and those of the participants. */
  lemma {:induction false} GetOrCreateAllRegistersAll(t: seq<UserRow>, ds: seq<UserDto>)
    ensures forall u :: u in UserIds(GetOrCreateAll(t, ds).0) <==> u in UserIds(t) || u in ParticipantIds(ds)
  {
    if ds != [] {
      var init := ds[..|ds| - 1];
      GetOrCreateAllRegistersAll(t, init);
      assert ParticipantIds(ds) == ParticipantIds(init) + [ds[|ds| - 1].userId];
    }
  }

  /** Rows are only ever added for participants, with the email and role they were given. */
  lemma {:induction false} GetOrCreateAllAddsOnlyGivenRows(t: seq<UserRow>, ds: seq<UserDto>)
    ensures var r := GetOrCreateAll(t, ds).0; forall k :: |t| <= k < |r| ==> r[k] in RowsOf(ds)
  {
    if ds != [] {
      var init := ds[..|ds| - 1];
      GetOrCreateAllAddsOnlyGivenRows(t, init);
      GetOrCreateAllKeepsExisting(t, init);
      assert RowsOf(ds) == RowsOf(init) + [RowOf(ds[|ds| - 1])];
    }
  }

  /** The k-th entity is a row of the table carrying the k-th participant's userId. */
  lemma {:induction false} EntitiesFollowInput(t: seq<UserRow>, ds: seq<UserDto>, k: int)
    requires 0 <= k < |ds|
    ensures var r := GetOrCreateAll(t, ds); r.1[k].userId == ds[k].userId && r.1[k] in r.0
  {
    var init := ds[..|ds| - 1];
    var prev := GetOrCreateAll(t, init);
    if k < |ds| - 1 {
      EntitiesFollowInput(t, init, k);
      assert GetOrCreateAll(t, ds).1[k] == prev.1[k];
    }
  }

  /**
   * For distinct participants over a table with unique userIds, each entity
   * is the participant's existing row when there was one and otherwise a new
   * row with the given email and role.
   */
  lemma {:induction false} EntitiesMatchParticipants(t: seq<UserRow>, ds: seq<UserDto>, k: int)
    requires UniqueUserIds(t) && NoDuplicates(ParticipantIds(ds))
    requires 0 <= k < |ds|
    ensures GetOrCreateAll(t, ds).1[k] == if ds[k].userId in UserIds(t) then FindUser(t, ds[k].userId).value else RowOf(ds[k])
  {
    var init := ds[..|ds| - 1];
    var d := ds[|ds| - 1];
    var prev := GetOrCreateAll(t, init);
    assert ParticipantIds(init) == ParticipantIds(ds)[..|ds| - 1];
    if k < |ds| - 1 {
      EntitiesMatchParticipants(t, init, k);
      assert GetOrCreateAll(t, ds).1[k] == prev.1[k];
    } else {
      GetOrCreateAllKeepsExisting(t, init);
      GetOrCreateAllRegistersAll(t, init);
      assert d.userId !in ParticipantIds(init) by {
        forall i | 0 <= i < |init| ensures ParticipantIds(init)[i] != d.userId {
          assert ParticipantIds(ds)[i] == ParticipantIds(init)[i];
          assert ParticipantIds(ds)[|ds| - 1] == d.userId;
        }
      }
      if d.userId in UserIds(t) {
        var x := FindUser(t, d.userId).value;
        assert x in prev.0 by {
          var i :| 0 <= i < |t| && t[i] == x;
          assert prev.0[i] == x;
        }
        FindUserUnique(prev.0, x);
      }
    }
  }

  /**
   * When the duplicate check passes, a participant missing from the table is
   * afterwards in it with the email and role it was given.
   */
  lemma MissingParticipantsCreated(t: seq<UserRow>, ds: seq<UserDto>, k: int)
    requires UniqueUserIds(t) && !HasDuplicates(ds)
    requires 0 <= k < |ds| && ds[k].userId !in UserIds(t)
    ensures RowOf(ds[k]) in GetOrCreateAll(t, ds).0
  {
    SetSizeIffNoDuplicates(ParticipantIds(ds));
    EntitiesMatchParticipants(t, ds, k);
    EntitiesFollowInput(t, ds, k);
  }

  /** The message chosen for a rejection of the user phase. */
  function UserFaultMessage(f: StoreFault): (r: string)
    ensures r == DUPLICATE_ENTRY || r == CREATE_FAILED
    ensures r == DUPLICATE_ENTRY <==> f.isQueryFailed && Contains(f.message, "Duplicate entry")
  {
    if f.isQueryFailed && Contains(f.message, "Duplicate entry") then DUPLICATE_ENTRY else CREATE_FAILED
  }

  // ---------------------------------------------------------------------------
  // Conversations and messages

  function ConversationIds(cs: seq<Conversation>): (r: seq<string>)
    ensures |r| == |cs| && forall k :: 0 <= k < |cs| ==> r[k] == cs[k].id
  {
    MapSeq(cs, (c: Conversation) => c.id)
  }

  function MessageIds(ms: seq<Message>): (r: seq<string>)
    ensures |r| == |ms| && forall k :: 0 <= k < |ms| ==> r[k] == ms[k].id
  {
    MapSeq(ms, (m: Message) => m.id)
  }

  predicate UniqueMessageIds(ms: seq<Message>)
  {
    forall i, j :: 0 <= i < j < |ms| ==> ms[i].id != ms[j].id
  }

  /** `messageRepository.findOne({ where: { id } })`. */
  function FindMessage(ms: seq<Message>, id: string): (r: Option<Message>)
    ensures r.Some? <==> id in MessageIds(ms)
    ensures r.Some? ==> r.value in ms && r.value.id == id
  {
    var r := Find(ms, (m: Message) => m.id == id);
    assert r.Some? ==> id in MessageIds(ms) by {
      if r.Some? {
        var k :| 0 <= k < |ms| && ms[k] == r.value;
        assert MessageIds(ms)[k] == id;
      }
    }
    assert id in MessageIds(ms) ==> r.Some? by {
      if id in MessageIds(ms) {
        var k :| 0 <= k < |ms| && MessageIds(ms)[k] == id;
        assert ms[k] in ms;
      }
    }
    r
  }

  /** `Object.assign(message, dto)`: the fields present in the request overwrite the message's. */
  function Updated(m: Message, dto: UpdateMessageDto): (r: Message)
    ensures r.id == m.id && r.conversationId == m.conversationId && r.senderId == m.senderId && r.createdAt == m.createdAt
    ensures dto.content.Some? ==> r.content == dto.content.value
    ensures dto.content.None? ==> r == m
  {
    match dto.content
    case Some(c) => m.(content := c)
    case None => m
  }

  /** The table after saving `m` over the row with its id. */
  function Replaced(ms: seq<Message>, m: Message): (r: seq<Message>)
    ensures |r| == |ms|
    ensures forall k :: 0 <= k < |ms| ==> r[k] == if ms[k].id == m.id then m else ms[k]
  {
    seq(|ms|, k requires 0 <= k < |ms| => if ms[k].id == m.id then m else ms[k])
  }

  /** Whether a row survives the removal of the message with this id. */
  function Survives(id: string): Message -> bool
  {
    (m: Message) => m.id != id
  }

  /** The table after `messageRepository.remove` of the message with this id. */
  function Removed(ms: seq<Message>, id: string): (r: seq<Message>)
    ensures forall m :: m in r <==> m in ms && m.id != id
  {
    Filter(ms, Survives(id))
  }

  /** `messageRepository.find({ where: { conversation: { id } } })`, in table order. */
  function MessagesOf(ms: seq<Message>, conversationId: string): (r: seq<Message>)
    ensures forall m :: m in r <==> m in ms && m.conversationId == conversationId
  {
    Filter(ms, (m: Message) => m.conversationId == conversationId)
  }

  /** The conversations joined with a participant whose userId matches, in table order. */
  function ConversationsOf(cs: seq<Conversation>, u: UserId): (r: seq<Conversation>)
    ensures forall c :: c in r <==> c in cs && u in UserIds(c.participants)
  {
    Filter(cs, (c: Conversation) => u in UserIds(c.participants))
  }

  /** Updating applies the request once: applying it again changes nothing. */
  lemma UpdateIdempotent(m: Message, dto: UpdateMessageDto)
    ensures Updated(Updated(m, dto), dto) == Updated(m, dto)
  {
  }

  /**
   * Saving the updated message rewrites exactly the row with its id: that row
   * is found with the new content, and every other row is unchanged.
   */
  lemma UpdateRewritesOnlyThatMessage(ms: seq<Message>, m: Message, dto: UpdateMessageDto)
    requires UniqueMessageIds(ms) && m in ms
    ensures FindMessage(Replaced(ms, Updated(m, dto)), m.id) == Some(Updated(m, dto))
    ensures MessageIds(Replaced(ms, Updated(m, dto))) == MessageIds(ms)
    ensures forall k :: 0 <= k < |ms| && ms[k] != m ==> Replaced(ms, Updated(m, dto))[k] == ms[k]
  {
    var r := Replaced(ms, Updated(m, dto));
    var i :| 0 <= i < |ms| && ms[i] == m;
    forall k | 0 <= k < |ms| && ms[k] != m ensures ms[k].id != m.id {
      assert k < i || i < k;
    }
    var found := FindMessage(r, m.id).value;
    var j :| 0 <= j < |r| && r[j] == found;
    assert ms[j].id == m.id;
    assert j == i by {
      assert !(i < j) && !(j < i);
    }
  }

  /** `ms` split around position `i`. */
  lemma SplitAround(ms: seq<Message>, i: int)
    requires 0 <= i < |ms|
    ensures ms == ms[..i] + [ms[i]] + ms[i + 1..]
  {
  }

  /** With unique ids, no row other than `ms[i]` carries its id. */
  lemma OthersHaveOtherIds(ms: seq<Message>, i: int)
    requires UniqueMessageIds(ms) && 0 <= i < |ms|
    ensures forall m :: m in ms[..i] ==> m.id != ms[i].id
    ensures forall m :: m in ms[i + 1..] ==> m.id != ms[i].id
  {
    forall m | m in ms[..i] ensures m.id != ms[i].id {
      var k :| 0 <= k < i && ms[..i][k] == m;
      assert ms[k] == m;
    }
    forall m | m in ms[i + 1..] ensures m.id != ms[i].id {
      var k :| 0 <= k < |ms| - i - 1 && ms[i + 1..][k] == m;
      assert ms[i + 1 + k] == m;
    }
  }

  /**
   * With unique ids, removing a present message drops exactly its row and
   * keeps every other row in order.
   */
  lemma RemoveDropsExactlyThatMessage(ms: seq<Message>, i: int)
    requires UniqueMessageIds(ms) && 0 <= i < |ms|
    ensures Removed(ms, ms[i].id) == ms[..i] + ms[i + 1..]
  {
    var p := Survives(ms[i].id);
    var a, x, b := ms[..i], ms[i], ms[i + 1..];
    SplitAround(ms, i);
    OthersHaveOtherIds(ms, i);
    FilterAppend(a + [x], b, p);
    FilterAppend(a, [x], p);
    FilterKeepsAll(a, p);
    FilterKeepsAll(b, p);
    assert Filter([x], p) == [];
    assert Filter(a + [x], p) == a;
  }

  /** Removing a row keeps the ids unique. */
  lemma RemoveKeepsIdsUnique(ms: seq<Message>, i: int)
    requires UniqueMessageIds(ms) && 0 <= i < |ms|
    ensures UniqueMessageIds(ms[..i] + ms[i + 1..])
  {
    var rest := ms[..i] + ms[i + 1..];
    forall p, q | 0 <= p < q < |rest| ensures rest[p].id != rest[q].id {
      var p' := if p < i then p else p + 1;
      var q' := if q < i then q else q + 1;
      assert rest[p] == ms[p'] && rest[q] == ms[q'];
    }
  }

  /** A sent message comes last in its conversation's listing and no other listing changes. */
  lemma SentMessageIsListed(ms: seq<Message>, m: Message, conversationId: string)
    ensures MessagesOf(ms + [m], m.conversationId) == MessagesOf(ms, m.conversationId) + [m]
    ensures conversationId != m.conversationId ==> MessagesOf(ms + [m], conversationId) == MessagesOf(ms, conversationId)
  {
    var p := (x: Message) => x.conversationId == m.conversationId;
    var q := (x: Message) => x.conversationId == conversationId;
    FilterAppend(ms, [m], p);
    FilterAppend(ms, [m], q);
    assert Filter([m], p) == [m];
    if conversationId != m.conversationId {
      assert Filter([m], q) == [];
    }
  }

  class ChatService {
    var users: seq<UserRow>
    var conversations: seq<Conversation>
    var messages: seq<Message>

    constructor ()
      ensures users == [] && conversations == [] && messages == []
    {
      users, conversations, messages := [], [], [];
    }

    /** The tables' unique keys. */
    predicate Valid()
      reads this
    {
      UniqueUserIds(users) && UniqueMessageIds(messages)
    }

    /**
     * The `Promise.all` over the participants: each is looked up by userId
     * and, when missing, created and saved. Participants are handled in
     * input order.
     */
    method GetOrCreateUsers(ds: seq<UserDto>) returns (entities: seq<UserRow>)
      modifies this
      ensures (users, entities) == GetOrCreateAll(old(users), ds)
      ensures conversations == old(conversations) && messages == old(messages)
    {
      entities := [];
      var i := 0;
      while i < |ds|
        invariant 0 <= i <= |ds|
        invariant (users, entities) == GetOrCreateAll(old(users), ds[..i])
        invariant conversations == old(conversations) && messages == old(messages)
      {
        var d := ds[i];
        var found := FindUser(users, d.userId);
        var user: UserRow;
        if found.Some? {
          user := found.value;
        } else {
          user := RowOf(d);
          users := users + [user];
        }
        entities := entities + [user];
        assert ds[..i + 1][..i] == ds[..i];
        i := i + 1;
      }
      assert ds[..i] == ds;
    }

    /**
     * `createConversation`. `userFault` is a rejection while handling one
     * participant (after the earlier ones were written); `saveFault` is a
     * rejection of the final save, which is returned unawaited and so escapes
     * the catch unchanged; `freshId` is the generated key.
     */
    method CreateConversation(participants: seq<UserDto>, userFault: Option<UserFault>, saveFault: Option<StoreFault>, freshId: string)
      returns (r: Outcome<Conversation>)
      requires Valid()
      requires userFault.Some? ==> userFault.value.at < |participants|
      modifies this
      ensures Valid() && messages == old(messages)
      ensures HasDuplicates(participants) ==>
        users == old(users) && conversations == old(conversations) && r == Threw(Forbidden(DUPLICATE_PARTICIPANTS))
      ensures !HasDuplicates(participants) && userFault.Some? ==>
        var f := userFault.value;
        && users == GetOrCreateAll(old(users), participants[..f.at]).0 && conversations == old(conversations)
        && r == Threw(Forbidden(UserFaultMessage(f.fault)))
      ensures !HasDuplicates(participants) && userFault.None? ==>
        var all := GetOrCreateAll(old(users), participants);
        && users == all.0
        && (saveFault.Some? ==> conversations == old(conversations) && r == Threw(Unwrapped(saveFault.value)))
        && (saveFault.None? ==> var c := Conversation(freshId, None, all.1);
              conversations == old(conversations) + [c] && r == Returned(c))
    {
      if |Elements(ParticipantIds(participants))| != |participants| {
        return Threw(Forbidden(DUPLICATE_PARTICIPANTS));
      }
      var stop := if userFault.Some? then userFault.value.at else |participants|;
      var before := users;
      var entities := GetOrCreateUsers(participants[..stop]);
      GetOrCreateAllKeepsExisting(before, participants[..stop]);
      if userFault.Some? {
        return Threw(Forbidden(UserFaultMessage(userFault.value.fault)));
      }
      assert participants[..stop] == participants;
      if saveFault.Some? {
        return Threw(Unwrapped(saveFault.value));
      }
      var c := Conversation(freshId, None, entities);
      conversations := conversations + [c];
      r := Returned(c);
    }

    /**
     * `sendMessage`. `lookupsOk` is false when either lookup rejects; the
     * save is returned unawaited, so its rejection escapes unchanged.
     */
    method SendMessage(conversationId: string, senderId: UserId, content: string, lookupsOk: bool,
                       saveFault: Option<StoreFault>, freshId: string, now: int) returns (r: Outcome<Message>)
      requires Valid() && freshId !in MessageIds(messages)
      modifies this
      ensures Valid() && users == old(users) && conversations == old(conversations)
      ensures !lookupsOk ==> messages == old(messages) && r == Threw(Forbidden(SEND_FAILED))
      ensures lookupsOk && (conversationId !in ConversationIds(conversations) || senderId !in UserIds(users)) ==>
        messages == old(messages) && r == Threw(NotFound(CONVERSATION_OR_SENDER_NOT_FOUND))
      ensures lookupsOk && conversationId in ConversationIds(conversations) && senderId in UserIds(users) ==>
        && (saveFault.Some? ==> messages == old(messages) && r == Threw(Unwrapped(saveFault.value)))
        && (saveFault.None? ==> var m := Message(freshId, conversationId, senderId, content, now);
              messages == old(messages) + [m] && r == Returned(m))
    {
      if !lookupsOk {
        return Threw(Forbidden(SEND_FAILED));
      }
      var conversation := Find(conversations, (c: Conversation) => c.id == conversationId);
      var sender := FindUser(users, senderId);
      assert conversation.Some? <==> conversationId in ConversationIds(conversations) by {
        if conversation.Some? {
          var k :| 0 <= k < |conversations| && conversations[k] == conversation.value;
          assert ConversationIds(conversations)[k] == conversationId;
        }
        if conversationId in ConversationIds(conversations) {
          var k :| 0 <= k < |conversations| && ConversationIds(conversations)[k] == conversationId;
          assert conversations[k] in conversations;
        }
      }
      if conversation.None? || sender.None? {
        return Threw(NotFound(CONVERSATION_OR_SENDER_NOT_FOUND));
      }
      if saveFault.Some? {
        return Threw(Unwrapped(saveFault.value));
      }
      var m := Message(freshId, conversation.value.id, sender.value.userId, content, now);
      assert UniqueMessageIds(messages + [m]) by {
        forall k | 0 <= k < |messages| ensures messages[k].id != freshId {
          assert MessageIds(messages)[k] == messages[k].id;
        }
      }
      messages := messages + [m];
      r := Returned(m);
    }

    /**
     * `updateMessage`. A rejected lookup and a missing message both end in
     * not-found; the save is returned unawaited, so its rejection escapes
     * unchanged.
     */
    method UpdateMessage(messageId: string, dto: UpdateMessageDto, lookupOk: bool, saveFault: Option<StoreFault>)
      returns (r: Outcome<Message>)
      requires Valid()
      modifies this
      ensures Valid() && users == old(users) && conversations == old(conversations)
      ensures !lookupOk || messageId !in MessageIds(old(messages)) ==>
        messages == old(messages) && r == Threw(NotFound(MESSAGE_NOT_FOUND))
      ensures lookupOk && messageId in MessageIds(old(messages)) ==>
        var m := Updated(FindMessage(old(messages), messageId).value, dto);
        && (saveFault.Some? ==> messages == old(messages) && r == Threw(Unwrapped(saveFault.value)))
        && (saveFault.None? ==> messages == Replaced(old(messages), m) && r == Returned(m))
    {
      if !lookupOk {
        return Threw(NotFound(MESSAGE_NOT_FOUND));
      }
      var found := FindMessage(messages, messageId);
      if found.None? {
        return Threw(NotFound(MESSAGE_NOT_FOUND));
      }
      var m := Updated(found.value, dto);
      if saveFault.Some? {
        return Threw(Unwrapped(saveFault.value));
      }
      UpdateRewritesOnlyThatMessage(messages, found.value, dto);
      assert UniqueMessageIds(Replaced(messages, m)) by {
        var ids := MessageIds(Replaced(messages, m));
        forall i, j | 0 <= i < j < |messages| ensures Replaced(messages, m)[i].id != Replaced(messages, m)[j].id {
          assert ids[i] == MessageIds(messages)[i] && ids[j] == MessageIds(messages)[j];
        }
      }
      messages := Replaced(messages, m);
      r := Returned(m);
    }

    /** `deleteMessage`: every failure, including a rejected removal, ends in not-found. */
    method DeleteMessage(messageId: string, lookupOk: bool, removeOk: bool) returns (r: Outcome<Message>)
      requires Valid()
      modifies this
      ensures Valid() && users == old(users) && conversations == old(conversations)
      ensures lookupOk && messageId in MessageIds(old(messages)) && removeOk ==>
        messages == Removed(old(messages), messageId) && r == Returned(FindMessage(old(messages), messageId).value)
      ensures !(lookupOk && messageId in MessageIds(old(messages)) && removeOk) ==>
        messages == old(messages) && r == Threw(NotFound(MESSAGE_NOT_FOUND))
    {
      if !lookupOk {
        return Threw(NotFound(MESSAGE_NOT_FOUND));
      }
      var found := FindMessage(messages, messageId);
      if found.None? || !removeOk {
        return Threw(NotFound(MESSAGE_NOT_FOUND));
      }
      var k :| 0 <= k < |messages| && messages[k] == found.value;
      RemoveDropsExactlyThatMessage(messages, k);
      RemoveKeepsIdsUnique(messages, k);
      messages := Removed(messages, messageId);
      r := Returned(found.value);
    }

    /**
     * `getConversations`: the conversations with a participant of that
     * userId. The query is returned unawaited, so its rejection escapes
     * unchanged.
     */
    method GetConversations(userId: UserId, readFault: Option<StoreFault>) returns (r: Outcome<seq<Conversation>>)
      ensures readFault.Some? ==> r == Threw(Unwrapped(readFault.value))
      ensures readFault.None? ==> r.Returned? && forall c :: c in r.value <==> c in conversations && userId in UserIds(c.participants)
      ensures readFault.None? ==> r.value == ConversationsOf(conversations, userId)
    {
      if readFault.Some? {
        return Threw(Unwrapped(readFault.value));
      }
      r := Returned(ConversationsOf(conversations, userId));
    }

    /**
     * `getMessagesByConversation`: that conversation's messages. The query is
     * returned unawaited, so its rejection escapes unchanged.
     */
    method GetMessagesByConversation(conversationId: string, readFault: Option<StoreFault>) returns (r: Outcome<seq<Message>>)
      ensures readFault.Some? ==> r == Threw(Unwrapped(readFault.value))
      ensures readFault.None? ==> r.Returned? && forall m :: m in r.value <==> m in messages && m.conversationId == conversationId
      ensures readFault.None? ==> r.value == MessagesOf(messages, conversationId)
    {
      if readFault.Some? {
        return Threw(Unwrapped(readFault.value));
      }
      r := Returned(MessagesOf(messages, conversationId));
    }
  }
}
