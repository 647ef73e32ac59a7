/**
 * `NotificationService`: notifications kept in a table of records, one per
 * (user, conversation, content), with acknowledged and dismissed flags that
 * start out false.
 */
module Notifications {
  import opened Common
  import opened Seqs

  /** A stored notification; the relations are kept as the related rows' keys. */
  datatype Notification = Notification(id: string, conversationId: string, userId: UserId,
                                       content: string, acknowledged: bool, dismissed: bool)

  /** What `chatService.findConversationByTicketId` and `userService.findUserById` return. */
  datatype ConversationRef = ConversationRef(id: string)
  datatype UserRef = UserRef(userId: UserId)

  type Response = ApiResponse<Notification>

  const ACKNOWLEDGE_FAILED := "Failed to acknowledge notification. Internal server error."
  const CREATE_FAILED := "Failed to create notification. Internal server error."
  const DISMISS_FAILED := "Failed to dismiss notification. Internal server error."
  const RETRIEVE_FAILED := "Failed to retrieve notifications. Internal server error."
  const NO_NOTIFICATIONS := "No notifications found for the user"
  const RETRIEVED := "Successfully retrieved notifications"

  /** The table's primary key is unique. */
  predicate UniqueIds(rows: seq<Notification>)
  {
    forall i, j :: 0 <= i < j < |rows| ==> rows[i].id != rows[j].id
  }

  function Ids(rows: seq<Notification>): (r: seq<string>)
    ensures |r| == |rows| && forall k :: 0 <= k < |rows| ==> r[k] == rows[k].id
  {
    MapSeq(rows, (n: Notification) => n.id)
  }

  /** `findOne({ where: { id } })`. */
  function FindById(rows: seq<Notification>, id: string): (r: Option<Notification>)
    ensures r.Some? <==> id in Ids(rows)
    ensures r.Some? ==> r.value in rows && r.value.id == id
  {
    var r := Find(rows, (n: Notification) => n.id == id);
    assert r.Some? ==> r.value.id in Ids(rows) by {
      if r.Some? {
        var k :| 0 <= k < |rows| && rows[k] == r.value;
      }
    }
    assert id in Ids(rows) ==> r.Some? by {
      if id in Ids(rows) {
        var k :| 0 <= k < |rows| && rows[k].id == id;
        assert rows[k] in rows;
      }
    }
    r
  }

  /** The table after `update(id, { acknowledged: true })`. */
  function Acknowledged(rows: seq<Notification>, id: string): (r: seq<Notification>)
    ensures |r| == |rows|
    ensures forall k :: 0 <= k < |rows| ==> r[k] == if rows[k].id == id then rows[k].(acknowledged := true) else rows[k]
  {
    seq(|rows|, k requires 0 <= k < |rows| => if rows[k].id == id then rows[k].(acknowledged := true) else rows[k])
  }

  /** The table after the record with this id is saved with `dismissed = true`. */
  function Dismissed(rows: seq<Notification>, id: string): (r: seq<Notification>)
    ensures |r| == |rows|
    ensures forall k :: 0 <= k < |rows| ==> r[k] == if rows[k].id == id then rows[k].(dismissed := true) else rows[k]
  {
    seq(|rows|, k requires 0 <= k < |rows| => if rows[k].id == id then rows[k].(dismissed := true) else rows[k])
  }

  /** `find({ where: { user: { userId } } })`: the user's notifications, in table order. */
  function ForUser(rows: seq<Notification>, userId: UserId): (r: seq<Notification>)
    ensures forall n :: n in r <==> n in rows && n.userId == userId
  {
    Filter(rows, (n: Notification) => n.userId == userId)
  }

  /** `find({ where: { conversation: { id } } })`: the conversation's notifications, in table order. */
  function ForConversation(rows: seq<Notification>, conversationId: string): (r: seq<Notification>)
    ensures forall n :: n in r <==> n in rows && n.conversationId == conversationId
  {
    Filter(rows, (n: Notification) => n.conversationId == conversationId)
  }

  /** The record `create({ user, conversation, content })` builds: both flags take their default, false. */
  function NewNotification(id: string, conversation: ConversationRef, user: UserRef, content: string): (r: Notification)
    ensures r.id == id && r.conversationId == conversation.id && r.userId == user.userId && r.content == content
    ensures !r.acknowledged && !r.dismissed
  {
    Notification(id, conversation.id, user.userId, content, false, false)
  }

  /** Acknowledging twice is the same as acknowledging once. */
  lemma AcknowledgeIdempotent(rows: seq<Notification>, id: string)
    ensures Acknowledged(Acknowledged(rows, id), id) == Acknowledged(rows, id)
  {
  }

  /** Acknowledging an id that is not in the table changes nothing. */
  lemma AcknowledgeAbsentIsNoOp(rows: seq<Notification>, id: string)
    requires id !in Ids(rows)
    ensures Acknowledged(rows, id) == rows
  {
    forall k | 0 <= k < |rows| ensures rows[k].id != id {
      assert Ids(rows)[k] == rows[k].id;
    }
  }

  /**
   * Acknowledging touches only the `acknowledged` flag of the record with
   * that id: every record keeps its id, conversation, user, content and
   * dismissed flag, and a record with another id keeps everything.
   */
  lemma AcknowledgeChangesOnlyThatFlag(rows: seq<Notification>, id: string, k: int)
    requires 0 <= k < |rows|
    ensures var n := Acknowledged(rows, id)[k];
      && n.id == rows[k].id && n.conversationId == rows[k].conversationId && n.userId == rows[k].userId
      && n.content == rows[k].content && n.dismissed == rows[k].dismissed
      && n.acknowledged == (rows[k].acknowledged || rows[k].id == id)
    ensures rows[k].id != id ==> Acknowledged(rows, id)[k] == rows[k]
  {
  }

  /** Dismissing twice is the same as dismissing once. */
  lemma DismissIdempotent(rows: seq<Notification>, id: string)
    ensures Dismissed(Dismissed(rows, id), id) == Dismissed(rows, id)
  {
  }

  /**
   * Dismissing touches only the `dismissed` flag of the record with that id,
   * and the dismissed record is the one found, with the flag set.
   */
  lemma DismissChangesOnlyThatRecord(rows: seq<Notification>, id: string)
    requires UniqueIds(rows) && id in Ids(rows)
    ensures FindById(rows, id).value.(dismissed := true) in Dismissed(rows, id)
    ensures forall k :: 0 <= k < |rows| && rows[k].id != id ==> Dismissed(rows, id)[k] == rows[k]
    ensures Ids(Dismissed(rows, id)) == Ids(rows)
  {
    var found := FindById(rows, id).value;
    var k :| 0 <= k < |rows| && rows[k] == found;
    assert Dismissed(rows, id)[k] == found.(dismissed := true);
  }

  /** Both flag updates keep the primary key unique. */
  lemma UpdatesKeepIdsUnique(rows: seq<Notification>, id: string)
    requires UniqueIds(rows)
    ensures UniqueIds(Acknowledged(rows, id)) && UniqueIds(Dismissed(rows, id))
  {
  }

  /**
   * A created record is retrievable by its user and by its conversation: it
   * comes last in each listing, and nobody else's listing changes.
   */
  lemma CreatedIsRetrievable(rows: seq<Notification>, n: Notification, userId: UserId, conversationId: string)
    ensures ForUser(rows + [n], n.userId) == ForUser(rows, n.userId) + [n]
    ensures ForConversation(rows + [n], n.conversationId) == ForConversation(rows, n.conversationId) + [n]
    ensures userId != n.userId ==> ForUser(rows + [n], userId) == ForUser(rows, userId)
    ensures conversationId != n.conversationId ==> ForConversation(rows + [n], conversationId) == ForConversation(rows, conversationId)
  {
    var byUser := (m: Notification) => m.userId == n.userId;
    var byOther := (m: Notification) => m.userId == userId;
    var byConv := (m: Notification) => m.conversationId == n.conversationId;
    var byOtherConv := (m: Notification) => m.conversationId == conversationId;
    FilterAppend(rows, [n], byUser);
    FilterAppend(rows, [n], byOther);
    FilterAppend(rows, [n], byConv);
    FilterAppend(rows, [n], byOtherConv);
    assert Filter([n], byUser) == [n];
    assert Filter([n], byConv) == [n];
    if userId != n.userId {
      assert Filter([n], byOther) == [];
    }
    if conversationId != n.conversationId {
      assert Filter([n], byOtherConv) == [];
    }
  }

  /** Appending a record under a fresh id keeps the primary key unique. */
  lemma CreateKeepsIdsUnique(rows: seq<Notification>, n: Notification)
    requires UniqueIds(rows) && n.id !in Ids(rows)
    ensures UniqueIds(rows + [n])
  {
    forall i | 0 <= i < |rows| ensures rows[i].id != n.id {
      assert Ids(rows)[i] == rows[i].id;
    }
  }

  class NotificationService {
    var rows: seq<Notification>

    /** The primary key stays unique. */
    predicate Valid()
      reads this
    {
      UniqueIds(rows)
    }

    constructor ()
      ensures Valid() && rows == []
    {
      rows := [];
    }

    /**
     * `getNotificationsForConversation`. `readOk` is false when the query
     * rejects, which the service reports as a not-found conversation.
     */
    method GetNotificationsForConversation(conversationId: string, readOk: bool) returns (r: Outcome<ApiResponse<seq<Notification>>>)
      ensures !readOk ==> r == Threw(NotFoundBody(Failure, "Conversation not found."))
      ensures readOk ==> r.Returned? && r.value.status == Success && r.value.message == RETRIEVED && r.value.data.Some?
      ensures readOk ==> forall n :: n in r.value.data.value <==> n in rows && n.conversationId == conversationId
      ensures readOk ==> r.value.data.value == ForConversation(rows, conversationId)
    {
      if !readOk {
        return Threw(NotFoundBody(Failure, "Conversation not found."));
      }
      var data := ForConversation(rows, conversationId);
      r := Returned(ApiResponse(Success, RETRIEVED, Some(data)));
    }

    /**
     * `acknowledgeNotification`. The update does not look for the record, so
     * an unknown id succeeds without changing anything; `updateOk` is false
     * when the update itself rejects.
     */
    method AcknowledgeNotification(id: string, updateOk: bool) returns (r: Outcome<ApiResponse<()>>)
      requires Valid()
      modifies this
      ensures Valid()
      ensures updateOk ==> rows == Acknowledged(old(rows), id) && r == Returned(ApiResponse(Success, "Notification acknowledged successfully", None))
      ensures !updateOk ==> rows == old(rows) && r == Threw(BadRequest(Failure, ACKNOWLEDGE_FAILED))
    {
      if !updateOk {
        return Threw(BadRequest(Failure, ACKNOWLEDGE_FAILED));
      }
      UpdatesKeepIdsUnique(rows, id);
      rows := Acknowledged(rows, id);
      r := Returned(ApiResponse(Success, "Notification acknowledged successfully", None));
    }

    /**
     * `createNotification(userId, ticketId, content)`. `conversation` is the
     * chat service's answer to the lookup by `ticketId`, and `user` the user
     * service's answer to the lookup by `userId`; the keys themselves are not
     * consulted again. A rejected lookup, a missing conversation or user, and
     * a rejected save all end in the same error and store nothing. `freshId`
     * is the generated key.
     */
    method CreateNotification(userId: UserId, ticketId: string, content: string, conversation: Reply<Option<ConversationRef>>,
                              user: Reply<Option<UserRef>>, saveOk: bool, freshId: string) returns (r: Outcome<Response>)
      requires Valid() && freshId !in Ids(rows)
      modifies this
      ensures Valid()
      ensures var ok := conversation.Resolved? && conversation.value.Some? && user.Resolved? && user.value.Some? && saveOk;
        && (ok ==> var n := NewNotification(freshId, conversation.value.value, user.value.value, content);
                   rows == old(rows) + [n] && r == Returned(ApiResponse(Success, "Successfully created notification", Some(n))))
        && (!ok ==> rows == old(rows) && r == Threw(BadRequest(Failure, CREATE_FAILED)))
    {
      if conversation.Rejected? || user.Rejected? || conversation.value.None? || user.value.None? || !saveOk {
        return Threw(BadRequest(Failure, CREATE_FAILED));
      }
      var n := NewNotification(freshId, conversation.value.value, user.value.value, content);
      CreateKeepsIdsUnique(rows, n);
      rows := rows + [n];
      r := Returned(ApiResponse(Success, "Successfully created notification", Some(n)));
    }

    /**
     * `dismissNotification`. The not-found error raised inside the block is
     * caught and replaced by the generic one, as are a rejected lookup
     * (`findOk`) and a rejected save (`saveOk`).
     */
    method DismissNotification(id: string, findOk: bool, saveOk: bool) returns (r: Outcome<Response>)
      requires Valid()
      modifies this
      ensures Valid()
      ensures var ok := findOk && id in Ids(old(rows)) && saveOk;
        && (ok ==> rows == Dismissed(old(rows), id) &&
                   r == Returned(ApiResponse(Success, "Notification dismissed successfully", Some(FindById(old(rows), id).value.(dismissed := true)))))
        && (!ok ==> rows == old(rows) && r == Threw(BadRequest(Failure, DISMISS_FAILED)))
    {
      if !findOk {
        return Threw(BadRequest(Failure, DISMISS_FAILED));
      }
      var found := FindById(rows, id);
      if found.None? || !saveOk {
        return Threw(BadRequest(Failure, DISMISS_FAILED));
      }
      var n := found.value.(dismissed := true);
      UpdatesKeepIdsUnique(rows, id);
      rows := Dismissed(rows, id);
      r := Returned(ApiResponse(Success, "Notification dismissed successfully", Some(n)));
    }

    /** `getNotificationsForUser`; `readOk` is false when the query rejects. */
    method GetNotificationsForUser(userId: UserId, readOk: bool) returns (r: Outcome<ApiResponse<seq<Notification>>>)
      ensures !readOk ==> r == Threw(BadRequest(Failure, RETRIEVE_FAILED))
      ensures readOk ==> r.Returned? && r.value.status == Success && r.value.data.Some?
      ensures readOk ==> forall n :: n in r.value.data.value <==> n in rows && n.userId == userId
      ensures readOk ==> r.value.data.value == ForUser(rows, userId)
      ensures readOk ==> (r.value.message == NO_NOTIFICATIONS <==> r.value.data.value == [])
      ensures readOk ==> (r.value.message == RETRIEVED <==> r.value.data.value != [])
    {
      if !readOk {
        return Threw(BadRequest(Failure, RETRIEVE_FAILED));
      }
      var data := ForUser(rows, userId);
      if |data| == 0 {
        return Returned(ApiResponse(Success, NO_NOTIFICATIONS, Some([])));
      }
      r := Returned(ApiResponse(Success, RETRIEVED, Some(data)));
    }
  }
}
