/** The to-do business rules: creating items, existence-guarded update and
    attachment, and deletion together with the item's attachment. The
    document table is a map keyed by (userId, todoId); the object store is
    represented by the deletions performed on it. Every call to the table or
    the object store is given by its outcome: `None` when it succeeds, or
    the error it rejects with. */
module TodoItems {
  import opened Base
  import opened Strings

  datatype TodoItem = TodoItem(
    userId: string,
    todoId: string,
    createdAt: string,
    name: string,
    dueDate: string,
    done: bool,
    attachmentUrl: Option<string>)

  datatype CreateTodoRequest = CreateTodoRequest(name: string, dueDate: string)

  datatype UpdateTodoRequest = UpdateTodoRequest(name: string, dueDate: string, done: bool)

  /** The `{message, success}` answer of the update, attach and delete calls. */
  datatype Reply = Reply(message: string, success: bool)

  datatype Key = Key(userId: string, todoId: string)

  /** The item `createTodoItem` stores: a new id and creation time, the
      request's name and due date, not done, no attachment. */
  function NewTodoItem(req: CreateTodoRequest, userId: string, todoId: string, createdAt: string): (item: TodoItem)
    ensures item.userId == userId && item.todoId == todoId && item.createdAt == createdAt
    ensures item.name == req.name && item.dueDate == req.dueDate
    ensures !item.done && item.attachmentUrl.None?
  {
    TodoItem(userId, todoId, createdAt, req.name, req.dueDate, false, None)
  }

  /** Every stored item sits under its own key. */
  ghost predicate KeysMatch(items: map<Key, TodoItem>)
  {
    forall k :: k in items ==> items[k].userId == k.userId && items[k].todoId == k.todoId
  }

  /** `attachmentUrl` is truthy: present and not empty. */
  function HasAttachment(item: TodoItem): (r: bool)
    ensures r <==> item.attachmentUrl.Some? && |item.attachmentUrl.value| > 0
  {
    item.attachmentUrl.Some? && item.attachmentUrl.value != ""
  }

  /** The attachment id: the text after the last "/" of the url, or the
      whole url when it has no "/". */
  function AttachmentId(url: string): (r: string)
    ensures '/' !in r
    ensures |r| <= |url| && url[|url| - |r|..] == r
    ensures |r| < |url| ==> url[|url| - |r| - 1] == '/'
  {
    SplitLastField(url, '/');
    Last(Split(url, '/'))
  }

  /** The url `generateUploadUrl` stores for a new attachment. */
  function UploadUrl(bucket: string, attachmentId: string): (r: string)
    ensures |r| > |attachmentId| && r[|r| - |attachmentId|..] == attachmentId
    ensures r[|r| - |attachmentId| - 1] == '/'
    ensures |r| >= 8 && r[..8] == "https://"
  {
    "https://" + bucket + ".s3.amazonaws.com/" + attachmentId
  }

  /** Round trip: the id extracted from a stored upload url is the id it
      was built from, for an id without "/" and any bucket name. */
  lemma AttachmentIdRoundTrip(bucket: string, attachmentId: string)
    requires '/' !in attachmentId
    ensures AttachmentId(UploadUrl(bucket, attachmentId)) == attachmentId
  {
    var prefix := "https://" + bucket + ".s3.amazonaws.com";
    assert UploadUrl(bucket, attachmentId) == prefix + ['/'] + attachmentId;
    SplitConcat(prefix, attachmentId, '/');
    SplitNoSeparator(attachmentId, '/');
  }

  /** Why a business-logic call rejects instead of answering.
      - `StoreRejected`: a table read, a put or an object deletion that no
        `try` surrounds rejected with this error.
      - `ItemUndefined`: the item read back was `undefined`, and destructuring
        it throws a TypeError (its message text is not modelled). */
  datatype Rejection = StoreRejected(error: string) | ItemUndefined

  /** The to-do table and the attachment deletions sent to the object store. */
  class TodoStore {
    var items: map<Key, TodoItem>
    var deletedAttachments: seq<string>

    ghost predicate Valid()
      reads this
    {
      KeysMatch(items)
    }

    constructor ()
      ensures Valid() && items == map[] && deletedAttachments == []
    {
      items := map[];
      deletedAttachments := [];
    }

    /** `createTodoItem`: a put of the new item; `todoId` and `createdAt` are
        the generated uuid and the current time. The put is not inside a
        `try`, so when it rejects the call rejects and nothing is stored. */
    method CreateTodoItem(req: CreateTodoRequest, userId: string, todoId: string, createdAt: string,
                          putFailure: Option<string>)
      returns (r: Result<TodoItem, Rejection>)
      requires Valid()
      modifies this
      ensures Valid()
      ensures deletedAttachments == old(deletedAttachments)
      ensures putFailure.Some? ==> r == Err(StoreRejected(putFailure.value)) && items == old(items)
      ensures putFailure.None? ==>
        && r == Ok(NewTodoItem(req, userId, todoId, createdAt))
        && items == old(items)[Key(userId, todoId) := r.value]
    {
      if putFailure.Some? {
        return Err(StoreRejected(putFailure.value));
      }
      var item := NewTodoItem(req, userId, todoId, createdAt);
      items := items[Key(userId, todoId) := item];
      r := Ok(item);
    }

    /** `todoItemExists`: the lookup by key found an item; a rejected read
        rejects the call. */
    method TodoItemExists(userId: string, todoId: string, readFailure: Option<string>)
      returns (r: Result<bool, Rejection>)
      requires Valid()
      ensures readFailure.Some? ==> r == Err(StoreRejected(readFailure.value))
      ensures readFailure.None? ==> r.Ok? && (r.value <==> Key(userId, todoId) in items)
      ensures r == Ok(true) ==>
        items[Key(userId, todoId)].userId == userId && items[Key(userId, todoId)].todoId == todoId
    {
      if readFailure.Some? {
        return Err(StoreRejected(readFailure.value));
      }
      r := Ok(Key(userId, todoId) in items);
    }

    /** `updateTodoItemIfExists`: a rejected read rejects the call; a missing
        item is reported and nothing is written; otherwise only name, due
        date and done change, unless the write fails, whose error is caught
        and reported. */
    method UpdateTodoItemIfExists(userId: string, todoId: string, req: UpdateTodoRequest,
                                  readFailure: Option<string>, failure: Option<string>)
      returns (r: Result<Reply, Rejection>)
      requires Valid()
      modifies this
      ensures Valid()
      ensures deletedAttachments == old(deletedAttachments)
      ensures var k := Key(userId, todoId);
        if readFailure.Some? then
          r == Err(StoreRejected(readFailure.value)) && items == old(items)
        else if k !in old(items) then
          r == Ok(Reply("TodoItem with todoId " + todoId + " does not exist", false)) && items == old(items)
        else if failure.Some? then
          r == Ok(Reply(failure.value, false)) && items == old(items)
        else
          && r == Ok(Reply("Successfully updated todo item with id " + todoId, true))
          && items == old(items)[k := old(items)[k].(name := req.name, dueDate := req.dueDate, done := req.done)]
    {
      var found := TodoItemExists(userId, todoId, readFailure);
      if found.Err? {
        return Err(found.error);
      }
      if !found.value {
        return Ok(Reply("TodoItem with todoId " + todoId + " does not exist", false));
      }
      if failure.Some? {
        return Ok(Reply(failure.value, false));
      }
      var k := Key(userId, todoId);
      items := items[k := items[k].(name := req.name, dueDate := req.dueDate, done := req.done)];
      r := Ok(Reply("Successfully updated todo item with id " + todoId, true));
    }

    /** `addAttachmentUrlToTodoItemIfExists`: a rejected read rejects the
        call; a missing item is reported and nothing is written; otherwise
        only the attachment url changes, unless the write fails, whose error
        is caught and reported. */
    method AddAttachmentUrlToTodoItemIfExists(userId: string, todoId: string, url: string,
                                              readFailure: Option<string>, failure: Option<string>)
      returns (r: Result<Reply, Rejection>)
      requires Valid()
      modifies this
      ensures Valid()
      ensures deletedAttachments == old(deletedAttachments)
      ensures var k := Key(userId, todoId);
        if readFailure.Some? then
          r == Err(StoreRejected(readFailure.value)) && items == old(items)
        else if k !in old(items) then
          r == Ok(Reply("Todo item does not exist", false)) && items == old(items)
        else if failure.Some? then
          r == Ok(Reply(failure.value, false)) && items == old(items)
        else
          && r == Ok(Reply("Successfully stored attachmentUrl in todo item with id " + todoId, true))
          && items == old(items)[k := old(items)[k].(attachmentUrl := Some(url))]
    {
      var found := TodoItemExists(userId, todoId, readFailure);
      if found.Err? {
        return Err(found.error);
      }
      if !found.value {
        return Ok(Reply("Todo item does not exist", false));
      }
      if failure.Some? {
        return Ok(Reply(failure.value, false));
      }
      var k := Key(userId, todoId);
      items := items[k := items[k].(attachmentUrl := Some(url))];
      r := Ok(Reply("Successfully stored attachmentUrl in todo item with id " + todoId, true));
    }

    /** `deleteTodoItemAndAttachment`: a rejected read, or a missing item,
        rejects the call before anything is deleted. Otherwise the
        attachment, when the item has one, is deleted by the id after the
        last "/" of its url; a rejected object deletion rejects the call with
        the item kept. Then the item is deleted; if that write fails, the
        attachment is gone but the item stays. */
    method DeleteTodoItemAndAttachment(userId: string, todoId: string,
                                       readFailure: Option<string>, objectFailure: Option<string>,
                                       failure: Option<string>)
      returns (r: Result<Reply, Rejection>)
      requires Valid()
      modifies this
      ensures Valid()
      ensures var k := Key(userId, todoId);
        if readFailure.Some? then
          && r == Err(StoreRejected(readFailure.value))
          && items == old(items) && deletedAttachments == old(deletedAttachments)
        else if k !in old(items) then
          && r == Err(ItemUndefined)
          && items == old(items) && deletedAttachments == old(deletedAttachments)
        else if HasAttachment(old(items)[k]) && objectFailure.Some? then
          && r == Err(StoreRejected(objectFailure.value))
          && items == old(items) && deletedAttachments == old(deletedAttachments)
        else
          && deletedAttachments == old(deletedAttachments) +
               (if HasAttachment(old(items)[k]) then [AttachmentId(old(items)[k].attachmentUrl.value)] else [])
          && (failure.Some? ==> r == Ok(Reply(failure.value, false)) && items == old(items))
          && (failure.None? ==>
                r == Ok(Reply("Successfully deleted todo item with id " + todoId, true))
                && items == old(items) - {k})
    {
      if readFailure.Some? {
        return Err(StoreRejected(readFailure.value));
      }
      var k := Key(userId, todoId);
      if k !in items {
        return Err(ItemUndefined);
      }
      var attachmentUrl := items[k].attachmentUrl;
      if attachmentUrl.Some? && attachmentUrl.value != "" {
        if objectFailure.Some? {
          return Err(StoreRejected(objectFailure.value));
        }
        var attachmentId := AttachmentId(attachmentUrl.value);
        deletedAttachments := deletedAttachments + [attachmentId];
      }
      if failure.Some? {
        return Ok(Reply(failure.value, false));
      }
      items := items - {k};
      r := Ok(Reply("Successfully deleted todo item with id " + todoId, true));
    }
  }

  /** A stored upload url leads deletion to the very object that was
      uploaded: the deletion request names the id the url was built from. */
  lemma DeleteTargetsUploadedObject(item: TodoItem, bucket: string, attachmentId: string)
    requires item.attachmentUrl == Some(UploadUrl(bucket, attachmentId))
    requires '/' !in attachmentId
    ensures HasAttachment(item)
    ensures AttachmentId(item.attachmentUrl.value) == attachmentId
  {
    AttachmentIdRoundTrip(bucket, attachmentId);
  }
}
