/** The user-management view: a cached user list kept under one query key,
    the create form, one edit session, and the handlers of the create,
    update and delete mutations. Every remote call is an `Outcome` parameter;
    notifications are recorded by kind only. */
module CrudSection {
  import opened Outcomes
  import opened Users

  /** Which notification a handler raised. */
  datatype Notice = UserCreated | UserUpdated | UpdateFailed | UserDeleted

  class UserManager {
    /** The query data stored under the users key; `None` until a fetch lands. */
    var cache: Option<seq<User>>
    /** The record whose card is in edit mode, if any. */
    var editing: Option<User>
    /** The edit form's name and email. */
    var draft: Fields
    /** The create form's name and email. */
    var newUser: Fields
    /** Notifications raised so far, oldest first. */
    var notices: seq<Notice>

    /** The view as first mounted: nothing cached, both forms empty. */
    constructor ()
      ensures cache == None && editing == None
      ensures draft == EmptyFields && newUser == EmptyFields && notices == []
    {
      cache := None;
      editing := None;
      draft := EmptyFields;
      newUser := EmptyFields;
      notices := [];
    }

    /** The list a cache updater starts from: the cached list, or the empty
        list when nothing is cached. */
    function Current(): (r: seq<User>)
      reads this
      ensures cache.Some? ==> r == cache.value
      ensures cache.None? ==> r == []
    {
      cache.GetOr([])
    }

    /** The Create button is enabled only when both fields are filled in. */
    predicate CanCreate(): (ok: bool)
      reads this
      ensures ok <==> |newUser.name| > 0 && |newUser.email| > 0
    {
      newUser.name != "" && newUser.email != ""
    }

    /** The list query settling: a resolved fetch replaces the cached list
        outright; a failed one leaves the cached data as it was. */
    method Fetched(response: Outcome<seq<User>>)
      modifies this
      ensures response.Resolved? ==> cache == Some(response.data)
      ensures response.Rejected? ==> cache == old(cache)
      ensures editing == old(editing) && draft == old(draft)
      ensures newUser == old(newUser) && notices == old(notices)
    {
      if response.Resolved? {
        cache := Some(response.data);
      }
    }

    /** Typing into the create form's name field. */
    method SetNewName(name: string)
      modifies this
      ensures newUser == Fields(name, old(newUser.email))
      ensures cache == old(cache) && editing == old(editing)
      ensures draft == old(draft) && notices == old(notices)
    {
      newUser := newUser.(name := name);
    }

    /** Typing into the create form's email field. */
    method SetNewEmail(email: string)
      modifies this
      ensures newUser == Fields(old(newUser.name), email)
      ensures cache == old(cache) && editing == old(editing)
      ensures draft == old(draft) && notices == old(notices)
    {
      newUser := newUser.(email := email);
    }

    /** Typing into the edit form's name field. */
    method SetDraftName(name: string)
      modifies this
      ensures draft == Fields(name, old(draft.email))
      ensures cache == old(cache) && editing == old(editing)
      ensures newUser == old(newUser) && notices == old(notices)
    {
      draft := draft.(name := name);
    }

    /** Typing into the edit form's email field. */
    method SetDraftEmail(email: string)
      modifies this
      ensures draft == Fields(old(draft.name), email)
      ensures cache == old(cache) && editing == old(editing)
      ensures newUser == old(newUser) && notices == old(notices)
    {
      draft := draft.(email := email);
    }

    /** Success handler of the create mutation: the server's record, stamped
        with the client-chosen `newId`, goes in front of the list; the form
        is cleared. */
    method OnCreateSuccess(data: User, newId: int)
      modifies this
      ensures cache == Some(Prepend(WithId(data, newId), old(Current())))
      ensures |cache.value| == |old(Current())| + 1
      ensures cache.value[0] == WithId(data, newId) && cache.value[0].id == newId
      ensures cache.value[1..] == old(Current())
      ensures newUser == EmptyFields
      ensures notices == old(notices) + [UserCreated]
      ensures editing == old(editing) && draft == old(draft)
    {
      cache := Some(Prepend(WithId(data, newId), Current()));
      newUser := EmptyFields;
      notices := notices + [UserCreated];
    }

    /** A click on Create: nothing is sent unless the button is enabled; the
        cache changes only once the server answers, and a failed call (which
        has no error handler) changes nothing. */
    method Create(reply: Outcome<User>, newId: int) returns (issued: bool)
      modifies this
      ensures issued == old(CanCreate())
      ensures !(issued && reply.Resolved?) ==>
        cache == old(cache) && newUser == old(newUser) && notices == old(notices)
      ensures issued && reply.Resolved? ==>
        cache == Some(Prepend(WithId(reply.data, newId), old(Current()))) &&
        newUser == EmptyFields && notices == old(notices) + [UserCreated]
      ensures editing == old(editing) && draft == old(draft)
      ensures issued && reply.Resolved? ==>
        (UniqueIds(Current()) <==> UniqueIds(old(Current())) && !HasId(old(Current()), newId))
    {
      issued := CanCreate();
      if issued && reply.Resolved? {
        PrependUnique(WithId(reply.data, newId), Current());
        OnCreateSuccess(reply.data, newId);
      }
    }

    /** Mutate handler of the update: snapshot the cached data, then write the
        submitted record over every record with its identifier. */
    method OnUpdateMutate(updated: User) returns (previous: Option<seq<User>>)
      modifies this
      ensures previous == old(cache)
      ensures cache == Some(ReplaceById(old(Current()), updated))
      ensures editing == old(editing) && draft == old(draft)
      ensures newUser == old(newUser) && notices == old(notices)
    {
      previous := cache;
      cache := Some(ReplaceById(Current(), updated));
    }

    /** Error handler of the update: put the snapshot back when there was
        one, and raise the failure notice. */
    method OnUpdateError(previous: Option<seq<User>>)
      modifies this
      ensures previous.Some? ==> cache == previous
      ensures previous.None? ==> cache == old(cache)
      ensures notices == old(notices) + [UpdateFailed]
      ensures editing == old(editing) && draft == old(draft) && newUser == old(newUser)
    {
      if previous.Some? {
        cache := previous;
      }
      notices := notices + [UpdateFailed];
    }

    /** Success handler of the update: only the notice. */
    method OnUpdateSuccess(result: User)
      modifies this
      ensures notices == old(notices) + [UserUpdated]
      ensures cache == old(cache) && editing == old(editing)
      ensures draft == old(draft) && newUser == old(newUser)
    {
      notices := notices + [UserUpdated];
    }

    /** An update from its mutate handler to its success or error handler.
        The speculative write happens whatever the outcome; a rejected call
        restores exactly the list held before it, or leaves the speculative
        (empty) list when nothing was cached. The result carries the
        submitted identifier whatever the server answered. */
    method Update(user: User, reply: Outcome<User>) returns (result: Option<User>)
      modifies this
      ensures reply.Resolved? ==>
        result == Some(WithId(reply.data, user.id)) &&
        cache == Some(ReplaceById(old(Current()), user)) &&
        notices == old(notices) + [UserUpdated]
      ensures reply.Rejected? ==>
        result == None && notices == old(notices) + [UpdateFailed] &&
        (old(cache).Some? ==> cache == old(cache)) &&
        (old(cache).None? ==> cache == Some([]))
      ensures result.Some? ==> result.value.id == user.id
      ensures UniqueIds(old(Current())) ==> UniqueIds(Current())
      ensures editing == old(editing) && draft == old(draft) && newUser == old(newUser)
    {
      ReplaceKeepsIds(Current(), user);
      var previous := OnUpdateMutate(user);
      match reply
      case Resolved(data) =>
        var stamped := WithId(data, user.id);
        OnUpdateSuccess(stamped);
        result := Some(stamped);
      case Rejected =>
        OnUpdateError(previous);
        result := None;
    }

    /** Settled handler of the update: the users query is invalidated and
        fetched again, whatever the outcome. */
    method OnUpdateSettled(refetch: Outcome<seq<User>>)
      modifies this
      ensures refetch.Resolved? ==> cache == Some(refetch.data)
      ensures refetch.Rejected? ==> cache == old(cache)
      ensures editing == old(editing) && draft == old(draft)
      ensures newUser == old(newUser) && notices == old(notices)
    {
      Fetched(refetch);
    }

    /** Success handler of the delete: drop every record with the deleted
        record's identifier. */
    method OnDeleteSuccess(deleted: User)
      modifies this
      ensures cache == Some(RemoveById(old(Current()), deleted.id))
      ensures notices == old(notices) + [UserDeleted]
      ensures editing == old(editing) && draft == old(draft) && newUser == old(newUser)
    {
      cache := Some(RemoveById(Current(), deleted.id));
      notices := notices + [UserDeleted];
    }

    /** A click on Delete. The call resolves with some HTTP status, whatever
        it is, unless the network fails; only then is the list touched. */
    method Delete(user: User, response: Outcome<int>)
      modifies this
      ensures response.Resolved? ==>
        cache == Some(RemoveById(old(Current()), user.id)) &&
        notices == old(notices) + [UserDeleted]
      ensures response.Rejected? ==>
        cache == old(cache) && notices == old(notices)
      ensures response.Resolved? ==> !HasId(Current(), user.id)
      ensures UniqueIds(old(Current())) ==> UniqueIds(Current())
      ensures editing == old(editing) && draft == old(draft) && newUser == old(newUser)
    {
      RemoveIdempotent(Current(), user.id);
      if UniqueIds(Current()) {
        RemoveKeepsUnique(Current(), user.id);
      }
      if response.Resolved? {
        OnDeleteSuccess(user);
      }
    }

    /** Enter edit mode for `user`, seeding the draft from it; any other edit
        in progress is dropped. */
    method StartEdit(user: User)
      modifies this
      ensures editing == Some(user)
      ensures draft == Fields(user.name, user.email)
      ensures cache == old(cache) && newUser == old(newUser) && notices == old(notices)
    {
      editing := Some(user);
      draft := Fields(user.name, user.email);
    }

    /** Save: with no edit in progress nothing happens; otherwise the edited
        record with the draft laid over it is submitted as an update, the
        query is fetched again once it settles, and edit mode is left. */
    method SaveEdit(reply: Outcome<User>, refetch: Outcome<seq<User>>)
      returns (submitted: Option<User>)
      modifies this
      ensures old(editing).None? ==>
        submitted == None && cache == old(cache) && editing == None && notices == old(notices)
      ensures old(editing).Some? ==>
        submitted == Some(ApplyDraft(old(editing).value, old(draft))) &&
        editing == None &&
        notices == old(notices) + [if reply.Resolved? then UserUpdated else UpdateFailed]
      ensures old(editing).Some? && refetch.Resolved? ==> cache == Some(refetch.data)
      ensures old(editing).Some? && refetch.Rejected? && reply.Resolved? ==>
        cache == Some(ReplaceById(old(Current()), ApplyDraft(old(editing).value, old(draft))))
      ensures old(editing).Some? && refetch.Rejected? && reply.Rejected? ==>
        cache == (if old(cache).Some? then old(cache) else Some([]))
      ensures draft == old(draft) && newUser == old(newUser)
    {
      if editing.None? {
        submitted := None;
        return;
      }
      var user := ApplyDraft(editing.value, draft);
      var _ := Update(user, reply);
      OnUpdateSettled(refetch);
      editing := None;
      submitted := Some(user);
    }

    /** Leave edit mode without submitting anything. */
    method CancelEdit()
      modifies this
      ensures editing == None
      ensures cache == old(cache) && draft == old(draft)
      ensures newUser == old(newUser) && notices == old(notices)
    {
      editing := None;
    }
  }
}
