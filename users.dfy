/** The user records of the CRUD view and the pure list transforms its
    mutation handlers apply to the cached list. */
module Users {

  /** One row of the user list. */
  datatype User = User(id: int, name: string, email: string, username: string)

  /** A name/email pair: the create form and the edit draft both hold one. */
  datatype Fields = Fields(name: string, email: string)

  /** The cleared form. */
  const EmptyFields: Fields := Fields("", "")

  /** Some record of `users` has identifier `id`. */
  predicate HasId(users: seq<User>, id: int) {
    exists i :: 0 <= i < |users| && users[i].id == id
  }

  /** No two records of `users` share an identifier. */
  predicate UniqueIds(users: seq<User>) {
    forall i, j :: 0 <= i < j < |users| ==> users[i].id != users[j].id
  }

  /** The record the server sent back, with its identifier overwritten by
      `id` (the `{ ...data, id }` spread). */
  function WithId(data: User, id: int): (r: User)
    ensures r.id == id
    ensures r.name == data.name && r.email == data.email && r.username == data.username
  {
    data.(id := id)
  }

  /** The record being edited with the draft's name and email laid over it
      (the `{ ...editingUser, ...editedValues }` spread). */
  function ApplyDraft(u: User, draft: Fields): (r: User)
    ensures r.id == u.id && r.username == u.username
    ensures r.name == draft.name && r.email == draft.email
  {
    u.(name := draft.name, email := draft.email)
  }

  /** A newly created record put in front of the list. */
  function Prepend(rec: User, users: seq<User>): (r: seq<User>)
    ensures |r| == |users| + 1
    ensures r[0] == rec && r[1..] == users
  {
    [rec] + users
  }

  /** Every record whose identifier is `updated.id` replaced by `updated`
      (the list's `map`). */
  function ReplaceById(users: seq<User>, updated: User): (r: seq<User>)
    ensures |r| == |users|
    ensures forall i :: 0 <= i < |users| && users[i].id == updated.id ==> r[i] == updated
    ensures forall i :: 0 <= i < |users| && users[i].id != updated.id ==> r[i] == users[i]
  {
    if users == [] then []
    else [if users[0].id == updated.id then updated else users[0]] + ReplaceById(users[1..], updated)
  }

  /** The records whose identifier is not `id`, in their order (the list's
      `filter`). */
  function RemoveById(users: seq<User>, id: int): (r: seq<User>)
    ensures |r| <= |users|
    ensures forall u :: u in r <==> u in users && u.id != id
    ensures forall u :: multiset(r)[u] == if u.id == id then 0 else multiset(users)[u]
  {
    if users == [] then []
    else
      assert users == [users[0]] + users[1..];
      (if users[0].id == id then [] else [users[0]]) + RemoveById(users[1..], id)
  }

  /** Replacing keeps every identifier in its position. */
  lemma ReplaceKeepsIds(users: seq<User>, updated: User)
    ensures forall i :: 0 <= i < |users| ==> ReplaceById(users, updated)[i].id == users[i].id
    ensures UniqueIds(users) ==> UniqueIds(ReplaceById(users, updated))
  {
  }

  /** Replacing the same record twice is replacing it once. */
  lemma ReplaceIdempotent(users: seq<User>, updated: User)
    ensures ReplaceById(ReplaceById(users, updated), updated) == ReplaceById(users, updated)
  {
  }

  /** An update for an identifier the list does not hold changes nothing. */
  lemma ReplaceAbsent(users: seq<User>, updated: User)
    requires !HasId(users, updated.id)
    ensures ReplaceById(users, updated) == users
  {
  }

  /** When identifiers are unique, putting the previous record back undoes the
      replacement: the inverse of the speculative write. */
  lemma ReplaceUndo(users: seq<User>, k: nat, updated: User)
    requires UniqueIds(users)
    requires k < |users| && users[k].id == updated.id
    ensures ReplaceById(ReplaceById(users, updated), users[k]) == users
  {
    var mid := ReplaceById(users, updated);
    var back := ReplaceById(mid, users[k]);
    forall i | 0 <= i < |users|
      ensures back[i] == users[i]
    {
      if i != k {
        assert users[i].id != users[k].id;
      }
    }
  }

  /** Filtering distributes over concatenation: together with the one-record
      cases this pins the result down, order included. */
  lemma {:induction false} RemoveAppend(a: seq<User>, b: seq<User>, id: int)
    ensures RemoveById(a + b, id) == RemoveById(a, id) + RemoveById(b, id)
  {
    if a == [] {
      assert a + b == b;
    } else {
      assert (a + b)[1..] == a[1..] + b;
      RemoveAppend(a[1..], b, id);
    }
  }

  /** Removing an identifier the list does not hold changes nothing. */
  lemma {:induction false} RemoveAbsent(users: seq<User>, id: int)
    requires !HasId(users, id)
    ensures RemoveById(users, id) == users
  {
    if users != [] {
      assert !HasId(users[1..], id) by {
        forall i | 0 <= i < |users[1..]| ensures users[1..][i].id != id {
          assert users[1..][i] == users[i + 1];
        }
      }
      RemoveAbsent(users[1..], id);
    }
  }

  /** The identifier is gone afterwards, and removing it again is a no-op. */
  lemma RemoveIdempotent(users: seq<User>, id: int)
    ensures !HasId(RemoveById(users, id), id)
    ensures RemoveById(RemoveById(users, id), id) == RemoveById(users, id)
  {
    var r := RemoveById(users, id);
    assert !HasId(r, id) by {
      forall i | 0 <= i < |r| ensures r[i].id != id {
        assert r[i] in r;
      }
    }
    RemoveAbsent(r, id);
  }

  /** Filtering keeps identifiers unique. */
  lemma {:induction false} RemoveKeepsUnique(users: seq<User>, id: int)
    requires UniqueIds(users)
    ensures UniqueIds(RemoveById(users, id))
  {
    if users != [] {
      var tail := users[1..];
      assert UniqueIds(tail) by {
        forall i, j | 0 <= i < j < |tail| ensures tail[i].id != tail[j].id {
          assert tail[i] == users[i + 1] && tail[j] == users[j + 1];
        }
      }
      RemoveKeepsUnique(tail, id);
      var rest := RemoveById(tail, id);
      if users[0].id != id {
        forall j | 0 <= j < |rest| ensures rest[j].id != users[0].id {
          assert rest[j] in tail;
          var m :| 0 <= m < |tail| && tail[m] == rest[j];
          assert tail[m] == users[m + 1];
        }
        PrependUnique(users[0], rest);
        assert RemoveById(users, id) == Prepend(users[0], rest);
      } else {
        assert RemoveById(users, id) == rest;
      }
    }
  }

  /** A prepended record keeps identifiers unique exactly when its identifier
      is not already in the list. */
  lemma PrependUnique(rec: User, users: seq<User>)
    ensures UniqueIds(Prepend(rec, users)) <==> UniqueIds(users) && !HasId(users, rec.id)
  {
    var r := Prepend(rec, users);
    if UniqueIds(r) {
      forall i, j | 0 <= i < j < |users| ensures users[i].id != users[j].id {
        assert r[i + 1] == users[i] && r[j + 1] == users[j];
      }
      forall i | 0 <= i < |users| ensures users[i].id != rec.id {
        assert r[i + 1] == users[i];
      }
    }
    if UniqueIds(users) && !HasId(users, rec.id) {
      forall i, j | 0 <= i < j < |r| ensures r[i].id != r[j].id {
        assert r[j] == users[j - 1];
        if i > 0 {
          assert r[i] == users[i - 1];
        }
      }
    }
  }
}
