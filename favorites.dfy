/** `useDogFavorites`: the current user's favorite dog ids, kept in memory and written back
    to durable browser storage under a per-user key. */
module Favorites {
  import opened Wrappers
  import Lists

  /** Durable storage, with each stored JSON array already decoded. */
  type Storage = map<string, seq<string>>

  const KeyPrefix := "favorites_"

  /** The storage key for the user, when there is one: `null` and the empty string are falsy. */
  function StorageKey(email: Option<string>): (key: Option<string>)
    ensures key.Some? <==> email.Some? && email.value != ""
    ensures key.Some? ==> |key.value| > |KeyPrefix| && key.value[..|KeyPrefix|] == KeyPrefix
    ensures key.Some? ==> key.value[|KeyPrefix|..] == email.value
  {
    if email.Some? && email.value != "" then Some(KeyPrefix + email.value) else None
  }

  /** Two users never share a storage key. */
  lemma StorageKeyInjective(a: Option<string>, b: Option<string>)
    requires StorageKey(a).Some? && StorageKey(a) == StorageKey(b)
    ensures a == b
  {
  }

  /** `[...list, id]` unless the list already includes `id`. */
  function Added(list: seq<string>, id: string): (r: seq<string>)
    ensures forall x :: x in r <==> x in list || x == id
    ensures |list| <= |r| <= |list| + 1 && r[..|list|] == list
    ensures id in list <==> |r| == |list|
    ensures Lists.NoDuplicates(list) ==> Lists.NoDuplicates(r)
  {
    if id in list then list
    else
      Lists.AppendNoDuplicatesIf(list, id);
      list + [id]
  }

  /** Adding is idempotent. */
  lemma AddedIdempotent(list: seq<string>, id: string)
    ensures Added(Added(list, id), id) == Added(list, id)
  {
  }

  /** Adding an absent id and then removing it gives the original list back. */
  lemma AddThenRemove(list: seq<string>, id: string)
    requires id !in list
    ensures Lists.Without(Added(list, id), id) == list
  {
    Lists.WithoutAppended(list, id);
  }

  /** The storage after writing `list` for the user: only that user's key changes, and
      without a user nothing is written. */
  function Persisted(storage: Storage, email: Option<string>, list: seq<string>): (s: Storage)
    ensures StorageKey(email).None? ==> s == storage
    ensures StorageKey(email).Some? ==> StorageKey(email).value in s && s[StorageKey(email).value] == list
    ensures s.Keys == storage.Keys + (if StorageKey(email).Some? then {StorageKey(email).value} else {})
    ensures forall k :: k in storage && Some(k) != StorageKey(email) ==> s[k] == storage[k]
  {
    match StorageKey(email)
    case None => storage
    case Some(key) => storage[key := list]
  }

  /** The list after the load effect: the stored one if the user has one, else unchanged. */
  function Restored(storage: Storage, email: Option<string>, current: seq<string>): (r: seq<string>)
    ensures StorageKey(email).Some? && StorageKey(email).value in storage ==> r == storage[StorageKey(email).value]
    ensures StorageKey(email).None? || StorageKey(email).value !in storage ==> r == current
  {
    match StorageKey(email)
    case None => current
    case Some(key) => if key in storage then storage[key] else current
  }

  /** What is written for a user is what the next load for that user reads back. */
  lemma LoadAfterPersist(storage: Storage, email: Option<string>, list: seq<string>, current: seq<string>)
    requires StorageKey(email).Some?
    ensures Restored(Persisted(storage, email, list), email, current) == list
  {
  }

  /** Writing for one user leaves what any other user loads unchanged. */
  lemma PersistIsolatesUsers(storage: Storage, active: Option<string>, other: Option<string>,
                             list: seq<string>, current: seq<string>)
    requires StorageKey(other).Some? && other != active
    ensures Restored(Persisted(storage, active, list), other, current) == Restored(storage, other, current)
  {
    if StorageKey(active) == StorageKey(other) {
      StorageKeyInjective(active, other);
    }
  }

  /** One mounted instance of the hook. */
  class FavoritesHook {
    var userEmail: Option<string>
    var dogFavorites: seq<string>
    var storage: Storage

    /** The list starts empty; the storage is whatever the browser holds. */
    constructor (email: Option<string>, stored: Storage)
      ensures userEmail == email && dogFavorites == [] && storage == stored
    {
      userEmail := email;
      dogFavorites := [];
      storage := stored;
    }

    /** The effect that runs for the current email: it reads the user's stored list if
        there is one; otherwise the in-memory list is kept, not cleared. */
    method LoadFavorites()
      modifies this`dogFavorites
      ensures dogFavorites == Restored(storage, userEmail, old(dogFavorites))
    {
      if userEmail.Some? && userEmail.value != "" {
        var key := KeyPrefix + userEmail.value;
        if key in storage {
          dogFavorites := storage[key];
        }
      }
    }

    /** A new email is passed to the hook, and the effect runs again. */
    method ChangeUser(email: Option<string>)
      modifies this`userEmail, this`dogFavorites
      ensures userEmail == email
      ensures dogFavorites == Restored(storage, email, old(dogFavorites))
    {
      userEmail := email;
      LoadFavorites();
    }

    /** Adds an absent id at the end and writes the whole list; a present id changes nothing. */
    method AddDogFavorite(dogId: string)
      modifies this`dogFavorites, this`storage
      ensures dogFavorites == Added(old(dogFavorites), dogId)
      ensures storage == if dogId in old(dogFavorites) then old(storage)
                         else Persisted(old(storage), userEmail, dogFavorites)
    {
      if dogId !in dogFavorites {
        var updated := dogFavorites + [dogId];
        dogFavorites := updated;
        if userEmail.Some? && userEmail.value != "" {
          storage := storage[KeyPrefix + userEmail.value := updated];
        }
      }
    }

    /** Drops every occurrence of the id and writes the result, present or not. */
    method RemoveDogFavorite(dogId: string)
      modifies this`dogFavorites, this`storage
      ensures dogFavorites == Lists.Without(old(dogFavorites), dogId)
      ensures storage == Persisted(old(storage), userEmail, dogFavorites)
    {
      var updated := Lists.Without(dogFavorites, dogId);
      dogFavorites := updated;
      if userEmail.Some? && userEmail.value != "" {
        storage := storage[KeyPrefix + userEmail.value := updated];
      }
    }
  }
}
