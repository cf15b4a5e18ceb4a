/** The signed-in user as the client keeps it (`contexts/AuthContext.tsx`):
    the user state, the loading flag and `localStorage`, with the
    operations that change them and the two values derived from them. */
module AuthContext {
  import opened Common
  import opened ClientTypes

  /** `needsRegistration` of a present user: a phone, a city or a category
      is missing. A category of 0 or NaN counts as given. */
  predicate RegistrationIncomplete(u: User) {
    !Truthy(u.phone) || !Truthy(u.city) || u.category.None?
  }

  /** `needsRegistration`: false with no user. */
  function NeedsRegistrationOf(user: Option<User>): (r: bool)
    ensures r ==> user.Some?
    ensures user.Some? ==> (r <==> RegistrationIncomplete(user.value))
  {
    user.Some? && RegistrationIncomplete(user.value)
  }

  /** A patch that gives a phone, a city and a category completes any user. */
  lemma CompletingPatch(u: User, p: UserPatch)
    requires p.phone.Some? && Truthy(p.phone.value)
    requires p.city.Some? && Truthy(p.city.value)
    requires p.category.Some? && p.category.value.Some?
    ensures !RegistrationIncomplete(Merge(u, p))
  {
  }

  /** A patch that leaves phone, city and category alone leaves the
      registration status alone. */
  lemma PatchKeepsRegistration(u: User, p: UserPatch)
    requires p.phone.None? && p.city.None? && p.category.None?
    ensures RegistrationIncomplete(Merge(u, p)) == RegistrationIncomplete(u)
  {
  }

  /** The user the mount effect reads back: the JSON stored under "user". */
  function RestoredUser(storage: map<string, Stored>): (r: Option<User>)
    ensures r.Some? <==> UserKey in storage && storage[UserKey].StoredUser?
    ensures r.Some? ==> storage[UserKey] == StoredUser(r.value)
  {
    if UserKey in storage && storage[UserKey].StoredUser? then Some(storage[UserKey].user) else None
  }

  class AuthState {
    var user: Option<User>
    var isLoading: bool
    var storage: map<string, Stored>

    /** The present user is the one stored under "user", so that a reload
        brings it back. */
    predicate Persisted()
      reads this
    {
      user.Some? ==> RestoredUser(storage) == user
    }

    /** `useState(null)` and `useState(false)` over the browser's storage. */
    constructor (storage: map<string, Stored>)
      ensures Persisted()
      ensures user == None && !isLoading && this.storage == storage
    {
      user := None;
      isLoading := false;
      this.storage := storage;
    }

    /** `isAuthenticated`. */
    function IsAuthenticated(): bool
      reads this
    {
      user.Some?
    }

    function NeedsRegistration(): bool
      reads this
    {
      NeedsRegistrationOf(user)
    }

    /** The mount effect: the stored user, when there is one, becomes the
        present user. */
    method Restore()
      requires Persisted()
      modifies this
      ensures Persisted()
      ensures user == (if RestoredUser(old(storage)).Some? then RestoredUser(old(storage)) else old(user))
      ensures storage == old(storage) && isLoading == old(isLoading)
    {
      var stored := RestoredUser(storage);
      if stored.Some? {
        user := stored;
      }
    }

    /** `login`: the user becomes present and is stored. */
    method Login(u: User)
      modifies this
      ensures Persisted()
      ensures user == Some(u) && IsAuthenticated()
      ensures storage == old(storage)[UserKey := StoredUser(u)] && isLoading == old(isLoading)
    {
      user := Some(u);
      storage := storage[UserKey := StoredUser(u)];
    }

    /** `logout`: no user, and neither the stored user nor the token remain. */
    method Logout()
      modifies this
      ensures Persisted()
      ensures user == None && !IsAuthenticated() && !NeedsRegistration()
      ensures storage == old(storage) - {UserKey, TokenKey} && isLoading == old(isLoading)
      ensures RestoredUser(storage).None? && !HasText(storage, TokenKey)
    {
      user := None;
      storage := storage - {UserKey, TokenKey};
    }

    /** `updateUser`: nothing without a present user; otherwise the given
        fields override, the rest are kept, and the result is stored. */
    method UpdateUser(patch: UserPatch)
      requires Persisted()
      modifies this
      ensures Persisted()
      ensures old(user).None? ==> user == old(user) && storage == old(storage)
      ensures old(user).Some? ==>
        && user == Some(Merge(old(user).value, patch))
        && storage == old(storage)[UserKey := StoredUser(user.value)]
      ensures isLoading == old(isLoading)
    {
      if user.Some? {
        var updated := Merge(user.value, patch);
        user := Some(updated);
        storage := storage[UserKey := StoredUser(updated)];
      }
    }

    method SetIsLoading(loading: bool)
      requires Persisted()
      modifies this
      ensures Persisted()
      ensures isLoading == loading && user == old(user) && storage == old(storage)
    {
      isLoading := loading;
    }
  }

  /** What `login` stored comes back on a reload, and what `logout` removed
      does not. */
  lemma ReloadAfterLogin(storage: map<string, Stored>, u: User)
    ensures RestoredUser(storage[UserKey := StoredUser(u)]) == Some(u)
    ensures RestoredUser(storage - {UserKey, TokenKey}).None?
  {
  }
}
