/** Signing in with Google on the client (`hooks/useGoogleAuth.ts`): the
    mutation's callbacks set the loading flag, store the token, sign the user
    in and pick where to go next. The backend call is an oracle that yields
    the response or nothing (the mutation failed). */
module GoogleAuthHook {
  import opened Common
  import opened ClientTypes
  import opened AuthContext
  import opened ProtectedRoute

  datatype GoogleAuthResponse = GoogleAuthResponse(success: bool, user: User, token: string)

  /** The registration check that `onSuccess` writes out on the returned user. */
  predicate NeedsRegistrationInline(u: User) {
    !Truthy(u.phone) || !Truthy(u.city) || u.category.None?
  }

  /** It is the context's `needsRegistration` once that user is signed in. */
  lemma InlineIsContextPredicate(u: User)
    ensures NeedsRegistrationInline(u) == NeedsRegistrationOf(Some(u))
  {
  }

  /** Where `onSuccess` navigates. */
  function NavigationTarget(u: User): (to: string)
    ensures to == RegistrationPath <==> NeedsRegistrationInline(u)
    ensures to == AppPath <==> !NeedsRegistrationInline(u)
  {
    if NeedsRegistrationInline(u) then RegistrationPath else AppPath
  }

  /** Once signed in and settled, the guard at the navigation target renders
      the page: the hook never sends the user to a page that bounces them. */
  lemma TargetIsGuarded(u: User)
    ensures Guard(false, true, NeedsRegistrationOf(Some(u)), NavigationTarget(u)) == Children
  {
  }

  /** `onMutate`. */
  method OnMutate(auth: AuthState)
    requires auth.Persisted()
    modifies auth
    ensures auth.Persisted()
    ensures auth.isLoading && auth.user == old(auth.user) && auth.storage == old(auth.storage)
  {
    auth.SetIsLoading(true);
  }

  /** `onSuccess`: the token under "authToken", then `login(data.user)`, then
      the navigation target. */
  method OnSuccess(auth: AuthState, data: GoogleAuthResponse) returns (to: string)
    modifies auth
    ensures auth.Persisted()
    ensures auth.user == Some(data.user)
    ensures auth.storage == old(auth.storage)[TokenKey := StoredText(data.token)][UserKey := StoredUser(data.user)]
    ensures auth.isLoading == old(auth.isLoading)
    ensures to == NavigationTarget(data.user)
  {
    auth.storage := auth.storage[TokenKey := StoredText(data.token)];
    auth.Login(data.user);
    to := NavigationTarget(data.user);
  }

  /** `onSettled`. */
  method OnSettled(auth: AuthState)
    requires auth.Persisted()
    modifies auth
    ensures auth.Persisted()
    ensures !auth.isLoading && auth.user == old(auth.user) && auth.storage == old(auth.storage)
  {
    auth.SetIsLoading(false);
  }

  /** One sign-in attempt: `onMutate`, the call, `onSuccess` or `onError`
      (an alert, no state change), and `onSettled`. The loading flag ends
      false either way; on success the user is signed in and the route the
      hook goes to renders. */
  method SignIn(auth: AuthState, credential: string, authenticate: string -> Option<GoogleAuthResponse>)
    returns (to: Option<string>)
    requires auth.Persisted()
    modifies auth
    ensures auth.Persisted() && !auth.isLoading
    ensures authenticate(credential).None? ==>
      to.None? && auth.user == old(auth.user) && auth.storage == old(auth.storage)
    ensures authenticate(credential).Some? ==>
      var data := authenticate(credential).value;
      && auth.user == Some(data.user)
      && auth.storage == old(auth.storage)[TokenKey := StoredText(data.token)][UserKey := StoredUser(data.user)]
      && to == Some(NavigationTarget(data.user))
      && GuardOf(auth, to.value) == Children
  {
    OnMutate(auth);
    var outcome := authenticate(credential);
    if outcome.Some? {
      var target := OnSuccess(auth, outcome.value);
      to := Some(target);
    } else {
      to := None;
    }
    OnSettled(auth);
    if outcome.Some? {
      TargetIsGuarded(outcome.value.user);
    }
  }
}
