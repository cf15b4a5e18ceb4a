/** The client's view of the API records (`services/api.ts`) and of the
    browser values the pages work with. Dates are epoch milliseconds. */
module ClientTypes {
  import opened Common
  import opened Strings

  /** A JavaScript number as the pages produce it: an integer, or NaN from a
      `parseInt` that found no digits. */
  datatype Num = Finite(n: int) | NaN

  /** JavaScript truthiness of an optional number: absent, 0 and NaN are
      falsy. */
  predicate NumTruthy(x: Option<Num>) {
    x.Some? && x.value.Finite? && x.value.n != 0
  }

  /** `parseInt(s)` as a number. */
  function ParseNum(s: string): (r: Num)
    ensures r.NaN? <==> ParseInt(s).None?
    ensures r.Finite? ==> ParseInt(s) == Some(r.n)
  {
    match ParseInt(s)
    case None => NaN
    case Some(n) => Finite(n)
  }

  datatype MatchStatus = Completed | Cancelled | InProgress | Pending

  datatype Side = Left | Right

  datatype User = User(
    id: string,
    email: string,
    firstName: string,
    lastName: string,
    phone: Option<string>,
    profilePictureUrl: Option<string>,
    category: Option<Num>,
    city: Option<string>,
    sidePreference: Option<Side>,
    isUserVerified: bool)

  /** A match as listed; the roster is kept as the players' user ids. */
  datatype Match = Match(
    matchId: string,
    clubId: string,
    courtId: Option<string>,
    startDate: int,
    endDate: int,
    category: int,
    status: MatchStatus,
    isCourtScheduled: bool,
    matchPlayers: seq<string>)

  /** A `Partial<User>` spread over a user. Each field is absent (`None`) or
      present; an optional field that is present may still hold
      `undefined`/`null` (`Some(None)`), which then clears it. */
  datatype UserPatch = UserPatch(
    id: Option<string>,
    email: Option<string>,
    firstName: Option<string>,
    lastName: Option<string>,
    phone: Option<Option<string>>,
    profilePictureUrl: Option<Option<string>>,
    category: Option<Option<Num>>,
    city: Option<Option<string>>,
    sidePreference: Option<Option<Side>>,
    isUserVerified: Option<bool>)

  /** The patch that carries no field. */
  const EmptyPatch := UserPatch(None, None, None, None, None, None, None, None, None, None)

  /** `{ ...prev, ...patch }`: the present fields override, the rest are kept. */
  function Merge(prev: User, patch: UserPatch): (u: User)
    ensures patch.id.Some? ==> u.id == patch.id.value
    ensures patch.id.None? ==> u.id == prev.id
    ensures patch.email.Some? ==> u.email == patch.email.value
    ensures patch.email.None? ==> u.email == prev.email
    ensures patch.firstName.Some? ==> u.firstName == patch.firstName.value
    ensures patch.firstName.None? ==> u.firstName == prev.firstName
    ensures patch.lastName.Some? ==> u.lastName == patch.lastName.value
    ensures patch.lastName.None? ==> u.lastName == prev.lastName
    ensures patch.phone.Some? ==> u.phone == patch.phone.value
    ensures patch.phone.None? ==> u.phone == prev.phone
    ensures patch.profilePictureUrl.Some? ==> u.profilePictureUrl == patch.profilePictureUrl.value
    ensures patch.profilePictureUrl.None? ==> u.profilePictureUrl == prev.profilePictureUrl
    ensures patch.city.Some? ==> u.city == patch.city.value
    ensures patch.city.None? ==> u.city == prev.city
    ensures patch.category.Some? ==> u.category == patch.category.value
    ensures patch.category.None? ==> u.category == prev.category
    ensures patch.sidePreference.Some? ==> u.sidePreference == patch.sidePreference.value
    ensures patch.sidePreference.None? ==> u.sidePreference == prev.sidePreference
    ensures patch.isUserVerified.Some? ==> u.isUserVerified == patch.isUserVerified.value
    ensures patch.isUserVerified.None? ==> u.isUserVerified == prev.isUserVerified
  {
    User(
      patch.id.GetOr(prev.id),
      patch.email.GetOr(prev.email),
      patch.firstName.GetOr(prev.firstName),
      patch.lastName.GetOr(prev.lastName),
      patch.phone.GetOr(prev.phone),
      patch.profilePictureUrl.GetOr(prev.profilePictureUrl),
      patch.category.GetOr(prev.category),
      patch.city.GetOr(prev.city),
      patch.sidePreference.GetOr(prev.sidePreference),
      patch.isUserVerified.GetOr(prev.isUserVerified))
  }

  /** A whole user as a patch: every field present. */
  function PatchOfUser(u: User): UserPatch {
    UserPatch(Some(u.id), Some(u.email), Some(u.firstName), Some(u.lastName), Some(u.phone),
              Some(u.profilePictureUrl), Some(u.category), Some(u.city), Some(u.sidePreference),
              Some(u.isUserVerified))
  }

  /** `q` spread after `p`: a field of `q` wins when present. */
  function ThenPatch(p: UserPatch, q: UserPatch): UserPatch {
    UserPatch(q.id.Or(p.id), q.email.Or(p.email), q.firstName.Or(p.firstName),
              q.lastName.Or(p.lastName), q.phone.Or(p.phone),
              q.profilePictureUrl.Or(p.profilePictureUrl), q.category.Or(p.category),
              q.city.Or(p.city), q.sidePreference.Or(p.sidePreference),
              q.isUserVerified.Or(p.isUserVerified))
  }

  lemma MergeEmpty(u: User)
    ensures Merge(u, EmptyPatch) == u
  {
  }

  /** Spreading a whole user replaces the previous one. */
  lemma MergeWhole(prev: User, u: User)
    ensures Merge(prev, PatchOfUser(u)) == u
  {
  }

  /** Spreading the same patch twice is spreading it once. */
  lemma MergeIdempotent(u: User, p: UserPatch)
    ensures Merge(Merge(u, p), p) == Merge(u, p)
  {
  }

  /** Two spreads in a row are one spread of the combined patch. */
  lemma MergeThen(u: User, p: UserPatch, q: UserPatch)
    ensures Merge(Merge(u, p), q) == Merge(u, ThenPatch(p, q))
  {
  }

  /** The values the browser keeps in `localStorage`: the JSON of a user, or
      a plain string. */
  datatype Stored = StoredUser(user: User) | StoredText(text: string)

  const UserKey := "user"
  const TokenKey := "authToken"

  /** `localStorage.getItem(key)` read as a truthy string. */
  predicate HasText(storage: map<string, Stored>, key: string) {
    key in storage && storage[key].StoredText? && storage[key].text != ""
  }
}
