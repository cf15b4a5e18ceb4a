/** The user table (`users.service.ts`): accounts keyed by a uuid, with a
    unique e-mail address and an optional, unique Google account id. */
module Users {
  import opened Common
  import opened Tables

  datatype Side = Left | Right

  datatype User = User(
    id: string,
    firstName: string,
    lastName: string,
    email: string,
    googleId: Option<string>,
    phone: Option<string>,
    isUserVerified: bool,
    profilePictureUrl: Option<string>,
    category: int,
    matchesPlayed: int,
    city: Option<string>,
    sidePreference: Option<Side>)

  /** Column defaults of the `users` table. */
  const DefaultCategory := 8
  const DefaultMatchesPlayed := 0

  datatype CreateUserDto = CreateUserDto(
    firstName: string,
    lastName: string,
    email: string,
    phone: Option<string>,
    isUserVerified: Option<bool>,
    profilePictureUrl: Option<string>,
    category: Option<int>,
    matchesPlayed: Option<int>,
    city: Option<string>,
    sidePreference: Option<Side>)

  /** Every field of the creation DTO, each optional. */
  datatype UpdateUserDto = UpdateUserDto(
    firstName: Option<string>,
    lastName: Option<string>,
    email: Option<string>,
    phone: Option<string>,
    isUserVerified: Option<bool>,
    profilePictureUrl: Option<string>,
    category: Option<int>,
    matchesPlayed: Option<int>,
    city: Option<string>,
    sidePreference: Option<Side>)

  /** What `createFromGoogle` is given. */
  datatype GoogleProfile = GoogleProfile(
    email: string,
    firstName: string,
    lastName: string,
    profilePictureUrl: Option<string>,
    googleId: string)

  function UserIdOf(u: User): string { u.id }
  function EmailOf(u: User): string { u.email }

  /** The `googleId` column is unique where it is set. */
  predicate GoogleIdsDistinct(users: seq<User>) {
    forall i, j :: 0 <= i < j < |users| && users[i].googleId.Some? ==> users[i].googleId != users[j].googleId
  }

  ghost predicate UsersValid(users: seq<User>) {
    DistinctBy(users, UserIdOf) && DistinctBy(users, EmailOf) && GoogleIdsDistinct(users)
  }

  function IndexOfUser(users: seq<User>, id: string): Option<nat> {
    FindFirst(users, (u: User) => u.id == id)
  }

  function IndexOfEmail(users: seq<User>, email: string): Option<nat> {
    FindFirst(users, (u: User) => u.email == email)
  }

  /** `where: [{ email }, { googleId }]`: either key matches. */
  function IndexOfEmailOrGoogleId(users: seq<User>, email: string, googleId: string): Option<nat> {
    FindFirst(users, (u: User) => u.email == email || u.googleId == Some(googleId))
  }

  /** Is some row other than `i` holding `email`? */
  predicate EmailHeldByOther(users: seq<User>, i: nat, email: string) {
    exists j :: 0 <= j < |users| && j != i && users[j].email == email
  }

  /** Is some row other than `i` holding `googleId`? */
  predicate GoogleIdHeldByOther(users: seq<User>, i: nat, googleId: string) {
    exists j :: 0 <= j < |users| && j != i && users[j].googleId == Some(googleId)
  }

  /** `repository.create(dto)`: the DTO's fields over the column defaults. */
  function NewUser(dto: CreateUserDto, id: string): (u: User)
    ensures u.id == id && u.email == dto.email
    ensures u.firstName == dto.firstName && u.lastName == dto.lastName
    ensures u.googleId.None?
    ensures dto.isUserVerified.None? ==> !u.isUserVerified
    ensures dto.category.None? ==> u.category == DefaultCategory
    ensures dto.matchesPlayed.None? ==> u.matchesPlayed == DefaultMatchesPlayed
    ensures dto.category.Some? ==> u.category == dto.category.value
    ensures dto.isUserVerified.Some? ==> u.isUserVerified == dto.isUserVerified.value
    ensures dto.matchesPlayed.Some? ==> u.matchesPlayed == dto.matchesPlayed.value
    ensures u.phone == dto.phone && u.city == dto.city && u.profilePictureUrl == dto.profilePictureUrl
    ensures u.sidePreference == dto.sidePreference
  {
    User(id, dto.firstName, dto.lastName, dto.email, None, dto.phone,
         dto.isUserVerified.GetOr(false), dto.profilePictureUrl,
         dto.category.GetOr(DefaultCategory), dto.matchesPlayed.GetOr(DefaultMatchesPlayed),
         dto.city, dto.sidePreference)
  }

  /** `createFromGoogle`: a verified account linked to the Google id. */
  function FromGoogle(p: GoogleProfile, id: string): (u: User)
    ensures u.id == id && u.email == p.email && u.googleId == Some(p.googleId)
    ensures u.firstName == p.firstName && u.lastName == p.lastName
    ensures u.isUserVerified
    ensures u.category == DefaultCategory && u.matchesPlayed == DefaultMatchesPlayed
    ensures u.profilePictureUrl == p.profilePictureUrl
    ensures u.phone.None? && u.city.None? && u.sidePreference.None?
  {
    User(id, p.firstName, p.lastName, p.email, Some(p.googleId), None, true,
         p.profilePictureUrl, DefaultCategory, DefaultMatchesPlayed, None, None)
  }

  /** `Object.assign(user, dto)`: each provided field overwrites, the rest stay. */
  function ApplyUserUpdate(u: User, dto: UpdateUserDto): (r: User)
    ensures r.id == u.id && r.googleId == u.googleId
    ensures r.email == dto.email.GetOr(u.email)
    ensures r.firstName == dto.firstName.GetOr(u.firstName) && r.lastName == dto.lastName.GetOr(u.lastName)
    ensures r.phone == dto.phone.Or(u.phone) && r.city == dto.city.Or(u.city)
    ensures r.category == dto.category.GetOr(u.category)
    ensures r.isUserVerified == dto.isUserVerified.GetOr(u.isUserVerified)
    ensures r.profilePictureUrl == dto.profilePictureUrl.Or(u.profilePictureUrl)
    ensures r.matchesPlayed == dto.matchesPlayed.GetOr(u.matchesPlayed)
    ensures r.sidePreference == dto.sidePreference.Or(u.sidePreference)
  {
    User(u.id, dto.firstName.GetOr(u.firstName), dto.lastName.GetOr(u.lastName),
         dto.email.GetOr(u.email), u.googleId, dto.phone.Or(u.phone),
         dto.isUserVerified.GetOr(u.isUserVerified), dto.profilePictureUrl.Or(u.profilePictureUrl),
         dto.category.GetOr(u.category), dto.matchesPlayed.GetOr(u.matchesPlayed),
         dto.city.Or(u.city), dto.sidePreference.Or(u.sidePreference))
  }

  /** `updateGoogleId`: the account is linked and verified, nothing else changes. */
  function LinkGoogle(u: User, googleId: string): (r: User)
    ensures r.googleId == Some(googleId) && r.isUserVerified
    ensures r == u.(googleId := Some(googleId), isUserVerified := true)
  {
    u.(googleId := Some(googleId), isUserVerified := true)
  }

  /** The update's e-mail guard: a truthy address that differs from the
      stored one must not be held by anyone. */
  predicate EmailConflict(users: seq<User>, i: nat, dto: UpdateUserDto)
    requires i < |users|
  {
    Truthy(dto.email) && dto.email.value != users[i].email && IndexOfEmail(users, dto.email.value).Some?
  }

  /** An e-mail address that differs from row `i`'s and is held is held by
      another row. */
  lemma EmailConflictIff(users: seq<User>, i: nat, dto: UpdateUserDto)
    requires i < |users|
    ensures EmailConflict(users, i, dto) <==>
      Truthy(dto.email) && dto.email.value != users[i].email && EmailHeldByOther(users, i, dto.email.value)
  {
    if Truthy(dto.email) && dto.email.value != users[i].email {
      var e := dto.email.value;
      if IndexOfEmail(users, e).Some? {
        var j := IndexOfEmail(users, e).value;
        assert users[j].email == e;
      }
      if EmailHeldByOther(users, i, e) {
        var j :| 0 <= j < |users| && j != i && users[j].email == e;
        assert !(forall k :: 0 <= k < |users| ==> !(users[k].email == e));
      }
    }
  }

  /** Resubmitting the stored address never conflicts. */
  lemma SameEmailNoConflict(users: seq<User>, i: nat, dto: UpdateUserDto)
    requires i < |users| && dto.email == Some(users[i].email)
    ensures !EmailConflict(users, i, dto)
  {
  }

  /** Replacing row `i` keeps the table valid when the replacement keeps the
      id and the Google id and its e-mail address is held by no other row. */
  lemma ReplaceKeepsValid(users: seq<User>, i: nat, u: User)
    requires UsersValid(users) && i < |users|
    requires u.id == users[i].id
    requires !EmailHeldByOther(users, i, u.email)
    requires u.googleId == users[i].googleId || (u.googleId.Some? && !GoogleIdHeldByOther(users, i, u.googleId.value))
    ensures UsersValid(users[i := u])
  {
    var s := users[i := u];
    forall a, b | 0 <= a < b < |s|
      ensures UserIdOf(s[a]) != UserIdOf(s[b]) && EmailOf(s[a]) != EmailOf(s[b])
      ensures s[a].googleId.Some? ==> s[a].googleId != s[b].googleId
    {
      assert UserIdOf(s[a]) == UserIdOf(users[a]) && UserIdOf(s[b]) == UserIdOf(users[b]);
      if a == i {
        assert users[b].email != u.email;
        assert s[b] == users[b];
      } else if b == i {
        assert users[a].email != u.email;
        assert s[a] == users[a];
      }
    }
  }

  /** Appending a row with a fresh id, a free e-mail address and a free (or
      no) Google id keeps the table valid. */
  lemma AppendKeepsValid(users: seq<User>, u: User)
    requires UsersValid(users)
    requires !HasKey(users, UserIdOf, u.id) && !HasKey(users, EmailOf, u.email)
    requires u.googleId.Some? ==> forall k :: 0 <= k < |users| ==> users[k].googleId != u.googleId
    ensures UsersValid(users + [u])
  {
    var s := users + [u];
    forall a, b | 0 <= a < b < |s|
      ensures UserIdOf(s[a]) != UserIdOf(s[b]) && EmailOf(s[a]) != EmailOf(s[b])
      ensures s[a].googleId.Some? ==> s[a].googleId != s[b].googleId
    {
      assert s[a] == users[a];
      if b == |users| {
        assert UserIdOf(users[a]) != u.id;
        assert EmailOf(users[a]) != u.email;
      } else {
        assert s[b] == users[b];
      }
    }
  }

  /** Removing a row keeps the table valid. */
  lemma RemoveKeepsValid(users: seq<User>, i: nat)
    requires UsersValid(users) && i < |users|
    ensures UsersValid(RemoveAt(users, i))
  {
    var s := RemoveAt(users, i);
    forall a, b | 0 <= a < b < |s|
      ensures UserIdOf(s[a]) != UserIdOf(s[b]) && EmailOf(s[a]) != EmailOf(s[b])
      ensures s[a].googleId.Some? ==> s[a].googleId != s[b].googleId
    {
      assert s[a] == users[if a < i then a else a + 1];
      assert s[b] == users[if b < i then b else b + 1];
    }
  }

  /** The lookup by id finds the only row with that id. */
  lemma IdLookupUnique(users: seq<User>, k: nat)
    requires UsersValid(users) && k < |users|
    ensures IndexOfUser(users, users[k].id) == Some(k)
  {
    var r := IndexOfUser(users, users[k].id);
    assert r.Some?;
    assert UserIdOf(users[r.value]) == UserIdOf(users[k]);
  }

  /** The lookup by e-mail finds the only row holding it. */
  lemma EmailLookupUnique(users: seq<User>, k: nat)
    requires UsersValid(users) && k < |users|
    ensures IndexOfEmail(users, users[k].email) == Some(k)
  {
    var r := IndexOfEmail(users, users[k].email);
    assert r.Some?;
    assert EmailOf(users[r.value]) == EmailOf(users[k]);
  }

  class UsersService {
    var users: seq<User>

    ghost predicate Valid()
      reads this
    {
      UsersValid(users)
    }

    constructor ()
      ensures Valid() && users == []
    {
      users := [];
    }

    /** `create`: Conflict when the e-mail address is taken; otherwise the
        new row with the column defaults. */
    method Create(dto: CreateUserDto, newId: string) returns (r: Result<User>)
      requires Valid()
      requires !HasKey(users, UserIdOf, newId)
      modifies this
      ensures Valid()
      ensures IndexOfEmail(old(users), dto.email).Some? ==> r == Err(Conflict) && users == old(users)
      ensures IndexOfEmail(old(users), dto.email).None? ==>
        r == Ok(NewUser(dto, newId)) && users == old(users) + [NewUser(dto, newId)]
    {
      if IndexOfEmail(users, dto.email).Some? {
        return Err(Conflict);
      }
      var u := NewUser(dto, newId);
      AppendKeepsValid(users, u);
      users := users + [u];
      r := Ok(u);
    }

    /** `findOne`: NotFound for an unknown id. */
    method FindOne(id: string) returns (r: Result<User>)
      requires Valid()
      ensures r.Err? <==> !HasKey(users, UserIdOf, id)
      ensures r.Err? ==> r.error == NotFound
      ensures r.Ok? ==> r.value in users && r.value.id == id
      ensures r.Ok? ==> IndexOfUser(users, id).Some? && r.value == users[IndexOfUser(users, id).value]
    {
      var found := IndexOfUser(users, id);
      if found.None? {
        assert forall k :: 0 <= k < |users| ==> UserIdOf(users[k]) != id;
        return Err(NotFound);
      }
      assert UserIdOf(users[found.value]) == id;
      r := Ok(users[found.value]);
    }

    /** `findByEmail`: NotFound for an unknown address. */
    method FindByEmail(email: string) returns (r: Result<User>)
      requires Valid()
      ensures r.Err? <==> !HasKey(users, EmailOf, email)
      ensures r.Err? ==> r.error == NotFound
      ensures r.Ok? ==> r.value in users && r.value.email == email
    {
      var found := IndexOfEmail(users, email);
      if found.None? {
        assert forall k :: 0 <= k < |users| ==> EmailOf(users[k]) != email;
        return Err(NotFound);
      }
      assert EmailOf(users[found.value]) == email;
      r := Ok(users[found.value]);
    }

    /** `update`: NotFound for an unknown id; Conflict when a new, truthy
        e-mail address is held by someone; otherwise the provided fields are
        merged in. An empty address skips the guard and is refused by the
        unique index only if another row holds it. */
    method Update(id: string, dto: UpdateUserDto) returns (r: Result<User>)
      requires Valid()
      modifies this
      ensures Valid()
      ensures IndexOfUser(old(users), id).None? ==> r == Err(NotFound) && users == old(users)
      ensures IndexOfUser(old(users), id).Some? ==>
        var i := IndexOfUser(old(users), id).value;
        var u := ApplyUserUpdate(old(users)[i], dto);
        && (EmailConflict(old(users), i, dto) ==> r == Err(Conflict) && users == old(users))
        && (!EmailConflict(old(users), i, dto) && EmailHeldByOther(old(users), i, u.email) ==>
              r == Err(UniqueViolation) && users == old(users))
        && (!EmailConflict(old(users), i, dto) && !EmailHeldByOther(old(users), i, u.email) ==>
              r == Ok(u) && users == old(users)[i := u])
    {
      var found := IndexOfUser(users, id);
      if found.None? {
        return Err(NotFound);
      }
      var i := found.value;
      if Truthy(dto.email) && dto.email.value != users[i].email && IndexOfEmail(users, dto.email.value).Some? {
        return Err(Conflict);
      }
      var u := ApplyUserUpdate(users[i], dto);
      if exists j :: 0 <= j < |users| && j != i && users[j].email == u.email {
        return Err(UniqueViolation);
      }
      ReplaceKeepsValid(users, i, u);
      users := users[i := u];
      r := Ok(u);
    }

    /** `remove`: NotFound for an unknown id; a user still on a roster is
        kept by the NO ACTION foreign key of `match_players`. */
    method Remove(id: string, rostered: set<string>) returns (r: Result<()>)
      requires Valid()
      modifies this
      ensures Valid()
      ensures IndexOfUser(old(users), id).None? ==> r == Err(NotFound) && users == old(users)
      ensures IndexOfUser(old(users), id).Some? && id in rostered ==>
        r == Err(ForeignKeyViolation) && users == old(users)
      ensures IndexOfUser(old(users), id).Some? && id !in rostered ==>
        r == Ok(()) && users == RemoveAt(old(users), IndexOfUser(old(users), id).value)
    {
      var found := IndexOfUser(users, id);
      if found.None? {
        return Err(NotFound);
      }
      if id in rostered {
        return Err(ForeignKeyViolation);
      }
      RemoveKeepsValid(users, found.value);
      users := RemoveAt(users, found.value);
      r := Ok(());
    }

    /** `findByEmailOrGoogleId`: a row holding the address or the Google id,
        or none when no row holds either. */
    method FindByEmailOrGoogleId(email: string, googleId: string) returns (r: Option<User>)
      ensures r.Some? ==> r.value in users && (r.value.email == email || r.value.googleId == Some(googleId))
      ensures r.None? <==> forall k :: 0 <= k < |users| ==> users[k].email != email && users[k].googleId != Some(googleId)
      ensures r.None? <==> IndexOfEmailOrGoogleId(users, email, googleId).None?
      ensures r.Some? ==> r.value == users[IndexOfEmailOrGoogleId(users, email, googleId).value]
    {
      var found := IndexOfEmailOrGoogleId(users, email, googleId);
      if found.None? {
        return None;
      }
      r := Some(users[found.value]);
    }

    /** `createFromGoogle`: the verified, linked account; the unique
        indexes refuse a taken address or Google id. */
    method CreateFromGoogle(p: GoogleProfile, newId: string) returns (r: Result<User>)
      requires Valid()
      requires !HasKey(users, UserIdOf, newId)
      modifies this
      ensures Valid()
      ensures IndexOfEmailOrGoogleId(old(users), p.email, p.googleId).Some? ==>
        r == Err(UniqueViolation) && users == old(users)
      ensures IndexOfEmailOrGoogleId(old(users), p.email, p.googleId).None? ==>
        r == Ok(FromGoogle(p, newId)) && users == old(users) + [FromGoogle(p, newId)]
    {
      if IndexOfEmailOrGoogleId(users, p.email, p.googleId).Some? {
        return Err(UniqueViolation);
      }
      var u := FromGoogle(p, newId);
      assert forall k :: 0 <= k < |users| ==> EmailOf(users[k]) != u.email;
      AppendKeepsValid(users, u);
      users := users + [u];
      r := Ok(u);
    }

    /** `updateGoogleId`: NotFound for an unknown id; otherwise the row is
        linked and verified, unless the Google id belongs to another row. */
    method UpdateGoogleId(id: string, googleId: string) returns (r: Result<User>)
      requires Valid()
      modifies this
      ensures Valid()
      ensures IndexOfUser(old(users), id).None? ==> r == Err(NotFound) && users == old(users)
      ensures IndexOfUser(old(users), id).Some? ==>
        var i := IndexOfUser(old(users), id).value;
        && (GoogleIdHeldByOther(old(users), i, googleId) ==> r == Err(UniqueViolation) && users == old(users))
        && (!GoogleIdHeldByOther(old(users), i, googleId) ==>
              r == Ok(LinkGoogle(old(users)[i], googleId)) && users == old(users)[i := LinkGoogle(old(users)[i], googleId)])
    {
      var found := IndexOfUser(users, id);
      if found.None? {
        return Err(NotFound);
      }
      var i := found.value;
      if exists j :: 0 <= j < |users| && j != i && users[j].googleId == Some(googleId) {
        return Err(UniqueViolation);
      }
      var u := LinkGoogle(users[i], googleId);
      assert !EmailHeldByOther(users, i, u.email) by {
        forall j | 0 <= j < |users| && j != i ensures users[j].email != u.email {
          assert EmailOf(users[j]) != EmailOf(users[i]);
        }
      }
      ReplaceKeepsValid(users, i, u);
      users := users[i := u];
      r := Ok(u);
    }
  }
}
