/** Sign-in with Google and the session token (`auth.service.ts`). The
    verification of the Google credential is an oracle that yields the
    token's payload or nothing; the clock reading is a parameter. */
module AuthService {
  import opened Common
  import opened Tables
  import opened Strings
  import opened Users

  /** The fields read from a verified Google ID token. */
  datatype GoogleTokenPayload = GoogleTokenPayload(
    email: string,
    name: string,
    picture: Option<string>,
    givenName: Option<string>,
    familyName: Option<string>,
    sub: string)

  datatype AuthResponse = AuthResponse(success: bool, user: User, token: string)

  // -----------------------------------------------------------------------
  // The name split

  /** `given_name || name.split(' ')[0] || 'User'`. */
  function FirstNameOf(p: GoogleTokenPayload): (r: string)
    ensures r != ""
    ensures Truthy(p.givenName) ==> r == p.givenName.value
  {
    OrElse(p.givenName, OrElse(Some(Split(p.name, ' ')[0]), "User"))
  }

  /** `family_name || name.split(' ').slice(1).join(' ') || ''`. */
  function LastNameOf(p: GoogleTokenPayload): (r: string)
    ensures Truthy(p.familyName) ==> r == p.familyName.value
  {
    OrElse(p.familyName, OrElse(Some(Join(Split(p.name, ' ')[1..], ' ')), ""))
  }

  /** Without a given name, the first name is what precedes the first space
      of `name` (all of it when there is none), or "User" when that is empty. */
  lemma FirstNameFromName(p: GoogleTokenPayload)
    requires !Truthy(p.givenName)
    ensures IndexOf(p.name, ' ').None? ==> FirstNameOf(p) == if p.name == "" then "User" else p.name
    ensures IndexOf(p.name, ' ').Some? ==>
      var k := IndexOf(p.name, ' ').value;
      FirstNameOf(p) == if k == 0 then "User" else p.name[..k]
  {
    SplitAtFirst(p.name, ' ');
  }

  /** Without a family name, the last name is everything after the first
      space of `name`, and "" when there is none. */
  lemma LastNameFromName(p: GoogleTokenPayload)
    requires !Truthy(p.familyName)
    ensures IndexOf(p.name, ' ').None? ==> LastNameOf(p) == ""
    ensures IndexOf(p.name, ' ').Some? ==> LastNameOf(p) == p.name[IndexOf(p.name, ' ').value + 1..]
  {
    SplitAtFirst(p.name, ' ');
  }

  /** The new account's data (`createFromGoogle`'s argument). */
  function ProfileOf(p: GoogleTokenPayload): (g: GoogleProfile)
    ensures g.email == p.email && g.googleId == p.sub && g.profilePictureUrl == p.picture
    ensures g.firstName == FirstNameOf(p) && g.lastName == LastNameOf(p)
  {
    GoogleProfile(p.email, FirstNameOf(p), LastNameOf(p), p.picture, p.sub)
  }

  // -----------------------------------------------------------------------
  // The session token

  /** The characters of `[a-f0-9-]`. */
  predicate IdChar(ch: char) {
    ('a' <= ch <= 'f') || ('0' <= ch <= '9') || ch == '-'
  }

  predicate IdChars(s: string) {
    forall i :: 0 <= i < |s| ==> IdChar(s[i])
  }

  const TokenPrefix := "token_"

  /** `token_${user.id}_${Date.now()}`. */
  function GenerateToken(id: string, now: nat): (t: string)
    ensures StartsWith(t, TokenPrefix)
  {
    TokenPrefix + id + "_" + NatToString(now)
  }

  /** The capture group of `/^token_([a-f0-9-]+)_\d+$/`, or nothing when
      the token does not match. The group cannot hold '_', so it runs up
      to the first '_' after the prefix. */
  function ParseToken(t: string): Option<string> {
    if !StartsWith(t, TokenPrefix) then None
    else
      var rest := t[|TokenPrefix|..];
      match IndexOf(rest, '_')
      case None => None
      case Some(k) =>
        if 0 < k && IdChars(rest[..k]) && k + 1 < |rest| && AllDigits(rest[k + 1..])
        then Some(rest[..k]) else None
  }

  /** The well-formed tokens: the prefix, a non-empty id over `[a-f0-9-]`,
      '_' and a non-empty run of digits. */
  predicate TokenShape(t: string, id: string, digits: string) {
    && 0 < |id| && IdChars(id)
    && 0 < |digits| && AllDigits(digits)
    && t == TokenPrefix + id + "_" + digits
  }

  /** A token of that shape is accepted, with its id. */
  lemma ParseTokenOfShape(t: string, id: string, digits: string)
    requires TokenShape(t, id, digits)
    ensures ParseToken(t) == Some(id)
  {
    var rest := t[|TokenPrefix|..];
    assert rest == id + "_" + digits;
    assert t[..|TokenPrefix|] == TokenPrefix;
    var f := IndexOf(rest, '_');
    assert rest[|id|] == '_';
    assert f.Some?;
    assert forall j :: 0 <= j < |id| ==> rest[j] == id[j] && IdChar(id[j]);
    assert f.value == |id|;
    assert rest[..|id|] == id;
    assert rest[|id| + 1..] == digits;
  }

  /** Every accepted token has that shape. */
  lemma ParseTokenSound(t: string)
    requires ParseToken(t).Some?
    ensures var id := ParseToken(t).value;
      TokenShape(t, id, t[|TokenPrefix| + |id| + 1..])
  {
    var rest := t[|TokenPrefix|..];
    var k := IndexOf(rest, '_').value;
    var id := rest[..k];
    assert id == ParseToken(t).value;
    assert rest[k + 1..] == t[|TokenPrefix| + |id| + 1..];
    assert t == t[..|TokenPrefix|] + rest;
    assert rest == id + "_" + rest[k + 1..];
  }

  /** The round trip: a token generated for an id over `[a-f0-9-]` (a uuid)
      is accepted with that id. */
  lemma TokenRoundTrip(id: string, now: nat)
    requires 0 < |id| && IdChars(id)
    ensures ParseToken(GenerateToken(id, now)) == Some(id)
  {
    ParseTokenOfShape(GenerateToken(id, now), id, NatToString(now));
  }

  /** An id with a character outside `[a-f0-9-]` never parses back from a
      token: such an account is never resolved by its own token. */
  lemma ForeignIdRejected(id: string, now: nat, i: nat)
    requires i < |id| && !IdChar(id[i])
    ensures ParseToken(GenerateToken(id, now)) != Some(id)
  {
    if ParseToken(GenerateToken(id, now)) == Some(id) {
      ParseTokenSound(GenerateToken(id, now));
    }
  }

  /** `verifyToken`: the user the token names, or nothing when the token is
      malformed or names no user. */
  function TokenUser(users: seq<User>, token: string): (r: Option<User>)
    ensures r.Some? ==> r.value in users && Some(r.value.id) == ParseToken(token)
    ensures r.None? <==> ParseToken(token).None? || !HasKey(users, UserIdOf, ParseToken(token).value)
  {
    match ParseToken(token)
    case None => None
    case Some(id) =>
      match IndexOfUser(users, id)
      case None =>
        assert forall k :: 0 <= k < |users| ==> UserIdOf(users[k]) != id;
        None
      case Some(i) =>
        assert UserIdOf(users[i]) == id;
        Some(users[i])
  }

  /** A token issued to a stored user with a uuid id resolves to that user. */
  lemma IssuedTokenResolves(users: seq<User>, k: nat, now: nat)
    requires UsersValid(users) && k < |users|
    requires 0 < |users[k].id| && IdChars(users[k].id)
    ensures TokenUser(users, GenerateToken(users[k].id, now)) == Some(users[k])
  {
    TokenRoundTrip(users[k].id, now);
    IdLookupUnique(users, k);
  }

  class AuthService {
    const users: UsersService

    ghost predicate Valid()
      reads this, users
    {
      users.Valid()
    }

    constructor (users: UsersService)
      ensures this.users == users
    {
      this.users := users;
    }

    /** `verifyToken`. */
    method VerifyToken(token: string) returns (r: Option<User>)
      requires Valid()
      ensures r == TokenUser(users.users, token)
    {
      match ParseToken(token)
      case None =>
        r := None;
      case Some(id) =>
        var found := users.FindOne(id);
        if found.Err? {
          r := None;
        } else {
          r := Some(found.value);
        }
    }

    /** `authenticateWithGoogle`: Unauthorized when the credential is not
        verified; otherwise the account found by e-mail or Google id (linked
        first when it has no Google id), or a new verified account, and a
        token for it. */
    method AuthenticateWithGoogle(credential: string, verify: string -> Option<GoogleTokenPayload>,
                                  newId: string, now: nat)
      returns (r: Result<AuthResponse>)
      requires Valid()
      requires !HasKey(users.users, UserIdOf, newId)
      modifies users
      ensures Valid()
      ensures verify(credential).None? ==> r == Err(Unauthorized) && users.users == old(users.users)
      ensures verify(credential).Some? ==>
        var p := verify(credential).value;
        var found := IndexOfEmailOrGoogleId(old(users.users), p.email, p.sub);
        && (found.None? ==>
              && users.users == old(users.users) + [FromGoogle(ProfileOf(p), newId)]
              && r.Ok? && r.value.user == FromGoogle(ProfileOf(p), newId))
        && (found.Some? && Truthy(old(users.users)[found.value].googleId) ==>
              users.users == old(users.users) && r.Ok? && r.value.user == old(users.users)[found.value])
        && (found.Some? && !Truthy(old(users.users)[found.value].googleId)
              && GoogleIdHeldByOther(old(users.users), found.value, p.sub) ==>
              users.users == old(users.users) && r == Err(UniqueViolation))
        && (found.Some? && !Truthy(old(users.users)[found.value].googleId)
              && !GoogleIdHeldByOther(old(users.users), found.value, p.sub) ==>
              var linked := LinkGoogle(old(users.users)[found.value], p.sub);
              users.users == old(users.users)[found.value := linked] && r.Ok? && r.value.user == linked)
      ensures r.Ok? ==> r.value.success && r.value.token == GenerateToken(r.value.user.id, now)
    {
      var payload := verify(credential);
      if payload.None? {
        return Err(Unauthorized);
      }
      var p := payload.value;
      var existing := users.FindByEmailOrGoogleId(p.email, p.sub);
      var user: User;
      if existing.None? {
        var created := users.CreateFromGoogle(ProfileOf(p), newId);
        assert created.Ok?;
        user := created.value;
      } else if !Truthy(existing.value.googleId) {
        var i := IndexOfEmailOrGoogleId(users.users, p.email, p.sub).value;
        IdLookupUnique(users.users, i);
        var linked := users.UpdateGoogleId(existing.value.id, p.sub);
        if linked.Err? {
          return Err(linked.error);
        }
        user := linked.value;
      } else {
        user := existing.value;
      }
      r := Ok(AuthResponse(true, user, GenerateToken(user.id, now)));
    }
  }
}
