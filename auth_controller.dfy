/** `GET /auth/verify` (`auth.controller.ts`): the bearer header is checked,
    its token is resolved by the token lookup, and a miss is Unauthorized. */
module AuthController {
  import opened Common
  import opened Strings
  import opened Users
  import AuthService

  datatype VerifyResponse = VerifyResponse(success: bool, user: User)

  const BearerPrefix := "Bearer "

  /** The header is present, non-empty and starts with "Bearer ". */
  predicate BearerHeader(authorization: Option<string>) {
    Truthy(authorization) && StartsWith(authorization.value, BearerPrefix)
  }

  /** `authorization.substring(7)`. */
  function BearerToken(authorization: string): (t: string)
    requires StartsWith(authorization, BearerPrefix)
    ensures BearerPrefix + t == authorization
  {
    authorization[|BearerPrefix|..]
  }

  /** `verifyToken` of the controller: Unauthorized for a missing or
      malformed header and for a token that resolves to no user. */
  function VerifyAuthorization(authorization: Option<string>, lookup: string -> Option<User>): (r: Result<VerifyResponse>)
    ensures !BearerHeader(authorization) ==> r == Err(Unauthorized)
    ensures BearerHeader(authorization) && lookup(BearerToken(authorization.value)).None? ==> r == Err(Unauthorized)
    ensures r.Ok? <==> BearerHeader(authorization) && lookup(BearerToken(authorization.value)).Some?
    ensures r.Ok? ==> r.value.success && Some(r.value.user) == lookup(BearerToken(authorization.value))
  {
    if !BearerHeader(authorization) then Err(Unauthorized)
    else
      match lookup(BearerToken(authorization.value))
      case None => Err(Unauthorized)
      case Some(u) => Ok(VerifyResponse(true, u))
  }

  /** End to end: the header "Bearer " + a token issued to a stored user with
      a uuid id yields that user. */
  lemma IssuedTokenAccepted(users: seq<User>, k: nat, now: nat)
    requires UsersValid(users) && k < |users|
    requires 0 < |users[k].id| && AuthService.IdChars(users[k].id)
    ensures var header := BearerPrefix + AuthService.GenerateToken(users[k].id, now);
      VerifyAuthorization(Some(header), t => AuthService.TokenUser(users, t)) == Ok(VerifyResponse(true, users[k]))
  {
    var token := AuthService.GenerateToken(users[k].id, now);
    var header := BearerPrefix + token;
    assert header[..|BearerPrefix|] == BearerPrefix;
    assert BearerToken(header) == token;
    AuthService.IssuedTokenResolves(users, k, now);
  }

  /** A header without the scheme is refused whatever the token. */
  lemma RawTokenRefused(token: string, lookup: string -> Option<User>)
    requires |token| < |BearerPrefix| || token[..|BearerPrefix|] != BearerPrefix
    ensures VerifyAuthorization(Some(token), lookup) == Err(Unauthorized)
  {
  }
}
