/**
 * The token engine of the authorization server (JwtUtils): it issues and validates
 * signed compact tokens for five purposes, told apart by the integer claim `vt`.
 *
 * The engine's final fields become the `Engine` value: the signer/verifier (which
 * holds the secret), `Objects.hash`, and the five time-to-live settings. The clock
 * becomes the parameter `now` (seconds, the value of currentTimeMillis() / 1000) and
 * the three repositories become read-only maps.
 */
module JwtUtils {
  import opened Wrappers
  import opened Claims
  import ScopeText

  /* ---------------------------------------------------------------------------
   * Referenced entities and repositories
   * ------------------------------------------------------------------------- */

  datatype User = User(id: string, username: string, email: string, password: string, lastUpdateTime: int)

  datatype Client = Client(id: string, secret: string)

  datatype Grant = Grant(id: string, clientId: string)

  /** UserRepository, ClientRepository and GrantRepository, as lookups by id. */
  datatype Repositories = Repositories(users: map<string, User>, clients: map<string, Client>, grants: map<string, Grant>)

  /* ---------------------------------------------------------------------------
   * Credential binding
   * ------------------------------------------------------------------------- */

  /** One argument of `Objects.hash`: a String, or the user's last-update time. */
  datatype HashArg = StrArg(s: string) | TimeArg(t: int)

  /** The fingerprint tuple of a session cookie: username, email, password. */
  function CookieArgs(u: User): seq<HashArg>
  {
    [StrArg(u.username), StrArg(u.email), StrArg(u.password)]
  }

  /** The fingerprint tuple of a reset code: the cookie's, then the last-update time. */
  function ResetArgs(u: User): seq<HashArg>
  {
    CookieArgs(u) + [TimeArg(u.lastUpdateTime)]
  }

  /** The fingerprint tuple of codes and access/refresh tokens: client id, client secret. */
  function ClientArgs(clientId: string, clientSecret: string): seq<HashArg>
  {
    [StrArg(clientId), StrArg(clientSecret)]
  }

  /* ---------------------------------------------------------------------------
   * The engine and the claim schemas
   * ------------------------------------------------------------------------- */

  datatype Engine = Engine(
    codec: Codec,
    objectsHash: seq<HashArg> -> Int32,
    expireCookie: Int32,
    expireResetCode: Int32,
    expireAccessToken: Int32,
    expireRefreshToken: Int32,
    expireAuthorizationCode: Int32)

  /** Values of the claim `vt`. */
  const AccessTokenTag: int := 1
  const RefreshTokenTag: int := 2
  const AuthorizationCodeTag: int := 3
  const CookieTag: int := 4
  const ResetCodeTag: int := 5

  /** The two tokens bound to a user: same claim layout, different tag, TTL and fingerprint. */
  datatype UserTokenKind = ResetCode | Cookie
  {
    function Tag(): int
    {
      if ResetCode? then ResetCodeTag else CookieTag
    }

    function Ttl(e: Engine): int
    {
      if ResetCode? then e.expireResetCode else e.expireCookie
    }

    function Fingerprint(u: User): seq<HashArg>
    {
      if ResetCode? then ResetArgs(u) else CookieArgs(u)
    }
  }

  /** Claims of a cookie or reset code issued at `iat` for `u`. */
  function UserTokenClaims(e: Engine, kind: UserTokenKind, u: User, iat: int): ClaimSet
  {
    map["vt" := Num(kind.Tag()), "exp" := Num(iat + kind.Ttl(e)),
        "hash" := Num(e.objectsHash(kind.Fingerprint(u))), "user" := Text(u.id)]
  }

  /** Claims of an authorization code issued at `iat`. */
  function CodeClaims(e: Engine, clientId: string, clientSecret: string, grantId: string, redirectUri: string, iat: int): ClaimSet
  {
    map["vt" := Num(AuthorizationCodeTag), "exp" := Num(iat + e.expireAuthorizationCode),
        "h" := Num(e.objectsHash(ClientArgs(clientId, clientSecret))), "g" := Text(grantId), "r" := Text(redirectUri)]
  }

  /** Claims of an access token (`vt` 1) or a refresh token (`vt` 2) for a grant. */
  function GrantTokenClaims(tag: int, exp: int, h: int, grantId: string): ClaimSet
  {
    map["vt" := Num(tag), "exp" := Num(exp), "h" := Num(h), "grant" := Text(grantId)]
  }

  function AccessTokenClaims(e: Engine, clientId: string, clientSecret: string, grantId: string, iat: int): ClaimSet
  {
    GrantTokenClaims(AccessTokenTag, iat + e.expireAccessToken, e.objectsHash(ClientArgs(clientId, clientSecret)), grantId)
  }

  function RefreshTokenClaims(e: Engine, clientId: string, clientSecret: string, grantId: string, iat: int): ClaimSet
  {
    GrantTokenClaims(RefreshTokenTag, iat + e.expireRefreshToken, e.objectsHash(ClientArgs(clientId, clientSecret)), grantId)
  }

  /* ---------------------------------------------------------------------------
   * Issuance
   * ------------------------------------------------------------------------- */

  /** Fills a fresh claim map by successive puts and signs it. */
  method PrepareUserToken(e: Engine, kind: UserTokenKind, user: User, iat: int) returns (token: string)
    ensures token == e.codec.sign(UserTokenClaims(e, kind, user, iat))
    ensures e.codec.RoundTrips() ==> e.codec.verify(token) == Some(UserTokenClaims(e, kind, user, iat))
  {
    var hash := e.objectsHash(kind.Fingerprint(user));
    var exp := iat + kind.Ttl(e);
    var claims: ClaimSet := map[];
    claims := claims["vt" := Num(kind.Tag())];
    claims := claims["exp" := Num(exp)];
    claims := claims["hash" := Num(hash)];
    claims := claims["user" := Text(user.id)];
    token := e.codec.sign(claims);
  }

  method PrepareResetCode(e: Engine, user: User, iat: int) returns (token: string)
    ensures token == e.codec.sign(UserTokenClaims(e, ResetCode, user, iat))
    ensures e.codec.RoundTrips() ==> e.codec.verify(token) == Some(UserTokenClaims(e, ResetCode, user, iat))
  {
    token := PrepareUserToken(e, ResetCode, user, iat);
  }

  method PrepareCookie(e: Engine, user: User, iat: int) returns (token: string)
    ensures token == e.codec.sign(UserTokenClaims(e, Cookie, user, iat))
    ensures e.codec.RoundTrips() ==> e.codec.verify(token) == Some(UserTokenClaims(e, Cookie, user, iat))
  {
    token := PrepareUserToken(e, Cookie, user, iat);
  }

  method PrepareCode(e: Engine, clientId: string, clientSecret: string, grantId: string, redirectUri: string, iat: int)
    returns (code: string)
    ensures code == e.codec.sign(CodeClaims(e, clientId, clientSecret, grantId, redirectUri, iat))
    ensures e.codec.RoundTrips() ==> e.codec.verify(code) == Some(CodeClaims(e, clientId, clientSecret, grantId, redirectUri, iat))
  {
    var hash := e.objectsHash(ClientArgs(clientId, clientSecret));
    var exp := iat + e.expireAuthorizationCode;
    var claims: ClaimSet := map[];
    claims := claims["vt" := Num(AuthorizationCodeTag)];
    claims := claims["exp" := Num(exp)];
    claims := claims["h" := Num(hash)];
    claims := claims["g" := Text(grantId)];
    claims := claims["r" := Text(redirectUri)];
    code := e.codec.sign(claims);
  }

  /** The token response of section 5.1 of RFC 6749. */
  datatype Token = Token(accessToken: string, refreshToken: string, tokenType: string, expiresIn: int, scope: string)

  /**
   * The response's scope: empty for a null list, otherwise the list joined with spaces;
   * a list of scope tokens can be read back from it.
   */
  function ScopeString(scopes: Option<seq<string>>): (r: string)
    ensures scopes.None? ==> r == ""
    ensures scopes.Some? && ScopeText.ScopeList(scopes.value) ==> ScopeText.Split(r) == scopes.value
  {
    match scopes
    case None => ""
    case Some(xs) =>
      if ScopeText.ScopeList(xs) then ScopeText.SplitJoin(xs); ScopeText.Join(xs)
      else ScopeText.Join(xs)
  }

  method PrepareToken(e: Engine, clientId: string, clientSecret: string, grantId: string, scopes: Option<seq<string>>, iat: int)
    returns (t: Token)
    ensures t.accessToken == e.codec.sign(AccessTokenClaims(e, clientId, clientSecret, grantId, iat))
    ensures t.refreshToken == e.codec.sign(RefreshTokenClaims(e, clientId, clientSecret, grantId, iat))
    ensures t.tokenType == "bearer" && t.expiresIn == e.expireAccessToken
    ensures scopes.None? ==> t.scope == ""
    ensures scopes.Some? ==> t.scope == ScopeText.Join(scopes.value)
    ensures scopes.Some? && ScopeText.ScopeList(scopes.value) ==> ScopeText.Split(t.scope) == scopes.value
  {
    var hash := e.objectsHash(ClientArgs(clientId, clientSecret));
    var exp := iat + e.expireAccessToken;
    var claims: ClaimSet := map[];
    claims := claims["vt" := Num(AccessTokenTag)];
    claims := claims["exp" := Num(exp)];
    claims := claims["h" := Num(hash)];
    claims := claims["grant" := Text(grantId)];
    var tokenA := e.codec.sign(claims);

    var claimsR: ClaimSet := map[];
    var expR := iat + e.expireRefreshToken;
    claimsR := claimsR["vt" := Num(RefreshTokenTag)];
    claimsR := claimsR["exp" := Num(expR)];
    claimsR := claimsR["h" := Num(hash)];
    claimsR := claimsR["grant" := Text(grantId)];
    var tokenR := e.codec.sign(claimsR);

    var scope := ScopeString(scopes);
    t := Token(tokenA, tokenR, "bearer", e.expireAccessToken, scope);
  }

  /* ---------------------------------------------------------------------------
   * Validation
   * ------------------------------------------------------------------------- */

  /** Steps 1 and 2 of every validator: null input, then signature verification. */
  function Decoded(e: Engine, token: Option<string>): (r: Option<ClaimSet>)
    ensures token.None? ==> r.None?
  {
    if token.None? then None else e.codec.verify(token.value)
  }

  /** The claim `exp` is readable and the current second is not past it (`exp < now` rejects). */
  predicate Unexpired(c: ClaimSet, now: int)
  {
    IntClaim(c, "exp").Some? && now <= IntClaim(c, "exp").value
  }

  /** validateResetCode and validateCookie: the shared guard chain of a user-bound token. */
  function ValidateUserToken(e: Engine, kind: UserTokenKind, token: Option<string>, now: int, users: map<string, User>)
    : (r: Option<User>)
    ensures token.None? ==> r.None?
    ensures r.Some? ==>
      && Decoded(e, token).Some?
      && var c := Decoded(e, token).value;
      && IntClaim(c, "vt") == Some(kind.Tag())
      && Unexpired(c, now)
      && StrClaim(c, "user").Some?
      && StrClaim(c, "user").value in users
      && r.value == users[StrClaim(c, "user").value]
      && IntClaim(c, "hash") == Some(e.objectsHash(kind.Fingerprint(r.value)))
  {
    match Decoded(e, token)
    case None => None
    case Some(claims) =>
      if IntClaim(claims, "vt") != Some(kind.Tag()) then None
      else if IntClaim(claims, "exp").None? || IntClaim(claims, "exp").value < now then None
      else
        var userId := StrClaim(claims, "user");
        if userId.None? || userId.value !in users then None
        else
          var user := users[userId.value];
          if IntClaim(claims, "hash") != Some(e.objectsHash(kind.Fingerprint(user))) then None
          else Some(user)
  }

  function ValidateResetCode(e: Engine, resetCode: Option<string>, now: int, users: map<string, User>): (r: Option<User>)
    ensures r.Some? ==> Decoded(e, resetCode).Some? && IntClaim(Decoded(e, resetCode).value, "vt") == Some(ResetCodeTag)
  {
    ValidateUserToken(e, ResetCode, resetCode, now, users)
  }

  function ValidateCookie(e: Engine, cookieValue: Option<string>, now: int, users: map<string, User>): (r: Option<User>)
    ensures r.Some? ==> Decoded(e, cookieValue).Some? && IntClaim(Decoded(e, cookieValue).value, "vt") == Some(CookieTag)
  {
    ValidateUserToken(e, Cookie, cookieValue, now, users)
  }

  /** validateCode: an authorization code, bound to its client and to the redirect URI (section 4.1.3 of RFC 6749). */
  function ValidateCode(e: Engine, code: Option<string>, redirectUri: Option<string>, now: int, repos: Repositories)
    : (r: Option<Grant>)
    ensures code.None? || redirectUri.None? ==> r.None?
    ensures r.Some? ==>
      && Decoded(e, code).Some?
      && var c := Decoded(e, code).value;
      && IntClaim(c, "vt") == Some(AuthorizationCodeTag)
      && Unexpired(c, now)
      && StrClaim(c, "g").Some?
      && StrClaim(c, "g").value in repos.grants
      && r.value == repos.grants[StrClaim(c, "g").value]
      && r.value.clientId in repos.clients
      && var client := repos.clients[r.value.clientId];
      && IntClaim(c, "h") == Some(e.objectsHash(ClientArgs(client.id, client.secret)))
      && "r" in c && c["r"] == Text(redirectUri.value)
  {
    if code.None? || redirectUri.None? then None
    else match Decoded(e, code)
    case None => None
    case Some(claims) =>
      if IntClaim(claims, "vt") != Some(AuthorizationCodeTag) then None
      else if IntClaim(claims, "exp").None? || IntClaim(claims, "exp").value < now then None
      else
        var grantId := StrClaim(claims, "g");
        if grantId.None? || grantId.value !in repos.grants then None
        else
          var grant := repos.grants[grantId.value];
          var receivedHash := IntClaim(claims, "h");
          if receivedHash.None? || grant.clientId !in repos.clients then None
          else
            var client := repos.clients[grant.clientId];
            if receivedHash.value != e.objectsHash(ClientArgs(client.id, client.secret)) then None
            else if !("r" in claims && claims["r"] == Text(redirectUri.value)) then None
            else Some(grant)
  }

  datatype TokenStatus = Invalid | ValidAccess | ValidRefresh

  /** getTokenStatus: the combined access/refresh validator. */
  function GetTokenStatus(e: Engine, accessToken: Option<string>, now: int, repos: Repositories)
    : (r: (Option<Grant>, TokenStatus))
    ensures r.0.None? <==> r.1 == Invalid
    ensures accessToken.None? ==> r.1 == Invalid
    ensures r.1 != Invalid ==>
      && Decoded(e, accessToken).Some?
      && var c := Decoded(e, accessToken).value;
      && IntClaim(c, "vt") == Some(if r.1 == ValidAccess then AccessTokenTag else RefreshTokenTag)
      && Unexpired(c, now)
      && StrClaim(c, "grant").Some?
      && StrClaim(c, "grant").value in repos.grants
      && r.0.value == repos.grants[StrClaim(c, "grant").value]
      && r.0.value.clientId in repos.clients
      && var client := repos.clients[r.0.value.clientId];
      && IntClaim(c, "h") == Some(e.objectsHash(ClientArgs(client.id, client.secret)))
  {
    match Decoded(e, accessToken)
    case None => (None, Invalid)
    case Some(claims) =>
      var tag := IntClaim(claims, "vt");
      if tag.None? || (tag.value != AccessTokenTag && tag.value != RefreshTokenTag) then (None, Invalid)
      else if IntClaim(claims, "exp").None? || IntClaim(claims, "exp").value < now then (None, Invalid)
      else
        var grantId := StrClaim(claims, "grant");
        if grantId.None? || grantId.value !in repos.grants then (None, Invalid)
        else
          var grant := repos.grants[grantId.value];
          if grant.clientId !in repos.clients then (None, Invalid)
          else
            var client := repos.clients[grant.clientId];
            if IntClaim(claims, "h") != Some(e.objectsHash(ClientArgs(client.id, client.secret))) then (None, Invalid)
            else if tag.value == AccessTokenTag then (Some(grant), ValidAccess)
            else (Some(grant), ValidRefresh)
  }
}
