/**
 * What the token engine's validators accept and reject: issued tokens round-trip,
 * the type tag keeps the purposes apart, expiry is inclusive of the last second,
 * and a change of the bound credentials revokes a token.
 */
module JwtProperties {
  import opened Wrappers
  import opened Claims
  import opened JwtUtils

  /* ---------------------------------------------------------------------------
   * Reading back what was issued
   * ------------------------------------------------------------------------- */

  lemma UserTokenClaimsRead(e: Engine, kind: UserTokenKind, u: User, iat: int)
    requires IsInt32(iat + kind.Ttl(e))
    ensures var c := UserTokenClaims(e, kind, u, iat);
      && IntClaim(c, "vt") == Some(kind.Tag())
      && IntClaim(c, "exp") == Some(iat + kind.Ttl(e))
      && StrClaim(c, "user") == Some(u.id)
      && IntClaim(c, "hash") == Some(e.objectsHash(kind.Fingerprint(u)))
  {
  }

  /**
   * A cookie or reset code issued for `u` at `iat` is accepted at `now` exactly when
   * `now` is not past its `exp` and the repository's entry for `u.id` still has the
   * fingerprint `u` had; the user returned is that entry.
   */
  lemma {:induction false} UserTokenAcceptance(e: Engine, kind: UserTokenKind, u: User, iat: int, now: int, users: map<string, User>)
    requires e.codec.RoundTrips()
    requires IsInt32(iat + kind.Ttl(e))
    ensures ValidateUserToken(e, kind, Some(e.codec.sign(UserTokenClaims(e, kind, u, iat))), now, users)
      == if now <= iat + kind.Ttl(e) && u.id in users
            && e.objectsHash(kind.Fingerprint(users[u.id])) == e.objectsHash(kind.Fingerprint(u))
         then Some(users[u.id]) else None
  {
    var c := UserTokenClaims(e, kind, u, iat);
    assert e.codec.verify(e.codec.sign(c)) == Some(c);
    UserTokenClaimsRead(e, kind, u, iat);
  }

  /** Round trip: an unexpired reset code for an unchanged user validates to that user. */
  lemma ResetCodeRoundTrip(e: Engine, u: User, iat: int, now: int, users: map<string, User>)
    requires e.codec.RoundTrips()
    requires IsInt32(iat + e.expireResetCode) && now <= iat + e.expireResetCode
    requires u.id in users && users[u.id] == u
    ensures ValidateResetCode(e, Some(e.codec.sign(UserTokenClaims(e, ResetCode, u, iat))), now, users) == Some(u)
  {
    UserTokenAcceptance(e, ResetCode, u, iat, now, users);
  }

  /** Round trip: an unexpired cookie for an unchanged user validates to that user. */
  lemma CookieRoundTrip(e: Engine, u: User, iat: int, now: int, users: map<string, User>)
    requires e.codec.RoundTrips()
    requires IsInt32(iat + e.expireCookie) && now <= iat + e.expireCookie
    requires u.id in users && users[u.id] == u
    ensures ValidateCookie(e, Some(e.codec.sign(UserTokenClaims(e, Cookie, u, iat))), now, users) == Some(u)
  {
    UserTokenAcceptance(e, Cookie, u, iat, now, users);
  }

  /**
   * Expiry is inclusive: a cookie or reset code is still accepted in the second named
   * by its `exp` and rejected from the next second on.
   */
  lemma UserTokenExpiryBoundary(e: Engine, kind: UserTokenKind, u: User, iat: int, users: map<string, User>)
    requires e.codec.RoundTrips()
    requires IsInt32(iat + kind.Ttl(e))
    requires u.id in users && users[u.id] == u
    ensures var token := Some(e.codec.sign(UserTokenClaims(e, kind, u, iat)));
      && ValidateUserToken(e, kind, token, iat + kind.Ttl(e), users) == Some(u)
      && ValidateUserToken(e, kind, token, iat + kind.Ttl(e) + 1, users) == None
  {
    UserTokenAcceptance(e, kind, u, iat, iat + kind.Ttl(e), users);
    UserTokenAcceptance(e, kind, u, iat, iat + kind.Ttl(e) + 1, users);
  }

  /**
   * An `exp` that does not fit a Java int cannot be read back by the `(int)` cast,
   * so such a token is rejected at every time.
   */
  lemma UserTokenBeyondInt32Rejected(e: Engine, kind: UserTokenKind, u: User, iat: int, now: int, users: map<string, User>)
    requires e.codec.RoundTrips()
    requires !IsInt32(iat + kind.Ttl(e))
    ensures ValidateUserToken(e, kind, Some(e.codec.sign(UserTokenClaims(e, kind, u, iat))), now, users) == None
  {
    var c := UserTokenClaims(e, kind, u, iat);
    assert e.codec.verify(e.codec.sign(c)) == Some(c);
    assert c["exp"] == Num(iat + kind.Ttl(e));
  }

  /* ---------------------------------------------------------------------------
   * Credential binding: revocation by change
   * ------------------------------------------------------------------------- */

  /** The cookie's fingerprint tuple changes exactly when username, email or password changes. */
  lemma CookieArgsChange(u: User, v: User)
    ensures CookieArgs(u) == CookieArgs(v) <==> (u.username == v.username && u.email == v.email && u.password == v.password)
  {
    if CookieArgs(u) == CookieArgs(v) {
      assert CookieArgs(u)[0] == CookieArgs(v)[0] && CookieArgs(u)[1] == CookieArgs(v)[1] && CookieArgs(u)[2] == CookieArgs(v)[2];
    }
  }

  /** The reset code's fingerprint tuple also changes when only the last-update time changes. */
  lemma ResetArgsChange(u: User, v: User)
    ensures ResetArgs(u) == ResetArgs(v) <==> (CookieArgs(u) == CookieArgs(v) && u.lastUpdateTime == v.lastUpdateTime)
  {
    if ResetArgs(u) == ResetArgs(v) {
      assert ResetArgs(u)[..3] == CookieArgs(u) && ResetArgs(v)[..3] == CookieArgs(v);
      assert ResetArgs(u)[3] == ResetArgs(v)[3];
    }
  }

  /**
   * A user whose stored record now hashes differently from the record the token was
   * issued for is refused, whatever the time.
   */
  lemma CredentialChangeRevokes(e: Engine, kind: UserTokenKind, u: User, iat: int, now: int, users: map<string, User>)
    requires e.codec.RoundTrips()
    requires u.id in users
    requires e.objectsHash(kind.Fingerprint(users[u.id])) != e.objectsHash(kind.Fingerprint(u))
    ensures ValidateUserToken(e, kind, Some(e.codec.sign(UserTokenClaims(e, kind, u, iat))), now, users) == None
  {
    if IsInt32(iat + kind.Ttl(e)) {
      UserTokenAcceptance(e, kind, u, iat, now, users);
    } else {
      UserTokenBeyondInt32Rejected(e, kind, u, iat, now, users);
    }
  }

  /**
   * A change of the last-update time alone keeps an unexpired cookie valid (it now
   * yields the updated record), while a reset code issued before the change is refused
   * as soon as the new reset fingerprint differs.
   */
  lemma LastUpdateOnlyChange(e: Engine, u: User, u': User, iat: int, now: int, users: map<string, User>)
    requires e.codec.RoundTrips()
    requires u'.id == u.id && u'.username == u.username && u'.email == u.email && u'.password == u.password
    requires u.id in users && users[u.id] == u'
    requires IsInt32(iat + e.expireCookie) && now <= iat + e.expireCookie
    ensures ValidateCookie(e, Some(e.codec.sign(UserTokenClaims(e, Cookie, u, iat))), now, users) == Some(u')
    ensures e.objectsHash(ResetArgs(u')) != e.objectsHash(ResetArgs(u))
      ==> ValidateResetCode(e, Some(e.codec.sign(UserTokenClaims(e, ResetCode, u, iat))), now, users) == None
  {
    CookieArgsChange(u, u');
    UserTokenAcceptance(e, Cookie, u, iat, now, users);
    if e.objectsHash(ResetArgs(u')) != e.objectsHash(ResetArgs(u)) {
      CredentialChangeRevokes(e, ResetCode, u, iat, now, users);
    }
  }

  /* ---------------------------------------------------------------------------
   * Type-tag isolation
   * ------------------------------------------------------------------------- */

  /**
   * No token is accepted by two purposes: whatever the time, repositories and redirect
   * URI, at most one of the four validators accepts a given token.
   */
  lemma TokenPurposesDisjoint(e: Engine, token: Option<string>, now: int, repos: Repositories, redirectUri: Option<string>)
    ensures ValidateCookie(e, token, now, repos.users).Some? ==> ValidateResetCode(e, token, now, repos.users).None?
    ensures ValidateCookie(e, token, now, repos.users).Some? || ValidateResetCode(e, token, now, repos.users).Some?
      ==> ValidateCode(e, token, redirectUri, now, repos).None? && GetTokenStatus(e, token, now, repos).1 == Invalid
    ensures ValidateCode(e, token, redirectUri, now, repos).Some? ==> GetTokenStatus(e, token, now, repos).1 == Invalid
  {
  }

  /* ---------------------------------------------------------------------------
   * Authorization codes
   * ------------------------------------------------------------------------- */

  /**
   * An authorization code issued at `iat` for (client id, secret, grant, redirect URI `r`)
   * is accepted against `redirectUri` at `now` exactly when it has not expired, the grant
   * still exists and its client still hashes as at issuance, and `redirectUri` is `r`.
   */
  lemma {:induction false} CodeAcceptance(e: Engine, clientId: string, clientSecret: string, grantId: string, r: string,
                                         iat: int, now: int, repos: Repositories, redirectUri: string)
    requires e.codec.RoundTrips()
    requires IsInt32(iat + e.expireAuthorizationCode)
    ensures ValidateCode(e, Some(e.codec.sign(CodeClaims(e, clientId, clientSecret, grantId, r, iat))), Some(redirectUri), now, repos)
      == if && now <= iat + e.expireAuthorizationCode
            && grantId in repos.grants
            && repos.grants[grantId].clientId in repos.clients
            && var client := repos.clients[repos.grants[grantId].clientId];
            && e.objectsHash(ClientArgs(client.id, client.secret)) == e.objectsHash(ClientArgs(clientId, clientSecret))
            && redirectUri == r
         then Some(repos.grants[grantId]) else None
  {
    var c := CodeClaims(e, clientId, clientSecret, grantId, r, iat);
    assert e.codec.verify(e.codec.sign(c)) == Some(c);
    assert c["vt"] == Num(AuthorizationCodeTag) && c["exp"] == Num(iat + e.expireAuthorizationCode);
    assert c["g"] == Text(grantId) && c["r"] == Text(r);
    assert c["h"] == Num(e.objectsHash(ClientArgs(clientId, clientSecret)));
  }

  /** Redirect-URI binding: a code issued for `r` is refused for any other redirect URI. */
  lemma CodeRedirectBinding(e: Engine, clientId: string, clientSecret: string, grantId: string, r: string,
                            iat: int, now: int, repos: Repositories, redirectUri: string)
    requires e.codec.RoundTrips()
    requires IsInt32(iat + e.expireAuthorizationCode)
    requires redirectUri != r
    ensures ValidateCode(e, Some(e.codec.sign(CodeClaims(e, clientId, clientSecret, grantId, r, iat))), Some(redirectUri), now, repos) == None
  {
    CodeAcceptance(e, clientId, clientSecret, grantId, r, iat, now, repos, redirectUri);
  }

  /** Round trip: an unexpired code for grant `g` of client (id, secret) validates to `g` against its own redirect URI. */
  lemma CodeRoundTrip(e: Engine, client: Client, g: Grant, r: string, iat: int, now: int, repos: Repositories)
    requires e.codec.RoundTrips()
    requires IsInt32(iat + e.expireAuthorizationCode) && now <= iat + e.expireAuthorizationCode
    requires g.id in repos.grants && repos.grants[g.id] == g
    requires g.clientId in repos.clients && repos.clients[g.clientId] == client
    ensures ValidateCode(e, Some(e.codec.sign(CodeClaims(e, client.id, client.secret, g.id, r, iat))), Some(r), now, repos) == Some(g)
  {
    CodeAcceptance(e, client.id, client.secret, g.id, r, iat, now, repos, r);
  }

  /* ---------------------------------------------------------------------------
   * Access and refresh tokens
   * ------------------------------------------------------------------------- */

  /** What getTokenStatus answers for a grant token with tag `tag` and expiry `exp`. */
  lemma {:induction false} GrantTokenStatus(e: Engine, tag: int, exp: int, h: Int32, grantId: string, now: int, repos: Repositories)
    requires e.codec.RoundTrips()
    requires tag == AccessTokenTag || tag == RefreshTokenTag
    requires IsInt32(exp)
    ensures GetTokenStatus(e, Some(e.codec.sign(GrantTokenClaims(tag, exp, h, grantId))), now, repos)
      == if && now <= exp
            && grantId in repos.grants
            && repos.grants[grantId].clientId in repos.clients
            && var client := repos.clients[repos.grants[grantId].clientId];
            && e.objectsHash(ClientArgs(client.id, client.secret)) == h
         then (Some(repos.grants[grantId]), if tag == AccessTokenTag then ValidAccess else ValidRefresh)
         else (None, Invalid)
  {
    var c := GrantTokenClaims(tag, exp, h, grantId);
    assert e.codec.verify(e.codec.sign(c)) == Some(c);
    assert c["vt"] == Num(tag) && c["exp"] == Num(exp) && c["h"] == Num(h) && c["grant"] == Text(grantId);
  }

  /**
   * Disjointness of the pair: the access token of a response is never reported as a
   * refresh token and the refresh token never as an access token.
   */
  lemma AccessRefreshDisjoint(e: Engine, clientId: string, clientSecret: string, grantId: string, iat: int, now: int, repos: Repositories)
    requires e.codec.RoundTrips()
    requires IsInt32(iat + e.expireAccessToken) && IsInt32(iat + e.expireRefreshToken)
    ensures GetTokenStatus(e, Some(e.codec.sign(AccessTokenClaims(e, clientId, clientSecret, grantId, iat))), now, repos).1 != ValidRefresh
    ensures GetTokenStatus(e, Some(e.codec.sign(RefreshTokenClaims(e, clientId, clientSecret, grantId, iat))), now, repos).1 != ValidAccess
  {
    var h := e.objectsHash(ClientArgs(clientId, clientSecret));
    GrantTokenStatus(e, AccessTokenTag, iat + e.expireAccessToken, h, grantId, now, repos);
    GrantTokenStatus(e, RefreshTokenTag, iat + e.expireRefreshToken, h, grantId, now, repos);
  }

  /**
   * For grant `g` of `client`, an access token issued at `iat` is VALID_ACCESS until
   * iat + expireAccessToken and INVALID after.
   */
  lemma AccessTokenLifetime(e: Engine, client: Client, g: Grant, iat: int, now: int, repos: Repositories)
    requires e.codec.RoundTrips()
    requires IsInt32(iat + e.expireAccessToken)
    requires g.id in repos.grants && repos.grants[g.id] == g
    requires g.clientId in repos.clients && repos.clients[g.clientId] == client
    ensures GetTokenStatus(e, Some(e.codec.sign(AccessTokenClaims(e, client.id, client.secret, g.id, iat))), now, repos)
      == if now <= iat + e.expireAccessToken then (Some(g), ValidAccess) else (None, Invalid)
  {
    var h := e.objectsHash(ClientArgs(client.id, client.secret));
    GrantTokenStatus(e, AccessTokenTag, iat + e.expireAccessToken, h, g.id, now, repos);
  }

  /**
   * Once the access token has expired, the refresh token issued with it is still
   * VALID_REFRESH until iat + expireRefreshToken.
   */
  lemma RefreshOutlivesAccess(e: Engine, client: Client, g: Grant, iat: int, now: int, repos: Repositories)
    requires e.codec.RoundTrips()
    requires IsInt32(iat + e.expireRefreshToken)
    requires iat + e.expireAccessToken < now <= iat + e.expireRefreshToken
    requires g.id in repos.grants && repos.grants[g.id] == g
    requires g.clientId in repos.clients && repos.clients[g.clientId] == client
    ensures GetTokenStatus(e, Some(e.codec.sign(RefreshTokenClaims(e, client.id, client.secret, g.id, iat))), now, repos)
      == (Some(g), ValidRefresh)
  {
    var h := e.objectsHash(ClientArgs(client.id, client.secret));
    GrantTokenStatus(e, RefreshTokenTag, iat + e.expireRefreshToken, h, g.id, now, repos);
  }
}
