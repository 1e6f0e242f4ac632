/**
 * How the issuing side (auth.service.ts) and the checking side
 * (jwt.strategy.ts, the refresh endpoint) fit together: the session store
 * decides which signed tokens are still good.
 */
module Sessions {
  import opened Wrappers
  import opened Jwt
  import opened Redis
  import opened Identity
  import opened Auth
  import S = JwtStrategy

  /** A request carrying `token` in the `Authorization: Bearer` header. */
  function BearerRequest(token: string): S.Request {
    S.Request(Some(token), None)
  }

  /** A freshly issued access token authenticates its user for the 900 seconds of its session entry. */
  lemma IssuedAccessTokenAuthenticates(jwt: JwtService, entries: Entries, id: nat, username: string, now: int, t: int)
    requires Sound(jwt)
    requires now <= t < now + AccessTtl
    ensures var pair := PairFor(jwt, id, username, now);
      S.Authenticate(jwt, BearerRequest(pair.accessToken), Issue(entries, id, pair, now), t)
        == S.Authenticated(S.Principal(id, username))
  {
    var pair := PairFor(jwt, id, username, now);
    var c := Payload(id, username, now, AccessTtl);
    assert jwt.verify(jwt.sign(c), t) == Some(c);
    assert |pair.accessToken| > 0;
    ReadAfterWrite(Write(entries, AccessKey(id), pair.accessToken, AccessTtl, now), RefreshKey(id), pair.refreshToken, RefreshTtl, now, t);
    SessionKeysDistinct(id, id);
    OtherKeysUntouched(Write(entries, AccessKey(id), pair.accessToken, AccessTtl, now), RefreshKey(id), AccessKey(id), pair.refreshToken, RefreshTtl, now, t);
    ReadAfterWrite(entries, AccessKey(id), pair.accessToken, AccessTtl, now, t);
  }

  /** After logout no token whose `sub` is that user authenticates, however valid its signature. */
  lemma LogoutRevokesAccess(jwt: JwtService, entries: Entries, id: nat, req: S.Request, t: int)
    requires S.Truthy(S.ExtractToken(req))
    requires jwt.verify(S.ExtractToken(req).value, t).Some?
    requires jwt.verify(S.ExtractToken(req).value, t).value.sub == Some(id)
    ensures S.Authenticate(jwt, req, Revoke(entries, id), t) == S.Unauthorized
  {
  }

  /** After logout the user's refresh token no longer refreshes. */
  lemma LogoutRevokesRefresh(jwt: JwtService, users: seq<User>, entries: Entries, id: nat, token: string, t: int)
    requires jwt.verify(token, t).Some? && jwt.verify(token, t).value.sub == Some(id)
    ensures RefreshCheck(users, Revoke(entries, id), jwt, token, t).Err?
  {
  }

  /**
   * Issuing a second pair in a later second revokes the first access token:
   * it still verifies cryptographically, but the store holds another value.
   */
  lemma ReissueRevokesFirstAccessToken(jwt: JwtService, entries: Entries, id: nat, name1: string, t1: int, name2: string, t2: int, t: int)
    requires Sound(jwt) && t1 != t2
    ensures var first := PairFor(jwt, id, name1, t1);
      var after := Issue(Issue(entries, id, first, t1), id, PairFor(jwt, id, name2, t2), t2);
      S.Authenticate(jwt, BearerRequest(first.accessToken), after, t) == S.Unauthorized
  {
    var first := PairFor(jwt, id, name1, t1);
    var second := PairFor(jwt, id, name2, t2);
    var after := Issue(Issue(entries, id, first, t1), id, second, t2);
    var req := BearerRequest(first.accessToken);
    assert |first.accessToken| > 0;
    var v := jwt.verify(first.accessToken, t);
    if v.Some? {
      SignInjective(jwt, v.value, Payload(id, name1, t1, AccessTtl));
      TokensOfDifferentSecondsDistinct(jwt, id, name1, t1, id, name2, t2, AccessTtl);
      ReadAfterWrite(Write(Issue(entries, id, first, t1), AccessKey(id), second.accessToken, AccessTtl, t2), RefreshKey(id), second.refreshToken, RefreshTtl, t2, t);
      SessionKeysDistinct(id, id);
      OtherKeysUntouched(Write(Issue(entries, id, first, t1), AccessKey(id), second.accessToken, AccessTtl, t2), RefreshKey(id), AccessKey(id), second.refreshToken, RefreshTtl, t2, t);
      ReadAfterWrite(Issue(entries, id, first, t1), AccessKey(id), second.accessToken, AccessTtl, t2, t);
    }
  }

  /** The refresh token of a pair is refused as an access token, although the same secret signed it. */
  lemma RefreshTokenIsNotAnAccessToken(jwt: JwtService, entries: Entries, id: nat, username: string, now: int, t: int)
    requires Sound(jwt)
    ensures var pair := PairFor(jwt, id, username, now);
      S.Authenticate(jwt, BearerRequest(pair.refreshToken), Issue(entries, id, pair, now), t) != S.Authenticated(S.Principal(id, username))
  {
    var pair := PairFor(jwt, id, username, now);
    var v := jwt.verify(pair.refreshToken, t);
    assert |pair.refreshToken| > 0;
    if v.Some? {
      SignInjective(jwt, v.value, Payload(id, username, now, RefreshTtl));
      PairTokensDistinct(jwt, id, username, now);
      ReadAfterWrite(Write(entries, AccessKey(id), pair.accessToken, AccessTtl, now), RefreshKey(id), pair.refreshToken, RefreshTtl, now, t);
      SessionKeysDistinct(id, id);
      OtherKeysUntouched(Write(entries, AccessKey(id), pair.accessToken, AccessTtl, now), RefreshKey(id), AccessKey(id), pair.refreshToken, RefreshTtl, now, t);
      ReadAfterWrite(entries, AccessKey(id), pair.accessToken, AccessTtl, now, t);
    }
  }

  /** The access token of a pair is refused by the refresh endpoint. */
  lemma AccessTokenDoesNotRefresh(jwt: JwtService, users: seq<User>, entries: Entries, id: nat, username: string, now: int, t: int)
    requires Sound(jwt)
    ensures var pair := PairFor(jwt, id, username, now);
      RefreshCheck(users, Issue(entries, id, pair, now), jwt, pair.accessToken, t).Err?
  {
    var pair := PairFor(jwt, id, username, now);
    var v := jwt.verify(pair.accessToken, t);
    if v.Some? {
      SignInjective(jwt, v.value, Payload(id, username, now, AccessTtl));
      PairTokensDistinct(jwt, id, username, now);
      ReadAfterWrite(Write(entries, AccessKey(id), pair.accessToken, AccessTtl, now), RefreshKey(id), pair.refreshToken, RefreshTtl, now, t);
    }
  }

  /**
   * Rotation: once a refresh token has been used, it is refused from then
   * on, provided it was not signed in the very second of the refresh.
   */
  lemma UsedRefreshTokenIsRefused(jwt: JwtService, users: seq<User>, entries: Entries, token: string, now: int, t: int)
    requires Sound(jwt)
    requires RefreshCheck(users, entries, jwt, token, now).Ok?
    requires jwt.verify(token, now).value.iat != now
    ensures var user := RefreshCheck(users, entries, jwt, token, now).value;
      var rotated := Issue(entries, user.id, PairFor(jwt, user.id, user.username, now), now);
      RefreshCheck(users, rotated, jwt, token, t).Err?
  {
    var user := RefreshCheck(users, entries, jwt, token, now).value;
    var pair := PairFor(jwt, user.id, user.username, now);
    var rotated := Issue(entries, user.id, pair, now);
    var c := jwt.verify(token, now).value;
    var v := jwt.verify(token, t);
    if v.Some? {
      SignInjective(jwt, v.value, c);
      if pair.refreshToken == token {
        SignInjective(jwt, c, Payload(user.id, user.username, now, RefreshTtl));
      }
      ReadAfterWrite(Write(entries, AccessKey(user.id), pair.accessToken, AccessTtl, now), RefreshKey(user.id), pair.refreshToken, RefreshTtl, now, t);
    }
  }

  /**
   * The exception: a refresh in the same second as the token's issue signs
   * a byte-identical pair (`iat` has a one-second grain), so the presented
   * refresh token stays stored and can be replayed.
   */
  lemma SameSecondRefreshKeepsToken(jwt: JwtService, users: seq<User>, entries: Entries, user: User, now: int)
    requires Sound(jwt) && user in users && user.id != 0
    ensures var pair := PairFor(jwt, user.id, user.username, now);
      var issued := Issue(entries, user.id, pair, now);
      && RefreshCheck(users, issued, jwt, pair.refreshToken, now).Ok?
      && Issue(issued, user.id, pair, now) == issued
  {
    var pair := PairFor(jwt, user.id, user.username, now);
    assert jwt.verify(pair.refreshToken, now) == Some(Payload(user.id, user.username, now, RefreshTtl));
  }
}
