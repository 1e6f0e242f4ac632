/**
 * The token signer the backend registers once (apps/backend/src/auth/auth.module.ts):
 * one secret for every token, access and refresh alike. Signing and
 * verification (RFC 7519) are not interpreted: a `JwtService` is any pair of
 * functions, and `Sound` is all the model assumes of them.
 */
module Jwt {
  import opened Wrappers

  /**
   * What a verified token carries: the signed payload `{username, sub}` plus
   * the registered claims `iat` and `exp` (seconds). `sub` is optional because
   * verification returns whatever was signed.
   */
  datatype Claims = Claims(sub: Option<nat>, username: string, iat: int, exp: int)

  /** `sign(claims)` is the compact token; `verify(token, now)` checks signature and expiry. */
  datatype JwtService = JwtService(sign: Claims -> string, verify: (string, int) -> Option<Claims>)

  /** `expiresIn: '15m'`, also the lifetime of the access-token session entry. */
  const AccessTtl: int := 900
  /** `expiresIn: '7d'`, also the lifetime of the refresh-token session entry. */
  const RefreshTtl: int := 604800

  /**
   * What the model assumes of the signer: a token it signed verifies, until
   * its `exp`, to exactly the claims that were signed; verification accepts
   * only tokens the signer produced (nobody else holds the secret), decoding
   * them to the claims they were signed with, and never at or past their
   * `exp` (`ignoreExpiration: false`); and a compact token is never empty.
   */
  ghost predicate Sound(jwt: JwtService) {
    && (forall c: Claims, now: int :: now < c.exp ==> jwt.verify(jwt.sign(c), now) == Some(c))
    && (forall t: string, now: int :: jwt.verify(t, now).Some? ==>
          now < jwt.verify(t, now).value.exp && jwt.sign(jwt.verify(t, now).value) == t)
    && (forall c: Claims :: |jwt.sign(c)| > 0)
  }

  /** The claims `jwtService.sign({username, sub: id}, {expiresIn})` produces at time `now`. */
  function Payload(id: nat, username: string, now: int, ttl: int): (c: Claims)
    ensures c.sub == Some(id) && c.username == username && c.exp - c.iat == ttl
  {
    Claims(Some(id), username, now, now + ttl)
  }

  /** A sound signer never gives two different claim sets the same token. */
  lemma SignInjective(jwt: JwtService, c1: Claims, c2: Claims)
    requires Sound(jwt)
    requires jwt.sign(c1) == jwt.sign(c2)
    ensures c1 == c2
  {
    var t := if c1.exp < c2.exp then c1.exp - 1 else c2.exp - 1;
    assert jwt.verify(jwt.sign(c1), t) == Some(c1);
    assert jwt.verify(jwt.sign(c2), t) == Some(c2);
  }

  /**
   * The two tokens of one pair differ although one secret signs both: their
   * `exp` claims differ. The refresh endpoint relies on this to refuse an
   * access token, and the access check to refuse a refresh token.
   */
  lemma PairTokensDistinct(jwt: JwtService, id: nat, username: string, now: int)
    requires Sound(jwt)
    ensures jwt.sign(Payload(id, username, now, AccessTtl)) != jwt.sign(Payload(id, username, now, RefreshTtl))
  {
    if jwt.sign(Payload(id, username, now, AccessTtl)) == jwt.sign(Payload(id, username, now, RefreshTtl)) {
      SignInjective(jwt, Payload(id, username, now, AccessTtl), Payload(id, username, now, RefreshTtl));
    }
  }

  /**
   * Tokens signed in different seconds differ. Tokens signed in the same
   * second for the same user are identical: `iat` has a one-second grain.
   */
  lemma TokensOfDifferentSecondsDistinct(jwt: JwtService, id1: nat, name1: string, t1: int, id2: nat, name2: string, t2: int, ttl: int)
    requires Sound(jwt) && ttl > 0 && t1 != t2
    ensures jwt.sign(Payload(id1, name1, t1, ttl)) != jwt.sign(Payload(id2, name2, t2, ttl))
  {
    if jwt.sign(Payload(id1, name1, t1, ttl)) == jwt.sign(Payload(id2, name2, t2, ttl)) {
      SignInjective(jwt, Payload(id1, name1, t1, ttl), Payload(id2, name2, t2, ttl));
    }
  }
}
