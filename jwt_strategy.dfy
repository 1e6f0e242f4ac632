/**
 * Access-token authentication of apps/backend/src/auth/strategies/jwt.strategy.ts:
 * the token is taken from the `Authorization: Bearer` header, else from the
 * `access_token` cookie; it must verify (signature and expiry); and it must
 * equal the value stored under `accessToken:<sub>`, so that logout and
 * re-issue revoke it before it expires.
 */
module JwtStrategy {
  import opened Wrappers
  import opened Jwt
  import opened Redis
  import Auth

  /**
   * What the strategy sees of a request: the token passport-jwt's
   * `fromAuthHeaderAsBearerToken` finds in the Authorization header (that
   * parser is library code, kept abstract), and the `access_token` cookie.
   */
  datatype Request = Request(bearer: Option<string>, accessTokenCookie: Option<string>)

  /** JavaScript truthiness of an optional string: present and non-empty. */
  predicate Truthy(s: Option<string>) {
    s.Some? && |s.value| > 0
  }

  /** `fromAuthHeaderAsBearerToken()(req) || req.cookies?.access_token`: header first, cookie only when the header gives nothing. */
  function ExtractToken(req: Request): (token: Option<string>)
    ensures Truthy(req.bearer) ==> token == req.bearer
    ensures !Truthy(req.bearer) ==> token == req.accessTokenCookie
  {
    if Truthy(req.bearer) then req.bearer else req.accessTokenCookie
  }

  /** The principal attached to an authenticated request. */
  datatype Principal = Principal(id: nat, username: string)

  /** `ServerError` is the TypeError of `payload.sub.toString()` on a payload without `sub`. */
  datatype Outcome = Authenticated(principal: Principal) | Unauthorized | ServerError

  /** `validate(req, payload)`: the session-store comparison, after passport verified the token. */
  function Validate(req: Request, payload: Claims, entries: Entries, now: int): (o: Outcome)
    ensures o.Authenticated? <==>
      Truthy(ExtractToken(req)) && payload.sub.Some? && Read(entries, Auth.AccessKey(payload.sub.value), now) == ExtractToken(req)
    ensures o.Authenticated? ==> o.principal == Principal(payload.sub.value, payload.username)
  {
    var token := ExtractToken(req);
    if !Truthy(token) then Unauthorized
    else if payload.sub.None? then ServerError
    else if Read(entries, Auth.AccessKey(payload.sub.value), now) != token then Unauthorized
    else Authenticated(Principal(payload.sub.value, payload.username))
  }

  /**
   * The whole strategy: extraction, then verification with
   * `ignoreExpiration: false` (a missing, forged or expired token is
   * Unauthorized), then `validate`.
   */
  function Authenticate(jwt: JwtService, req: Request, entries: Entries, now: int): (o: Outcome)
    ensures o.Authenticated? <==>
      && Truthy(ExtractToken(req))
      && jwt.verify(ExtractToken(req).value, now).Some?
      && var c := jwt.verify(ExtractToken(req).value, now).value;
         && c.sub.Some?
         && Read(entries, Auth.AccessKey(c.sub.value), now) == ExtractToken(req)
    ensures o.Authenticated? ==>
      var c := jwt.verify(ExtractToken(req).value, now).value;
      o.principal == Principal(c.sub.value, c.username)
  {
    var token := ExtractToken(req);
    if !Truthy(token) then Unauthorized
    else
      match jwt.verify(token.value, now)
      case None => Unauthorized
      case Some(payload) => Validate(req, payload, entries, now)
  }
}
