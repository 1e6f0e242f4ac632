/**
 * The hand-written guard of apps/backend/src/auth/auth.guard.ts. It splits
 * the Authorization header on single spaces and takes the second field when
 * the first is exactly `Bearer` (the scheme of section 2.1 of RFC 6750,
 * matched case-sensitively here), and falls back to the `access_token`
 * cookie otherwise. `AuthService.validateToken` and `decodeToken` are not
 * part of this model and are parameters.
 */
module AuthGuard {
  import opened Wrappers
  import opened Strings
  import opened Jwt

  const Scheme: string := "Bearer"

  /**
   * `extractTokenFromHeader`: `[type, token] = authorization?.split(' ') ?? []`;
   * `token` when `type === 'Bearer'`, else the `access_token` cookie.
   */
  function ExtractTokenFromHeader(authorization: Option<string>, cookies: map<string, string>): (token: Option<string>)
    ensures authorization.Some? && Split(authorization.value, ' ')[0] == Scheme ==>
      token == (if |Split(authorization.value, ' ')| > 1 then Some(Split(authorization.value, ' ')[1]) else None)
    ensures !(authorization.Some? && Split(authorization.value, ' ')[0] == Scheme) ==>
      token == Lookup(cookies, "access_token")
  {
    var parts := if authorization.Some? then Split(authorization.value, ' ') else [];
    if |parts| > 0 && parts[0] == Scheme then
      (if |parts| > 1 then Some(parts[1]) else None)
    else
      Lookup(cookies, "access_token")
  }

  /** `Bearer <t>` with a space-free `t` yields `t`, whatever the cookie says. */
  lemma BearerHeaderYieldsToken(t: string, cookies: map<string, string>)
    requires ' ' !in t
    ensures ExtractTokenFromHeader(Some(Scheme + " " + t), cookies) == Some(t)
  {
    assert ' ' !in Scheme;
    SplitAfterHead(Scheme, ' ', t);
    SplitWithoutSeparator(t, ' ');
  }

  /** Only the second field counts: anything after a further space is ignored. */
  lemma ExtraFieldsIgnored(t: string, rest: string, cookies: map<string, string>)
    requires ' ' !in t
    ensures ExtractTokenFromHeader(Some(Scheme + " " + t + " " + rest), cookies) == Some(t)
  {
    assert ' ' !in Scheme;
    assert Scheme + " " + t + " " + rest == Scheme + [' '] + (t + [' '] + rest);
    SplitAfterHead(Scheme, ' ', t + [' '] + rest);
    SplitAfterHead(t, ' ', rest);
  }

  /** A header of exactly `Bearer` gives no token, and the cookie is not consulted. */
  lemma BareSchemeYieldsNothing(cookies: map<string, string>)
    ensures ExtractTokenFromHeader(Some(Scheme), cookies) == None
  {
    SplitWithoutSeparator(Scheme, ' ');
  }

  /** A double space after `Bearer` makes the token the empty string. */
  lemma DoubleSpaceYieldsEmptyToken(rest: string, cookies: map<string, string>)
    ensures ExtractTokenFromHeader(Some(Scheme + "  " + rest), cookies) == Some("")
  {
    assert ' ' !in Scheme;
    assert Scheme + "  " + rest == Scheme + [' '] + ("" + [' '] + rest);
    SplitAfterHead(Scheme, ' ', "" + [' '] + rest);
    SplitAfterHead("", ' ', rest);
  }

  /** Another first word, `bearer` included, falls back to the cookie. */
  lemma OtherSchemeFallsBackToCookie(header: string, cookies: map<string, string>)
    requires Split(header, ' ')[0] != Scheme
    ensures ExtractTokenFromHeader(Some(header), cookies) == Lookup(cookies, "access_token")
  {
  }

  /** The lower-case scheme is a different first word. */
  lemma LowerCaseSchemeIsNotBearer(t: string, cookies: map<string, string>)
    ensures ExtractTokenFromHeader(Some("bearer " + t), cookies) == Lookup(cookies, "access_token")
  {
    assert ' ' !in "bearer";
    SplitAfterHead("bearer", ' ', t);
  }

  datatype GuardOutcome = Allowed | Unauthorized

  /** The parts of the HTTP request the guard reads and the one it writes. */
  class HttpRequest {
    const authorization: Option<string>
    const cookies: map<string, string>
    var user: Option<Claims>

    constructor (authorization: Option<string>, cookies: map<string, string>)
      ensures this.authorization == authorization && this.cookies == cookies && user == None
    {
      this.authorization := authorization;
      this.cookies := cookies;
      user := None;
    }
  }

  /**
   * `canActivate`: Unauthorized for a missing or empty token or one
   * `validateToken` refuses; otherwise `request.user` becomes the decoded
   * payload and the request is let through.
   */
  method CanActivate(request: HttpRequest, validateToken: string -> bool, decodeToken: string -> Claims)
    returns (r: GuardOutcome)
    modifies request
    ensures var token := ExtractTokenFromHeader(request.authorization, request.cookies);
      && (r == Allowed <==> token.Some? && |token.value| > 0 && validateToken(token.value))
      && request.user == (if r == Allowed then Some(decodeToken(token.value)) else old(request.user))
  {
    var token := ExtractTokenFromHeader(request.authorization, request.cookies);
    if token.None? || |token.value| == 0 {
      return Unauthorized;
    }
    var isValid := validateToken(token.value);
    if !isValid {
      return Unauthorized;
    }
    var payload := decodeToken(token.value);
    request.user := Some(payload);
    r := Allowed;
  }
}
