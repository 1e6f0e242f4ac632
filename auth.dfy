/**
 * The token lifecycle of apps/backend/src/auth/auth.service.ts. Each user
 * has at most two session entries, `accessToken:<id>` (900 s) and
 * `refreshToken:<id>` (604800 s), holding the one pair currently valid for
 * that user. Issuing a pair overwrites both, logout deletes both, and a
 * refresh succeeds only for the refresh token currently stored, then
 * issues a new pair. bcrypt is a parameter; the signer is a `Jwt.JwtService`.
 */
module Auth {
  import opened Wrappers
  import opened Strings
  import opened Jwt
  import opened Redis
  import opened Identity

  /** The logical session keys of user `id` (`accessToken:${id}`, `refreshToken:${id}`). */
  function AccessKey(id: nat): string {
    "accessToken:" + DecimalText(id)
  }

  function RefreshKey(id: nat): string {
    "refreshToken:" + DecimalText(id)
  }

  /** No two users share a session key, and a user's two keys differ. */
  lemma SessionKeysDistinct(a: nat, b: nat)
    ensures AccessKey(a) != RefreshKey(b)
    ensures a != b ==> AccessKey(a) != AccessKey(b) && RefreshKey(a) != RefreshKey(b)
  {
    assert AccessKey(a)[0] != RefreshKey(b)[0];
    if AccessKey(a) == AccessKey(b) {
      assert DecimalText(a) == AccessKey(a)[12..];
      assert DecimalText(b) == AccessKey(b)[12..];
      DecimalTextInjective(a, b);
    }
    if RefreshKey(a) == RefreshKey(b) {
      assert DecimalText(a) == RefreshKey(a)[13..];
      assert DecimalText(b) == RefreshKey(b)[13..];
      DecimalTextInjective(a, b);
    }
  }

  datatype TokenPair = TokenPair(accessToken: string, refreshToken: string)

  datatype AuthError = Conflict(message: string) | Unauthorized(message: string)

  datatype Result<T> = Ok(value: T) | Err(error: AuthError)

  const UserExists: string := "User already exists"
  const UserNotFound: string := "User not found"
  const InvalidRefreshToken: string := "Invalid or expired refresh token"

  /** The pair `generateTokens` signs for a user at time `now`. */
  function PairFor(jwt: JwtService, id: nat, username: string, now: int): (pair: TokenPair)
    ensures Sound(jwt) ==> jwt.verify(pair.accessToken, now) == Some(Payload(id, username, now, AccessTtl))
    ensures Sound(jwt) ==> jwt.verify(pair.refreshToken, now) == Some(Payload(id, username, now, RefreshTtl))
    ensures Sound(jwt) ==> pair.accessToken != pair.refreshToken
  {
    assert Sound(jwt) ==> jwt.sign(Payload(id, username, now, AccessTtl)) != jwt.sign(Payload(id, username, now, RefreshTtl)) by {
      if Sound(jwt) {
        PairTokensDistinct(jwt, id, username, now);
      }
    }
    TokenPair(jwt.sign(Payload(id, username, now, AccessTtl)), jwt.sign(Payload(id, username, now, RefreshTtl)))
  }

  /** The session entries after `generateTokens` stored `pair` for user `id` at time `now`. */
  function Issue(entries: Entries, id: nat, pair: TokenPair, now: int): (e: Entries)
    ensures Read(e, AccessKey(id), now) == Some(pair.accessToken)
    ensures Read(e, RefreshKey(id), now) == Some(pair.refreshToken)
    ensures forall k :: k != AccessKey(id) && k != RefreshKey(id) ==> Read(e, k, now) == Read(entries, k, now)
  {
    SessionKeysDistinct(id, id);
    assert StoredKey(AccessKey(id)) != StoredKey(RefreshKey(id)) by { StoredKeyInjective(AccessKey(id), RefreshKey(id)); }
    forall k | k != AccessKey(id) && k != RefreshKey(id)
      ensures Read(Write(Write(entries, AccessKey(id), pair.accessToken, AccessTtl, now), RefreshKey(id), pair.refreshToken, RefreshTtl, now), k, now)
           == Read(entries, k, now)
    {
      OtherKeysUntouched(entries, AccessKey(id), k, pair.accessToken, AccessTtl, now, now);
      OtherKeysUntouched(Write(entries, AccessKey(id), pair.accessToken, AccessTtl, now), RefreshKey(id), k, pair.refreshToken, RefreshTtl, now, now);
    }
    Write(Write(entries, AccessKey(id), pair.accessToken, AccessTtl, now), RefreshKey(id), pair.refreshToken, RefreshTtl, now)
  }

  /** The session entries after `logout(id)`. */
  function Revoke(entries: Entries, id: nat): (e: Entries)
    ensures forall t :: Read(e, AccessKey(id), t) == None && Read(e, RefreshKey(id), t) == None
    ensures forall k, t :: k != AccessKey(id) && k != RefreshKey(id) ==> Read(e, k, t) == Read(entries, k, t)
  {
    forall k, t | k != AccessKey(id) && k != RefreshKey(id)
      ensures Read(Delete(Delete(entries, AccessKey(id)), RefreshKey(id)), k, t) == Read(entries, k, t)
    {
      OtherKeysUntouched(entries, AccessKey(id), k, "", 1, 0, t);
      OtherKeysUntouched(Delete(entries, AccessKey(id)), RefreshKey(id), k, "", 1, 0, t);
    }
    Delete(Delete(entries, AccessKey(id)), RefreshKey(id))
  }

  /** What `validateUser` returns: `null`, the user's three public fields, or a rejection from `bcrypt.compare`. */
  datatype PublicUser = PublicUser(id: nat, username: string, email: string)
  datatype Credentials = NoMatch | Matched(user: PublicUser) | CompareRejected

  /**
   * `validateUser` over the user table: `null` for an unknown username or a
   * password that does not match the stored hash; `bcrypt.compare` rejects
   * when the row has no hash (an account created through Google).
   */
  function ValidateUser(users: seq<User>, username: string, password: string, compare: (string, string) -> bool): (r: Credentials)
    ensures r == NoMatch <==>
      FindByUsername(users, username).None? ||
      (FindByUsername(users, username).value.password.Some? && !compare(password, FindByUsername(users, username).value.password.value))
    ensures r.Matched? <==>
      && FindByUsername(users, username).Some?
      && FindByUsername(users, username).value.password.Some?
      && compare(password, FindByUsername(users, username).value.password.value)
    ensures r == CompareRejected <==> FindByUsername(users, username).Some? && FindByUsername(users, username).value.password.None?
    ensures r.Matched? ==> exists u :: (u in users && u.username == username && u.password.Some?
      && compare(password, u.password.value) && r.user == PublicUser(u.id, u.username, u.email))
  {
    match FindByUsername(users, username)
    case None => NoMatch
    case Some(u) =>
      match u.password
      case None => CompareRejected
      case Some(hash) => if compare(password, hash) then Matched(PublicUser(u.id, u.username, u.email)) else NoMatch
  }

  /** `getProfile`: the stored user without its password, Unauthorized for an unknown id. */
  function GetProfile(users: seq<User>, id: nat): (r: Result<Profile>)
    ensures r.Err? <==> (forall u :: u in users ==> u.id != id)
    ensures r.Err? ==> r.error == Unauthorized(UserNotFound)
    ensures r.Ok? ==> exists u :: u in users && u.id == id && r.value == ProfileOf(u)
  {
    match FindById(users, id)
    case None => Err(Unauthorized(UserNotFound))
    case Some(u) => Ok(ProfileOf(u))
  }

  /**
   * The checks of `refreshToken`, in the code's order, giving the user to
   * issue a new pair for: the token verifies, carries a `sub`, equals the
   * refresh token stored for that `sub`, the `sub` is truthy (not 0) and
   * the user still exists. Every failure is the same Unauthorized.
   */
  function RefreshCheck(users: seq<User>, entries: Entries, jwt: JwtService, token: string, now: int): (r: Result<User>)
    ensures r.Err? ==> r.error == Unauthorized(InvalidRefreshToken)
    ensures r.Ok? <==>
      && jwt.verify(token, now).Some?
      && jwt.verify(token, now).value.sub.Some?
      && var id := jwt.verify(token, now).value.sub.value;
         && Read(entries, RefreshKey(id), now) == Some(token)
         && id != 0
         && exists u :: u in users && u.id == id
    ensures r.Ok? ==> r.value in users && Some(r.value.id) == jwt.verify(token, now).value.sub
  {
    match jwt.verify(token, now)
    case None => Err(Unauthorized(InvalidRefreshToken))
    case Some(decoded) =>
      match decoded.sub
      case None => Err(Unauthorized(InvalidRefreshToken)) // `userId.toString()` throws
      case Some(id) =>
        if Read(entries, RefreshKey(id), now) != Some(token) then Err(Unauthorized(InvalidRefreshToken))
        else if id == 0 then Err(Unauthorized(InvalidRefreshToken))
        else
          match FindById(users, id)
          case None => Err(Unauthorized(InvalidRefreshToken))
          case Some(u) => Ok(u)
  }

  /** The registration request, already validated (`CreateUserDto`). */
  datatype SignUpRequest = SignUpRequest(username: string, email: string, password: string)

  class AuthService {
    const redis: RedisService
    const jwt: JwtService
    var users: seq<User>
    /** The next value of the table's auto-incremented id. */
    var nextId: nat

    ghost predicate Valid()
      reads this
    {
      && UniqueColumns(users)
      && nextId >= 1
      && forall u :: u in users ==> 0 < u.id < nextId
    }

    constructor (redis: RedisService, jwt: JwtService)
      ensures Valid() && this.redis == redis && this.jwt == jwt && users == [] && nextId == 1
    {
      this.redis := redis;
      this.jwt := jwt;
      users := [];
      nextId := 1;
    }

    /** `generateTokens`: signs a pair and stores both tokens, overwriting the user's previous pair. */
    method GenerateTokens(id: nat, username: string, now: int) returns (pair: TokenPair)
      modifies redis
      ensures pair == PairFor(jwt, id, username, now)
      ensures redis.entries == Issue(old(redis.entries), id, pair, now)
    {
      var accessToken := jwt.sign(Payload(id, username, now, AccessTtl));
      var refreshToken := jwt.sign(Payload(id, username, now, RefreshTtl));
      redis.SetToken(AccessKey(id), accessToken, AccessTtl, now);
      redis.SetToken(RefreshKey(id), refreshToken, RefreshTtl, now);
      pair := TokenPair(accessToken, refreshToken);
    }

    /** `signIn`: issues a pair for a user the local strategy already validated. */
    method SignIn(user: PublicUser, now: int) returns (pair: TokenPair)
      modifies redis
      ensures pair == PairFor(jwt, user.id, user.username, now)
      ensures redis.entries == Issue(old(redis.entries), user.id, pair, now)
    {
      pair := GenerateTokens(user.id, user.username, now);
    }

    /**
     * `signUp`: Conflict, with nothing created and nothing stored, when the
     * username or the email is taken; otherwise one new user with the
     * bcrypt hash (`hashedPassword`) and a freshly issued pair.
     */
    method SignUp(request: SignUpRequest, hashedPassword: string, now: int) returns (r: Result<TokenPair>)
      requires Valid()
      modifies this, redis
      ensures Valid()
      ensures r.Err? <==> FindByUsername(old(users), request.username).Some? || FindByEmail(old(users), request.email).Some?
      ensures r.Err? ==> (r.error == Conflict(UserExists)
        && users == old(users) && nextId == old(nextId) && redis.entries == old(redis.entries))
      ensures r.Ok? ==>
        var user := User(old(nextId), request.username, request.email, Some(hashedPassword), None, None, None, None);
        && users == old(users) + [user]
        && nextId == old(nextId) + 1
        && r.value == PairFor(jwt, user.id, user.username, now)
        && redis.entries == Issue(old(redis.entries), user.id, r.value, now)
    {
      var existingUsername := FindByUsername(users, request.username);
      var existingEmail := FindByEmail(users, request.email);
      if existingUsername.Some? || existingEmail.Some? {
        return Err(Conflict(UserExists));
      }
      var user := User(nextId, request.username, request.email, Some(hashedPassword), None, None, None, None);
      AppendKeepsColumnsUnique(users, user);
      users := users + [user];
      nextId := nextId + 1;
      var pair := GenerateTokens(user.id, user.username, now);
      r := Ok(pair);
    }

    /** `logout`: deletes both session entries of the user. */
    method Logout(id: nat)
      modifies redis
      ensures redis.entries == Revoke(old(redis.entries), id)
    {
      redis.RemoveToken(AccessKey(id));
      redis.RemoveToken(RefreshKey(id));
    }

    /** `refreshToken`: on success both entries rotate to a pair signed now for the stored user. */
    method RefreshToken(token: string, now: int) returns (r: Result<TokenPair>)
      modifies redis
      ensures r.Err? <==> RefreshCheck(users, old(redis.entries), jwt, token, now).Err?
      ensures r.Err? ==> r.error == Unauthorized(InvalidRefreshToken) && redis.entries == old(redis.entries)
      ensures r.Ok? ==>
        var user := RefreshCheck(users, old(redis.entries), jwt, token, now).value;
        && r.value == PairFor(jwt, user.id, user.username, now)
        && redis.entries == Issue(old(redis.entries), user.id, r.value, now)
    {
      var decoded := jwt.verify(token, now);
      if decoded.None? || decoded.value.sub.None? {
        return Err(Unauthorized(InvalidRefreshToken));
      }
      var userId := decoded.value.sub.value;
      var redisToken := redis.GetToken(RefreshKey(userId), now);
      if redisToken != Some(token) || userId == 0 {
        return Err(Unauthorized(InvalidRefreshToken));
      }
      var user := FindById(users, userId);
      if user.None? {
        return Err(Unauthorized(InvalidRefreshToken));
      }
      var pair := GenerateTokens(user.value.id, user.value.username, now);
      r := Ok(pair);
    }
  }
}
