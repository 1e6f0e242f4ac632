/**
 * The Google sign-in callback of apps/backend/src/auth/strategies/google.strategy.ts:
 * the provider's profile is mapped to the user data handed to
 * `validateOrCreateGoogleUser` (not part of this model: a parameter), and
 * the outcome is reported through passport's `done(err, user)`.
 */
module GoogleStrategy {
  import opened Wrappers
  import opened Strings

  datatype Name = Name(givenName: Option<string>, familyName: Option<string>)

  /** The fields of the passport profile the strategy reads; each email and photo is its `value`. */
  datatype Profile = Profile(id: string, name: Option<Name>, emails: Option<seq<string>>, photos: Option<seq<string>>)

  datatype UserData = UserData(
    email: string,
    username: string,
    firstName: string,
    lastName: string,
    picture: Option<string>,
    googleId: string)

  /** What `validateOrCreateGoogleUser` may do: return a user, or throw an `Error` or some other value. */
  datatype Thrown = ErrorObject(message: string) | NonError
  datatype Resolution<U> = Resolved(user: U) | Threw(thrown: Thrown)

  /** The arguments of `done(err, user)`; an error is represented by its message. */
  datatype Done<U> = Done(err: Option<string>, user: Option<U>)

  const NoEmail: string := "No email found in Google profile"
  const UnknownError: string := "Unknown error"

  /** `name?.givenName || ''`: an absent or empty name is ''. */
  function OrEmpty(s: Option<string>): string {
    if s.Some? then s.value else ""
  }

  /**
   * `userData` for a profile with at least one email: `username` is the text
   * of the first email before its first '@'.
   */
  function MapProfile(profile: Profile): (d: UserData)
    requires profile.emails.Some? && |profile.emails.value| > 0
    ensures d.email == profile.emails.value[0]
    ensures |d.username| <= |d.email| && d.email[..|d.username|] == d.username && '@' !in d.username
    ensures |d.username| == |d.email| || d.email[|d.username|] == '@'
    ensures d.firstName == (if profile.name.Some? then OrEmpty(profile.name.value.givenName) else "")
    ensures d.lastName == (if profile.name.Some? then OrEmpty(profile.name.value.familyName) else "")
    ensures d.picture == (if profile.photos.Some? && |profile.photos.value| > 0 then Some(profile.photos.value[0]) else None)
    ensures d.googleId == profile.id
  {
    var email := profile.emails.value[0];
    SplitFirstPart(email, '@');
    UserData(
      email,
      Split(email, '@')[0],
      if profile.name.Some? then OrEmpty(profile.name.value.givenName) else "",
      if profile.name.Some? then OrEmpty(profile.name.value.familyName) else "",
      if profile.photos.Some? && |profile.photos.value| > 0 then Some(profile.photos.value[0]) else None,
      profile.id)
  }

  /**
   * `validate`: no email gives `done(Error('No email found in Google profile'), null)`
   * without resolving any user; otherwise the resolved user is passed as
   * `done(null, user)` and a thrown value as `done(err, null)`, a non-`Error`
   * being replaced by `Error('Unknown error')`.
   */
  function Validate<U>(profile: Profile, resolve: UserData -> Resolution<U>): (d: Done<U>)
    ensures profile.emails.None? || |profile.emails.value| == 0 ==> d == Done(Some(NoEmail), None)
    ensures profile.emails.Some? && |profile.emails.value| > 0 ==>
      match resolve(MapProfile(profile))
      case Resolved(u) => d == Done(None, Some(u))
      case Threw(ErrorObject(m)) => d == Done(Some(m), None)
      case Threw(NonError) => d == Done(Some(UnknownError), None)
    ensures d.err.None? <==> d.user.Some?
  {
    if profile.emails.None? || |profile.emails.value| == 0 then Done(Some(NoEmail), None)
    else
      match resolve(MapProfile(profile))
      case Resolved(u) => Done(None, Some(u))
      case Threw(thrown) =>
        var message := if thrown.ErrorObject? then thrown.message else UnknownError;
        Done(Some(message), None)
  }

  /** Without an email the result does not depend on `validateOrCreateGoogleUser` at all. */
  lemma NoEmailNeverResolves<U>(profile: Profile, resolve1: UserData -> Resolution<U>, resolve2: UserData -> Resolution<U>)
    requires profile.emails.None? || |profile.emails.value| == 0
    ensures Validate(profile, resolve1) == Validate(profile, resolve2) == Done(Some(NoEmail), None)
  {
  }

  /** An address `local@domain` with an '@'-free local part gives the username `local`. */
  lemma UsernameIsLocalPart(profile: Profile, local: string, domain: string)
    requires profile.emails.Some? && |profile.emails.value| > 0
    requires profile.emails.value[0] == local + "@" + domain && '@' !in local
    ensures MapProfile(profile).username == local
  {
    SplitAfterHead(local, '@', domain);
  }
}
