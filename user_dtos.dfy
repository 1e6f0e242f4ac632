/**
 * apps/backend/src/users/dto/create-user.dto.ts: the registration body.
 */
module CreateUserDto {
  import opened ClassValidator
  import Auth

  const UsernameRules: seq<Rule> := [IsNotEmpty, IsString, MinLength(4)]
  const EmailRules: seq<Rule> := [IsNotEmpty, IsEmail]
  const PasswordRules: seq<Rule> := [IsNotEmpty, IsString, MinLength(8)]

  /** A string of at least `min` measured characters (so never empty when min > 0). */
  predicate TextAtLeast(v: Value, min: nat) {
    v.Str? && MeasuredLength(v.s) >= min
  }

  lemma TextRules(property: string, v: Value, min: nat, isEmail: string -> bool)
    requires min > 0
    ensures Check(property, false, [IsNotEmpty, IsString, MinLength(min)], v, isEmail) == [] <==> TextAtLeast(v, min)
  {
    var rules := [IsNotEmpty, IsString, MinLength(min)];
    NoFailuresIffAllPass(property, rules, v, isEmail);
    if TextAtLeast(v, min) {
      assert v != Str("");
      forall i | 0 <= i < |rules| ensures Passes(rules[i], v, isEmail) {
      }
    } else {
      assert !Passes(rules[1], v, isEmail) || !Passes(rules[2], v, isEmail);
    }
  }

  lemma EmailRulesMean(v: Value, isEmail: string -> bool)
    ensures Check("email", false, EmailRules, v, isEmail) == [] <==> v.Str? && v.s != "" && isEmail(v.s)
  {
    NoFailuresIffAllPass("email", EmailRules, v, isEmail);
  }

  /** Registration needs a username of 4 or more characters, a non-empty e-mail address and a password of 8 or more; there is no upper bound. */
  function Failures(body: Body, isEmail: string -> bool): (fs: seq<Failure>)
    ensures fs == [] <==>
      && TextAtLeast(Get(body, "username"), 4)
      && Get(body, "email").Str? && Get(body, "email").s != "" && isEmail(Get(body, "email").s)
      && TextAtLeast(Get(body, "password"), 8)
  {
    TextRules("username", Get(body, "username"), 4, isEmail);
    EmailRulesMean(Get(body, "email"), isEmail);
    TextRules("password", Get(body, "password"), 8, isEmail);
    Check("username", false, UsernameRules, Get(body, "username"), isEmail)
    + Check("email", false, EmailRules, Get(body, "email"), isEmail)
    + Check("password", false, PasswordRules, Get(body, "password"), isEmail)
  }

  /**
   * A missing username fails all three of its rules, reported last-written
   * first: `MinLength(4)`, then `IsString`, then `IsNotEmpty`.
   */
  lemma MissingUsernameFailsLastRuleFirst(body: Body, isEmail: string -> bool)
    requires "username" !in body
    ensures |Failures(body, isEmail)| >= 3
    ensures Failures(body, isEmail)[..3]
      == [Failure("username", MinLength(4)), Failure("username", IsString), Failure("username", IsNotEmpty)]
  {
    var username := Check("username", false, UsernameRules, Get(body, "username"), isEmail);
    assert username == [Failure("username", MinLength(4)), Failure("username", IsString), Failure("username", IsNotEmpty)] by {
      assert UsernameRules[1..] == [IsString, MinLength(4)];
      assert UsernameRules[1..][1..] == [MinLength(4)];
    }
    assert Failures(body, isEmail) == username
      + Check("email", false, EmailRules, Get(body, "email"), isEmail)
      + Check("password", false, PasswordRules, Get(body, "password"), isEmail);
  }

  /** A body that passes becomes the sign-up request, with the text as sent. */
  function Parse(body: Body, isEmail: string -> bool): (r: Validated<Auth.SignUpRequest>)
    ensures r.Valid? <==> Failures(body, isEmail) == []
    ensures r.Invalid? ==> r.failures == Failures(body, isEmail)
    ensures r.Valid? ==> r.value == Auth.SignUpRequest(Get(body, "username").s, Get(body, "email").s, Get(body, "password").s)
  {
    var failures := Failures(body, isEmail);
    if failures == [] then
      Valid(Auth.SignUpRequest(Get(body, "username").s, Get(body, "email").s, Get(body, "password").s))
    else Invalid(failures)
  }
}

/**
 * apps/backend/src/users/dto/sign-in.dto.ts: the sign-in body.
 */
module SignInDto {
  import opened ClassValidator
  import CreateUserDto

  /** A string whose measured length lies in `min..max`. */
  predicate TextWithin(v: Value, min: nat, max: nat) {
    v.Str? && min <= MeasuredLength(v.s) <= max
  }

  lemma BoundedTextRules(property: string, v: Value, min: nat, max: nat, isEmail: string -> bool)
    requires min > 0
    ensures Check(property, false, [IsString, IsNotEmpty, MinLength(min), MaxLength(max)], v, isEmail) == []
      <==> TextWithin(v, min, max)
  {
    var rules := [IsString, IsNotEmpty, MinLength(min), MaxLength(max)];
    NoFailuresIffAllPass(property, rules, v, isEmail);
    if TextWithin(v, min, max) {
      assert v != Str("");
      forall i | 0 <= i < |rules| ensures Passes(rules[i], v, isEmail) {
      }
    } else {
      assert !Passes(rules[0], v, isEmail) || !Passes(rules[2], v, isEmail) || !Passes(rules[3], v, isEmail);
    }
  }

  /** Sign-in needs a username of 4 to 20 characters and a password of 6 to 20. */
  function Failures(body: Body, isEmail: string -> bool): (fs: seq<Failure>)
    ensures fs == [] <==> TextWithin(Get(body, "username"), 4, 20) && TextWithin(Get(body, "password"), 6, 20)
  {
    BoundedTextRules("username", Get(body, "username"), 4, 20, isEmail);
    BoundedTextRules("password", Get(body, "password"), 6, 20, isEmail);
    Check("username", false, [IsString, IsNotEmpty, MinLength(4), MaxLength(20)], Get(body, "username"), isEmail)
    + Check("password", false, [IsString, IsNotEmpty, MinLength(6), MaxLength(20)], Get(body, "password"), isEmail)
  }

  /**
   * Registration sets no upper bound, sign-in caps both fields at 20: an
   * account registered with a password over 20 characters passes
   * registration and fails sign-in validation with the same credentials.
   */
  lemma LongPasswordRegistersButCannotSignIn(body: Body, isEmail: string -> bool)
    requires TextWithin(Get(body, "username"), 4, 20)
    requires Get(body, "email").Str? && Get(body, "email").s != "" && isEmail(Get(body, "email").s)
    requires Get(body, "password").Str? && MeasuredLength(Get(body, "password").s) > 20
    ensures CreateUserDto.Failures(body, isEmail) == []
    ensures Failures(body, isEmail) != []
  {
  }

  /** Credentials that pass sign-in validation, with a password of at least 8 and a valid address, also pass registration. */
  lemma SignInWithinRegistration(body: Body, isEmail: string -> bool)
    requires Failures(body, isEmail) == []
    requires MeasuredLength(Get(body, "password").s) >= 8
    requires Get(body, "email").Str? && Get(body, "email").s != "" && isEmail(Get(body, "email").s)
    ensures CreateUserDto.Failures(body, isEmail) == []
  {
  }
}
