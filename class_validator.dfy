/**
 * The class-validator rules the request DTOs use, over the JSON-like
 * values a request body or query string can deliver, and the resulting
 * list of failed rules. A property absent from the body is `Undefined`.
 */
module ClassValidator {
  /** A property value as the validator sees it. */
  datatype Value =
    | Undefined
    | Null
    | Bool(b: bool)
    | Num(n: real)
    | NaN
    | Str(s: string)
    | Composite

  /** The request as a map from property names; missing names read as `Undefined`. */
  type Body = map<string, Value>

  function Get(body: Body, property: string): (v: Value)
    ensures property !in body ==> v == Undefined
  {
    if property in body then body[property] else Undefined
  }

  datatype Rule =
    | IsNotEmpty | IsString | MinLength(min: nat) | MaxLength(max: nat) | IsEmail
    | IsInt | IsNumber | IsPositive | Min(lower: int) | Max(upper: int) | IsEnum(values: seq<string>)

  /** One failed rule of one property. */
  datatype Failure = Failure(property: string, rule: Rule)

  /** What the validation pipe hands on: the typed DTO, or the failures it answers with 400 Bad Request. */
  datatype Validated<T> = Valid(value: T) | Invalid(failures: seq<Failure>)

  /**
   * The length validator.js measures: code points, not counting the
   * variation selectors U+FE0E and U+FE0F.
   */
  function MeasuredLength(s: string): (n: nat)
    ensures n <= |s|
    ensures (forall i :: 0 <= i < |s| ==> s[i] != '\U{FE0E}' && s[i] != '\U{FE0F}') ==> n == |s|
  {
    if |s| == 0 then 0
    else (if s[0] == '\U{FE0E}' || s[0] == '\U{FE0F}' then 0 else 1) + MeasuredLength(s[1..])
  }

  predicate IsIntegral(x: real) {
    x.Floor as real == x
  }

  /**
   * Whether `value` passes `rule`; `isEmail` stands for validator.js's
   * address grammar, which is not part of this model.
   */
  predicate Passes(rule: Rule, value: Value, isEmail: string -> bool) {
    match rule
    case IsNotEmpty => value != Str("") && value != Null && value != Undefined
    case IsString => value.Str?
    case MinLength(min) => value.Str? && MeasuredLength(value.s) >= min
    case MaxLength(max) => value.Str? && MeasuredLength(value.s) <= max
    case IsEmail => value.Str? && isEmail(value.s)
    case IsInt => value.Num? && IsIntegral(value.n)
    case IsNumber => value.Num?
    case IsPositive => value.Num? && value.n > 0.0
    case Min(lower) => value.Num? && value.n >= lower as real
    case Max(upper) => value.Num? && value.n <= upper as real
    case IsEnum(values) => value.Str? && value.s in values
  }

  /**
   * The rules of one property that fail. `rules` lists the decorators as
   * written, top to bottom; TypeScript applies a property's decorators
   * bottom-up, each registering its rule as it is applied, and the
   * validator reports a property's failures in registration order, so the
   * last-written rule's failure comes first.
   */
  function FailedRules(property: string, rules: seq<Rule>, value: Value, isEmail: string -> bool): (fs: seq<Failure>)
    ensures forall f :: f in fs <==> f.property == property && f.rule in rules && !Passes(f.rule, value, isEmail)
  {
    if |rules| == 0 then []
    else
      FailedRules(property, rules[1..], value, isEmail)
      + (if Passes(rules[0], value, isEmail) then [] else [Failure(property, rules[0])])
  }

  /**
   * Every rule of a property is checked (no stop at the first failure);
   * with `@IsOptional`, a null or undefined value skips them all.
   */
  function Check(property: string, optional: bool, rules: seq<Rule>, value: Value, isEmail: string -> bool): (fs: seq<Failure>)
    ensures optional && (value == Null || value == Undefined) ==> fs == []
    ensures !(optional && (value == Null || value == Undefined)) ==>
      forall f :: f in fs <==> f.property == property && f.rule in rules && !Passes(f.rule, value, isEmail)
  {
    if optional && (value == Null || value == Undefined) then [] else FailedRules(property, rules, value, isEmail)
  }

  /** A property has no failure exactly when each of its rules passes. */
  lemma {:induction false} NoFailuresIffAllPass(property: string, rules: seq<Rule>, value: Value, isEmail: string -> bool)
    ensures FailedRules(property, rules, value, isEmail) == [] <==> forall i :: 0 <= i < |rules| ==> Passes(rules[i], value, isEmail)
  {
    if |rules| > 0 {
      NoFailuresIffAllPass(property, rules[1..], value, isEmail);
      assert forall i :: 1 <= i < |rules| ==> rules[i] == rules[1..][i - 1];
    }
  }
}
