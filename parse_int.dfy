/**
 * `parseInt(string, 10)` as section 19.2.5 of ECMA-262 (the ECMAScript
 * language specification) defines it: skip leading white space, read an
 * optional sign, then the longest run of decimal digits; no digits gives NaN.
 * Text is a sequence of code points.
 */
module EcmaScript {
  import opened Strings

  /** The value `parseInt` returns: an integer, or NaN. */
  datatype ParsedInt = Integer(value: int) | NotANumber

  /** WhiteSpace and LineTerminator code points (sections 12.2 and 12.3 of ECMA-262), including every space separator. */
  predicate IsStrWhiteSpace(c: char) {
    || c == '\t' || c == '\U{000B}' || c == '\U{000C}' || c == ' ' || c == '\U{00A0}' || c == '\U{FEFF}'
    || c == '\n' || c == '\r' || c == '\U{2028}' || c == '\U{2029}'
    || c == '\U{1680}' || ('\U{2000}' <= c <= '\U{200A}') || c == '\U{202F}' || c == '\U{205F}' || c == '\U{3000}'
  }

  /** The text with its leading white space removed. */
  function TrimStart(s: string): (t: string)
    ensures |t| <= |s| && t == s[|s| - |t|..]
    ensures forall i :: 0 <= i < |s| - |t| ==> IsStrWhiteSpace(s[i])
    ensures |t| > 0 ==> !IsStrWhiteSpace(t[0])
  {
    if |s| > 0 && IsStrWhiteSpace(s[0]) then TrimStart(s[1..]) else s
  }

  /** The length of the longest all-digit prefix. */
  function DigitRun(s: string): (n: nat)
    ensures n <= |s|
    ensures forall i :: 0 <= i < n ==> IsDigit(s[i])
    ensures n < |s| ==> !IsDigit(s[n])
  {
    if |s| > 0 && IsDigit(s[0]) then 1 + DigitRun(s[1..]) else 0
  }

  /** The text after an optional leading sign. */
  function Unsigned(t: string): (u: string)
    ensures u == t || (|t| > 0 && (t[0] == '-' || t[0] == '+') && u == t[1..])
  {
    if |t| > 0 && (t[0] == '-' || t[0] == '+') then t[1..] else t
  }

  /** `parseInt(s, 10)`. */
  function ParseInt10(s: string): (r: ParsedInt)
    ensures r.NotANumber? <==> DigitRun(Unsigned(TrimStart(s))) == 0
    ensures r.Integer? && r.value < 0 ==> TrimStart(s)[0] == '-'
    ensures r.Integer? ==>
      var t := TrimStart(s);
      var u := Unsigned(t);
      r.value == if t[0] == '-' then -(DigitsValue(u[..DigitRun(u)]) as int) else DigitsValue(u[..DigitRun(u)])
  {
    ParseTrimmed(TrimStart(s))
  }

  /** Steps 4 to 16 of `parseInt`, once the white space is gone. */
  function ParseTrimmed(t: string): (r: ParsedInt)
    ensures r.NotANumber? <==> DigitRun(Unsigned(t)) == 0
    ensures r.Integer? && r.value < 0 ==> t[0] == '-'
    ensures r.Integer? && (|t| == 0 || t[0] != '-') ==> r.value == DigitsValue(Unsigned(t)[..DigitRun(Unsigned(t))])
    ensures r.Integer? && |t| > 0 && t[0] == '-' ==> r.value == -(DigitsValue(Unsigned(t)[..DigitRun(Unsigned(t))]) as int)
  {
    var u := Unsigned(t);
    var n := DigitRun(u);
    if n == 0 then NotANumber
    else
      var magnitude: int := DigitsValue(u[..n]);
      Integer(if |t| > 0 && t[0] == '-' then -magnitude else magnitude)
  }

  /** A run of digits followed by the end of the text or by a non-digit is read completely. */
  lemma {:induction false} DigitRunOfDigits(d: string, tail: string)
    requires forall i :: 0 <= i < |d| ==> IsDigit(d[i])
    requires |tail| == 0 || !IsDigit(tail[0])
    ensures DigitRun(d + tail) == |d|
    decreases |d|
  {
    if |d| > 0 {
      assert (d + tail)[1..] == d[1..] + tail;
      DigitRunOfDigits(d[1..], tail);
    } else {
      assert d + tail == tail;
    }
  }

  /** The decimal text of n, followed by anything that does not start with a digit, reads back as n. */
  lemma ParseDecimalText(n: nat, tail: string)
    requires |tail| == 0 || !IsDigit(tail[0])
    ensures ParseInt10(DecimalText(n) + tail) == Integer(n)
  {
    var d := DecimalText(n);
    var s := d + tail;
    assert s[0] == d[0] && IsDigit(d[0]);
    assert TrimStart(s) == s;
    assert Unsigned(s) == s;
    DigitRunOfDigits(d, tail);
    assert s[..|d|] == d;
    DigitsValueOfDecimalText(n);
    assert ParseTrimmed(s) == Integer(DigitsValue(d));
  }

  /** A minus sign, the decimal text of n, then anything that does not start with a digit, reads back as -n. */
  lemma ParseNegativeDecimalText(n: nat, tail: string)
    requires |tail| == 0 || !IsDigit(tail[0])
    ensures ParseInt10("-" + DecimalText(n) + tail) == Integer(-(n as int))
  {
    var d := DecimalText(n);
    var s := "-" + d + tail;
    assert !IsStrWhiteSpace(s[0]);
    assert TrimStart(s) == s;
    assert Unsigned(s) == d + tail;
    DigitRunOfDigits(d, tail);
    assert (d + tail)[..|d|] == d;
    DigitsValueOfDecimalText(n);
    assert ParseTrimmed(s) == Integer(-(DigitsValue(d) as int));
  }

  /** Leading white space never changes the result. */
  lemma LeadingWhiteSpaceIgnored(c: char, s: string)
    requires IsStrWhiteSpace(c)
    ensures ParseInt10([c] + s) == ParseInt10(s)
  {
    assert ([c] + s)[1..] == s;
    assert TrimStart([c] + s) == TrimStart(s);
  }

  /** Hexadecimal is not recognised under radix 10: "0x1A" reads as 0. */
  lemma HexPrefixReadsAsZero()
    ensures ParseInt10("0x1A") == Integer(0)
  {
    var s := "0x1A";
    assert !IsStrWhiteSpace(s[0]);
    assert TrimStart(s) == s;
    assert Unsigned(s) == s;
    assert DigitRun(s) == 1 by {
      DigitRunOfDigits("0", "x1A");
      assert "0" + "x1A" == s;
    }
    assert DigitsValue(s[..1]) == 0 by {
      assert s[..1] == "0";
      assert "0"[..0] == "";
    }
    assert ParseTrimmed(s) == Integer(0);
  }

  /** Text with no digit after the sign reads as NaN. */
  lemma NoDigitsIsNaN()
    ensures ParseInt10("abc") == NotANumber
    ensures ParseInt10("") == NotANumber
    ensures ParseInt10("-") == NotANumber
  {
    assert !IsStrWhiteSpace('a') && !IsStrWhiteSpace('-');
    assert TrimStart("abc") == "abc";
    assert TrimStart("-") == "-";
    assert Unsigned("-") == "";
  }
}
