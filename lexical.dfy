/** The text checks the middleware relies on: validator.js `isInt()` and
    `isNumeric()` with their default options, and JavaScript's loose
    comparison `value > 0` of a string value against a number. */
module Lexical {

  predicate IsDigit(c: char)
  {
    '0' <= c <= '9'
  }

  predicate AllDigits(s: string)
  {
    forall i :: 0 <= i < |s| ==> IsDigit(s[i])
  }

  predicate DigitsAndDots(s: string)
  {
    forall i :: 0 <= i < |s| ==> IsDigit(s[i]) || s[i] == '.'
  }

  predicate HasDigit(s: string)
  {
    exists i :: 0 <= i < |s| && IsDigit(s[i])
  }

  predicate HasNonZeroDigit(s: string)
  {
    exists i :: 0 <= i < |s| && '1' <= s[i] <= '9'
  }

  predicate Signed(s: string)
  {
    |s| > 0 && (s[0] == '+' || s[0] == '-')
  }

  predicate Negative(s: string)
  {
    |s| > 0 && s[0] == '-'
  }

  /** The text after an optional leading sign. */
  function Unsigned(s: string): (u: string)
    ensures Signed(s) ==> [s[0]] + u == s
    ensures !Signed(s) ==> u == s
  {
    if Signed(s) then s[1..] else s
  }

  function DotCount(s: string): nat
  {
    if s == [] then 0 else (if s[0] == '.' then 1 else 0) + DotCount(s[1..])
  }

  /** `isInt()` (leading zeros allowed): a sign, then one or more digits. */
  predicate IsIntText(s: string)
  {
    var u := Unsigned(s);
    |u| > 0 && AllDigits(u)
  }

  /** `isNumeric()` for the en-US locale: an optional sign, digits with at
      most one decimal point, ending in a digit. */
  predicate IsNumericText(s: string)
  {
    var u := Unsigned(s);
    |u| > 0 && DigitsAndDots(u) && DotCount(u) <= 1 && IsDigit(u[|u| - 1])
  }

  /** The decimal strings `Number(s)` converts to a number: an optional sign,
      digits with at most one decimal point, and at least one digit. */
  predicate IsDecimalText(s: string)
  {
    var u := Unsigned(s);
    DigitsAndDots(u) && DotCount(u) <= 1 && HasDigit(u)
  }

  /** JavaScript `s > 0` for a string `s`: the string is converted with
      `Number`, and a string that is not a number compares false. */
  predicate GreaterThanZero(s: string)
  {
    IsDecimalText(s) && !Negative(s) && HasNonZeroDigit(Unsigned(s))
  }

  function DigitValue(c: char): nat
    requires IsDigit(c)
  {
    c as int - '0' as int
  }

  /** The number a string of decimal digits denotes. */
  function DigitsValue(u: string): nat
    requires AllDigits(u)
  {
    if u == [] then 0 else DigitsValue(u[..|u| - 1]) * 10 + DigitValue(u[|u| - 1])
  }

  /** The integer an `isInt()` string denotes. */
  function IntValue(s: string): int
    requires IsIntText(s)
  {
    var v: int := DigitsValue(Unsigned(s));
    if Negative(s) then -v else v
  }

  lemma {:induction false} DigitsHaveNoDot(u: string)
    requires AllDigits(u)
    ensures DotCount(u) == 0
  {
    if u != [] {
      DigitsHaveNoDot(u[1..]);
    }
  }

  lemma {:induction false} DigitsValuePositive(u: string)
    requires AllDigits(u)
    ensures DigitsValue(u) > 0 <==> HasNonZeroDigit(u)
  {
    if u != [] {
      var p := u[..|u| - 1];
      DigitsValuePositive(p);
      assert forall j :: 0 <= j < |p| ==> p[j] == u[j];
      assert HasNonZeroDigit(u) <==> HasNonZeroDigit(p) || '1' <= u[|u| - 1] <= '9';
    }
  }

  /** An `isInt()` string passes `value > 0` exactly when the integer it
      denotes is positive, and it is also an `isNumeric()` string. */
  lemma IntTextComparison(s: string)
    requires IsIntText(s)
    ensures GreaterThanZero(s) <==> IntValue(s) > 0
    ensures IsNumericText(s) && IsDecimalText(s)
  {
    var u := Unsigned(s);
    DigitsHaveNoDot(u);
    DigitsValuePositive(u);
    assert IsDigit(u[0]);
  }

  /** Every `isNumeric()` string is one `Number` converts. */
  lemma NumericTextIsDecimal(s: string)
    requires IsNumericText(s)
    ensures IsDecimalText(s)
  {
    var u := Unsigned(s);
    assert IsDigit(u[|u| - 1]);
  }
}
