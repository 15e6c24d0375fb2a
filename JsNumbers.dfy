/** The part of JavaScript numbers the registration form depends on.

    `Number(s)` (string to IEEE-754 double, with white space, signs,
    exponents, hexadecimal, `Infinity` and NaN) is not modelled: every member
    that needs it takes the conversion as a parameter `num`.  What IS fixed
    here is the comparison `Number(s) <= 0`, including its NaN behaviour, and
    the one class of inputs whose conversion is pinned down: plain strings of
    at most 15 decimal digits (`AgreesOnDigits`), whose values are below
    2^53 and so are represented exactly by a double.  Longer digit strings
    are rounded to the nearest double, or become Infinity past about 309
    digits; they are not pinned down. */
module JsNumbers {

  /** A JavaScript number value; finite doubles are represented by their
      exact real value. */
  datatype JsNumber = NaN | PosInfinity | NegInfinity | Finite(value: real)

  /** `n <= 0` in JavaScript: every comparison with NaN is false. */
  predicate AtMostZero(n: JsNumber)
  {
    match n
    case NaN => false
    case PosInfinity => false
    case NegInfinity => true
    case Finite(v) => v <= 0.0
  }

  /** The form's amount rule `!s || Number(s) <= 0`: an empty string, or a
      string whose numeric value is not above zero. */
  predicate RejectsAmount(s: string, num: string -> JsNumber)
  {
    s == "" || AtMostZero(num(s))
  }

  /** A non-numeric entry (one that `Number` turns into NaN) passes the
      rule: `NaN <= 0` is false. */
  lemma NaNPassesAmountRule(s: string, num: string -> JsNumber)
    requires s != "" && num(s) == NaN
    ensures !RejectsAmount(s, num)
  {
  }

  predicate IsDigit(c: char)
  {
    '0' <= c <= '9'
  }

  /** A non-empty string of decimal digits, such as `"007"` or `"45"`. */
  predicate IsDigits(s: string)
  {
    |s| > 0 && forall i :: 0 <= i < |s| ==> IsDigit(s[i])
  }

  function DigitOf(c: char): nat
    requires IsDigit(c)
  {
    (c as int) - ('0' as int)
  }

  /** The value of a string of decimal digits, read left to right. */
  function DigitsValue(s: string): nat
    requires forall i :: 0 <= i < |s| ==> IsDigit(s[i])
  {
    if s == [] then 0
    else DigitsValue(s[..|s| - 1]) * 10 + DigitOf(s[|s| - 1])
  }

  /** The most digits a decimal string can have and still name an integer
      below 2^53, which a double holds exactly. */
  const MaxExactDigits := 15

  /** `num` behaves like JavaScript's `Number` on short digit strings:
      `Number("045")` is 45. */
  ghost predicate AgreesOnDigits(num: string -> JsNumber)
  {
    forall s {:trigger DigitsValue(s)} :: IsDigits(s) && |s| <= MaxExactDigits ==> num(s) == Finite(DigitsValue(s) as real)
  }

  /** A digit string has value zero exactly when every digit is `0`. */
  lemma {:induction false} DigitsValueZeroIff(s: string)
    requires forall i :: 0 <= i < |s| ==> IsDigit(s[i])
    ensures DigitsValue(s) == 0 <==> forall i :: 0 <= i < |s| ==> s[i] == '0'
  {
    if s != [] {
      var init := s[..|s| - 1];
      DigitsValueZeroIff(init);
      if forall i :: 0 <= i < |s| ==> s[i] == '0' {
        assert forall i :: 0 <= i < |init| ==> init[i] == '0';
      } else if DigitsValue(init) == 0 {
        var i :| 0 <= i < |s| && s[i] != '0';
      }
    }
  }

  /** On a digit string of at most 15 digits, the amount rule rejects
      exactly the all-zero strings (`"0"`, `"000"`), and accepts every other
      one. */
  lemma DigitsAmountRule(s: string, num: string -> JsNumber)
    requires AgreesOnDigits(num) && IsDigits(s) && |s| <= MaxExactDigits
    ensures RejectsAmount(s, num) <==> forall i :: 0 <= i < |s| ==> s[i] == '0'
  {
    DigitsValueZeroIff(s);
  }

  /** A digit string of at most 15 digits that passes the amount rule
      converts to a whole number of at least 1. */
  lemma AcceptedDigitsAreWhole(s: string, num: string -> JsNumber)
    requires AgreesOnDigits(num) && IsDigits(s) && |s| <= MaxExactDigits
    requires !RejectsAmount(s, num)
    ensures num(s).Finite? && num(s).value >= 1.0
  {
    assert num(s) == Finite(DigitsValue(s) as real);
  }
}
