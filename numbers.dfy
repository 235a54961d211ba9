/**
 * Conversions between non-negative integers and their decimal text, as the
 * TypeScript uploader performs them implicitly: `'price/' + bytes` writes a number into a
 * URL, and unary `+` turns a response body back into a number.
 */
module Numbers {

  predicate IsDigit(c: char) {
    '0' <= c <= '9'
  }

  predicate AllDigits(s: string) {
    forall i :: 0 <= i < |s| ==> IsDigit(s[i])
  }

  function DigitChar(d: nat): (c: char)
    requires d < 10
    ensures IsDigit(c) && (c as int) - ('0' as int) == d
  {
    (('0' as int) + d) as char
  }

  function DigitValue(c: char): (d: nat)
    requires IsDigit(c)
    ensures d < 10 && DigitChar(d) == c
  {
    (c as int) - ('0' as int)
  }

  /** The decimal text of `n`, without leading zeros (as JavaScript's `String(n)` for an integer below 2^53). */
  function Decimal(n: nat): (s: string)
    ensures |s| >= 1 && AllDigits(s)
    ensures s[0] == '0' ==> n == 0 && s == "0"
    decreases n
  {
    if n < 10 then [DigitChar(n)] else Decimal(n / 10) + [DigitChar(n % 10)]
  }

  /** The value of a string of decimal digits; the empty string is worth 0. */
  function DigitsValue(s: string): (n: nat)
    requires AllDigits(s)
    decreases |s|
  {
    if s == [] then 0 else 10 * DigitsValue(s[..|s| - 1]) + DigitValue(s[|s| - 1])
  }

  /** Reading back the decimal text of `n` gives `n`. */
  lemma {:induction false} DigitsValueOfDecimal(n: nat)
    ensures DigitsValue(Decimal(n)) == n
    decreases n
  {
    if n >= 10 {
      var s := Decimal(n);
      assert s[..|s| - 1] == Decimal(n / 10);
      DigitsValueOfDecimal(n / 10);
    }
  }

  lemma DecimalInjective(a: nat, b: nat)
    ensures Decimal(a) == Decimal(b) ==> a == b
  {
    DigitsValueOfDecimal(a);
    DigitsValueOfDecimal(b);
  }

  /**
   * A JavaScript number as far as the model needs it: a non-negative integer,
   * or NaN for text that is not a number.
   */
  datatype JsNumber = Num(value: nat) | NaN

  /**
   * Unary `+` applied to a response body. Digit strings convert to their
   * value (the empty string to 0, as in JavaScript); anything else is NaN.
   */
  function ToNumber(s: string): (x: JsNumber)
    ensures x.Num? <==> AllDigits(s)
    ensures s == "" ==> x == Num(0)
  {
    if AllDigits(s) then Num(DigitsValue(s)) else NaN
  }

  /** Converting the decimal text of `n` back to a number gives `n` unchanged. */
  lemma ToNumberOfDecimal(n: nat)
    ensures ToNumber(Decimal(n)) == Num(n)
  {
    DigitsValueOfDecimal(n);
  }
}
