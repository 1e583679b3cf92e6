/**
 * The two number-to-text conversions the payment flow relies on: a template literal
 * `${n}` of a non-negative integer, and `Number(price).toFixed(2)` of a price that is
 * a whole number of cents.
 */
module Formatting {
  import opened Options

  predicate IsDigit(c: char) {
    '0' <= c <= '9'
  }

  predicate AllDigits(s: string) {
    forall i :: 0 <= i < |s| ==> IsDigit(s[i])
  }

  function DigitChar(d: nat): (c: char)
    requires d < 10
    ensures IsDigit(c) && c as int - '0' as int == d
  {
    ('0' as int + d) as char
  }

  function DigitValue(c: char): (d: nat)
    requires IsDigit(c)
    ensures d < 10
  {
    c as int - '0' as int
  }

  /** The value a string of decimal digits denotes (most significant digit first). */
  function DigitsValue(s: string): nat
    requires AllDigits(s)
  {
    if s == [] then 0 else 10 * DigitsValue(s[..|s| - 1]) + DigitValue(s[|s| - 1])
  }

  /** `${n}` for a non-negative integer: its decimal digits, without leading zeros. */
  function NatToString(n: nat): (s: string)
    ensures 1 <= |s| && AllDigits(s)
    ensures |s| > 1 ==> s[0] != '0'
  {
    if n < 10 then [DigitChar(n)] else NatToString(n / 10) + [DigitChar(n % 10)]
  }

  lemma {:induction false} NatToStringRoundTrip(n: nat)
    ensures DigitsValue(NatToString(n)) == n
  {
    if n >= 10 {
      var s := NatToString(n / 10);
      NatToStringRoundTrip(n / 10);
      var t := s + [DigitChar(n % 10)];
      assert NatToString(n) == t;
      assert t[..|t| - 1] == s;
    }
  }

  /** Distinct numbers are rendered as distinct texts. */
  lemma NatToStringInjective(a: nat, b: nat)
    ensures NatToString(a) == NatToString(b) ==> a == b
  {
    NatToStringRoundTrip(a);
    NatToStringRoundTrip(b);
  }

  /** `Number(price).toFixed(2)` for a price of `cents` hundredths: integer part, a point, exactly two decimals. */
  function ToFixed2(cents: nat): (s: string)
    ensures |s| >= 4 && s[|s| - 3] == '.'
    ensures AllDigits(s[..|s| - 3]) && AllDigits(s[|s| - 2..])
    ensures s[..|s| - 3] == NatToString(cents / 100)
  {
    var s := NatToString(cents / 100) + ['.', DigitChar(cents % 100 / 10), DigitChar(cents % 10)];
    assert s[..|s| - 3] == NatToString(cents / 100);
    s
  }

  /** Reads back a two-decimal amount such as "10.00" as a number of cents. */
  function ParseFixed2(s: string): Option<nat> {
    if |s| >= 4 && s[|s| - 3] == '.' && AllDigits(s[..|s| - 3]) && AllDigits(s[|s| - 2..]) then
      Some(100 * DigitsValue(s[..|s| - 3]) + 10 * DigitValue(s[|s| - 2]) + DigitValue(s[|s| - 1]))
    else
      None
  }

  /** The formatted amount denotes exactly the price it was formatted from. */
  lemma {:induction false} Fixed2RoundTrip(cents: nat)
    ensures ParseFixed2(ToFixed2(cents)) == Some(cents)
  {
    var whole := NatToString(cents / 100);
    var s := ToFixed2(cents);
    assert s == whole + ['.', DigitChar(cents % 100 / 10), DigitChar(cents % 10)];
    assert s[..|s| - 3] == whole;
    NatToStringRoundTrip(cents / 100);
  }

  /** Two prices give the same formatted amount only if they are the same price. */
  lemma ToFixed2Injective(a: nat, b: nat)
    ensures ToFixed2(a) == ToFixed2(b) ==> a == b
  {
    Fixed2RoundTrip(a);
    Fixed2RoundTrip(b);
  }
}
