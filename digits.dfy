/**
 * Decimal rendering of integers, as Swift's `String(_: Int)` and the `%02i`
 * conversion of `String(format:)` produce it.
 */
module Digits {

  predicate IsDigit(c: char) {
    '0' <= c <= '9'
  }

  predicate AllDigits(s: string) {
    forall k :: 0 <= k < |s| ==> IsDigit(s[k])
  }

  function DigitChar(d: int): (c: char)
    requires 0 <= d < 10
    ensures IsDigit(c) && c as int - '0' as int == d
  {
    ('0' as int + d) as char
  }

  function DigitValue(c: char): (d: int)
    requires IsDigit(c)
    ensures 0 <= d < 10
  {
    c as int - '0' as int
  }

  /** The value a string of decimal digits denotes (most significant digit first). */
  function DecimalValue(s: string): (v: nat)
    requires AllDigits(s)
  {
    if s == [] then 0 else DecimalValue(s[..|s| - 1]) * 10 + DigitValue(s[|s| - 1])
  }

  /** `String(n)` for a non-negative `n`: no sign, no leading zeros. */
  function Decimal(n: nat): (s: string)
    ensures |s| >= 1 && AllDigits(s)
  {
    if n < 10 then [DigitChar(n)] else Decimal(n / 10) + [DigitChar(n % 10)]
  }

  /** `Decimal` is canonical: it denotes `n` and starts with '0' only for `n == 0`. */
  lemma {:induction false} DecimalCanonical(n: nat)
    ensures DecimalValue(Decimal(n)) == n
    ensures Decimal(n)[0] == '0' <==> n == 0
  {
    if n >= 10 {
      DecimalCanonical(n / 10);
      var s := Decimal(n);
      assert s[..|s| - 1] == Decimal(n / 10);
    }
  }

  /** Two canonical renderings are equal exactly when the numbers are. */
  lemma DecimalInjective(m: nat, n: nat)
    ensures Decimal(m) == Decimal(n) <==> m == n
  {
    DecimalCanonical(m);
    DecimalCanonical(n);
  }

  /**
   * The `%02i` conversion: the decimal of `|n|`, preceded by '-' when `n` is
   * negative, zero-padded on the left to at least two characters (the sign
   * counts towards the width).
   */
  function Pad2(n: int): (s: string)
    ensures |s| >= 2
    ensures n < 0 <==> s[0] == '-'
    ensures n >= 0 ==> AllDigits(s) && DecimalValue(s) == n
  {
    if n < 0 then "-" + Decimal(-n)
    else if n < 10 then
      var s := "0" + Decimal(n);
      assert s == ['0', DigitChar(n)] && s[..1] == "0" && s[..1][..0] == [];
      assert DecimalValue(s[..1]) == 0;
      s
    else DecimalCanonical(n); Decimal(n)
  }

  /** For `0 <= n < 100`, `%02i` gives exactly the tens and the units digit. */
  lemma Pad2Digits(n: int)
    requires 0 <= n < 100
    ensures Pad2(n) == [DigitChar(n / 10), DigitChar(n % 10)]
  {
    if n >= 10 {
      assert Decimal(n / 10) == [DigitChar(n / 10)];
    }
  }

  /** For `0 <= n < 100`, `%02i` gives two digits that denote `n`. */
  lemma Pad2Value(n: int)
    requires 0 <= n < 100
    ensures |Pad2(n)| == 2 && AllDigits(Pad2(n)) && DecimalValue(Pad2(n)) == n
  {
    Pad2Digits(n);
    var s := Pad2(n);
    assert s[..1] == [DigitChar(n / 10)];
    assert s[..1][..0] == [];
    assert DecimalValue(s[..1]) == n / 10;
    assert DecimalValue(s) == (n / 10) * 10 + n % 10;
  }
}
