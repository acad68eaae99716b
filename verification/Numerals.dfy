/**
 Whole numbers as text, in base 10 and 36.
 */
module Numerals {
  predicate IsNumeral(c: char) {
    '0' <= c <= '9' || 'a' <= c <= 'z'
  }

  function Digit(d: nat): (c: char)
    requires d < 36
    ensures IsNumeral(c)
  {
    if d < 10 then '0' + d as char else 'a' + (d - 10) as char
  }

  // Decimal, and the base of the hash text.
  predicate IsBase(base: nat) {
    base == 10 || base == 36
  }

  // Number.toString(base).
  function Digits(n: nat, base: nat): string
    requires IsBase(base)
    decreases n
  {
    if n < base then [Digit(n)] else Digits(n / base, base) + [Digit(n % base)]
  }

  lemma LastDigit(n: nat, base: nat)
    requires IsBase(base)
    ensures Digits(n, base) != "" && Digits(n, base)[|Digits(n, base)| - 1] == Digit(n % base)
    ensures n >= base ==> Digits(n, base)[..|Digits(n, base)| - 1] == Digits(n / base, base)
  {
  }

  lemma {:induction false} DigitsAreNumerals(n: nat, base: nat)
    requires IsBase(base)
    ensures Digits(n, base) != ""
    ensures forall i :: 0 <= i < |Digits(n, base)| ==> IsNumeral(Digits(n, base)[i])
    decreases n
  {
    if n >= base {
      DigitsAreNumerals(n / base, base);
      LastDigit(n, base);
    }
  }

  lemma SplitByBase(n: nat, base: nat)
    requires IsBase(base)
    ensures n == base * (n / base) + n % base && (n >= base ==> n / base < n)
  {
  }

  lemma DigitsLikeDigits(m: nat, n: nat)
    requires m < 36 && n < 36 && Digit(m) == Digit(n)
    ensures m == n
  {}

  lemma LongerFromBase(n: nat, base: nat)
    requires IsBase(base)
    ensures |Digits(n, base)| > 1 <==> n >= base
  {
  }

  lemma {:induction false} DigitsDiffer(m: nat, n: nat, base: nat)
    requires IsBase(base) && Digits(m, base) == Digits(n, base)
    ensures m == n
    decreases m
  {
    LastDigit(m, base);
    LastDigit(n, base);
    DigitsLikeDigits(m % base, n % base);
    SplitByBase(m, base);
    SplitByBase(n, base);
    LongerFromBase(m, base);
    LongerFromBase(n, base);
    if m >= base && n >= base {
      DigitsDiffer(m / base, n / base, base);
    }
  }

  ghost function Power(base: nat, k: nat): nat {
    if k == 0 then 1 else base * Power(base, k - 1)
  }

  lemma QuotientBound(n: nat, base: nat, p: nat)
    requires IsBase(base) && n < base * p
    ensures n / base < p
  {
  }

  lemma {:induction false} DigitsLength(n: nat, base: nat, k: nat)
    requires IsBase(base) && k >= 1 && n < Power(base, k)
    ensures |Digits(n, base)| <= k
    decreases k
  {
    assert Power(base, 1) == base * Power(base, 0) == base;
    if n >= base {
      QuotientBound(n, base, Power(base, k - 1));
      DigitsLength(n / base, base, k - 1);
    }
  }

  // ----- reading decimal text ---------------------------------------------------------------------------

  predicate IsDecimal(s: string) {
    s != "" && forall i :: 0 <= i < |s| ==> '0' <= s[i] <= '9'
  }

  function Value(s: string): nat
    requires forall i :: 0 <= i < |s| ==> '0' <= s[i] <= '9'
  {
    if s == "" then 0 else 10 * Value(s[..|s| - 1]) + (s[|s| - 1] - '0') as nat
  }

  // No leading zero.
  predicate IsUnpadded(s: string) {
    IsDecimal(s) && (|s| == 1 || s[0] != '0')
  }

  lemma {:induction false} ValueOfDigits(n: nat)
    ensures IsUnpadded(Digits(n, 10)) && Value(Digits(n, 10)) == n
    ensures n > 0 ==> Digits(n, 10)[0] != '0'
    decreases n
  {
    LastDigit(n, 10);
    if n >= 10 {
      ValueOfDigits(n / 10);
      assert Digits(n, 10)[0] == Digits(n / 10, 10)[0];
    }
  }

  lemma ValueOfLast(s: string)
    requires IsDecimal(s)
    ensures var d := (s[|s| - 1] - '0') as nat;
      d < 10 && Digit(d) == s[|s| - 1] && Value(s) == 10 * Value(s[..|s| - 1]) + d
  {
  }

  lemma LongerByOne(n: nat, d: nat)
    requires n > 0 && d < 10
    ensures Digits(10 * n + d, 10) == Digits(n, 10) + [Digit(d)]
  {
  }

  lemma {:induction false} DigitsOfValue(s: string)
    requires IsUnpadded(s)
    ensures Digits(Value(s), 10) == s && (s[0] != '0' ==> Value(s) > 0)
    decreases |s|
  {
    var front, d := s[..|s| - 1], (s[|s| - 1] - '0') as nat;
    ValueOfLast(s);
    if |s| == 1 {
      assert front == "" && s == [s[0]];
    } else {
      DigitsOfValue(front);
      LongerByOne(Value(front), d);
      assert s == front + [s[|s| - 1]];
    }
  }
}
