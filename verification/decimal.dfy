/** PHP's conversion of an integer to its decimal string, as used when a flag
    id is appended to a webhook URL (`'/' . $id`), together with the parser
    that inverts it. */
module Decimal {

  predicate IsDigit(ch: char)
  {
    '0' <= ch <= '9'
  }

  predicate AllDigits(s: string)
  {
    forall i :: 0 <= i < |s| ==> IsDigit(s[i])
  }

  /** A well-formed decimal numeral: an optional minus sign followed by at
      least one digit. */
  predicate IsNumeral(s: string)
  {
    if |s| > 0 && s[0] == '-' then |s| > 1 && AllDigits(s[1..])
    else |s| > 0 && AllDigits(s)
  }

  /** The digits of a natural number as PHP writes them: at least one digit,
      and no leading zero unless the number is zero itself. */
  predicate IsCanonicalDigits(s: string)
  {
    |s| >= 1 && AllDigits(s) && (s[0] == '0' ==> |s| == 1)
  }

  /** The text PHP gives an integer: canonical digits, preceded by a minus
      sign exactly when the integer is negative (so never "-0"). */
  predicate IsCanonical(s: string)
  {
    if |s| > 0 && s[0] == '-' then IsCanonicalDigits(s[1..]) && s[1] != '0'
    else IsCanonicalDigits(s)
  }

  function Digit(d: nat): (ch: char)
    requires d < 10
    ensures IsDigit(ch)
    ensures DigitValue(ch) == d
  {
    ('0' as int + d) as char
  }

  function DigitValue(ch: char): (d: nat)
    requires IsDigit(ch)
    ensures d < 10
  {
    ch as int - '0' as int
  }

  /** The digits of `n`, most significant first, without leading zeros. */
  function FromNat(n: nat): (s: string)
    ensures IsCanonicalDigits(s)
    ensures s[0] == '0' <==> n == 0
    decreases n
  {
    if n < 10 then [Digit(n)] else FromNat(n / 10) + [Digit(n % 10)]
  }

  /** The value of a string of digits (the empty string reads as zero). */
  function ToNat(s: string): nat
    requires AllDigits(s)
    decreases |s|
  {
    if s == [] then 0 else 10 * ToNat(s[..|s| - 1]) + DigitValue(s[|s| - 1])
  }

  /** PHP's `(string) $i` for an integer `$i`. */
  function FromInt(i: int): (s: string)
    ensures IsNumeral(s) && IsCanonical(s)
    ensures s[0] == '-' <==> i < 0
  {
    if i < 0 then "-" + FromNat(-i) else FromNat(i)
  }

  function ToInt(s: string): int
    requires IsNumeral(s)
  {
    if s[0] == '-' then -(ToNat(s[1..]) as int) else ToNat(s)
  }

  lemma {:induction false} NatRoundTrip(n: nat)
    ensures ToNat(FromNat(n)) == n
    decreases n
  {
    if n >= 10 {
      var s := FromNat(n);
      assert s[..|s| - 1] == FromNat(n / 10);
      NatRoundTrip(n / 10);
    }
  }

  /** Reading back the text of an integer gives the integer. */
  lemma IntRoundTrip(i: int)
    ensures ToInt(FromInt(i)) == i
  {
    if i < 0 {
      assert FromInt(i)[1..] == FromNat(-i);
      NatRoundTrip(-i);
    } else {
      NatRoundTrip(i);
    }
  }

  /** Distinct integers have distinct texts. */
  lemma FromIntInjective(i: int, j: int)
    ensures FromInt(i) == FromInt(j) ==> i == j
  {
    IntRoundTrip(i);
    IntRoundTrip(j);
  }

  lemma DigitRoundTrip(ch: char)
    requires IsDigit(ch)
    ensures Digit(DigitValue(ch)) == ch
  {
  }

  /** Canonical digits that do not start with zero denote a positive number. */
  lemma {:induction false} LeadingDigitPositive(s: string)
    requires AllDigits(s) && |s| >= 1 && s[0] != '0'
    ensures ToNat(s) >= 1
    decreases |s|
  {
    if |s| > 1 {
      LeadingDigitPositive(s[..|s| - 1]);
    }
  }

  /** Every canonical string of digits is the text of the number it denotes. */
  lemma {:induction false} CanonicalDigitsRoundTrip(s: string)
    requires IsCanonicalDigits(s)
    ensures FromNat(ToNat(s)) == s
    decreases |s|
  {
    var last := s[|s| - 1];
    DigitRoundTrip(last);
    if |s| > 1 {
      var prefix := s[..|s| - 1];
      LeadingDigitPositive(prefix);
      CanonicalDigitsRoundTrip(prefix);
      assert ToNat(s) / 10 == ToNat(prefix) && ToNat(s) % 10 == DigitValue(last);
      assert s == prefix + [last];
    }
  }

  /** Every canonical numeral is the text of the integer it denotes, so
      `FromInt(i)` is the one canonical numeral reading as `i`. */
  lemma CanonicalRoundTrip(s: string)
    requires IsCanonical(s)
    ensures IsNumeral(s) && FromInt(ToInt(s)) == s
  {
    if s[0] == '-' {
      CanonicalDigitsRoundTrip(s[1..]);
      LeadingDigitPositive(s[1..]);
      assert s == "-" + s[1..];
    } else {
      CanonicalDigitsRoundTrip(s);
    }
  }

  /** Two canonical numerals reading as the same integer are the same text. */
  lemma CanonicalUnique(s: string, t: string)
    requires IsCanonical(s) && IsCanonical(t)
    ensures IsNumeral(s) && IsNumeral(t)
    ensures ToInt(s) == ToInt(t) ==> s == t
  {
    CanonicalRoundTrip(s);
    CanonicalRoundTrip(t);
  }
}
