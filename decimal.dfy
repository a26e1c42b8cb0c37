/**
 * Integer text and arithmetic rules of the JVM that the formatting code and
 * the media-id parsing rely on: Long division and remainder (truncating
 * toward zero), `%d` / `Long.toString`, `%02d`, and `String.toLongOrNull`.
 * Only ASCII digits are modelled.
 */
module Decimal {
  import opened Wrappers

  const LongMin: int := -0x8000_0000_0000_0000
  const LongMax: int := 0x7FFF_FFFF_FFFF_FFFF

  predicate InLongRange(n: int) {
    LongMin <= n <= LongMax
  }

  /** JVM `/` on integers: the quotient truncated toward zero. */
  function TDiv(a: int, b: int): int
    requires 0 < b
  {
    if a >= 0 then a / b else -((-a) / b)
  }

  /** JVM `%` on integers: the remainder takes the sign of the dividend. */
  function TRem(a: int, b: int): int
    requires 0 < b
  {
    a - b * TDiv(a, b)
  }

  /** Truncating and Euclidean division agree on non-negative operands. */
  lemma TruncatingIsEuclideanForNonNegative(a: int, b: int)
    requires 0 <= a && 0 < b
    ensures TDiv(a, b) == a / b && TRem(a, b) == a % b
    ensures 0 <= TRem(a, b) < b
  {
  }

  /** A product with a factor of magnitude at least one is at least the other factor in magnitude. */
  lemma MulOutsideBand(n: int, d: int)
    requires 0 < n
    ensures d >= 1 ==> n * d >= n
    ensures d <= -1 ==> n * d <= -n
  {
  }

  /** Quotient and remainder are the only pair with `x == n * q + r` and `0 <= r < n`. */
  lemma DivModUnique(x: int, n: int, q: int, r: int)
    requires 0 < n && 0 <= r < n && x == n * q + r
    ensures x / n == q && x % n == r
  {
    var q', r' := x / n, x % n;
    assert n * (q - q') == r' - r by {
      assert n * (q - q') == n * q - n * q';
    }
    MulOutsideBand(n, q - q');
  }

  /** Dividing by `a` and then by `b` is dividing by `a * b`. */
  lemma DivDiv(x: nat, a: nat, b: nat)
    requires 0 < a && 0 < b
    ensures x / a / b == x / (a * b)
  {
    var q1, r1 := x / a, x % a;
    var q2, r2 := q1 / b, q1 % b;
    assert x == a * b * q2 + (a * r2 + r1) by {
      assert x == a * q1 + r1;
      assert a * q1 == a * (b * q2 + r2) == a * b * q2 + a * r2;
    }
    assert a * r2 <= a * (b - 1) by {
      MulOutsideBand(a, b - 1 - r2);
    }
    assert a * (b - 1) == a * b - a;
    DivModUnique(x, a * b, q2, a * r2 + r1);
  }

  predicate IsDigit(c: char) {
    '0' <= c <= '9'
  }

  predicate AllDigits(s: string) {
    forall i :: 0 <= i < |s| ==> IsDigit(s[i])
  }

  function DigitChar(d: nat): (c: char)
    requires d < 10
    ensures IsDigit(c) && c as int - '0' as int == d
  {
    ('0' as int + d) as char
  }

  /** The decimal digits of `n`, most significant first, no leading zeros. */
  function Digits(n: nat): (s: string)
    ensures 1 <= |s| && AllDigits(s)
  {
    if n < 10 then [DigitChar(n)] else Digits(n / 10) + [DigitChar(n % 10)]
  }

  /** The number a string of decimal digits denotes. */
  function DigitsValue(s: string): nat
    requires AllDigits(s)
  {
    if s == [] then 0
    else DigitsValue(s[..|s| - 1]) * 10 + (s[|s| - 1] as int - '0' as int)
  }

  lemma {:induction false} DigitsRoundTrip(n: nat)
    ensures DigitsValue(Digits(n)) == n
  {
    if n >= 10 {
      var s := Digits(n);
      assert s[..|s| - 1] == Digits(n / 10);
      DigitsRoundTrip(n / 10);
    }
  }

  /** `Long.toString` and `%d`: a minus sign for negatives, then the digits. */
  function ToDecimal(n: int): string {
    if n < 0 then "-" + Digits(-n) else Digits(n)
  }

  /** `%02d`: at least two characters, padded with a leading zero. */
  function Pad2(n: int): string {
    if 0 <= n < 10 then "0" + Digits(n) else ToDecimal(n)
  }

  /** Kotlin `String.toLongOrNull()` in radix 10. */
  function ParseLong(s: string): (r: Option<int>)
    ensures r.Some? ==> InLongRange(r.value)
  {
    if s == [] then None
    else if s[0] < '0' then
      if |s| == 1 || !AllDigits(s[1..]) then None
      else if s[0] == '-' then
        (var v: int := DigitsValue(s[1..]); if v <= -LongMin then Some(-v) else None)
      else if s[0] == '+' then
        (if DigitsValue(s[1..]) <= LongMax then Some(DigitsValue(s[1..])) else None)
      else None
    else if AllDigits(s) && DigitsValue(s) <= LongMax then Some(DigitsValue(s))
    else None
  }

  /** Parsing the text `Long.toString` gives back the number, for every Long. */
  lemma LongTextRoundTrip(n: int)
    requires InLongRange(n)
    ensures ParseLong(ToDecimal(n)) == Some(n)
  {
    var t := ToDecimal(n);
    if n < 0 {
      DigitsRoundTrip(-n);
      assert t == "-" + Digits(-n);
      assert t[0] == '-' && |t| > 1;
      assert t[1..] == Digits(-n);
    } else {
      DigitsRoundTrip(n);
      assert t == Digits(n);
      assert IsDigit(t[0]);
    }
  }

  /** Different numbers have different decimal digits. */
  lemma DigitsInjective(a: nat, b: nat)
    requires Digits(a) == Digits(b)
    ensures a == b
  {
    DigitsRoundTrip(a);
    DigitsRoundTrip(b);
  }

  /** `%02d` of a value in 0..99 is exactly two digits and determines the value. */
  lemma Pad2TwoDigits(n: int)
    requires 0 <= n < 100
    ensures |Pad2(n)| == 2 && AllDigits(Pad2(n))
    ensures DigitsValue(Pad2(n)) == n
  {
    if n < 10 {
      assert Pad2(n)[..1] == "0";
    } else {
      var s := Digits(n);
      assert s[..1] == Digits(n / 10) == [DigitChar(n / 10)];
      assert DigitsValue(s[..1]) == n / 10 by {
        assert s[..1][..0] == [];
      }
    }
  }
}
