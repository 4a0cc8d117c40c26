/**
 * The Foundation and Swift numeric behaviour the core relies on, written
 * out: `ceil` on a `CGFloat`/`Double`, the truncating `Int(_:)` conversion,
 * Swift's `/` and `%` on `Int` (which truncate toward zero, unlike Dafny's
 * Euclidean operators), the decimal rendering of an `Int` in string
 * interpolation, and `String(format: "%02d", n)`.
 */
module Numerics {

  /** `ceil(x)`: the least integer that is not below `x`. */
  function Ceil(x: real): (r: int)
    ensures x <= r as real < x + 1.0
  {
    if x.Floor as real == x then x.Floor else x.Floor + 1
  }

  /** `Int(x)` for a finite `Double`: drops the fraction, rounding toward zero. */
  function TruncateToInt(x: real): (r: int)
    ensures 0.0 <= x ==> 0 <= r && r as real <= x < r as real + 1.0
    ensures x < 0.0 ==> r <= 0 && r as real - 1.0 < x <= r as real
  {
    if x >= 0.0 then x.Floor else -((-x).Floor)
  }

  /** A value that is already integral converts to that integer. */
  lemma TruncateIntegral(n: int)
    ensures TruncateToInt(n as real) == n
  {
  }

  /** Swift's `a / b` on `Int` (for a positive divisor): the quotient truncated toward zero. */
  function TruncDiv(a: int, b: int): int
    requires b > 0
  {
    if a >= 0 then a / b else -((-a) / b)
  }

  /** Swift's `a % b` on `Int` (for a positive divisor): the remainder takes the sign of `a`. */
  function TruncRem(a: int, b: int): int
    requires b > 0
  {
    if a >= 0 then a % b else -((-a) % b)
  }

  /**
   * Quotient and remainder recombine to the dividend; the remainder lies in
   * `[0, b)` for a non-negative dividend and in `(-b, 0]` for a negative one.
   */
  lemma TruncDivRem(a: int, b: int)
    requires b > 0
    ensures TruncDiv(a, b) * b + TruncRem(a, b) == a
    ensures 0 <= a ==> 0 <= TruncRem(a, b) < b && 0 <= TruncDiv(a, b)
    ensures a < 0 ==> -b < TruncRem(a, b) <= 0 && TruncDiv(a, b) <= 0
  {
    var m := if a < 0 then -a else a;
    EuclideanNonNegative(m, b);
    if a < 0 {
      assert TruncDiv(a, b) * b == -((m / b) * b);
    }
  }

  /** For a non-negative dividend Dafny's Euclidean quotient and remainder are Swift's. */
  lemma EuclideanNonNegative(m: int, b: int)
    requires 0 <= m && 0 < b
    ensures (m / b) * b + m % b == m && 0 <= m % b < b && 0 <= m / b
  {
  }

  predicate IsDigit(c: char) {
    '0' <= c <= '9'
  }

  predicate AllDigits(s: string) {
    forall i :: 0 <= i < |s| ==> IsDigit(s[i])
  }

  function DigitValue(c: char): int
    requires IsDigit(c)
  {
    c as int - '0' as int
  }

  function DigitChar(d: int): (c: char)
    requires 0 <= d < 10
    ensures IsDigit(c) && DigitValue(c) == d
  {
    ('0' as int + d) as char
  }

  /** The decimal digits of `n`, most significant first, with no leading zero. */
  function Decimal(n: nat): (s: string)
    ensures AllDigits(s) && 1 <= |s|
    ensures n < 10 ==> |s| == 1
    ensures 10 <= n ==> 2 <= |s|
    ensures 10 <= n < 100 ==> |s| == 2
    ensures 1 < |s| ==> s[0] != '0'
  {
    if n < 10 then [DigitChar(n)] else Decimal(n / 10) + [DigitChar(n % 10)]
  }

  /** The number a string of decimal digits denotes (leading zeros allowed). */
  function ParseDecimal(s: string): nat
    requires AllDigits(s)
  {
    if s == [] then 0 else ParseDecimal(s[..|s| - 1]) * 10 + DigitValue(s[|s| - 1])
  }

  /** Reading back the decimal rendering of `n` gives `n`. */
  lemma {:induction false} ParseDecimalOfDecimal(n: nat)
    ensures ParseDecimal(Decimal(n)) == n
  {
    var s := Decimal(n);
    if n >= 10 {
      ParseDecimalOfDecimal(n / 10);
      assert s[..|s| - 1] == Decimal(n / 10);
    }
  }

  /** A leading `0` does not change the number a digit string denotes. */
  lemma {:induction false} ParseDecimalLeadingZero(s: string)
    requires AllDigits(s)
    ensures AllDigits("0" + s) && ParseDecimal("0" + s) == ParseDecimal(s)
  {
    if s != [] {
      ParseDecimalLeadingZero(s[..|s| - 1]);
      assert ("0" + s)[..|"0" + s| - 1] == "0" + s[..|s| - 1];
    }
  }

  /** `"\(n)"` for an `Int`: a minus sign for a negative value, then the decimal digits. */
  function IntString(n: int): (s: string)
    ensures 0 <= n ==> AllDigits(s) && ParseDecimal(s) == n
    ensures n < 0 ==> 2 <= |s| && s[0] == '-' && AllDigits(s[1..]) && ParseDecimal(s[1..]) == -n
  {
    ParseDecimalOfDecimal(if n < 0 then -n else n);
    if n < 0 then "-" + Decimal(-n) else Decimal(n)
  }

  /**
   * `String(format: "%02d", n)`: the decimal rendering, padded with a
   * leading zero to a field of two characters. A negative value already
   * fills the field with its sign.
   */
  function ZeroPad2(n: int): (s: string)
    ensures 2 <= |s|
    ensures 0 <= n ==> AllDigits(s)
    ensures 0 <= n < 100 ==> |s| == 2
    ensures n < 0 ==> s[0] == '-'
  {
    var body := IntString(n);
    if |body| < 2 then "0" + body else body
  }

  /** The padded field of a non-negative value reads back as that value. */
  lemma ZeroPad2RoundTrip(n: nat)
    ensures AllDigits(ZeroPad2(n)) && ParseDecimal(ZeroPad2(n)) == n
  {
    var body := IntString(n);
    if |body| < 2 {
      ParseDecimalLeadingZero(body);
    }
  }
}
