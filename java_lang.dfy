/**
 * Java semantics the view relies on: integer division, the remainder, the
 * double-to-int cast, int-to-string conversion and null references, written
 * out over Dafny's unbounded `int` and exact `real`.
 * Dafny's own `/` and `%` are Euclidean; Java's truncate toward zero.
 */
module JavaLang {

  /** A Java reference that may be null. */
  datatype Nullable<T> = Null | NonNull(value: T)

  /** Java's `a / b` for a positive divisor: the quotient truncated toward zero. */
  function Div(a: int, b: int): (q: int)
    requires b > 0
    ensures a >= 0 ==> 0 <= b * q <= a < b * q + b
    ensures a < 0 ==> b * q - b < a <= b * q <= 0
  {
    if a >= 0 then
      NatDivBounds(a, b);
      a / b
    else
      var p := (-a) / b;
      NatDivBounds(-a, b);
      NegateProduct(b, p);
      -p
  }

  /** Dafny's quotient of a non-negative dividend is Java's. */
  lemma NatDivBounds(a: int, b: int)
    requires a >= 0 && b > 0
    ensures 0 <= b * (a / b) <= a < b * (a / b) + b
  {
    var q, r := a / b, a % b;
    assert a == b * q + r;
    assert 0 <= q;
    assert 0 <= b * q;
  }

  lemma NegateProduct(b: int, p: int)
    ensures b * -p == -(b * p)
  {
  }

  /** Java's `a % b` for a positive divisor: the remainder takes the sign of `a`. */
  function Rem(a: int, b: int): (r: int)
    requires b > 0
    ensures a == b * Div(a, b) + r
    ensures a >= 0 ==> 0 <= r < b
    ensures a < 0 ==> -b < r <= 0
  {
    a - b * Div(a, b)
  }

  /** Halving a doubled value is exact in Java, whatever the sign. */
  lemma DivOfDouble(x: int)
    ensures Div(2 * x, 2) == x
  {
  }

  /**
   * Java's `(int)` cast of a double, over reals: truncation toward zero.
   * (Java saturates at the 32-bit range; the model uses unbounded `int`.)
   */
  function TruncReal(x: real): (n: int)
    ensures x >= 0.0 ==> 0 <= n && n as real <= x < n as real + 1.0
    ensures x < 0.0 ==> n <= 0 && n as real - 1.0 < x <= n as real
  {
    if x >= 0.0 then x.Floor else -((-x).Floor)
  }

  /** Truncation toward zero never reverses the order of two values. */
  lemma TruncMonotone(x: real, y: real)
    requires x <= y
    ensures TruncReal(x) <= TruncReal(y)
  {
  }

  /** The decimal digit character for `d`. */
  function Digit(d: int): (c: char)
    requires 0 <= d < 10
    ensures '0' <= c <= '9'
  {
    ('0' as int + d) as char
  }

  function DigitValue(c: char): int
    requires '0' <= c <= '9'
  {
    c as int - '0' as int
  }

  predicate IsDigits(s: string) {
    forall i :: 0 <= i < |s| ==> '0' <= s[i] <= '9'
  }

  /** Java's decimal rendering of a non-negative int: no sign, no leading zeros. */
  function NatToString(n: nat): (s: string)
    ensures |s| >= 1 && IsDigits(s)
    ensures s[0] == '0' <==> n == 0
    ensures n < 10 <==> |s| == 1
    decreases n
  {
    if n < 10 then [Digit(n)] else NatToString(n / 10) + [Digit(n % 10)]
  }

  /** Reads a string of decimal digits back as a number. */
  function DigitsValue(s: string): nat
    requires IsDigits(s)
  {
    if |s| == 0 then 0 else DigitsValue(s[..|s| - 1]) * 10 + DigitValue(s[|s| - 1])
  }

  /** Java's `"" + n`: a minus sign, then the digits of the magnitude. */
  function IntToString(n: int): string {
    if n < 0 then "-" + NatToString(-n) else NatToString(n)
  }

  /** The decimal rendering of a natural number reads back as that number. */
  lemma {:induction false} NatToStringRoundTrip(n: nat)
    ensures DigitsValue(NatToString(n)) == n
    decreases n
  {
    if n >= 10 {
      NatToStringRoundTrip(n / 10);
      var s := NatToString(n);
      assert s[..|s| - 1] == NatToString(n / 10);
    }
  }
}
