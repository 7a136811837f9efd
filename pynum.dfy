/**
  The parts of Python's numeric built-ins the backend relies on, over exact
  reals: `round(x, n)`, `str(n)` of a non-negative integer, and the `.1f`
  format specification.
*/
module PyNum {

  function Pow10(d: nat): (r: nat)
    ensures r >= 1
  {
    if d == 0 then 1 else 10 * Pow10(d - 1)
  }

  /** The integer nearest to y; a tie goes to the even neighbour (banker's rounding). */
  function RoundHalfEven(y: real): (n: int)
    ensures n as real - 0.5 <= y <= n as real + 0.5
    ensures y - y.Floor as real == 0.5 ==> n % 2 == 0
  {
    var f := y.Floor;
    var frac := y - f as real;
    if frac < 0.5 then f
    else if frac > 0.5 then f + 1
    else if f % 2 == 0 then f
    else f + 1
  }

  lemma RoundHalfEvenMonotone(y1: real, y2: real)
    requires y1 <= y2
    ensures RoundHalfEven(y1) <= RoundHalfEven(y2)
  {
  }

  lemma RoundHalfEvenOfInteger(k: int)
    ensures RoundHalfEven(k as real) == k
  {
  }

  /** Rounding an input between two integers gives a result between them. */
  lemma RoundHalfEvenWithin(y: real, lo: int, hi: int)
    requires lo as real <= y <= hi as real
    ensures lo <= RoundHalfEven(y) <= hi
  {
    RoundHalfEvenMonotone(lo as real, y);
    RoundHalfEvenMonotone(y, hi as real);
    RoundHalfEvenOfInteger(lo);
    RoundHalfEvenOfInteger(hi);
  }

  /** x measured in units of 1/p. */
  function Scale(x: real, p: nat): real {
    x * p as real
  }

  /** n units of 1/p, as a real. */
  function Unscale(n: int, p: nat): real
    requires p >= 1
  {
    n as real / p as real
  }

  /** Python's `round(x, digits)`: the nearest multiple of 10^-digits, ties to even. */
  function Round(x: real, digits: nat): (r: real)
    ensures Scale(r, Pow10(digits)) == RoundHalfEven(Scale(x, Pow10(digits))) as real
    ensures x - Unscale(1, 2 * Pow10(digits)) <= r <= x + Unscale(1, 2 * Pow10(digits))
  {
    var p := Pow10(digits);
    var n := RoundHalfEven(Scale(x, p));
    ScaleBack(x, p, n);
    UnscaleThenScale(n, p);
    Unscale(n, p)
  }

  lemma UnscaleThenScale(n: int, p: nat)
    requires p >= 1
    ensures Scale(Unscale(n, p), p) == n as real
  {
    var q := p as real;
    assert (n as real / q) * q == n as real;
  }

  lemma ScaleBack(x: real, p: nat, n: int)
    requires p >= 1
    requires n as real - 0.5 <= Scale(x, p) <= n as real + 0.5
    ensures x - Unscale(1, 2 * p) <= Unscale(n, p) <= x + Unscale(1, 2 * p)
  {
    var q := p as real;
    assert Unscale(n, p) - x == (n as real - x * q) / q;
    assert Unscale(1, 2 * p) == 0.5 / q;
  }

  /**
    A value whose scaled magnitude lies between two whole numbers of units
    of the last place rounds to a value between those same bounds.
  */
  lemma RoundWithin(x: real, digits: nat, lo: int, hi: int)
    requires lo as real <= Scale(x, Pow10(digits)) <= hi as real
    ensures Unscale(lo, Pow10(digits)) <= Round(x, digits) <= Unscale(hi, Pow10(digits))
  {
    var p := Pow10(digits);
    var n := RoundHalfEven(Scale(x, p));
    RoundHalfEvenWithin(Scale(x, p), lo, hi);
    DivideMonotone(lo as real, n as real, p as real);
    DivideMonotone(n as real, hi as real, p as real);
  }

  lemma DivideMonotone(a: real, b: real, p: real)
    requires a <= b && p > 0.0
    ensures a / p <= b / p
  {
    assert b / p - a / p == (b - a) / p;
  }

  predicate IsDigit(c: char) {
    '0' <= c <= '9'
  }

  predicate AllDigits(s: string) {
    forall i :: 0 <= i < |s| ==> IsDigit(s[i])
  }

  function DigitChar(d: nat): (c: char)
    requires d < 10
    ensures IsDigit(c) && c as int - '0' as int == d
  {
    ('0' as int + d) as char
  }

  /** Python's `str(n)` for a non-negative integer: its decimal digits, no leading zero. */
  function ToDecimal(n: nat): (s: string)
    ensures |s| >= 1 && AllDigits(s)
    ensures |s| > 1 ==> s[0] != '0'
    decreases n
  {
    if n < 10 then [DigitChar(n)] else ToDecimal(n / 10) + [DigitChar(n % 10)]
  }

  /**
    The value of a string of decimal digits, as Python's `int(s)` reads it
    for a non-empty string; the empty string reads as 0 here, where `int("")`
    raises. It is only applied to output of `ToDecimal`, which is never empty.
  */
  function ParseDecimal(s: string): (n: nat)
    requires AllDigits(s)
    decreases |s|
  {
    if s == [] then 0
    else ParseDecimal(s[..|s| - 1]) * 10 + (s[|s| - 1] as int - '0' as int)
  }

  lemma {:induction false} ParseToDecimal(n: nat)
    ensures ParseDecimal(ToDecimal(n)) == n
    decreases n
  {
    if n >= 10 {
      var s := ToDecimal(n / 10);
      var t := ToDecimal(n);
      assert t == s + [DigitChar(n % 10)];
      assert t[..|t| - 1] == s;
      ParseToDecimal(n / 10);
    }
  }

  /** A number with k digits is written with exactly k characters. */
  lemma {:induction false} DecimalLength(n: nat, k: nat)
    requires 1 <= k && Pow10(k - 1) <= n < Pow10(k)
    ensures |ToDecimal(n)| == k
    decreases k
  {
    if k > 1 {
      assert Pow10(k) == 10 * Pow10(k - 1);
      assert Pow10(k - 1) == 10 * Pow10(k - 2);
      DecimalLength(n / 10, k - 1);
    }
  }

  /** The `.1f` format of a non-negative real: integer part, a point, one decimal, rounded half to even. */
  function FormatFixed1(x: real): (s: string)
    requires x >= 0.0
    ensures |s| >= 3 && s[|s| - 2] == '.'
    ensures AllDigits(s[..|s| - 2]) && IsDigit(s[|s| - 1])
  {
    var n := RoundHalfEven(x * 10.0);
    ToDecimal(n / 10) + "." + [DigitChar(n % 10)]
  }

  /** Reading the formatted digits back gives the value in tenths, rounded half to even. */
  lemma FormatFixed1Value(x: real)
    requires x >= 0.0
    ensures var s := FormatFixed1(x);
      ParseDecimal(s[..|s| - 2]) * 10 + (s[|s| - 1] as int - '0' as int) == RoundHalfEven(x * 10.0)
  {
    var n := RoundHalfEven(x * 10.0);
    var s := FormatFixed1(x);
    assert s[..|s| - 2] == ToDecimal(n / 10);
    ParseToDecimal(n / 10);
  }
}
