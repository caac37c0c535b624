/**
 * The integer facts behind the dashboard's statistics: sums (`reduce((s, x) => s + x, 0)`),
 * `Math.max`/`Math.min` over a spread list, `Math.round` of a quotient, and the decimal
 * text a number takes inside a template string.
 */
module Numbers {

  /** `xs.reduce((sum, x) => sum + f(x), 0)`. */
  function SumOf<T>(xs: seq<T>, f: T -> int): int
  {
    if xs == [] then 0 else f(xs[0]) + SumOf(xs[1..], f)
  }

  /** The identity on numbers, for sums of plain number lists. */
  function Itself(x: int): int { x }

  lemma {:induction false} SumAppend<T>(xs: seq<T>, ys: seq<T>, f: T -> int)
    ensures SumOf(xs + ys, f) == SumOf(xs, f) + SumOf(ys, f)
  {
    if xs == [] {
      assert xs + ys == ys;
    } else {
      assert (xs + ys)[1..] == xs[1..] + ys;
      SumAppend(xs[1..], ys, f);
    }
  }

  /** A sum of values that all lie in `[lo, hi]` lies in `[n * lo, n * hi]`. */
  lemma {:induction false} SumBounds<T>(xs: seq<T>, f: T -> int, lo: int, hi: int)
    requires forall i :: 0 <= i < |xs| ==> lo <= f(xs[i]) <= hi
    ensures |xs| * lo <= SumOf(xs, f) <= |xs| * hi
  {
    if xs != [] {
      SumBounds(xs[1..], f, lo, hi);
    }
  }

  /** `Math.max(...xs)` for a non-empty list: an upper bound that is attained. */
  function Max(xs: seq<int>): (m: int)
    requires |xs| > 0
    ensures m in xs
    ensures forall i :: 0 <= i < |xs| ==> xs[i] <= m
  {
    if |xs| == 1 then xs[0]
    else
      var rest := Max(xs[1..]);
      if xs[0] >= rest then xs[0] else rest
  }

  /** `Math.min(...xs)` for a non-empty list: a lower bound that is attained. */
  function Min(xs: seq<int>): (m: int)
    requires |xs| > 0
    ensures m in xs
    ensures forall i :: 0 <= i < |xs| ==> m <= xs[i]
  {
    if |xs| == 1 then xs[0]
    else
      var rest := Min(xs[1..]);
      if xs[0] <= rest then xs[0] else rest
  }

  /** `Math.round(x)`: the nearest integer, halves rounded towards positive infinity. */
  function Round(x: real): int
  {
    (x + 0.5).Floor
  }

  /** `Math.round(total / n)` for a positive count `n`. */
  function RoundedMean(total: int, n: int): int
    requires n > 0
  {
    Round(total as real / n as real)
  }

  /** The floor of an exact quotient is Euclidean integer division. */
  lemma FloorOfQuotient(a: int, b: int)
    requires b > 0
    ensures (a as real / b as real).Floor == a / b
  {
    var q, r := a / b, a % b;
    assert a == b * q + r;
    assert a as real == (b as real) * (q as real) + r as real;
    assert a as real / b as real == q as real + r as real / b as real;
    assert 0.0 <= r as real / b as real < 1.0;
  }

  lemma QuotientOfProduct(y: real, z: real, c: real)
    requires c != 0.0 && y == z * c
    ensures y / c == z
  {
  }

  lemma MulMono(n: int, a: int, b: int)
    requires n >= 0 && a <= b
    ensures n * a <= n * b
  {
    assert n * b - n * a == n * (b - a);
  }

  /** `Math.round(total / n)` computed in integers. */
  lemma RoundedMeanIsDivision(total: int, n: int)
    requires n > 0
    ensures RoundedMean(total, n) == (2 * total + n) / (2 * n)
  {
    var x := total as real / n as real;
    assert x * n as real == total as real;
    assert (2 * total + n) as real == (x + 0.5) * (2 * n) as real;
    QuotientOfProduct((2 * total + n) as real, x + 0.5, (2 * n) as real);
    FloorOfQuotient(2 * total + n, 2 * n);
  }

  /** The rounded mean, stated without division: `r` is the integer with `r - 1/2 <= total / n < r + 1/2`. */
  lemma RoundedMeanBounds(total: int, n: int)
    requires n > 0
    ensures 2 * n * RoundedMean(total, n) <= 2 * total + n < 2 * n * RoundedMean(total, n) + 2 * n
  {
    RoundedMeanIsDivision(total, n);
    var a, b := 2 * total + n, 2 * n;
    assert a == b * (a / b) + a % b;
  }

  lemma IntervalOfRounded(total: int, n: int, r: int, lo: int, hi: int)
    requires n > 0
    requires n * lo <= total <= n * hi
    requires 2 * n * r <= 2 * total + n < 2 * n * r + 2 * n
    ensures lo <= r <= hi
  {
    if r > hi {
      MulMono(n, hi + 1, r);
    }
    if r < lo {
      MulMono(n, r + 1, lo);
    }
  }

  /** A rounded mean of values in `[lo, hi]` is again in `[lo, hi]`. */
  lemma RoundedMeanWithin<T>(xs: seq<T>, f: T -> int, lo: int, hi: int)
    requires |xs| > 0
    requires forall i :: 0 <= i < |xs| ==> lo <= f(xs[i]) <= hi
    ensures lo <= RoundedMean(SumOf(xs, f), |xs|) <= hi
  {
    SumBounds(xs, f, lo, hi);
    RoundedMeanBounds(SumOf(xs, f), |xs|);
    IntervalOfRounded(SumOf(xs, f), |xs|, RoundedMean(SumOf(xs, f), |xs|), lo, hi);
  }

  // ---------------------------------------------------------------------------
  // Decimal text

  function Digit(d: int): (c: char)
    requires 0 <= d < 10
    ensures '0' <= c <= '9'
  {
    (d + '0' as int) as char
  }

  predicate IsDigits(s: string)
  {
    forall i :: 0 <= i < |s| ==> '0' <= s[i] <= '9'
  }

  /** The decimal text of a natural number: no sign, no leading zeros. */
  function NatToString(n: nat): (s: string)
    ensures |s| >= 1 && IsDigits(s)
    ensures s[0] == '0' ==> n == 0 && s == "0"
  {
    if n < 10 then [Digit(n)] else NatToString(n / 10) + [Digit(n % 10)]
  }

  /** `${n}` of an integer-valued number in a template string. */
  function IntToString(n: int): (s: string)
    ensures |s| >= 1
    ensures forall i :: 0 <= i < |s| ==> s[i] == '-' || '0' <= s[i] <= '9'
  {
    if n < 0 then "-" + NatToString(-n) else NatToString(n)
  }

  /** Reads a string of decimal digits as a number. */
  function DigitsValue(s: string): nat
    requires IsDigits(s)
  {
    if s == [] then 0 else DigitsValue(s[..|s| - 1]) * 10 + (s[|s| - 1] as int - '0' as int)
  }

  lemma {:induction false} NatToStringRoundTrip(n: nat)
    ensures DigitsValue(NatToString(n)) == n
  {
    if n >= 10 {
      var s := NatToString(n);
      NatToStringRoundTrip(n / 10);
      assert s[..|s| - 1] == NatToString(n / 10);
    }
  }

  lemma NatToStringInjective(a: nat, b: nat)
    requires NatToString(a) == NatToString(b)
    ensures a == b
  {
    NatToStringRoundTrip(a);
    NatToStringRoundTrip(b);
  }

  /** Different integers have different decimal texts. */
  lemma IntToStringInjective(a: int, b: int)
    requires IntToString(a) == IntToString(b)
    ensures a == b
  {
    var s, t := IntToString(a), IntToString(b);
    assert s[0] == t[0];
    if a < 0 && b < 0 {
      assert s[1..] == NatToString(-a) && t[1..] == NatToString(-b);
      NatToStringInjective(-a, -b);
    } else if a >= 0 && b >= 0 {
      NatToStringInjective(a, b);
    }
  }
}
