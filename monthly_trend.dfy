/**
 * What the two sorted monthly-review charts share: the `YYYY-MM` label rewrite
 * (`split('-').reverse().join('.')`) and `getTrend`, which compares the first and the last
 * point of the series: `percentage = ((last - first) / first) * 100`, direction `up` above 5,
 * `down` below -5, `stable` otherwise. Numbers are exact reals here; the division by a zero
 * `first` is written out as JavaScript evaluates it (plus or minus Infinity, or NaN for 0 / 0).
 */
module MonthlyTrend {
  import opened Text

  /** `month.split('-').reverse().join('.')`. */
  function MonthLabel(month: string): string
  {
    Join(Reverse(Split(month, '-')), ".")
  }

  /** `YYYY-MM` (two `-`-free parts) is shown as `MM.YYYY`, whatever the comment above the code says. */
  lemma MonthLabelOfYearMonth(year: string, mm: string)
    requires '-' !in year && '-' !in mm
    ensures MonthLabel(year + "-" + mm) == mm + "." + year
  {
    SplitAfterPiece(year, '-', mm);
    SplitPiece(mm, '-');
    assert year + "-" + mm == year + ['-'] + mm;
    assert Split(year + "-" + mm, '-') == [year, mm];
    assert Reverse([year, mm]) == [mm, year];
    assert Join([mm, year], ".") == mm + "." + Join([year], ".");
  }

  /** A month text without `-` is shown unchanged. */
  lemma MonthLabelOfPlain(month: string)
    requires '-' !in month
    ensures MonthLabel(month) == month
  {
    SplitPiece(month, '-');
  }

  datatype Direction = Up | Down | Stable

  /** A JavaScript number that `Math.abs` of the percentage can be: finite, Infinity, or NaN. */
  datatype Percent = Finite(value: real) | Infinite | NotANumber

  datatype Trend = Trend(direction: Direction, percentage: Percent)

  /** The trend between a first and a last count, as the code computes it. */
  function TrendOf(first: int, last: int): (t: Trend)
    ensures t.percentage.Finite? ==> t.percentage.value >= 0.0
  {
    if first == 0 then
      if last > 0 then Trend(Up, Infinite)
      else if last < 0 then Trend(Down, Infinite)
      else Trend(Stable, NotANumber)
    else
      var p := ((last - first) as real / first as real) * 100.0;
      Trend(if p > 5.0 then Up else if p < -5.0 then Down else Stable,
            Finite(if p < 0.0 then -p else p))
  }

  /** `getTrend()` over the series of counts: fewer than two points is `stable` with 0 percent. */
  function GetTrend(counts: seq<int>): Trend
  {
    if |counts| < 2 then Trend(Stable, Finite(0.0)) else TrendOf(counts[0], counts[|counts| - 1])
  }

  lemma QuotientAbove(d: real, f: real, c: real)
    requires f > 0.0
    ensures d / f > c <==> d > c * f
  {
    var q := d / f;
    assert q * f == d;
    assert (q - c) * f == d - c * f;
    if q > c {
      assert (q - c) * f > 0.0;
    } else {
      assert (c - q) * f >= 0.0;
    }
  }

  lemma QuotientBelow(d: real, f: real, c: real)
    requires f > 0.0
    ensures d / f < c <==> d < c * f
  {
    var q := d / f;
    assert q * f == d;
    assert (c - q) * f == c * f - d;
    if q < c {
      assert (c - q) * f > 0.0;
    } else {
      assert (q - c) * f >= 0.0;
    }
  }

  /**
   * For a positive first count the ±5% threshold is an integer comparison:
   * `up` exactly when `20 * (last - first) > first`, `down` exactly when `20 * (first - last) > first`.
   */
  lemma TrendThreshold(first: int, last: int)
    requires first > 0
    ensures TrendOf(first, last).direction == Up <==> 20 * (last - first) > first
    ensures TrendOf(first, last).direction == Down <==> 20 * (first - last) > first
    ensures TrendOf(first, last).direction == Stable <==> -first <= 20 * (last - first) <= first
  {
    var d, f := (last - first) as real, first as real;
    var q := d / f;
    QuotientAbove(d, f, 0.05);
    QuotientBelow(d, f, -0.05);
    assert (q * 100.0 > 5.0) == (q > 0.05);
    assert (q * 100.0 < -5.0) == (q < -0.05);
  }

  /** From a first count of zero any rise is `up` and any fall `down`; no change gives NaN and `stable`. */
  lemma TrendFromZero(last: int)
    ensures TrendOf(0, last).direction == (if last > 0 then Up else if last < 0 then Down else Stable)
    ensures TrendOf(0, last).percentage == (if last == 0 then NotANumber else Infinite)
  {
  }

  /** The trend of a series depends on its first and last counts only. */
  lemma TrendEnds(xs: seq<int>, ys: seq<int>)
    requires |xs| >= 2 && |ys| >= 2
    requires xs[0] == ys[0] && xs[|xs| - 1] == ys[|ys| - 1]
    ensures GetTrend(xs) == GetTrend(ys)
  {
  }
}
