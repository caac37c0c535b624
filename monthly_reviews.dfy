/**
 * The monthly review chart over `{ month, count }` records: a loading view, a no-data view
 * for absent or empty data, a validity filter with its own empty view, then the valid records
 * sorted by month, one chart point per record, the trend, and the total / monthly average /
 * period statistics.
 */
module MonthlyReviews {
  import opened Wrappers
  import opened Text
  import opened Numbers
  import opened Sequences
  import opened MonthlyTrend

  /**
   * A record as it arrives from the API. A field is `None` when it is missing or not of the
   * type the filter checks for; a `null` item behaves as `RawReview(None, None)`.
   */
  datatype RawReview = RawReview(month: Option<string>, count: Option<int>)

  /** One entry of `chartData`. */
  datatype Point = Point(month: string, monthLabel: string, reviewCount: int)

  /** The four things the component can render. */
  datatype View =
    | Loading
    | NoData
    | NoValidData
    | Chart(points: seq<Point>, trend: Trend, total: int, average: int, period: nat)

  /** A truthy string `month` and a numeric `count`. */
  predicate IsValid(item: RawReview)
  {
    item.month.Some? && item.month.value != "" && item.count.Some?
  }

  /** `validData`: the valid records, in their original order. */
  function ValidData(data: seq<RawReview>): seq<RawReview>
  {
    Filter(data, IsValid)
  }

  function MonthOf(item: RawReview): string { item.month.GetOr("") }

  function CountOf(item: RawReview): int { item.count.GetOr(0) }

  function PointMonth(p: Point): string { p.month }

  function ReviewCount(p: Point): int { p.reviewCount }

  /** The chart entry of a valid record: month and count copied, the label rewritten. */
  function ToPoint(item: RawReview): Point
  {
    Point(MonthOf(item), MonthLabel(MonthOf(item)), CountOf(item))
  }

  /** `chartData`: `[...validData].sort(by month)` mapped to points. */
  function ChartData(valid: seq<RawReview>): seq<Point>
  {
    Map(SortBy(valid, MonthOf), ToPoint)
  }

  /** What the component renders for its `data` and `isLoading` props. */
  function Render(data: Option<seq<RawReview>>, isLoading: bool): (v: View)
    ensures v.Chart? ==> data.Some? && 0 < v.period == |v.points| == |ValidData(data.value)|
  {
    if isLoading then Loading
    else if data.None? || data.value == [] then NoData
    else
      var valid := ValidData(data.value);
      if valid == [] then NoValidData
      else ChartView(valid)
  }

  /** The chart drawn for a non-empty list of valid records. */
  function ChartView(valid: seq<RawReview>): (v: View)
    requires valid != []
    ensures v.Chart? && 0 < v.period == |v.points| == |valid|
  {
    var points := ChartData(valid);
    var total := SumOf(points, ReviewCount);
    Chart(points, GetTrend(Map(points, ReviewCount)), total, RoundedMean(total, |points|), |points|)
  }

  /**
   * Which view is chosen: loading first, then absent or empty data (before any filtering),
   * then data of which no record is valid.
   */
  lemma RenderBranches(data: Option<seq<RawReview>>, isLoading: bool)
    ensures Render(data, isLoading) == Loading <==> isLoading
    ensures Render(data, isLoading) == NoData <==> !isLoading && (data.None? || data.value == [])
    ensures Render(data, isLoading) == NoValidData <==>
      !isLoading && data.Some? && data.value != [] && forall i :: 0 <= i < |data.value| ==> !IsValid(data.value[i])
  {
    if !isLoading && data.Some? && data.value != [] {
      var valid := ValidData(data.value);
      if valid != [] {
        assert valid[0] in data.value;
      } else {
        forall i | 0 <= i < |data.value| ensures !IsValid(data.value[i]) {
          assert data.value[i] in data.value;
        }
      }
    }
  }

  /**
   * The chart: the points are the valid records (as a permutation) in ascending month order,
   * records of the same month in the order they came in (the sort is stable),
   * each label is the rewritten month, the total is the sum of the valid counts (sorting does not
   * change it) and the average is its rounded mean over the period.
   */
  lemma RenderChart(data: Option<seq<RawReview>>, isLoading: bool)
    requires Render(data, isLoading).Chart?
    ensures var v, valid := Render(data, isLoading), ValidData(data.value);
      && SortedBy(v.points, PointMonth)
      && multiset(v.points) == multiset(Map(valid, ToPoint))
      && (forall k :: Filter(v.points, KeyIs(PointMonth, k)) == Map(Filter(valid, KeyIs(MonthOf, k)), ToPoint))
      && (forall i :: 0 <= i < |v.points| ==> v.points[i].monthLabel == MonthLabel(v.points[i].month))
      && v.total == SumOf(valid, CountOf)
      && v.average == RoundedMean(v.total, v.period)
      && v.trend == (if v.period < 2 then Trend(Stable, Finite(0.0))
                     else TrendOf(v.points[0].reviewCount, v.points[v.period - 1].reviewCount))
  {
    var valid := ValidData(data.value);
    assert Render(data, isLoading) == ChartView(valid);
    ChartViewFacts(valid);
  }

  lemma ChartViewFacts(valid: seq<RawReview>)
    requires valid != []
    ensures var v := ChartView(valid);
      && SortedBy(v.points, PointMonth)
      && multiset(v.points) == multiset(Map(valid, ToPoint))
      && (forall k :: Filter(v.points, KeyIs(PointMonth, k)) == Map(Filter(valid, KeyIs(MonthOf, k)), ToPoint))
      && (forall i :: 0 <= i < |v.points| ==> v.points[i].monthLabel == MonthLabel(v.points[i].month))
      && v.total == SumOf(valid, CountOf)
      && v.average == RoundedMean(v.total, v.period)
      && v.trend == (if v.period < 2 then Trend(Stable, Finite(0.0))
                     else TrendOf(v.points[0].reviewCount, v.points[v.period - 1].reviewCount))
  {
    var sorted := SortBy(valid, MonthOf);
    var points := Map(sorted, ToPoint);
    assert ChartView(valid).points == points;
    SortBySorted(valid, MonthOf);
    SortedByMap(sorted, ToPoint, MonthOf, PointMonth);
    MapSortBy(valid, MonthOf, ToPoint);
    SumOfMap(sorted, ToPoint, ReviewCount, CountOf);
    SortBySum(valid, MonthOf, CountOf);
    forall k ensures Filter(points, KeyIs(PointMonth, k)) == Map(Filter(valid, KeyIs(MonthOf, k)), ToPoint) {
      MapSortByStable(valid, MonthOf, ToPoint, PointMonth, k);
    }
  }

  /** The monthly average lies between the smallest and the largest monthly count. */
  lemma AverageWithinCounts(data: Option<seq<RawReview>>, isLoading: bool)
    requires Render(data, isLoading).Chart?
    ensures var v := Render(data, isLoading);
      Min(Map(v.points, ReviewCount)) <= v.average <= Max(Map(v.points, ReviewCount))
  {
    var v := Render(data, isLoading);
    var counts := Map(v.points, ReviewCount);
    RoundedMeanWithin(v.points, ReviewCount, Min(counts), Max(counts));
  }
}
