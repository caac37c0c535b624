/**
 * The second monthly review chart, over `{ year_month, total_reviews, avg_rating, n_products }`
 * rows: no validity filter, the rows sorted by `year_month`, one point per row carrying all
 * three series, the trend on the review totals, and the total / period statistics.
 */
module MonthlyReviewsClean {
  import opened Wrappers
  import opened Text
  import opened Numbers
  import opened Sequences
  import opened MonthlyTrend

  /** A row as this component reads it. */
  datatype Row = Row(yearMonth: string, totalReviews: int, avgRating: real, nProducts: int)

  /** One entry of `chartData`. */
  datatype Point = Point(month: string, monthLabel: string, totalReviews: int, avgRating: real, productCount: int)

  datatype View =
    | Loading
    | NoData
    | Chart(points: seq<Point>, trend: Trend, total: int, period: nat)

  function YearMonth(row: Row): string { row.yearMonth }

  function RowReviews(row: Row): int { row.totalReviews }

  function PointMonth(p: Point): string { p.month }

  function PointReviews(p: Point): int { p.totalReviews }

  /** The chart entry of a row: every field copied, the label rewritten. */
  function ToPoint(row: Row): Point
  {
    Point(row.yearMonth, MonthLabel(row.yearMonth), row.totalReviews, row.avgRating, row.nProducts)
  }

  /** What the component renders for its `data` and `isLoading` props. */
  function Render(data: Option<seq<Row>>, isLoading: bool): (v: View)
    ensures v.Chart? ==> data.Some? && 0 < v.period == |v.points| == |data.value|
  {
    if isLoading then Loading
    else if data.None? || data.value == [] then NoData
    else
      var points := Map(SortBy(data.value, YearMonth), ToPoint);
      Chart(points, GetTrend(Map(points, PointReviews)), SumOf(points, PointReviews), |points|)
  }

  /** Loading first, then absent or empty data; every other input is charted. */
  lemma RenderBranches(data: Option<seq<Row>>, isLoading: bool)
    ensures Render(data, isLoading) == Loading <==> isLoading
    ensures Render(data, isLoading) == NoData <==> !isLoading && (data.None? || data.value == [])
    ensures Render(data, isLoading).Chart? <==> !isLoading && data.Some? && data.value != []
  {
  }

  /**
   * The chart: the points are all rows (as a permutation, every field copied) in ascending
   * `year_month` order, rows of the same month in the order they came in (the sort is stable),
   * each label is the rewritten month, and the total is the sum of `total_reviews` over the rows.
   */
  lemma RenderChart(data: Option<seq<Row>>, isLoading: bool)
    requires Render(data, isLoading).Chart?
    ensures var v := Render(data, isLoading);
      && SortedBy(v.points, PointMonth)
      && multiset(v.points) == multiset(Map(data.value, ToPoint))
      && (forall k :: Filter(v.points, KeyIs(PointMonth, k)) == Map(Filter(data.value, KeyIs(YearMonth, k)), ToPoint))
      && (forall i :: 0 <= i < |v.points| ==> v.points[i].monthLabel == MonthLabel(v.points[i].month))
      && v.total == SumOf(data.value, RowReviews)
      && v.trend == (if v.period < 2 then Trend(Stable, Finite(0.0))
                     else TrendOf(v.points[0].totalReviews, v.points[v.period - 1].totalReviews))
  {
    var sorted := SortBy(data.value, YearMonth);
    var v := Render(data, isLoading);
    assert v.points == Map(sorted, ToPoint);
    SortBySorted(data.value, YearMonth);
    SortedByMap(sorted, ToPoint, YearMonth, PointMonth);
    MapSortBy(data.value, YearMonth, ToPoint);
    SumOfMap(sorted, ToPoint, PointReviews, RowReviews);
    SortBySum(data.value, YearMonth, RowReviews);
    forall k ensures Filter(v.points, KeyIs(PointMonth, k)) == Map(Filter(data.value, KeyIs(YearMonth, k)), ToPoint) {
      MapSortByStable(data.value, YearMonth, ToPoint, PointMonth, k);
    }
  }
}
