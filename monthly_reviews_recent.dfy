/**
 * The third monthly review chart, over `{ year_month, review_count }` rows: the last twelve
 * rows in their original order (no sorting), `formatMonth` for the axis, and the maximum,
 * total and rounded average of the review counts.
 */
module MonthlyReviewsRecent {
  import opened Wrappers
  import opened Text
  import opened Numbers
  import opened Sequences

  /** A row as this component reads it; `yearMonth` is `None` when it is not a string. */
  datatype Row = Row(yearMonth: Option<string>, reviewCount: int)

  /** One entry of `chartData`. */
  datatype Point = Point(month: string, reviews: int, fullMonth: Option<string>)

  datatype View =
    | Loading
    | NoData
    | Chart(points: seq<Point>, maxReviews: int, totalReviews: int, avgReviews: int)

  /** `data.slice(-12)`: the last twelve rows, or all of them when there are fewer. */
  function Recent(data: seq<Row>): (recent: seq<Row>)
    ensures |recent| == if |data| < 12 then |data| else 12
    ensures recent == data[|data| - |recent|..]
  {
    if |data| <= 12 then data else data[|data| - 12..]
  }

  /** `year.slice(2)`. */
  function DropTwo(s: string): string
  {
    if |s| <= 2 then "" else s[2..]
  }

  /** `formatMonth(yearMonth)`. */
  function FormatMonth(yearMonth: Option<string>): string
  {
    if yearMonth.None? || yearMonth.value == "" then "N/A"
    else
      var parts := Split(yearMonth.value, '-');
      if |parts| != 2 then yearMonth.value
      else DropTwo(parts[0]) + "." + parts[1]
  }

  /** A missing, non-string or empty month is shown as `N/A`. */
  lemma FormatMonthMissing(yearMonth: Option<string>)
    requires yearMonth.None? || yearMonth == Some("")
    ensures FormatMonth(yearMonth) == "N/A"
  {
  }

  /** A non-empty month text with other than exactly one `-` is returned unchanged. */
  lemma FormatMonthUnchanged(s: string)
    requires s != "" && Count(s, '-') != 1
    ensures FormatMonth(Some(s)) == s
  {
    SplitLength(s, '-');
  }

  /** `YYYY-MM` is shown as `YY.MM`: the year without its first two characters, `.`, the month. */
  lemma FormatMonthOfYearMonth(year: string, mm: string)
    requires '-' !in year && '-' !in mm
    ensures FormatMonth(Some(year + "-" + mm)) == DropTwo(year) + "." + mm
  {
    assert year + "-" + mm == year + ['-'] + mm;
    SplitAfterPiece(year, '-', mm);
    SplitPiece(mm, '-');
  }

  function ToPoint(row: Row): Point
  {
    Point(FormatMonth(row.yearMonth), row.reviewCount, row.yearMonth)
  }

  function RowReviews(row: Row): int { row.reviewCount }

  /** What the component renders for its `data` and `isLoading` props. */
  function Render(data: Option<seq<Row>>, isLoading: bool): (v: View)
    ensures v.Chart? ==> data.Some? && |v.points| == |Recent(data.value)| > 0
  {
    if isLoading then Loading
    else if data.None? || data.value == [] then NoData
    else
      ChartView(Recent(data.value))
  }

  /** The chart drawn for the non-empty list of recent rows. */
  function ChartView(recent: seq<Row>): (v: View)
    requires recent != []
    ensures v.Chart? && |v.points| == |recent|
  {
    var total := SumOf(recent, RowReviews);
    Chart(Map(recent, ToPoint), Max(Map(recent, RowReviews)), total, RoundedMean(total, |recent|))
  }

  /** Loading first, then absent or empty data; every other input is charted. */
  lemma RenderBranches(data: Option<seq<Row>>, isLoading: bool)
    ensures Render(data, isLoading) == Loading <==> isLoading
    ensures Render(data, isLoading) == NoData <==> !isLoading && (data.None? || data.value == [])
    ensures Render(data, isLoading).Chart? <==> !isLoading && data.Some? && data.value != []
  {
  }

  /**
   * The chart: point `i` comes from the `i`-th of the last twelve rows, in their original order;
   * the maximum is attained by one of those rows and bounds all of them; the total is their sum;
   * the average is its rounded mean and lies between the smallest count and the maximum.
   */
  lemma RenderChart(data: Option<seq<Row>>, isLoading: bool)
    requires Render(data, isLoading).Chart?
    ensures var v, recent := Render(data, isLoading), Recent(data.value);
      && (forall i :: 0 <= i < |recent| ==>
            v.points[i] == Point(FormatMonth(recent[i].yearMonth), recent[i].reviewCount, recent[i].yearMonth))
      && (exists i :: 0 <= i < |recent| && v.maxReviews == recent[i].reviewCount)
      && (forall i :: 0 <= i < |recent| ==> recent[i].reviewCount <= v.maxReviews)
      && v.totalReviews == SumOf(recent, RowReviews)
      && v.avgReviews == RoundedMean(v.totalReviews, |recent|)
      && Min(Map(recent, RowReviews)) <= v.avgReviews <= v.maxReviews
  {
    var recent := Recent(data.value);
    assert Render(data, isLoading) == ChartView(recent);
    ChartViewFacts(recent);
  }

  lemma ChartViewFacts(recent: seq<Row>)
    requires recent != []
    ensures var v := ChartView(recent);
      && (forall i :: 0 <= i < |recent| ==>
            v.points[i] == Point(FormatMonth(recent[i].yearMonth), recent[i].reviewCount, recent[i].yearMonth))
      && (exists i :: 0 <= i < |recent| && v.maxReviews == recent[i].reviewCount)
      && (forall i :: 0 <= i < |recent| ==> recent[i].reviewCount <= v.maxReviews)
      && v.totalReviews == SumOf(recent, RowReviews)
      && v.avgReviews == RoundedMean(v.totalReviews, |recent|)
      && Min(Map(recent, RowReviews)) <= v.avgReviews <= v.maxReviews
  {
    var counts := Map(recent, RowReviews);
    var m := Max(counts);
    var k :| 0 <= k < |counts| && counts[k] == m;
    assert m == recent[k].reviewCount;
    RoundedMeanWithin(recent, RowReviews, Min(counts), m);
  }
}
