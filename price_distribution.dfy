/**
 * The price distribution chart over `{ prices, hist }`: a loading view, a no-data view when
 * the data or its histogram is absent or empty, a validity filter on the histogram bins with
 * its own empty view, one bar per valid bin, and count / average / maximum / minimum statistics
 * computed from the list of prices (not from the histogram).
 */
module PriceDistribution {
  import opened Wrappers
  import opened Text
  import opened Numbers
  import opened Sequences

  /** A histogram bin as it arrives; a `null` bin behaves as `RawBin(None, None)`. */
  datatype RawBin = RawBin(binLabel: Option<string>, count: Option<int>)

  /** The `data` prop; an absent field is `None`. */
  datatype Distribution = Distribution(prices: Option<seq<int>>, hist: Option<seq<RawBin>>)

  /** One entry of `chartData`. */
  datatype Bar = Bar(priceRange: string, count: int, shownLabel: string)

  datatype Stats = Stats(totalProducts: nat, avgPrice: int, maxPrice: int, minPrice: int)

  datatype View =
    | Loading
    | NoData
    | NoValidData
    | Chart(bars: seq<Bar>, stats: Stats)

  /** A truthy string `bin_label` and a numeric `count`. */
  predicate IsValid(bin: RawBin)
  {
    bin.binLabel.Some? && bin.binLabel.value != "" && bin.count.Some?
  }

  /** `validData`: the valid bins, in their original order. */
  function ValidData(hist: seq<RawBin>): seq<RawBin>
  {
    Filter(hist, IsValid)
  }

  /** `₩${binLabel.replace(',', '')}`: a string pattern, so only the first comma goes. */
  function ShownLabel(binLabel: string): (shown: string)
    ensures |shown| >= 1 && shown[0] == '₩'
  {
    "₩" + RemoveFirst(binLabel, ',')
  }

  function ToBar(bin: RawBin): Bar
  {
    Bar(bin.binLabel.GetOr(""), bin.count.GetOr(0), ShownLabel(bin.binLabel.GetOr("")))
  }

  /** The four price statistics: all zero without prices. */
  function PriceStats(prices: Option<seq<int>>): (st: Stats)
    ensures st.totalProducts == if prices.None? then 0 else |prices.value|
    ensures st.totalProducts == 0 ==> st == Stats(0, 0, 0, 0)
    ensures st.totalProducts > 0 ==>
      && st.minPrice in prices.value && st.maxPrice in prices.value
      && (forall i :: 0 <= i < |prices.value| ==> st.minPrice <= prices.value[i] <= st.maxPrice)
      && st.avgPrice == RoundedMean(SumOf(prices.value, Itself), |prices.value|)
  {
    var total := if prices.None? then 0 else |prices.value|;
    if total == 0 then Stats(0, 0, 0, 0)
    else Stats(total, RoundedMean(SumOf(prices.value, Itself), total), Max(prices.value), Min(prices.value))
  }

  /** What the component renders for its `data` and `isLoading` props. */
  function Render(data: Option<Distribution>, isLoading: bool): View
  {
    if isLoading then Loading
    else if data.None? || data.value.hist.None? || data.value.hist.value == [] then NoData
    else
      var valid := ValidData(data.value.hist.value);
      if valid == [] then NoValidData
      else Chart(Map(valid, ToBar), PriceStats(data.value.prices))
  }

  /**
   * Absent data, an absent histogram or an empty one is the no-data view whatever the prices are;
   * a histogram without valid bins is the no-valid-data view.
   */
  lemma RenderBranches(data: Option<Distribution>, isLoading: bool)
    ensures Render(data, isLoading) == Loading <==> isLoading
    ensures Render(data, isLoading) == NoData <==>
      !isLoading && (data.None? || data.value.hist.None? || data.value.hist.value == [])
    ensures Render(data, isLoading) == NoValidData <==>
      && !isLoading && data.Some? && data.value.hist.Some? && data.value.hist.value != []
      && forall i :: 0 <= i < |data.value.hist.value| ==> !IsValid(data.value.hist.value[i])
  {
    if !isLoading && data.Some? && data.value.hist.Some? && data.value.hist.value != [] {
      var hist := data.value.hist.value;
      var valid := ValidData(hist);
      if valid != [] {
        assert valid[0] in hist;
      } else {
        forall i | 0 <= i < |hist| ensures !IsValid(hist[i]) {
          assert hist[i] in hist;
        }
      }
    }
  }

  /**
   * The chart: one bar per valid bin, in order, with `priceRange` and `count` copied; the
   * statistics depend on the prices only, so the product count is the number of prices and not
   * the sum of the histogram counts.
   */
  lemma RenderChart(data: Option<Distribution>, isLoading: bool)
    requires Render(data, isLoading).Chart?
    ensures var v, valid := Render(data, isLoading), ValidData(data.value.hist.value);
      && |v.bars| == |valid|
      && (forall i :: 0 <= i < |valid| ==>
            && v.bars[i].priceRange == valid[i].binLabel.value
            && v.bars[i].count == valid[i].count.value
            && v.bars[i].shownLabel == ShownLabel(valid[i].binLabel.value))
      && v.stats == PriceStats(data.value.prices)
      && v.stats.totalProducts == if data.value.prices.None? then 0 else |data.value.prices.value|
  {
  }

  /** The average price lies between the cheapest and the dearest price. */
  lemma AverageWithinRange(prices: Option<seq<int>>)
    ensures PriceStats(prices).minPrice <= PriceStats(prices).avgPrice <= PriceStats(prices).maxPrice
  {
    var st := PriceStats(prices);
    if st.totalProducts > 0 {
      RoundedMeanWithin(prices.value, Itself, st.minPrice, st.maxPrice);
    }
  }

  /**
   * The shown label drops exactly one comma when there is one (a label with `k >= 1` commas keeps
   * `k - 1`) and is `₩` followed by the label unchanged when there is none.
   */
  lemma ShownLabelCommas(binLabel: string)
    ensures Count(binLabel, ',') >= 1 ==> Count(ShownLabel(binLabel), ',') == Count(binLabel, ',') - 1
    ensures Count(binLabel, ',') == 0 ==> ShownLabel(binLabel) == "₩" + binLabel
    ensures |ShownLabel(binLabel)| == 1 + |binLabel| - (if Count(binLabel, ',') >= 1 then 1 else 0)
  {
    RemoveFirstCount(binLabel, ',');
    assert ShownLabel(binLabel)[1..] == RemoveFirst(binLabel, ',');
  }
}
