/**
 * The price-bin chart over `{ bin_label, avg_rating, avg_total_reviews, n_products }` bins:
 * a loading view, a no-data view, a validity filter with its own empty view, one entry per
 * valid bin, and the product total.
 */
module PriceBins {
  import opened Wrappers
  import opened Text
  import opened Numbers
  import opened Sequences

  /**
   * A bin as it arrives; a field is `None` when it is missing or not of the checked type, and a
   * `null` bin behaves as all `None`.
   */
  datatype RawBin = RawBin(binLabel: Option<string>, avgRating: Option<real>,
                           avgTotalReviews: Option<real>, nProducts: Option<int>)

  /** One entry of `chartData`. */
  datatype Entry = Entry(priceRange: string, rating: real, reviews: real, products: int, shownLabel: string)

  datatype View =
    | Loading
    | NoData
    | NoValidData
    | Chart(entries: seq<Entry>, totalProducts: int)

  /** A truthy string label and three numeric fields. */
  predicate IsValid(bin: RawBin)
  {
    && bin.binLabel.Some? && bin.binLabel.value != ""
    && bin.avgRating.Some? && bin.avgTotalReviews.Some? && bin.nProducts.Some?
  }

  /** `validData`: the valid bins, in their original order. */
  function ValidData(data: seq<RawBin>): seq<RawBin>
  {
    Filter(data, IsValid)
  }

  /** `binLabel.replace(/,/g, '')`: a global pattern, so every comma goes. */
  function PriceRange(binLabel: string): string
  {
    RemoveAll(binLabel, ',')
  }

  function ToEntry(bin: RawBin): Entry
  {
    var binLabel := bin.binLabel.GetOr("");
    Entry(PriceRange(binLabel), bin.avgRating.GetOr(0.0), bin.avgTotalReviews.GetOr(0.0),
          bin.nProducts.GetOr(0), "₩" + binLabel)
  }

  function Products(bin: RawBin): int { bin.nProducts.GetOr(0) }

  /** What the component renders for its `data` and `isLoading` props. */
  function Render(data: Option<seq<RawBin>>, isLoading: bool): View
  {
    if isLoading then Loading
    else if data.None? || data.value == [] then NoData
    else
      var valid := ValidData(data.value);
      if valid == [] then NoValidData
      else Chart(Map(valid, ToEntry), SumOf(valid, Products))
  }

  lemma RenderBranches(data: Option<seq<RawBin>>, isLoading: bool)
    ensures Render(data, isLoading) == Loading <==> isLoading
    ensures Render(data, isLoading) == NoData <==> !isLoading && (data.None? || data.value == [])
    ensures Render(data, isLoading) == NoValidData <==>
      !isLoading && data.Some? && data.value != [] && forall i :: 0 <= i < |data.value| ==> !IsValid(data.value[i])
  {
    if !isLoading && data.Some? && data.value != [] {
      var valid := ValidData(data.value);
      if valid != [] {
        assert valid[0] in data.value;
      } else {
        forall i | 0 <= i < |data.value| ensures !IsValid(data.value[i]) {
          assert data.value[i] in data.value;
        }
      }
    }
  }

  /**
   * The chart: one entry per valid bin, in order, with rating, reviews and products copied, the
   * price range the label with every comma removed and the shown label `₩` followed by the label with its commas kept;
   * the total is the sum of `n_products` over the valid bins.
   */
  lemma RenderChart(data: Option<seq<RawBin>>, isLoading: bool)
    requires Render(data, isLoading).Chart?
    ensures var v, valid := Render(data, isLoading), ValidData(data.value);
      && |v.entries| == |valid|
      && (forall i :: 0 <= i < |valid| ==>
            && v.entries[i].rating == valid[i].avgRating.value
            && v.entries[i].reviews == valid[i].avgTotalReviews.value
            && v.entries[i].products == valid[i].nProducts.value
            && v.entries[i].priceRange == PriceRange(valid[i].binLabel.value)
            && ',' !in v.entries[i].priceRange
            && v.entries[i].shownLabel == "₩" + valid[i].binLabel.value)
      && v.totalProducts == SumOf(valid, Products)
  {
    var valid := ValidData(data.value);
    forall i | 0 <= i < |valid| ensures ',' !in PriceRange(valid[i].binLabel.value) {
      PriceRangeSpec(valid[i].binLabel.value);
    }
  }

  /**
   * The price range is the label with its commas taken out and nothing else: every other
   * character keeps its count, and removing commas again changes nothing.
   */
  lemma PriceRangeSpec(binLabel: string)
    ensures ',' !in PriceRange(binLabel)
    ensures forall d :: d != ',' ==> Count(PriceRange(binLabel), d) == Count(binLabel, d)
    ensures PriceRange(PriceRange(binLabel)) == PriceRange(binLabel)
  {
    forall d | d != ',' ensures Count(PriceRange(binLabel), d) == Count(binLabel, d) {
      RemoveAllKeeps(binLabel, ',', d);
    }
    RemoveAllNoop(PriceRange(binLabel), ',');
  }
}
