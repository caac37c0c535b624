/**
 * The query-key factory: each key is a tuple whose first element names the domain (`total`,
 * `running` or `hiking`), whose second names the query, and whose optional third element is the
 * object of the query's parameters. One datatype value stands for each factory call.
 */
module QueryKeys {
  import opened Wrappers

  /** A parameter value: an optional number (`undefined` is `None`) or a string. */
  datatype Value = Number(n: Option<int>) | Str(s: string)

  /** An element of a key: a string, or an object given as its fields in source order. */
  datatype KeyPart = Name(name: string) | Fields(fields: seq<(string, Value)>)

  /** The two category domains, whose factories have the same shape. */
  datatype Category = Running | Hiking

  datatype KeyCall =
    | TotalAll
    | TotalBestReviews(limit: Option<int>, minReviews: Option<int>)
    | TotalTopByReviewCount(limit: Option<int>, minReviews: Option<int>)
    | TotalMonthlyTopOne
    | TotalPriceBins(binSize: Option<int>)
    | TotalMonthlyReviews
    | CategoryAll(category: Category)
    | TopRated(category: Category, limit: Option<int>, minReviews: Option<int>)
    | TopByReviewCount(category: Category, limit: Option<int>, minReviews: Option<int>)
    | TopBySubcategory(category: Category, subcategory: string, limit: Option<int>, minReviews: Option<int>)
    | PriceDistribution(category: Category, binSize: Option<int>)
    | WordCloud(category: Category, topN: Option<int>)

  function CategoryName(c: Category): string
  {
    if c == Running then "running" else "hiking"
  }

  /** The domain element of a call's key. */
  function Domain(call: KeyCall): string
  {
    match call
    case TotalAll | TotalBestReviews(_, _) | TotalTopByReviewCount(_, _) | TotalMonthlyTopOne
       | TotalPriceBins(_) | TotalMonthlyReviews => "total"
    case CategoryAll(c) => CategoryName(c)
    case TopRated(c, _, _) => CategoryName(c)
    case TopByReviewCount(c, _, _) => CategoryName(c)
    case TopBySubcategory(c, _, _, _) => CategoryName(c)
    case PriceDistribution(c, _) => CategoryName(c)
    case WordCloud(c, _) => CategoryName(c)
  }

  function LimitFields(limit: Option<int>, minReviews: Option<int>): seq<(string, Value)>
  {
    [("limit", Number(limit)), ("minReviews", Number(minReviews))]
  }

  /** The elements after the domain. */
  function Rest(call: KeyCall): seq<KeyPart>
  {
    match call
    case TotalAll => []
    case TotalBestReviews(l, m) => [Name("bestReviews"), Fields(LimitFields(l, m))]
    case TotalTopByReviewCount(l, m) => [Name("topByReviewCount"), Fields(LimitFields(l, m))]
    case TotalMonthlyTopOne => [Name("monthlyTopOne")]
    case TotalPriceBins(b) => [Name("priceBins"), Fields([("binSize", Number(b))])]
    case TotalMonthlyReviews => [Name("monthlyReviews")]
    case CategoryAll(_) => []
    case TopRated(_, l, m) => [Name("topRated"), Fields(LimitFields(l, m))]
    case TopByReviewCount(_, l, m) => [Name("topByReviewCount"), Fields(LimitFields(l, m))]
    case TopBySubcategory(_, s, l, m) =>
      [Name("topBySubcategory"), Fields([("subcategory", Str(s))] + LimitFields(l, m))]
    case PriceDistribution(_, b) => [Name("priceDistribution"), Fields([("binSize", Number(b))])]
    case WordCloud(_, n) => [Name("wordCloud"), Fields([("topN", Number(n))])]
  }

  /** The key the factory call builds: `[...all, name, params]`. */
  function Key(call: KeyCall): (key: seq<KeyPart>)
    ensures |key| >= 1 && key[0] == Name(Domain(call))
  {
    [Name(Domain(call))] + Rest(call)
  }

  predicate IsAll(call: KeyCall)
  {
    call.TotalAll? || call.CategoryAll?
  }

  predicate WithoutParameters(call: KeyCall)
  {
    call.TotalMonthlyTopOne? || call.TotalMonthlyReviews?
  }

  /**
   * The shape of a key: `all` has length 1, the two calls without parameters length 2, and
   * every other call length 3 with its parameter object last; every key of a domain starts
   * with that domain's `all` key.
   */
  lemma KeyShape(call: KeyCall)
    ensures IsAll(call) <==> |Key(call)| == 1
    ensures WithoutParameters(call) <==> |Key(call)| == 2
    ensures !IsAll(call) && !WithoutParameters(call) <==> |Key(call)| == 3 && Key(call)[2].Fields?
    ensures !IsAll(call) ==> Key(call)[1].Name?
    ensures Domain(call) == "total" ==> Key(TotalAll) <= Key(call)
    ensures Domain(call) == "running" ==> Key(CategoryAll(Running)) <= Key(call)
    ensures Domain(call) == "hiking" ==> Key(CategoryAll(Hiking)) <= Key(call)
  {
  }

  /** Keys from different domains never collide: the first element tells the domains apart. */
  lemma DomainsApart(a: KeyCall, b: KeyCall)
    requires Domain(a) != Domain(b)
    ensures Key(a) != Key(b)
  {
    assert Key(a)[0] != Key(b)[0];
  }

  /** Within a domain, different factory functions produce different second elements. */
  lemma SecondElementNamesFactory(a: KeyCall, b: KeyCall)
    requires !IsAll(a) && !IsAll(b) && Domain(a) == Domain(b)
    requires Key(a)[1] == Key(b)[1]
    ensures a.TotalBestReviews? == b.TotalBestReviews? && a.TotalTopByReviewCount? == b.TotalTopByReviewCount?
    ensures a.TotalMonthlyTopOne? == b.TotalMonthlyTopOne? && a.TotalPriceBins? == b.TotalPriceBins?
    ensures a.TotalMonthlyReviews? == b.TotalMonthlyReviews?
    ensures a.TopRated? == b.TopRated? && a.TopByReviewCount? == b.TopByReviewCount?
    ensures a.TopBySubcategory? == b.TopBySubcategory? && a.PriceDistribution? == b.PriceDistribution?
    ensures a.WordCloud? == b.WordCloud?
  {
    assert Key(a)[1] == Rest(a)[0] && Key(b)[1] == Rest(b)[0];
  }

  /** The factory is injective: equal keys come from the same call with the same arguments. */
  lemma KeyInjective(a: KeyCall, b: KeyCall)
    requires Key(a) == Key(b)
    ensures a == b
  {
    assert Key(a)[0] == Key(b)[0];
    assert Rest(a) == Key(a)[1..] && Rest(b) == Key(b)[1..];
    if !IsAll(a) && !IsAll(b) {
      SecondElementNamesFactory(a, b);
    }
    if |Rest(a)| == 2 {
      var f, g := Rest(a)[1].fields, Rest(b)[1].fields;
      assert f == g;
      assert forall i :: 0 <= i < |f| ==> f[i].1 == g[i].1;
      if a.TopBySubcategory? {
        assert f[0].1 == Str(a.subcategory) && g[0].1 == Str(b.subcategory);
        assert f[1].1 == Number(a.limit) && g[1].1 == Number(b.limit);
        assert f[2].1 == Number(a.minReviews) && g[2].1 == Number(b.minReviews);
        assert a.category == b.category by {
          assert Key(a)[0] == Name(CategoryName(a.category));
          assert Key(b)[0] == Name(CategoryName(b.category));
        }
      }
    }
  }

  /** The running and hiking factories give the same key apart from the domain element. */
  lemma CategoriesDifferOnlyInDomain(call: KeyCall)
    requires !call.TotalAll? && !call.TotalBestReviews? && !call.TotalTopByReviewCount?
    requires !call.TotalMonthlyTopOne? && !call.TotalPriceBins? && !call.TotalMonthlyReviews?
    ensures var running, hiking := call.(category := Running), call.(category := Hiking);
      && Key(running)[1..] == Key(hiking)[1..]
      && Key(running)[0] == Name("running") && Key(hiking)[0] == Name("hiking")
  {
    var running, hiking := call.(category := Running), call.(category := Hiking);
    assert Key(running)[1..] == Rest(running);
    assert Key(hiking)[1..] == Rest(hiking);
  }
}
