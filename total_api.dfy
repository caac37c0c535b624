/**
 * The client of the whole-store statistics: five calls, each an endpoint handed to
 * `fetchApi`. The constructor arguments of a call's datatype constructor carry the method's
 * default values.
 */
module TotalApi {
  import opened Wrappers
  import opened Text
  import opened Numbers
  import opened ApiBase

  datatype TotalCall =
    | GetBestReviews(limit: int := 5, minReviews: int := 1)
    | GetTopByReviewCount(limit: int := 5, minReviews: int := 1)
    | GetMonthlyTopOne
    | GetPriceBins(binSize: int := 20000)
    | GetMonthlyReviews

  /** The path part of a call's endpoint. */
  function Path(call: TotalCall): string
  {
    match call
    case GetBestReviews(_, _) => "/total/best-review"
    case GetTopByReviewCount(_, _) => "/total/top-by-reviewcount"
    case GetMonthlyTopOne => "/total/top-this-month-one"
    case GetPriceBins(_) => "/total/price-bins"
    case GetMonthlyReviews => "/total/monthly-reviews"
  }

  /** The endpoint string each method passes to `fetchApi`. */
  function Endpoint(call: TotalCall): string
  {
    match call
    case GetBestReviews(limit, minReviews) =>
      "/total/best-review?limit=" + IntToString(limit) + "&min_reviews=" + IntToString(minReviews)
    case GetTopByReviewCount(limit, minReviews) =>
      "/total/top-by-reviewcount?limit=" + IntToString(limit) + "&min_reviews=" + IntToString(minReviews)
    case GetMonthlyTopOne => "/total/top-this-month-one"
    case GetPriceBins(binSize) => "/total/price-bins?bin_size=" + IntToString(binSize)
    case GetMonthlyReviews => "/total/monthly-reviews"
  }

  /** `new TotalApiClient()`: the default base URL and proxying requested. */
  function NewTotalClient(rt: Runtime, env: Option<string>): Client
  {
    NewClient(rt, BaseUrl(env))
  }

  /** A call on a client, once the request is settled. */
  function Call<B>(c: Client, call: TotalCall, outcome: FetchOutcome<B>): Exchange<B>
  {
    Fetch(c, Endpoint(call), outcome)
  }

  /** The endpoints with their defaults filled in. */
  lemma DefaultEndpoints()
    ensures Endpoint(GetBestReviews()) == "/total/best-review?limit=5&min_reviews=1"
    ensures Endpoint(GetTopByReviewCount()) == "/total/top-by-reviewcount?limit=5&min_reviews=1"
    ensures Endpoint(GetPriceBins()) == "/total/price-bins?bin_size=20000"
  {
    DefaultTexts();
    DefaultBestReviews();
    DefaultTopByReviewCount();
    DefaultPriceBins();
  }

  lemma DefaultBestReviews()
    requires IntToString(5) == "5" && IntToString(1) == "1"
    ensures Endpoint(GetBestReviews()) == "/total/best-review?limit=5&min_reviews=1"
  {
  }

  lemma DefaultTopByReviewCount()
    requires IntToString(5) == "5" && IntToString(1) == "1"
    ensures Endpoint(GetTopByReviewCount()) == "/total/top-by-reviewcount?limit=5&min_reviews=1"
  {
  }

  lemma DefaultPriceBins()
    requires IntToString(20000) == "20000"
    ensures Endpoint(GetPriceBins()) == "/total/price-bins?bin_size=20000"
  {
  }

  /**
   * Every endpoint is its path, which starts with `/total/` and holds no `?`, followed by either
   * nothing (the two calls without parameters) or `?` and the query string.
   */
  lemma EndpointShape(call: TotalCall)
    ensures |Path(call)| > 7 && Path(call)[..7] == "/total/" && '?' !in Path(call)
    ensures |Endpoint(call)| >= |Path(call)| && Endpoint(call)[..|Path(call)|] == Path(call)
    ensures call.GetMonthlyTopOne? || call.GetMonthlyReviews? <==> Endpoint(call) == Path(call)
    ensures Endpoint(call) != Path(call) ==> Endpoint(call)[|Path(call)|] == '?'
  {
    PathShape(call);
    PathPrefix(call);
    PlainCalls(call);
    QueryMark(call);
  }

  lemma PathShape(call: TotalCall)
    ensures |Path(call)| > 7 && Path(call)[..7] == "/total/" && '?' !in Path(call)
  {
  }

  lemma PathPrefix(call: TotalCall)
    ensures |Endpoint(call)| >= |Path(call)| && Endpoint(call)[..|Path(call)|] == Path(call)
  {
  }

  lemma PlainCalls(call: TotalCall)
    ensures call.GetMonthlyTopOne? || call.GetMonthlyReviews? <==> Endpoint(call) == Path(call)
  {
  }

  lemma QueryMark(call: TotalCall)
    ensures Endpoint(call) != Path(call) ==> Endpoint(call)[|Path(call)|] == '?'
  {
  }

  /** The first `?`-separated piece of an endpoint is its path. */
  lemma PathOfEndpoint(call: TotalCall)
    ensures Split(Endpoint(call), '?')[0] == Path(call)
  {
    EndpointShape(call);
    var p, e := Path(call), Endpoint(call);
    if e == p {
      SplitPiece(p, '?');
    } else {
      assert e == p + ['?'] + e[|p| + 1..];
      SplitAfterPiece(p, '?', e[|p| + 1..]);
    }
  }

  /** The five paths are pairwise distinct. */
  lemma PathsDistinct(a: TotalCall, b: TotalCall)
    requires Path(a) == Path(b)
    ensures a.GetBestReviews? == b.GetBestReviews? && a.GetTopByReviewCount? == b.GetTopByReviewCount?
    ensures a.GetMonthlyTopOne? == b.GetMonthlyTopOne? && a.GetPriceBins? == b.GetPriceBins?
  {
  }

  /** Different calls ask for different endpoints: the endpoint determines the method and its arguments. */
  lemma EndpointInjective(a: TotalCall, b: TotalCall)
    requires Endpoint(a) == Endpoint(b)
    ensures a == b
  {
    PathOfEndpoint(a);
    PathOfEndpoint(b);
    PathsDistinct(a, b);
    match a
    case GetBestReviews(l, m) =>
      QueryForm("/total/best-review?limit=", l, m);
      QueryForm("/total/best-review?limit=", b.limit, b.minReviews);
      TwoParamsInjective("/total/best-review?limit=", "min_reviews=", l, m, b.limit, b.minReviews);
    case GetTopByReviewCount(l, m) =>
      QueryForm("/total/top-by-reviewcount?limit=", l, m);
      QueryForm("/total/top-by-reviewcount?limit=", b.limit, b.minReviews);
      TwoParamsInjective("/total/top-by-reviewcount?limit=", "min_reviews=", l, m, b.limit, b.minReviews);
    case GetPriceBins(n) =>
      OneParamInjective("/total/price-bins?bin_size=", n, b.binSize);
    case _ =>
  }
}
