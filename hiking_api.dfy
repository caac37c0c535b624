/**
 * The client of the hiking category. Three calls go through `fetchApi`; the price
 * distribution and the word cloud build their URL themselves, with the same proxy rule, and
 * map errors their own way. `encodeURIComponent` is a parameter `encode`.
 */
module HikingApi {
  import opened Wrappers
  import opened Text
  import opened Numbers
  import opened ApiBase

  datatype HikingCall =
    | GetTopRated(limit: int := 5, minReviews: int := 1)
    | GetTopByReviewCount(limit: int := 5, minReviews: int := 1)
    | GetTopBySubcategory(subcategory: string, limit: int := 5, minReviews: int := 1)
    | GetPriceDistribution(binSize: int := 20000)
    | GetWordCloud(topN: int := 100)

  /** Whether the call goes through `fetchApi`. */
  predicate ViaFetchApi(call: HikingCall)
  {
    !call.GetPriceDistribution? && !call.GetWordCloud?
  }

  /** The request path and query string after the proxy prefix or the base URL. */
  function Endpoint(call: HikingCall, encode: string -> string): string
  {
    match call
    case GetTopRated(limit, minReviews) =>
      "/hiking/top-rated?limit=" + IntToString(limit) + "&min_reviews=" + IntToString(minReviews)
    case GetTopByReviewCount(limit, minReviews) =>
      "/hiking/top-by-reviewcount?limit=" + IntToString(limit) + "&min_reviews=" + IntToString(minReviews)
    case GetTopBySubcategory(subcategory, limit, minReviews) =>
      "/hiking/top-by-subcategory?subcategory=" + encode(subcategory)
        + "&limit=" + IntToString(limit) + "&min_reviews=" + IntToString(minReviews)
    case GetPriceDistribution(binSize) => "/hiking/price-distribution?bin_size=" + IntToString(binSize)
    case GetWordCloud(topN) => "/hiking/wordcloud?top_n=" + IntToString(topN)
  }

  /** The URL of the two calls that do not use `fetchApi`, written as their code writes it. */
  function DirectUrl(c: Client, call: HikingCall): string
    requires !ViaFetchApi(call)
  {
    match call
    case GetPriceDistribution(binSize) =>
      if c.useProxy then "/api/proxy/hiking/price-distribution?bin_size=" + IntToString(binSize)
      else c.baseUrl + "/hiking/price-distribution?bin_size=" + IntToString(binSize)
    case GetWordCloud(topN) =>
      if c.useProxy then "/api/proxy/hiking/wordcloud?top_n=" + IntToString(topN)
      else c.baseUrl + "/hiking/wordcloud?top_n=" + IntToString(topN)
  }

  function TimeoutMessage(call: HikingCall): string
    requires !ViaFetchApi(call)
  {
    if call.GetPriceDistribution? then "가격 분포 생성 시간 초과 (30초)" else "워드클라우드 생성 시간 초과 (30초)"
  }

  function HttpError(status: int): Thrown
  {
    NewError("HTTP error! status: " + IntToString(status))
  }

  /**
   * The error handling of the two direct calls: the status check is inside the `try`, but the
   * body is returned without `await`, so a body that fails to parse bypasses the `catch`.
   */
  function DirectFetch<B>(call: HikingCall, outcome: FetchOutcome<B>): Result<B>
    requires !ViaFetchApi(call)
  {
    match outcome
    case Rejected(e) => Failure(if IsAbort(e) then NewError(TimeoutMessage(call)) else e)
    case Responded(status, body) =>
      if !Ok(status) then Failure(HttpError(status))
      else if body.Unparsable? then Failure(body.error)
      else Success(body.value)
  }

  /** `new HikingApiClient()`. */
  function NewHikingClient(rt: Runtime, env: Option<string>): Client
  {
    NewClient(rt, BaseUrl(env))
  }

  /** A call on a client, once the request is settled. */
  function Call<B>(c: Client, call: HikingCall, encode: string -> string, outcome: FetchOutcome<B>): Exchange<B>
  {
    if ViaFetchApi(call) then Fetch(c, Endpoint(call, encode), outcome)
    else Exchange(DirectUrl(c, call), DirectFetch(call, outcome))
  }

  lemma Reassociate(a: string, b: string, ab: string, t: string)
    requires a + b == ab
    ensures ab + t == a + (b + t)
  {
  }

  /** The proxy branches' literals are the proxy prefix followed by the endpoint's literal. */
  lemma PriceDistributionLiteral()
    ensures "/api/proxy" + "/hiking/price-distribution?bin_size=" == "/api/proxy/hiking/price-distribution?bin_size="
  {
  }

  lemma WordCloudLiteral()
    ensures "/api/proxy" + "/hiking/wordcloud?top_n=" == "/api/proxy/hiking/wordcloud?top_n="
  {
  }

  lemma PriceDistributionUrl(c: Client, n: int)
    ensures DirectUrl(c, GetPriceDistribution(n)) == ApiUrl(c, "/hiking/price-distribution?bin_size=" + IntToString(n))
  {
    PriceDistributionLiteral();
    Reassociate(ProxyPrefix, "/hiking/price-distribution?bin_size=", "/api/proxy/hiking/price-distribution?bin_size=", IntToString(n));
  }

  lemma WordCloudUrl(c: Client, n: int)
    ensures DirectUrl(c, GetWordCloud(n)) == ApiUrl(c, "/hiking/wordcloud?top_n=" + IntToString(n))
  {
    WordCloudLiteral();
    Reassociate(ProxyPrefix, "/hiking/wordcloud?top_n=", "/api/proxy/hiking/wordcloud?top_n=", IntToString(n));
  }

  /** The two direct calls follow the same proxy rule as `fetchApi`: the proxy prefix or the base URL, then the endpoint. */
  lemma SameUrlRule<B>(c: Client, call: HikingCall, encode: string -> string, outcome: FetchOutcome<B>)
    ensures Call(c, call, encode, outcome).url == ApiUrl(c, Endpoint(call, encode))
  {
    match call
    case GetPriceDistribution(n) => PriceDistributionUrl(c, n);
    case GetWordCloud(n) => WordCloudUrl(c, n);
    case _ =>
  }

  /** The endpoints with their defaults filled in. */
  lemma DefaultRankingEndpoints(encode: string -> string)
    ensures Endpoint(GetTopRated(), encode) == "/hiking/top-rated?limit=5&min_reviews=1"
    ensures Endpoint(GetTopByReviewCount(), encode) == "/hiking/top-by-reviewcount?limit=5&min_reviews=1"
  {
    DefaultTexts();
    DefaultTopRated(encode);
    DefaultTopByReviewCount(encode);
  }

  lemma DefaultTopRated(encode: string -> string)
    requires IntToString(5) == "5" && IntToString(1) == "1"
    ensures Endpoint(GetTopRated(), encode) == "/hiking/top-rated?limit=5&min_reviews=1"
  {
  }

  lemma DefaultTopByReviewCount(encode: string -> string)
    requires IntToString(5) == "5" && IntToString(1) == "1"
    ensures Endpoint(GetTopByReviewCount(), encode) == "/hiking/top-by-reviewcount?limit=5&min_reviews=1"
  {
  }

  lemma DefaultSubcategoryEndpoint(s: string, encode: string -> string)
    ensures Endpoint(GetTopBySubcategory(s), encode) ==
      "/hiking/top-by-subcategory?subcategory=" + encode(s) + "&limit=5&min_reviews=1"
  {
    DefaultTexts();
    assert "&limit=" + IntToString(5) + "&min_reviews=" + IntToString(1) == "&limit=5&min_reviews=1";
  }

  lemma DefaultDirectEndpoints(encode: string -> string)
    ensures Endpoint(GetPriceDistribution(), encode) == "/hiking/price-distribution?bin_size=20000"
    ensures Endpoint(GetWordCloud(), encode) == "/hiking/wordcloud?top_n=100"
  {
    DefaultTexts();
  }

  /**
   * The direct calls' outcomes: an ok status gives the parsed body, another status the HTTP
   * error, an abort the call's own 30-second message, and anything else comes back unchanged.
   */
  lemma DirectOutcomes<B>(call: HikingCall, outcome: FetchOutcome<B>)
    requires !ViaFetchApi(call)
    ensures DirectFetch(call, outcome).Success? <==> outcome.Responded? && Ok(outcome.status) && outcome.body.Parsed?
    ensures outcome.Responded? && !Ok(outcome.status) ==>
      DirectFetch(call, outcome) == Failure(NewError("HTTP error! status: " + IntToString(outcome.status)))
    ensures outcome.Rejected? && IsAbort(outcome.error) ==>
      DirectFetch(call, outcome).error.message ==
        (if call.GetPriceDistribution? then "가격 분포 생성 시간 초과 (30초)" else "워드클라우드 생성 시간 초과 (30초)")
    ensures outcome.Rejected? && !IsAbort(outcome.error) ==> DirectFetch(call, outcome) == Failure(outcome.error)
    ensures outcome.Responded? && Ok(outcome.status) && outcome.body.Unparsable? ==>
      DirectFetch(call, outcome) == Failure(outcome.body.error)
  {
  }

  lemma SubcategoryForm(e: string, l: int, m: int, encode: string -> string, s: string)
    requires e == encode(s)
    ensures Endpoint(GetTopBySubcategory(s, l, m), encode) ==
      "/hiking/top-by-subcategory?subcategory=" + e + "&" + ("limit=" + IntToString(l) + "&min_reviews=" + IntToString(m))
  {
    assert "&limit=" == "&" + "limit=";
  }

  /**
   * The subcategory call puts the encoded subcategory first, then `limit`, then `min_reviews`;
   * when the encoding holds no `&` and keeps different subcategories apart, the endpoint
   * determines all three arguments.
   */
  lemma SubcategoryEndpointInjective(s: string, l: int, m: int, s': string, l': int, m': int, encode: string -> string)
    requires '&' !in encode(s) && '&' !in encode(s')
    requires encode(s) == encode(s') ==> s == s'
    requires Endpoint(GetTopBySubcategory(s, l, m), encode) == Endpoint(GetTopBySubcategory(s', l', m'), encode)
    ensures s == s' && l == l' && m == m'
  {
    var p := "/hiking/top-by-subcategory?subcategory=";
    var rest := "limit=" + IntToString(l) + "&min_reviews=" + IntToString(m);
    var rest' := "limit=" + IntToString(l') + "&min_reviews=" + IntToString(m');
    SubcategoryForm(encode(s), l, m, encode, s);
    SubcategoryForm(encode(s'), l', m', encode, s');
    AmpersandPieceInjective(p, encode(s), rest, encode(s'), rest');
    QueryForm("limit=", l, m);
    QueryForm("limit=", l', m');
    TwoParamsInjective("limit=", "min_reviews=", l, m, l', m');
  }

  /** The limit-and-minimum calls are injective in their arguments. */
  lemma RankingEndpointInjective(a: HikingCall, b: HikingCall, encode: string -> string)
    requires (a.GetTopRated? && b.GetTopRated?) || (a.GetTopByReviewCount? && b.GetTopByReviewCount?)
    requires Endpoint(a, encode) == Endpoint(b, encode)
    ensures a == b
  {
    var p := if a.GetTopRated? then "/hiking/top-rated?limit=" else "/hiking/top-by-reviewcount?limit=";
    QueryForm(p, a.limit, a.minReviews);
    QueryForm(p, b.limit, b.minReviews);
    TwoParamsInjective(p, "min_reviews=", a.limit, a.minReviews, b.limit, b.minReviews);
  }
}
