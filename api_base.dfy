/**
 * The shared part of the REST clients: the base URL, the rule that decides at construction
 * whether requests go through the local proxy, the URL of a request, and how the outcome of
 * the network call becomes a result or an error. The network call itself is not modelled: its
 * outcome is an input.
 */
module ApiBase {
  import opened Wrappers
  import opened Text
  import opened Numbers

  /** The origin used when `NEXT_PUBLIC_API_URL` is unset or empty. */
  const DefaultOrigin: string := "https://decathlon-analytics.onrender.com"

  /** `process.env.NEXT_PUBLIC_API_URL || DefaultOrigin`. */
  function BaseUrl(env: Option<string>): (url: string)
    ensures url == DefaultOrigin <==> env.None? || env.value in {"", DefaultOrigin}
    ensures url != DefaultOrigin ==> env == Some(url)
  {
    if env.Some? && env.value != "" then env.value else DefaultOrigin
  }

  /** Where the code runs: on the server (no `window`) or in a browser on some host. */
  datatype Runtime = Server | Browser(hostname: string)

  predicate OnLocalhost(rt: Runtime)
  {
    rt.Browser? && rt.hostname == "localhost"
  }

  /** The two fields a client fixes at construction and never changes. */
  datatype Client = Client(baseUrl: string, useProxy: bool)

  /** The constructor: proxying is kept only when requested and running in a browser on `localhost`. */
  function NewClient(rt: Runtime, baseUrl: string, useProxy: bool := true): (c: Client)
    ensures c.baseUrl == baseUrl
    ensures c.useProxy <==> useProxy && rt.Browser? && rt.hostname == "localhost"
  {
    Client(baseUrl, useProxy && OnLocalhost(rt))
  }

  const ProxyPrefix: string := "/api/proxy"

  /** The URL `fetchApi` requests for an endpoint. */
  function ApiUrl(c: Client, endpoint: string): (url: string)
  {
    (if c.useProxy then ProxyPrefix else c.baseUrl) + endpoint
  }

  /** The endpoint is a suffix of the URL, after the proxy prefix or the base URL, and can be recovered from it. */
  lemma ApiUrlShape(c: Client, endpoint: string, endpoint': string)
    ensures |ApiUrl(c, endpoint)| >= |endpoint|
    ensures ApiUrl(c, endpoint)[|ApiUrl(c, endpoint)| - |endpoint|..] == endpoint
    ensures ApiUrl(c, endpoint)[..|ApiUrl(c, endpoint)| - |endpoint|] == if c.useProxy then ProxyPrefix else c.baseUrl
    ensures ApiUrl(c, endpoint) == ApiUrl(c, endpoint') ==> endpoint == endpoint'
  {
    var p := if c.useProxy then ProxyPrefix else c.baseUrl;
    assert ApiUrl(c, endpoint) == p + endpoint;
    assert (p + endpoint)[|p|..] == endpoint;
    assert (p + endpoint)[..|p|] == p;
    if ApiUrl(c, endpoint) == ApiUrl(c, endpoint') {
      assert (p + endpoint')[|p|..] == endpoint';
    }
  }

  /** A thrown JavaScript value: whether it is an `Error`, its `name` and its `message`. */
  datatype Thrown = Thrown(isError: bool, name: string, message: string)

  /** `new Error(message)`. */
  function NewError(message: string): Thrown
  {
    Thrown(true, "Error", message)
  }

  /** `error instanceof Error && error.name === 'AbortError'`: what the 30-second timer's abort throws. */
  predicate IsAbort(e: Thrown)
  {
    e.isError && e.name == "AbortError"
  }

  /** What `response.json()` settles to. */
  datatype Body<B> = Parsed(value: B) | Unparsable(error: Thrown)

  /** What `fetch` settles to: a response with its status, or a rejection. */
  datatype FetchOutcome<B> = Responded(status: int, body: Body<B>) | Rejected(error: Thrown)

  /** What the client call settles to. */
  datatype Result<B> = Success(value: B) | Failure(error: Thrown)

  /** `response.ok`. */
  predicate Ok(status: int)
  {
    200 <= status <= 299
  }

  function StatusError(status: int): Thrown
  {
    NewError("API 요청 실패: " + IntToString(status))
  }

  function TimeoutError(endpoint: string): Thrown
  {
    NewError("요청 시간 초과: " + endpoint)
  }

  /** The `catch` of `fetchApi`: an abort becomes the timeout error, anything else is rethrown as it is. */
  function Catch(endpoint: string, e: Thrown): Thrown
  {
    if IsAbort(e) then TimeoutError(endpoint) else e
  }

  /**
   * `fetchApi(endpoint)` once the request is settled: everything inside the `try` (the
   * status check and the awaited body) passes through the `catch`.
   */
  function FetchApi<B>(endpoint: string, outcome: FetchOutcome<B>): (r: Result<B>)
  {
    match outcome
    case Rejected(e) => Failure(Catch(endpoint, e))
    case Responded(status, body) =>
      if !Ok(status) then Failure(Catch(endpoint, StatusError(status)))
      else if body.Unparsable? then Failure(Catch(endpoint, body.error))
      else Success(body.value)
  }

  /**
   * The outcomes of `fetchApi`: an ok status gives the parsed body, any other status the status
   * error whatever the body, an abort the timeout error naming the endpoint, and any other
   * thrown value comes back unchanged.
   */
  lemma FetchApiOutcomes<B>(endpoint: string, outcome: FetchOutcome<B>)
    ensures outcome.Responded? && Ok(outcome.status) && outcome.body.Parsed? ==>
      FetchApi(endpoint, outcome) == Success(outcome.body.value)
    ensures outcome.Responded? && !Ok(outcome.status) ==>
      FetchApi(endpoint, outcome) == Failure(NewError("API 요청 실패: " + IntToString(outcome.status)))
    ensures outcome.Rejected? && IsAbort(outcome.error) ==>
      FetchApi(endpoint, outcome) == Failure(NewError("요청 시간 초과: " + endpoint))
    ensures outcome.Rejected? && !IsAbort(outcome.error) ==> FetchApi(endpoint, outcome) == Failure(outcome.error)
    ensures FetchApi(endpoint, outcome).Success? <==> outcome.Responded? && Ok(outcome.status) && outcome.body.Parsed?
  {
  }

  /** The status error names the status: different statuses give different messages. */
  lemma StatusErrorInjective(s: int, t: int)
    requires StatusError(s) == StatusError(t)
    ensures s == t
  {
    var p := "API 요청 실패: ";
    assert (p + IntToString(s))[|p|..] == IntToString(s);
    assert (p + IntToString(t))[|p|..] == IntToString(t);
    IntToStringInjective(s, t);
  }

  /** A settled client call: the URL that was requested and what the call settled to. */
  datatype Exchange<B> = Exchange(url: string, result: Result<B>)

  /** `fetchApi(endpoint)` on a client: the URL it asks for and its result. */
  function Fetch<B>(c: Client, endpoint: string, outcome: FetchOutcome<B>): Exchange<B>
  {
    Exchange(ApiUrl(c, endpoint), FetchApi(endpoint, outcome))
  }

  // ---------------------------------------------------------------------------
  // Query strings with `${n}` parameters

  lemma IntTextHasNoAmpersand(n: int)
    ensures '&' !in IntToString(n)
  {
  }

  /** `p + text + "&" + q + ...` determines `text` when neither candidate holds an `&`. */
  lemma AmpersandPieceInjective(p: string, x: string, q: string, x': string, q': string)
    requires '&' !in x && '&' !in x'
    requires p + x + "&" + q == p + x' + "&" + q'
    ensures x == x' && q == q'
  {
    assert p + x + "&" + q == p + (x + ['&'] + q);
    assert p + x' + "&" + q' == p + (x' + ['&'] + q');
    PrefixCancel(p, x + ['&'] + q, x' + ['&'] + q');
    PieceUnique(x, q, x', q', '&');
  }

  /** `p${a}&q${b}` determines `a` and `b`. */
  lemma TwoParamsInjective(p: string, q: string, a: int, b: int, a': int, b': int)
    requires p + IntToString(a) + "&" + q + IntToString(b) == p + IntToString(a') + "&" + q + IntToString(b')
    ensures a == a' && b == b'
  {
    IntTextHasNoAmpersand(a);
    IntTextHasNoAmpersand(a');
    assert p + IntToString(a) + "&" + q + IntToString(b) == p + IntToString(a) + "&" + (q + IntToString(b));
    assert p + IntToString(a') + "&" + q + IntToString(b') == p + IntToString(a') + "&" + (q + IntToString(b'));
    AmpersandPieceInjective(p, IntToString(a), q + IntToString(b), IntToString(a'), q + IntToString(b'));
    IntToStringInjective(a, a');
    PrefixCancel(q, IntToString(b), IntToString(b'));
    IntToStringInjective(b, b');
  }

  /** `p${a}` determines `a`. */
  lemma OneParamInjective(p: string, a: int, a': int)
    requires p + IntToString(a) == p + IntToString(a')
    ensures a == a'
  {
    PrefixCancel(p, IntToString(a), IntToString(a'));
    IntToStringInjective(a, a');
  }

  /** The decimal texts of the default arguments. */
  lemma DefaultTexts()
    ensures IntToString(1) == "1" && IntToString(5) == "5"
    ensures IntToString(100) == "100" && IntToString(20000) == "20000"
  {
    assert NatToString(10) == "10";
    assert NatToString(100) == "100";
    assert NatToString(20) == "20";
    assert NatToString(200) == "200";
    assert NatToString(2000) == "2000";
  }

  /** `p${a}&min_reviews=${b}` read as `p${a}` + `&` + `min_reviews=${b}`. */
  lemma QueryForm(p: string, a: int, b: int)
    ensures p + IntToString(a) + "&min_reviews=" + IntToString(b) ==
            p + IntToString(a) + "&" + "min_reviews=" + IntToString(b)
  {
  }
}
