/**
 * The chatbot client: the response types it declares, its constructor defaults, the URL
 * choice made on every call, the POST request it sends, and the status check on the reply.
 */
module ChatApi {
  import opened Wrappers
  import opened Numbers
  import opened Json
  import opened ApiBase

  datatype Evidence = Evidence(snippet: string, rating: real, source: string)

  datatype Recommendation = Recommendation(
    productId: string, name: string, price: real, link: string, score: real, rating: real,
    evidence: seq<Evidence>)

  /** The fields of a chat reply the page uses (`used_contexts` and `meta` are not read). */
  datatype ChatResponse = ChatResponse(answer: string, recommendations: seq<Recommendation>, sessionId: string)

  datatype ChatClient = ChatClient(baseUrl: string, useProxy: bool)

  /** `new ChatApiClient()` and its defaults; unlike the REST clients, no runtime check is made here. */
  function NewChatClient(baseUrl: string := DefaultOrigin, useProxy: bool := true): ChatClient
  {
    ChatClient(baseUrl, useProxy)
  }

  /** The URL, decided on every call: the proxy route only when proxying in a browser on `localhost`. */
  function ChatUrl(c: ChatClient, rt: Runtime): (url: string)
    ensures |url| >= 13 && url[|url| - 13..] == "/chatbot/chat"
  {
    if c.useProxy && OnLocalhost(rt) then "/api/proxy/chatbot/chat" else c.baseUrl + "/chatbot/chat"
  }

  /** The `fetch` init of the call; `verb` is its `method` field. */
  datatype Request = Request(url: string, verb: string, headers: seq<(string, string)>, credentials: string, body: string)

  /** `JSON.stringify({ message })`. */
  function MessageBody(message: string): string
  {
    "{\"message\":" + Quote(message) + "}"
  }

  /** The request `sendMessage` makes. */
  function ChatRequest(c: ChatClient, rt: Runtime, message: string): Request
  {
    Request(ChatUrl(c, rt), "POST", [("Content-Type", "application/json")], "include", MessageBody(message))
  }

  /** Reads the message back out of a body of the form `{"message":"..."}`. */
  function ReadMessageBody(body: string): Option<string>
  {
    var open, close := "{\"message\":\"", "\"}";
    if |body| < |open| + |close| || body[..|open|] != open || body[|body| - |close|..] != close then None
    else Unescape(body[|open|..|body| - |close|])
  }

  /** The body carries the message unchanged, whatever characters it holds. */
  lemma MessageBodyRoundTrip(message: string)
    ensures ReadMessageBody(MessageBody(message)) == Some(message)
  {
    var open, close, e := "{\"message\":\"", "\"}", Escape(message);
    var body := MessageBody(message);
    assert body == open + e + close;
    assert body[..|open|] == open;
    assert body[|body| - |close|..] == close;
    assert body[|open|..|body| - |close|] == e;
    UnescapeEscape(message);
  }

  function StatusError(status: int): Thrown
  {
    NewError("Chat API 요청 실패: " + IntToString(status))
  }

  /** `sendMessage` once the request is settled: no `catch`, so every rejection passes through unchanged. */
  function SendResult(outcome: FetchOutcome<ChatResponse>): Result<ChatResponse>
  {
    match outcome
    case Rejected(e) => Failure(e)
    case Responded(status, body) =>
      if !Ok(status) then Failure(StatusError(status))
      else if body.Unparsable? then Failure(body.error)
      else Success(body.value)
  }

  /** A call of `sendMessage`: the request made and the result. */
  function SendMessage(c: ChatClient, rt: Runtime, message: string, outcome: FetchOutcome<ChatResponse>): (Request, Result<ChatResponse>)
  {
    (ChatRequest(c, rt, message), SendResult(outcome))
  }

  /**
   * The request is a JSON POST to the chosen URL whose body reads back as the message.
   */
  lemma RequestShape(c: ChatClient, rt: Runtime, message: string)
    ensures var r := ChatRequest(c, rt, message);
      && r.verb == "POST" && ("Content-Type", "application/json") in r.headers
      && ReadMessageBody(r.body) == Some(message)
      && (c.useProxy && OnLocalhost(rt) ==> r.url == "/api/proxy/chatbot/chat")
      && (!(c.useProxy && OnLocalhost(rt)) ==> r.url == c.baseUrl + "/chatbot/chat")
  {
    MessageBodyRoundTrip(message);
  }

  /** The default client goes through the proxy exactly in a browser on `localhost`. */
  lemma DefaultChatUrl(rt: Runtime)
    ensures NewChatClient() == ChatClient("https://decathlon-analytics.onrender.com", true)
    ensures ChatUrl(NewChatClient(), rt) ==
      if OnLocalhost(rt) then "/api/proxy/chatbot/chat" else "https://decathlon-analytics.onrender.com/chatbot/chat"
  {
  }

  /** The result: the parsed reply on an ok status, the status error otherwise, rejections unchanged. */
  lemma SendOutcomes(outcome: FetchOutcome<ChatResponse>)
    ensures SendResult(outcome).Success? <==> outcome.Responded? && Ok(outcome.status) && outcome.body.Parsed?
    ensures SendResult(outcome).Success? ==> SendResult(outcome).value == outcome.body.value
    ensures outcome.Responded? && !Ok(outcome.status) ==>
      SendResult(outcome) == Failure(NewError("Chat API 요청 실패: " + IntToString(outcome.status)))
    ensures outcome.Rejected? ==> SendResult(outcome) == Failure(outcome.error)
  {
  }
}
