/**
 * What the three serverless handlers share: the CORS preflight, the JSON
 * response shapes, the single two-message completion call to the AI gateway
 * and the translation of the gateway's HTTP status into the caller's response.
 *
 * The network is abstract: the handler is given the reply the gateway would
 * send (`Upstream`) and reports the call it made, if any, in its `Exchange`.
 */
module Gateway {
  import opened Wrappers
  import opened JsText

  type Headers = map<string, string>

  const CorsHeaders: Headers := map[
    "Access-Control-Allow-Origin" := "*",
    "Access-Control-Allow-Headers" := "authorization, x-client-info, apikey, content-type"
  ]

  /** The CORS headers plus the JSON content type carried by every non-preflight response. */
  const JsonHeaders: Headers := CorsHeaders["Content-Type" := "application/json"]

  /** A response body: none (preflight) or a JSON object with a single string field. */
  datatype Payload = NoBody | Field(name: string, value: string)

  datatype Response = Response(status: int, headers: Headers, payload: Payload)

  datatype Role = System | User
  datatype Message = Message(role: Role, content: string)

  /** The body posted to the chat-completions endpoint. */
  datatype Completion = Completion(model: string, messages: seq<Message>)

  const Model := "google/gemini-2.5-flash"

  /**
   * What reading a 2xx reply yields: the text of `choices[0].message.content`,
   * or the message of the error the runtime throws when the body is not JSON
   * or has no first choice.
   */
  datatype ReplyBody = FirstChoice(text: string) | NoChoice(thrown: string)

  /** The gateway's answer to the one call, or the error `fetch` throws. */
  datatype Upstream = Reply(status: int, body: ReplyBody) | Unreachable(thrown: string)

  /** The incoming request: its HTTP method and the outcome of `req.json()`. */
  datatype HttpRequest<T> = HttpRequest(verb: string, body: Body<T>)
  datatype Body<T> = Parsed(value: T) | Malformed(thrown: string)

  /** One invocation of a handler: the completion call it made, if any, and its response. */
  datatype Exchange = Exchange(call: Option<Completion>, response: Response)

  const RateLimitMessage := "Limite di richieste superato. Riprova tra qualche istante."
  const CreditsMessage := "Crediti esauriti. Aggiungi crediti al workspace."
  const ServiceErrorMessage := "Errore nel servizio AI"
  const MissingKeyMessage := "LOVABLE_API_KEY is not configured"

  /** `response.ok` */
  predicate IsOk(status: int) {
    200 <= status <= 299
  }

  /** Answer to an OPTIONS request: empty body, CORS headers only, default status. */
  function Preflight(): (r: Response)
    ensures r.payload == NoBody && r.headers == CorsHeaders && "Content-Type" !in r.headers && r.status == 200
  {
    Response(200, CorsHeaders, NoBody)
  }

  function ErrorResponse(status: int, message: string): Response {
    Response(status, JsonHeaders, Field("error", message))
  }

  /** The `catch` block: whatever was thrown becomes a 500 carrying its message; nothing was sent. */
  function Thrown(message: string): Exchange {
    Exchange(None, ErrorResponse(500, message))
  }

  /**
   * Maps the gateway's reply to the caller's response. A result is returned
   * only with status 200, every failure carries an `error` field, and only
   * the statuses 200, 402, 429 and 500 can come out.
   */
  function Translate(upstream: Upstream, resultKey: string): (r: Response)
    requires resultKey != "error"
    ensures r.headers == JsonHeaders && r.payload.Field?
    ensures r.status == 200 || r.status == 402 || r.status == 429 || r.status == 500
    ensures r.status == 200 <==> r.payload.name == resultKey
    ensures r.status != 200 <==> r.payload.name == "error"
    ensures r.status == 200 <==> upstream.Reply? && IsOk(upstream.status) && upstream.body.FirstChoice?
  {
    match upstream
    case Unreachable(m) => ErrorResponse(500, m)
    case Reply(status, body) =>
      if !IsOk(status) then
        if status == 429 then ErrorResponse(429, RateLimitMessage)
        else if status == 402 then ErrorResponse(402, CreditsMessage)
        else ErrorResponse(500, ServiceErrorMessage)
      else
        match body
        case FirstChoice(text) => Response(200, JsonHeaders, Field(resultKey, text))
        case NoChoice(m) => ErrorResponse(500, m)
  }

  /**
   * The status table: 429 and 402 are passed through with their fixed
   * messages, any other non-2xx becomes 500, a 2xx with a first choice
   * becomes 200 carrying that text under `resultKey`.
   */
  lemma StatusTable(status: int, body: ReplyBody, resultKey: string)
    requires resultKey != "error"
    ensures status == 429 ==> Translate(Reply(status, body), resultKey) == ErrorResponse(429, RateLimitMessage)
    ensures status == 402 ==> Translate(Reply(status, body), resultKey) == ErrorResponse(402, CreditsMessage)
    ensures !IsOk(status) && status != 429 && status != 402 ==>
              Translate(Reply(status, body), resultKey) == ErrorResponse(500, ServiceErrorMessage)
    ensures IsOk(status) && body.FirstChoice? ==>
              Translate(Reply(status, body), resultKey) == Response(200, JsonHeaders, Field(resultKey, body.text))
    ensures IsOk(status) && body.NoChoice? ==>
              Translate(Reply(status, body), resultKey) == ErrorResponse(500, body.thrown)
  {
  }

  /**
   * Everything after a handler's own required-field gate: the API key is
   * read (its absence is thrown, before any call), then exactly one call is
   * made carrying the fixed model and the system message before the user
   * message, and its reply is translated.
   */
  function Relay(apiKey: Option<string>, system: string, user: string, upstream: Upstream, resultKey: string): (x: Exchange)
    requires resultKey != "error"
    ensures x.call.Some? <==> Truthy(apiKey)
    ensures x.call.Some? ==> x.call.value == Completion(Model, [Message(System, system), Message(User, user)])
    ensures x.call.Some? ==> x.response == Translate(upstream, resultKey)
    ensures x.call.None? ==> x == Thrown(MissingKeyMessage)
    ensures x.response.headers == JsonHeaders
    ensures x.response.status != 400
  {
    if !Truthy(apiKey) then Thrown(MissingKeyMessage)
    else Exchange(Some(Completion(Model, [Message(System, system), Message(User, user)])), Translate(upstream, resultKey))
  }
}
