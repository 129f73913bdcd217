/** The relay endpoint of api/coach.js: CORS headers on every response, a
    ladder of early returns (preflight, method, server key, message), and the
    mapping of the provider's answer to the relay's response. */
module Relay {
  import opened Common
  import Coach

  const AllowOrigin: string := "Access-Control-Allow-Origin"
  const AllowHeaders: string := "Access-Control-Allow-Headers"
  const AllowMethods: string := "Access-Control-Allow-Methods"

  const PersonaSentence: string := "Du bist ein professioneller Front-Lever-Coach."
  const StyleSentence: string := "Antworte klar, motivierend und konkret."
  const FocusSentence: string := "Gib priorisierte Schritte, Load-Management und kurze Technik-Cues."
  const NoContextSentence: string := "Kontext: keine Daten vorhanden."

  /** `setCors(res)`: the three CORS headers are set, every other header is kept. */
  function SetCors(headers: map<string, string>): (r: map<string, string>)
    ensures r.Keys == headers.Keys + {AllowOrigin, AllowHeaders, AllowMethods}
    ensures r[AllowOrigin] == "*" && r[AllowHeaders] == "Content-Type" && r[AllowMethods] == "POST, OPTIONS"
    ensures forall k :: k in headers && k !in {AllowOrigin, AllowHeaders, AllowMethods} ==> r[k] == headers[k]
  {
    headers[AllowOrigin := "*"][AllowHeaders := "Content-Type"][AllowMethods := "POST, OPTIONS"]
  }

  /** The headers of every response of the handler. */
  function CorsHeaders(): (h: map<string, string>)
    ensures h.Keys == {AllowOrigin, AllowHeaders, AllowMethods}
  {
    SetCors(map[])
  }

  /** The parsed request body. `message` is None when absent; `context` is the
      JSON text of a truthy context, None when it is absent or falsy. */
  datatype RequestBody = RequestBody(message: Option<string>, context: Option<string>)

  datatype HttpRequest = HttpRequest(verb: string, body: Option<RequestBody>)

  /** The provider's parsed JSON: the first choice's content (if any) and the raw document. */
  datatype UpstreamData = UpstreamData(content: Option<string>, raw: string)

  /** What the call to the provider produced: a thrown error (network failure
      or a body that is not JSON), or a response with its OK flag and data. */
  datatype UpstreamOutcome = Threw(detail: string) | Responded(ok: bool, data: UpstreamData)

  datatype ResponseBody =
    | NoBody
    | ErrorBody(error: string)
    | UpstreamErrorBody(error: string, raw: string)
    | ServerErrorBody(error: string, detail: string)
    | ReplyBody(ok: bool, reply: string, raw: string)

  datatype Response = Response(status: int, headers: map<string, string>, body: ResponseBody)

  /** The provider request the handler makes. */
  datatype UpstreamCall = UpstreamCall(url: string, bearer: string, model: string, systemPrompt: string, userMessage: string)

  /** Where the ladder of checks ends: an early response, or a provider call. */
  datatype Step = Respond(response: Response) | CallUpstream(call: UpstreamCall)

  /** The message the handler reads, when it is truthy (present and non-empty).
      A missing body reads as `{}` and so carries no message. */
  predicate HasMessage(req: HttpRequest): (present: bool)
    ensures req.body.None? ==> !present
    ensures present ==> req.body.value.message.Some? && |req.body.value.message.value| > 0
  {
    req.body.Some? && req.body.value.message.Some? && req.body.value.message.value != ""
  }

  /** The system prompt: three fixed sentences and the context sentence,
      joined by single spaces. */
  function SystemPrompt(context: Option<string>): (p: string)
    ensures p == PersonaSentence + " " + StyleSentence + " " + FocusSentence + " " +
                 (if context.Some? then "Kontext: " + context.value else NoContextSentence)
  {
    var contextSentence := if context.Some? then "Kontext: " + context.value else NoContextSentence;
    var parts := [PersonaSentence, StyleSentence, FocusSentence, contextSentence];
    assert Join(parts[3..], " ") == contextSentence;
    assert Join(parts[2..], " ") == FocusSentence + " " + contextSentence;
    assert Join(parts[1..], " ") == StyleSentence + " " + FocusSentence + " " + contextSentence;
    Join(parts, " ")
  }

  /** The checks of the handler before it calls the provider, in source order. */
  function Decide(req: HttpRequest, serverKey: string): (s: Step)
    ensures req.verb == "OPTIONS" ==> s == Respond(Response(200, CorsHeaders(), NoBody))
    ensures req.verb != "OPTIONS" && req.verb != "POST" ==>
      s == Respond(Response(405, CorsHeaders(), ErrorBody("Method not allowed")))
    ensures req.verb == "POST" && serverKey == "" ==>
      s == Respond(Response(500, CorsHeaders(), ErrorBody("SAFE_API_KEY missing on server")))
    ensures req.verb == "POST" && serverKey != "" && !HasMessage(req) ==>
      s == Respond(Response(400, CorsHeaders(), ErrorBody("Missing message")))
    ensures s.CallUpstream? <==> req.verb == "POST" && serverKey != "" && HasMessage(req)
    ensures s.CallUpstream? ==>
      s.call == UpstreamCall(Coach.GroqEndpoint, serverKey, Coach.GroqModel,
                             SystemPrompt(req.body.value.context), req.body.value.message.value)
  {
    if req.verb == "OPTIONS" then
      Respond(Response(200, CorsHeaders(), NoBody))
    else if req.verb != "POST" then
      Respond(Response(405, CorsHeaders(), ErrorBody("Method not allowed")))
    else if serverKey == "" then
      Respond(Response(500, CorsHeaders(), ErrorBody("SAFE_API_KEY missing on server")))
    else if !HasMessage(req) then
      Respond(Response(400, CorsHeaders(), ErrorBody("Missing message")))
    else
      var body := req.body.value;
      CallUpstream(UpstreamCall(Coach.GroqEndpoint, serverKey, Coach.GroqModel,
                                SystemPrompt(body.context), body.message.value))
  }

  /** The response once the provider was called: a thrown error gives 500, a
      response that is not OK gives 502 with the raw data, and success gives
      200 with the first choice's content ("" when missing) and the raw data. */
  function Complete(outcome: UpstreamOutcome): (r: Response)
    ensures r.headers == CorsHeaders()
    ensures outcome.Threw? ==> r.status == 500 && r.body == ServerErrorBody("Server error", outcome.detail)
    ensures outcome.Responded? && !outcome.ok ==>
      r.status == 502 && r.body == UpstreamErrorBody("Upstream error", outcome.data.raw)
    ensures outcome.Responded? && outcome.ok ==>
      r.status == 200 && r.body.ReplyBody? && r.body.ok && r.body.raw == outcome.data.raw
    ensures outcome.Responded? && outcome.ok && outcome.data.content.Some? ==> r.body.reply == outcome.data.content.value
    ensures outcome.Responded? && outcome.ok && outcome.data.content.None? ==> r.body.reply == ""
  {
    match outcome
    case Threw(detail) => Response(500, CorsHeaders(), ServerErrorBody("Server error", detail))
    case Responded(ok, data) =>
      if !ok then Response(502, CorsHeaders(), UpstreamErrorBody("Upstream error", data.raw))
      else Response(200, CorsHeaders(), ReplyBody(true, if data.content.Some? then data.content.value else "", data.raw))
  }

  /** `handler(req, res)` with the server key and the provider's outcome as inputs. */
  function Handler(req: HttpRequest, serverKey: string, outcome: UpstreamOutcome): (r: Response)
    ensures r.headers == CorsHeaders()
    ensures r.status in {200, 400, 405, 500, 502}
    ensures r.status == 502 ==> HasMessage(req) && serverKey != "" && req.verb == "POST"
  {
    match Decide(req, serverKey)
    case Respond(response) => response
    case CallUpstream(_) => Complete(outcome)
  }

  /** When a check answers early, the provider is never consulted: the response
      is the same whatever the provider would have done. */
  lemma EarlyAnswersIgnoreProvider(req: HttpRequest, serverKey: string, o1: UpstreamOutcome, o2: UpstreamOutcome)
    requires !(req.verb == "POST" && serverKey != "" && HasMessage(req))
    ensures Handler(req, serverKey, o1) == Handler(req, serverKey, o2)
    ensures Handler(req, serverKey, o1).status in {200, 400, 405, 500}
  {
  }

  /** A preflight is answered before the key or the body is looked at. */
  lemma PreflightIgnoresKeyAndBody(body1: Option<RequestBody>, body2: Option<RequestBody>, key1: string, key2: string,
                                   o1: UpstreamOutcome, o2: UpstreamOutcome)
    ensures Handler(HttpRequest("OPTIONS", body1), key1, o1) == Handler(HttpRequest("OPTIONS", body2), key2, o2)
  {
  }

  /** The missing server key is reported before the message is read. */
  lemma MissingKeyBeforeMessage(body: Option<RequestBody>, outcome: UpstreamOutcome)
    ensures Handler(HttpRequest("POST", body), "", outcome).status == 500
  {
  }
}
