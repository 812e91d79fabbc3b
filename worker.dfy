/**
 * The Worker's `fetch` handler: preflight first, then routing by pathname
 * and method, with the fixed cross-origin headers on every routed response.
 */
module Worker {
  import opened Wrappers
  import opened Resolvers
  import opened Executor

  /** A response header: name and value. */
  type Header = (string, string)

  /** `corsHeaders`. */
  const CorsHeaders: seq<Header> := [
    ("Access-Control-Allow-Origin", "*"),
    ("Access-Control-Allow-Methods", "GET, POST, OPTIONS"),
    ("Access-Control-Allow-Headers", "Content-Type, Apollo-Require-Preflight"),
    ("Access-Control-Max-Age", "86400")
  ]

  const JsonHeaders: seq<Header> := [("Content-Type", "application/json")] + CorsHeaders
  const HtmlHeaders: seq<Header> := [("Content-Type", "text/html")] + CorsHeaders

  /**
   * What reading the request body gives: `request.json()` and the
   * destructuring of `{ query, variables }` either succeed, with `variables`
   * possibly absent, or throw an error with the given message.
   */
  datatype BodyOutcome = Parsed(query: string, variables: Option<Variables>) | Malformed(message: string)

  /** The status payload served at `/`. */
  datatype StatusInfo = StatusInfo(message: string, graphqlEndpoint: string, playgroundEndpoint: string, timestamp: string)

  /** The kinds of response bodies the handler produces. */
  datatype ResponseBody =
    | NoBody
    | Json(envelope: Envelope)
    | PlaygroundPage
    | StatusJson(info: StatusInfo)
    | PlainText(text: string)

  datatype Response = Response(status: int, headers: seq<Header>, body: ResponseBody)

  /** The routes that answer something other than 404, preflight included. */
  predicate Routed(requestMethod: string, pathname: string) {
    requestMethod == "OPTIONS"
    || (pathname == "/graphql" && (requestMethod == "POST" || requestMethod == "GET"))
    || pathname == "/"
  }

  /** The response carries every cross-origin header. */
  predicate HasCors(r: Response) {
    forall h :: h in CorsHeaders ==> h in r.headers
  }

  /**
   * `fetch(request, env, ctx)` for a request with the given method and
   * pathname, body outcome, clock reading and provider clients. Every
   * routed response carries the cross-origin headers; every other request
   * gets a 404 for which the handler sets no header.
   */
  function Fetch(requestMethod: string, pathname: string, body: BodyOutcome,
                 env: Env, client: Client, now: string): (r: Response)
    ensures r.status in {200, 204, 404, 500}
    ensures r.status == 404 <==> !Routed(requestMethod, pathname)
    ensures Routed(requestMethod, pathname) ==> HasCors(r)
    ensures !Routed(requestMethod, pathname) ==> r == Response(404, [], PlainText("Not Found"))
  {
    if requestMethod == "OPTIONS" then
      Response(204, CorsHeaders, NoBody)
    else if pathname == "/graphql" && requestMethod == "POST" then
      match body
      case Parsed(query, variables) =>
        Response(200, JsonHeaders, Json(ExecuteGraphQL(query, variables.GetOr(map[]), env, client, now).envelope))
      case Malformed(message) =>
        Response(500, JsonHeaders, Json(ErrorEnvelope([GraphQLError(message)])))
    else if pathname == "/graphql" && requestMethod == "GET" then
      Response(200, HtmlHeaders, PlaygroundPage)
    else if pathname == "/" then
      Response(200, JsonHeaders,
        StatusJson(StatusInfo("🚀 Web3 Journey Worker is running!", "/graphql", "/graphql (GET)", now)))
    else
      Response(404, [], PlainText("Not Found"))
  }

  /**
   * Preflight is answered before any path check: 204, no body, and exactly
   * the four cross-origin headers.
   */
  lemma PreflightFirst(pathname: string, body: BodyOutcome, env: Env, client: Client, now: string)
    ensures var r := Fetch("OPTIONS", pathname, body, env, client, now);
      r.status == 204 && r.body == NoBody && r.headers == CorsHeaders && |r.headers| == 4
  {
  }

  /**
   * `POST /graphql`: a parsed body gives 200 with the envelope of the
   * dispatcher, run with empty variables when none were sent; a body that
   * fails to parse gives 500 with a single error carrying its message.
   * Both are JSON with the cross-origin headers.
   */
  lemma GraphQLPost(body: BodyOutcome, env: Env, client: Client, now: string)
    ensures var r := Fetch("POST", "/graphql", body, env, client, now);
      r.headers == [("Content-Type", "application/json")] + CorsHeaders
      && (body.Parsed? ==>
            r.status == 200
            && r.body == Json(ExecuteGraphQL(body.query,
                 if body.variables.Some? then body.variables.value else map[], env, client, now).envelope))
      && (body.Malformed? ==>
            r.status == 500 && r.body == Json(ErrorEnvelope([GraphQLError(body.message)])))
  {
  }

  /**
   * A provider failure never reaches the transport: a chat mutation is
   * answered 200 with `data.chatWithAI`, whose label is Error exactly when
   * the single provider request failed, and whose response is then the
   * failure prefix and that failure's message.
   */
  lemma ProviderFailureIsStill200(query: string, variables: Option<Variables>, env: Env, client: Client, now: string)
    requires Classify(query) == Some(ChatWithAI)
    ensures var r := Fetch("POST", "/graphql", Parsed(query, variables), env, client, now);
      var x := ExecuteGraphQL(query, variables.GetOr(map[]), env, client, now);
      r.status == 200 && r.body == Json(x.envelope) && x.envelope.DataEnvelope? && x.envelope.data.ChatData?
      && (x.envelope.data.chatWithAI.model == LabelError <==>
            |x.calls| == 1 && client(x.calls[0].provider, x.calls[0].message, x.calls[0].apiKey).Fail?)
      && (x.envelope.data.chatWithAI.model == LabelError ==>
            x.envelope.data.chatWithAI.response
              == FailurePrefix + client(x.calls[0].provider, x.calls[0].message, x.calls[0].apiKey).message)
  {
    ChatContainsFailure(ResolveMessage(variables.GetOr(map[]), query), env, client, now);
  }

  /** `GET /graphql` serves the playground page with the cross-origin headers. */
  lemma PlaygroundRoute(body: BodyOutcome, env: Env, client: Client, now: string)
    ensures Fetch("GET", "/graphql", body, env, client, now)
      == Response(200, [("Content-Type", "text/html")] + CorsHeaders, PlaygroundPage)
  {
  }

  /** Any method but OPTIONS on `/` gets the status payload, stamped with the clock. */
  lemma RootRoute(requestMethod: string, body: BodyOutcome, env: Env, client: Client, now: string)
    requires requestMethod != "OPTIONS"
    ensures var r := Fetch(requestMethod, "/", body, env, client, now);
      r.status == 200 && r.headers == JsonHeaders
      && r.body == StatusJson(StatusInfo("🚀 Web3 Journey Worker is running!", "/graphql", "/graphql (GET)", now))
  {
  }

  /** The 404 answer carries no cross-origin header at all. */
  lemma NotFoundHasNoCors(requestMethod: string, pathname: string, body: BodyOutcome,
                          env: Env, client: Client, now: string)
    requires !Routed(requestMethod, pathname)
    ensures !HasCors(Fetch(requestMethod, pathname, body, env, client, now))
    ensures forall h :: h in CorsHeaders ==> h !in Fetch(requestMethod, pathname, body, env, client, now).headers
  {
    assert CorsHeaders[0] in CorsHeaders;
  }
}
