/** `agentProxy`, the HTTP entry point: the ordered request checks, the
    upstream URL and request body, and the hand-over to the reply handling.
    The request body (`get_json(silent=True)`, None when absent or not JSON),
    the `VERTEX_AGENT_ID` setting, the fresh session id and the outcome of the
    POST are parameters. */
module Proxy {
  import opened Options
  import opened JsonValues
  import opened Responses
  import opened Prompt
  import opened Extraction

  /** Base URL of the Vertex AI Agent Engine REST API. */
  const ApiBaseUrl: string := "https://us-central1-aiplatform.googleapis.com/v1/"

  const MissingFieldsError: string := "Missing 'query' or 'constraint' in JSON body."
  const ConfigurationError: string :=
    "Configuration Error: Agent ID environment variable (VERTEX_AGENT_ID) not set. Check deployment command."

  /** The answer to a CORS preflight: 200, empty body. */
  const Preflight: Response := Response(200, PreflightHeaders, Text(""))
  /** Any method but OPTIONS and POST; the code sets no headers on it. */
  const MethodNotAllowed: Response := Response(405, map[], Text("Method Not Allowed"))
  const BadRequest: Response := Response(400, JsonHeaders, Document(Single("error", MissingFieldsError)))
  const NotConfigured: Response := Response(500, JsonHeaders, Document(Single("error", ConfigurationError)))

  /** The URL of the agent's `query` method. */
  function AgentUrl(agentId: string): (url: string)
    ensures ApiBaseUrl <= url && |url| == |ApiBaseUrl| + |agentId| + 6
    ensures url[|ApiBaseUrl|..|ApiBaseUrl| + |agentId|] == agentId && url[|url| - 6..] == ":query"
  {
    ApiBaseUrl + agentId + ":query"
  }

  /** The verdict of the checks that precede any network traffic. */
  datatype Gate =
    | Reject(response: Response)
      /** A `TypeError` escapes the handler: the framework answers. */
    | Raise
    | Admit(url: string, query: Json, constraint: Json)

  /** The request body has both required keys: `"query" in payload` and
      `"constraint" in payload` hold and neither raises. */
  predicate HasRequiredKeys(payload: Json) {
    Contains(payload, "query") == Some(true) && Contains(payload, "constraint") == Some(true)
  }

  /** The checks made before any network traffic, in their order: the
      method, the body and its keys (`payload["query"]` raising on a value
      that is not a dict), the agent id. */
  function CheckRequest(httpMethod: string, payload: Option<Json>, agentId: Option<string>): (g: Gate)
    ensures httpMethod == "OPTIONS" ==> g == Reject(Preflight)
    ensures httpMethod != "OPTIONS" && httpMethod != "POST" ==> g == Reject(MethodNotAllowed)
    ensures g.Admit? <==>
      && httpMethod == "POST" && payload.Some? && payload.value.JObj?
      && "query" in payload.value.fields && "constraint" in payload.value.fields
      && agentId.Some? && agentId.value != ""
    ensures g.Admit? ==>
      && g.url == AgentUrl(agentId.value)
      && g.query == payload.value.fields["query"] && g.constraint == payload.value.fields["constraint"]
    ensures g.Raise? <==>
      httpMethod == "POST" && payload.Some? && Truthy(payload.value) && !payload.value.JObj?
      && (Contains(payload.value, "query").None? || HasRequiredKeys(payload.value))
  {
    if httpMethod == "OPTIONS" then Reject(Preflight)
    else if httpMethod != "POST" then Reject(MethodNotAllowed)
    else if payload.None? || !Truthy(payload.value) then Reject(BadRequest)
    else
      var p := payload.value;
      match Contains(p, "query")
      case None => Raise
      case Some(false) => Reject(BadRequest)
      case Some(true) =>
        match Contains(p, "constraint")
        case None => Raise
        case Some(false) => Reject(BadRequest)
        case Some(true) =>
          if !p.JObj? then Raise
          else if agentId.None? || agentId.value == "" then Reject(NotConfigured)
          else Admit(AgentUrl(agentId.value), p.fields["query"], p.fields["constraint"])
  }

  /** The request sent upstream. */
  datatype Outbound = Outbound(url: string, body: Json)

  /** `{"input": {"message": message, "session_id": sessionId}}`. */
  function RequestBody(message: string, sessionId: string): Json {
    JObj(map["input" := JObj(map["message" := JStr(message), "session_id" := JStr(sessionId)])])
  }

  /** What one invocation does: the request it sends upstream, if any, and
      the response it returns; or an exception that escapes it. */
  datatype Outcome =
    | Replied(sent: Option<Outbound>, response: Response)
    | Unhandled

  /** `agentProxy(req)`. */
  function AgentProxy(
    httpMethod: string, payload: Option<Json>, agentId: Option<string>, sessionId: string,
    upstream: Upstream, parse: string -> Decoded, show: Json -> string): (o: Outcome)
    ensures var g := CheckRequest(httpMethod, payload, agentId);
      && (o.Unhandled? <==> g.Raise?)
      && (o.Replied? && o.sent.Some? <==> g.Admit?)
      && (g.Reject? ==> o == Replied(None, g.response))
      && (g.Admit? ==>
            o.sent == Some(Outbound(g.url, RequestBody(FormatAgentMessage(g.query, g.constraint, sessionId, show), sessionId)))
            && o.response == HandleUpstream(g.url, upstream, parse, show))
  {
    match CheckRequest(httpMethod, payload, agentId)
    case Reject(response) => Replied(None, response)
    case Raise => Unhandled
    case Admit(url, query, constraint) =>
      var message := FormatAgentMessage(query, constraint, sessionId, show);
      Replied(Some(Outbound(url, RequestBody(message, sessionId))), HandleUpstream(url, upstream, parse, show))
  }

  // ---------------------------------------------------------------------------
  // Properties of the request gate.

  /** A preflight is answered 200 with an empty body and CORS headers,
      whatever the body, the configuration or the upstream. */
  lemma PreflightAlwaysOk(payload: Option<Json>, agentId: Option<string>, sessionId: string,
                          upstream: Upstream, parse: string -> Decoded, show: Json -> string)
    ensures var o := AgentProxy("OPTIONS", payload, agentId, sessionId, upstream, parse, show);
      o == Replied(None, Preflight) && o.response.status == 200 && o.response.body == Text("")
      && AllowsAnyOrigin(o.response)
  {
  }

  /** A POST whose body is missing, empty, or an object lacking `query` or
      `constraint` gets 400 with the fixed message, before the configuration
      is even consulted. */
  lemma MissingKeysRejected(payload: Option<Json>, agentId: Option<string>, sessionId: string,
                            upstream: Upstream, parse: string -> Decoded, show: Json -> string)
    requires payload.None? || !Truthy(payload.value)
      || (payload.value.JObj? && ("query" !in payload.value.fields || "constraint" !in payload.value.fields))
    ensures AgentProxy("POST", payload, agentId, sessionId, upstream, parse, show) == Replied(None, BadRequest)
  {
  }

  /** An empty `constraint` is present: with a `query` and a set agent id the
      request goes upstream, carrying the placeholder in its prompt. */
  lemma EmptyConstraintAdmitted(query: Json, agentId: string, sessionId: string, show: Json -> string)
    requires agentId != ""
    requires PyText.SingleLine(sessionId) && PyText.SingleLine(Str(query, show))
    ensures CheckRequest("POST", Some(JObj(map["query" := query, "constraint" := JStr("")])), Some(agentId))
      == Admit(AgentUrl(agentId), query, JStr(""))
    ensures var lines := PyText.SplitLines(FormatAgentMessage(query, JStr(""), sessionId, show));
      |lines| == 17 && lines[5] == ConstraintLine(NoConstraint)
  {
    EmptyConstraintPasses(query, agentId);
    PlaceholderQuoted(query, sessionId, show);
  }

  /** An empty `constraint` passes the checks. */
  lemma EmptyConstraintPasses(query: Json, agentId: string)
    requires agentId != ""
    ensures CheckRequest("POST", Some(JObj(map["query" := query, "constraint" := JStr("")])), Some(agentId))
      == Admit(AgentUrl(agentId), query, JStr(""))
  {
  }

  /** A well-formed POST without a usable agent id gets 500 with the
      configuration error, and nothing is sent. */
  lemma MissingAgentIdRejected(payload: Json, agentId: Option<string>, sessionId: string,
                               upstream: Upstream, parse: string -> Decoded, show: Json -> string)
    requires payload.JObj? && "query" in payload.fields && "constraint" in payload.fields
    requires agentId.None? || agentId.value == ""
    ensures AgentProxy("POST", Some(payload), agentId, sessionId, upstream, parse, show) == Replied(None, NotConfigured)
  {
  }

  /** Whatever the checks reject never reaches the network: the outcome does
      not depend on what the upstream would have done. */
  lemma RejectedBeforeNetwork(httpMethod: string, payload: Option<Json>, agentId: Option<string>, sessionId: string,
                              upstream1: Upstream, upstream2: Upstream,
                              parse: string -> Decoded, show: Json -> string)
    requires !CheckRequest(httpMethod, payload, agentId).Admit?
    ensures AgentProxy(httpMethod, payload, agentId, sessionId, upstream1, parse, show)
         == AgentProxy(httpMethod, payload, agentId, sessionId, upstream2, parse, show)
    ensures AgentProxy(httpMethod, payload, agentId, sessionId, upstream1, parse, show).Replied? ==>
            AgentProxy(httpMethod, payload, agentId, sessionId, upstream1, parse, show).sent.None?
  {
  }

  /** When the POST itself fails, the client gets 500 naming the URL tried. */
  lemma TransportFailureReported(httpMethod: string, payload: Option<Json>, agentId: Option<string>, sessionId: string,
                                 parse: string -> Decoded, show: Json -> string)
    requires CheckRequest(httpMethod, payload, agentId).Admit?
    ensures var o := AgentProxy(httpMethod, payload, agentId, sessionId, NoResponse, parse, show);
      o.Replied? && o.response.status == 500
      && o.response.body == CallFailed(AgentUrl(agentId.value), None)
  {
  }

  /** Every response the handler itself returns lets any origin read it,
      except the 405. */
  lemma CorsOnAllButMethodNotAllowed(httpMethod: string, payload: Option<Json>, agentId: Option<string>, sessionId: string,
                                     upstream: Upstream, parse: string -> Decoded, show: Json -> string)
    ensures var o := AgentProxy(httpMethod, payload, agentId, sessionId, upstream, parse, show);
      o.Replied? ==> (AllowsAnyOrigin(o.response) <==> o.response.status != 405)
  {
    var g := CheckRequest(httpMethod, payload, agentId);
    if g.Admit? {
      assert HandleUpstream(g.url, upstream, parse, show).headers == JsonHeaders;
    }
  }

  /** For single-line texts, the prompt sent upstream opens with the session
      id, quotes the query verbatim in its OBSERVE section, and the body
      carries the same session id. */
  lemma SentPromptCarriesRequest(payload: Json, agentId: string, sessionId: string,
                                 upstream: Upstream, parse: string -> Decoded, show: Json -> string)
    requires payload.JObj? && "query" in payload.fields && "constraint" in payload.fields && agentId != ""
    requires PyText.SingleLine(sessionId) && PyText.SingleLine(Str(payload.fields["query"], show))
    requires PyText.SingleLine(ConstraintSection(payload.fields["constraint"], show))
    ensures var o := AgentProxy("POST", Some(payload), Some(agentId), sessionId, upstream, parse, show);
      && o.Replied? && o.sent.Some?
      && o.sent.value.url == ApiBaseUrl + agentId + ":query"
      && var message := FormatAgentMessage(payload.fields["query"], payload.fields["constraint"], sessionId, show);
      && o.sent.value.body == RequestBody(message, sessionId)
      && "SESSION_ID: " + sessionId <= message
      && RequestLine(Str(payload.fields["query"], show)) in PyText.SplitLines(message)
  {
    var query, constraint := payload.fields["query"], payload.fields["constraint"];
    assert CheckRequest("POST", Some(payload), Some(agentId)) == Admit(AgentUrl(agentId), query, constraint);
    var message := FormatAgentMessage(query, constraint, sessionId, show);
    FormattedMessageQuotes(query, constraint, sessionId, show);
    assert PyText.SplitLines(message)[4] == RequestLine(Str(query, show));
  }
}
