/** The HTTP responses `agentProxy` returns: a status, a header map and a
    body. A JSON body is kept as the value handed to `json.dumps`. */
module Responses {
  import opened Options
  import opened JsonValues

  datatype Body =
    | Text(text: string)
      /** A JSON document. */
    | Document(value: Json)
      /** The upstream-failure document: the fixed `error` text, the target
          URL and, when the upstream answered at all, its raw text. Its
          `details` entry (the exception's text) is not modelled. */
    | CallFailed(apiUrl: string, apiResponse: Option<string>)

  datatype Response = Response(status: int, headers: map<string, string>, body: Body)

  const AllowOrigin: string := "Access-Control-Allow-Origin"

  /** Headers of every JSON response. */
  const JsonHeaders: map<string, string> :=
    map["Content-Type" := "application/json", AllowOrigin := "*"]

  /** Headers of the answer to a CORS preflight. */
  const PreflightHeaders: map<string, string> :=
    map[AllowOrigin := "*",
        "Access-Control-Allow-Methods" := "POST, OPTIONS",
        "Access-Control-Allow-Headers" := "Content-Type"]

  /** The response lets a page from any origin read it. */
  predicate AllowsAnyOrigin(r: Response) {
    AllowOrigin in r.headers && r.headers[AllowOrigin] == "*"
  }

  /** A `{"key": text}` document. */
  function Single(key: string, text: string): Json {
    JObj(map[key := JStr(text)])
  }

  /** A `{"response": text, "note": note}` document. */
  function Wrapped(text: string, note: string): Json {
    JObj(map["response" := JStr(text), "note" := JStr(note)])
  }
}
