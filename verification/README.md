# agentProxy: a verified model of the recipe-agent HTTP proxy

The repository's backend is one Firebase HTTP function, `agentProxy`. It
takes a `{query, constraint}` JSON body and checks the request. It then
formats an OBSERVE / REFLECT / LOOP prompt and POSTs it to a Vertex AI
Agent Engine reasoning engine. From the agent's reply it recovers a JSON
object: the text from the first `{` through the last `}` of a textual
`output`. This project models that logic as pure Dafny functions over
datatypes and proves its properties.

Modules, one per piece of the handler:

- `Options` (`options.dfy`): the optional value.
- `PyText` (`text.dfy`): the Python string operations the handler relies
  on: `find`, `rfind`, `strip` and `textwrap.dedent`. Dedent works line by
  line; the model describes its lines by splitting the text at line breaks
  (`split("\n")`) and joining them again (`"\n".join`).
- `JsonValues` (`json.dfy`): decoded JSON values, Python truth testing,
  `str()` and the `in` operator on them.
- `Responses` (`responses.dfy`): status, headers and body of a response.
- `Prompt` (`prompt.dfy`): `_format_agent_message`.
- `Extraction` (`extraction.dfy`): everything after the POST. That is the
  status check, `response.json()`, the `output` lookup, the brace-span
  extraction and the fallbacks.
- `Proxy` (`proxy.dfy`): the ordered request checks, the upstream URL and
  body, and the whole handler `AgentProxy`.

The world outside the function is passed in as parameters:

- the HTTP method;
- the decoded body (None when `get_json(silent=True)` finds none);
- the `VERTEX_AGENT_ID` value (None when unset);
- the session id (`uuid4` in the source);
- the outcome of the POST: no response, or a status code with the reply text;
- the JSON decoder `parse`: a value; `Malformed` where `json.loads` raises
  `JSONDecodeError`; `Failed` where it raises anything else, such as a
  `RecursionError` on very deep nesting or a `ValueError` on an over-long
  integer literal;
- Python's `str()` of a value that is not a string (`show`).

An exception that escapes the handler is the outcome `Unhandled`. This
happens for some truthy bodies that are not JSON objects (see below).

Details of the code's behaviour:

- The code sets no headers on the 405 answer, so it has no CORS header. Its
  body is the plain text `Method Not Allowed`. Every other response allows
  any origin (`Proxy.CorsOnAllButMethodNotAllowed`).
- The fallback notes are `Agent returned unparsable text response` and
  `Unexpected response format from agent`.
- The `constraint` key is required, but its value may be empty or false.
  A false value is replaced by `No additional constraint.`.
- A body that is present but false (`{}`, `[]`, `""`, `0`, `false`, `null`)
  gets 400 like a missing one.
- A truthy body that is not an object gets 400 only when `in` finds a key
  missing. Otherwise the exception escapes the handler:
  - on a number or `true`, `in` itself raises;
  - on a list or string that contains both key names, `payload["query"]`
    raises.
- Replies are handled as follows:
  - A reply that is a list or a string without `output` is wrapped with the
    unexpected-format note, like an object without it.
  - A reply that is a number, a boolean or `null` gets 500 with the URL,
    because `in` raises inside the outer `try`.
  - So does a list or string reply that does contain `output`.
  - The inner handler catches only `JSONDecodeError` and `TypeError`. So a
    decoder failure of another kind on the brace span reaches the outer
    handler and gets 500 with the URL and the reply text.

## Model

| member | source | states |
|---|---|---|
| `PyText.Find` | capstone-agent/functions/main.py:127 | `find` gives -1 exactly when the character is absent; otherwise an index holding it with no earlier occurrence |
| `PyText.RFind` | capstone-agent/functions/main.py:129 | `rfind` gives -1 exactly when the character is absent; otherwise an index holding it with no later occurrence |
| `PyText.StripLeading` | capstone-agent/functions/main.py:44 | the result is a suffix, everything removed is white space, and it does not start with white space |
| `PyText.StripTrailing` | capstone-agent/functions/main.py:44 | the result is a prefix, everything removed is white space, and it does not end with white space |
| `PyText.SplitJoin` | capstone-agent/functions/main.py:24-44 | splitting single lines joined by line breaks gives back exactly those lines |
| `PyText.JoinSplit` | capstone-agent/functions/main.py:24-44 | joining the pieces of a split gives back the text |
| `PyText.DedentIndentedLiteral` | capstone-agent/functions/main.py:24-44 | dedenting and stripping an eight-blank indented triple-quoted literal yields its lines joined, without the indentation and without the framing line breaks |
| `Prompt.ConstraintSection` | capstone-agent/functions/main.py:20 | a false constraint becomes `No additional constraint.`; a non-empty string constraint is kept verbatim |
| `Prompt.FormatSingleLine` | capstone-agent/functions/main.py:18-44 | for single-line session id, query and constraint texts, the prompt is exactly the seventeen template lines joined by line breaks, and splitting it gives those lines back |
| `Prompt.FormattedMessageQuotes` | capstone-agent/functions/main.py:26-31 | the prompt begins with `SESSION_ID: <id>`; the `Request: "<query>"` and `Constraint: "<constraint>"` lines quote their texts verbatim in the OBSERVE section |
| `Prompt.FormattedMessageSections` | capstone-agent/functions/main.py:28-42 | OBSERVE, REFLECT and LOOP each head exactly one line, in that order; the LOOP section names the reply keys plan, constraint_ack, self_corrections and session_id |
| `JsonValues.Contains` | capstone-agent/functions/main.py:65 | Python `in` is defined on dicts, lists and strings and raises on other values; on a dict it tests the keys |
| `Extraction.ExtractSpan` | capstone-agent/functions/main.py:127-133 | a span is extracted exactly when some `{` precedes some `}`; it starts at the first `{`, ends at the last `}`, and has no `{` before it and no `}` after it in the output |
| `Extraction.SpanOfFramed` | capstone-agent/functions/main.py:127-133 | greedy extraction: a braced text framed by prose without `{` before it and without `}` after it is extracted whole, however many objects it holds |
| `Extraction.RenderOutput` | capstone-agent/functions/main.py:124-156 | every answer is 200 with JSON headers. A non-string `output` passes through unchanged. No brace pair gives the fallback. Otherwise the answer is the parsed span, or the fallback on a `JSONDecodeError`. Exactly when the decoder raises anything else on the span, the exception escapes the inner `try` |
| `Extraction.NoSpanNoParse` | capstone-agent/functions/main.py:131-156 | without a `{` before a `}` the outcome is the fallback, whatever the parser says, so no parse is attempted |
| `Extraction.ParsedSpanIsAgentObject` | capstone-agent/functions/main.py:131-146 | any non-fallback document obtained from a string `output` is the decoded value of its outermost brace span |
| `Extraction.CallFailure` | capstone-agent/functions/main.py:167-183 | the outer handler answers 500 with JSON headers and the target URL. The reply's text is included exactly when the upstream answered, and it is that text |
| `Extraction.HandleUpstream` | capstone-agent/functions/main.py:107-183 | the answer is 200 or 500 with JSON headers. It is 500 exactly when there is no response, the status is 4xx/5xx, or an exception reaches the outer handler; the 500 is then the call-failure document. A decoded reply without `output` is wrapped as text with the unexpected-format note. An object reply with `output` gets that output's rendering |
| `Extraction.ObjectReplyIsOk` | capstone-agent/functions/main.py:117-165 | a decoded object reply under a success status gets 200 exactly unless its `output` is text whose brace span makes the decoder raise something other than `JSONDecodeError` |
| `Extraction.DecoderFailureIsCallFailure` | capstone-agent/functions/main.py:134-183 | such a decoder failure is not caught by the inner handler. The client gets 500 with the URL and the reply text |
| `Extraction.MissingOutputIsWrapped` | capstone-agent/functions/main.py:157-165 | an object reply without `output` yields 200 with the whole reply under `response` and the unexpected-format note |
| `Proxy.AgentUrl` | capstone-agent/functions/main.py:86 | the URL is the API base, then the agent id, then `:query` |
| `Proxy.CheckRequest` | capstone-agent/functions/main.py:49-83 | OPTIONS gives the preflight and other non-POST methods 405. A request is admitted exactly when it is a POST whose body is an object holding `query` and `constraint` and the agent id is set and non-empty; it then carries the URL and both values. An exception escapes exactly for truthy bodies that are not objects and on which `in` raises or finds both keys |
| `Proxy.AgentProxy` | capstone-agent/functions/main.py:46-183 | a request is sent upstream exactly when the checks admit it. The request carries the formatted prompt and the session id, and the response is the reply handling's. A rejected request is answered with the rejection and sends nothing |
| `Proxy.PreflightAlwaysOk` | capstone-agent/functions/main.py:49-54 | OPTIONS gives 200 with an empty body and an allow-any-origin header, whatever the payload |
| `Proxy.MissingKeysRejected` | capstone-agent/functions/main.py:64-70 | a POST with a missing or false body, or an object without `query` or `constraint`, gets 400 with the fixed message, whatever the agent id |
| `Proxy.EmptyConstraintAdmitted` | capstone-agent/functions/main.py:65-95 | an empty `constraint` passes the checks. For a single-line session id and query, the prompt's constraint line then quotes `No additional constraint.` |
| `Proxy.MissingAgentIdRejected` | capstone-agent/functions/main.py:76-83 | a well-formed POST with an unset or empty agent id gets 500 with the configuration error and sends nothing |
| `Proxy.RejectedBeforeNetwork` | capstone-agent/functions/main.py:49-112 | a request the checks do not admit sends nothing, and its outcome does not depend on the upstream |
| `Proxy.TransportFailureReported` | capstone-agent/functions/main.py:107-183 | when the POST gets no response, an admitted request gets 500 naming the URL tried, without a reply text |
| `Proxy.CorsOnAllButMethodNotAllowed` | capstone-agent/functions/main.py:50-62 | every response the handler returns allows any origin except the 405 |
| `Proxy.SentPromptCarriesRequest` | capstone-agent/functions/main.py:86-103 | for single-line texts the request goes to base + id + `:query`; its body holds the prompt and the session id; the prompt opens with the session id and quotes the query |

## Left out

- Firebase plumbing is not modelled: `initialize_app`, the decorator's
  memory and instance options, and `https_fn.Request`/`Response` beyond
  status, header map and body.
- A JSON body is kept as the value given to `json.dumps`; serialisation
  itself is not modelled.
- JSON decoding is the parameter `parse`. The JSON grammar, and the
  difference between `json.loads` and `response.json()`, are not modelled.
- The request body is given already decoded, or None when
  `get_json(silent=True)` gives None. Failures while reading the request
  body that `silent=True` does not suppress are not modelled.
- JSON numbers are integers; floating-point values are not modelled.
- Python's `str()` of values that are not strings (the repr of dicts,
  lists, numbers, `True`, `None`) is the parameter `show`.
- Credentials and networking are not modelled: `google.auth.default`,
  `AuthorizedSession` and the POST are replaced by their outcome. A
  failure to obtain credentials would raise before the `try`; that path is
  not modelled.
- `uuid.uuid4()` and `os.environ` are parameters.
- The `details` entry of the 500 upstream-failure body (the exception's
  text) is not modelled. The fixed `error` text, `api_url` and
  `api_response` are.
- What the framework sends when an exception escapes the handler is not
  modelled: the outcome `Unhandled`.
- `print` logging is not modelled.
- `Prompt.FormattedMessageQuotes`: proved only for a session id, query text
  and constraint text without line breaks. `textwrap.dedent` computes its
  margin after interpolation, so a multi-line query can change the margin.
  `PyText.Dedent` follows the margin rule of Python 3.8–3.13 for any text.
- `Prompt.FormattedMessageSections`: proved only for texts without line
  breaks, for the same reason.
- `Prompt.FormatSingleLine`: proved only for texts without line breaks, for
  the same reason.
- `Proxy.SentPromptCarriesRequest`: proved only for texts without line
  breaks, for the same reason.
