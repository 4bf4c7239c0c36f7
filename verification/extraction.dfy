/** What `agentProxy` does with the upstream call's outcome: the status check,
    the decoding of the reply, and the best-effort extraction of a JSON object
    from a textual `output` (the first `{` through the last `}`). JSON decoding
    is the parameter `parse`: a value, `Malformed` where `json.loads` raises
    `JSONDecodeError`, `Failed` where it raises anything else. */
module Extraction {
  import opened Options
  import opened PyText
  import opened JsonValues
  import opened Responses

  const UnparsableNote: string := "Agent returned unparsable text response"
  const UnexpectedFormatNote: string := "Unexpected response format from agent"

  /** The fallback document for a textual `output` with no usable JSON. */
  function Fallback(output: string): Json {
    Wrapped(output, UnparsableNote)
  }

  /** Some `{` comes before some `}` in the text. */
  predicate HasBracePair(s: string) {
    exists i, j :: 0 <= i < j < |s| && s[i] == '{' && s[j] == '}'
  }

  /** `t` stands in `s` at `start`, opens with `{`, closes with `}`, has no
      `{` before it in `s` and no `}` after it: the outermost brace span. */
  predicate OutermostBraceSpan(s: string, start: int, t: string) {
    && 0 <= start && start + |t| <= |s| && s[start..start + |t|] == t
    && |t| >= 2 && t[0] == '{' && t[|t| - 1] == '}'
    && (forall k :: 0 <= k < start ==> s[k] != '{')
    && (forall k :: start + |t| <= k < |s| ==> s[k] != '}')
  }

  /** The text handed to the parser: from the first `{` through the last `}`
      when the last `}` comes after the first `{`, otherwise nothing. */
  function ExtractSpan(output: string): (r: Option<string>)
    ensures r.Some? <==> HasBracePair(output)
    ensures r.Some? ==> OutermostBraceSpan(output, Find(output, '{'), r.value)
  {
    var start := Find(output, '{');
    var end := RFind(output, '}');
    if start != -1 && end != -1 && end > start then
      assert output[start..end + 1][end - start] == output[end];
      Some(output[start..end + 1])
    else
      assert forall i, j :: 0 <= i < j < |output| && output[i] == '{' && output[j] == '}' ==> start <= i && j <= end;
      None
  }

  /** The inner `try` of the reply handling, given the value under `output`:
      a non-string passes through, a string yields the parsed brace span or,
      on a `JSONDecodeError`, the fallback; all of them with 200. Any other
      exception from the decoder escapes the inner `try`: None. */
  function RenderOutput(output: Json, parse: string -> Decoded): (r: Option<Response>)
    ensures r.Some? ==> r.value.status == 200 && r.value.headers == JsonHeaders
    ensures r.None? <==> output.JStr? && HasBracePair(output.s) && parse(ExtractSpan(output.s).value).Failed?
    ensures !output.JStr? ==> r == Some(Response(200, JsonHeaders, Document(output)))
    ensures output.JStr? && !HasBracePair(output.s) ==> r == Some(Response(200, JsonHeaders, Document(Fallback(output.s))))
    ensures output.JStr? && HasBracePair(output.s) && parse(ExtractSpan(output.s).value).Parsed? ==>
      r == Some(Response(200, JsonHeaders, Document(parse(ExtractSpan(output.s).value).value)))
    ensures output.JStr? && HasBracePair(output.s) && parse(ExtractSpan(output.s).value).Malformed? ==>
      r == Some(Response(200, JsonHeaders, Document(Fallback(output.s))))
  {
    if output.JStr? then
      match ExtractSpan(output.s)
      case None => Some(Response(200, JsonHeaders, Document(Fallback(output.s))))
      case Some(span) =>
        match parse(span)
        case Parsed(v) => Some(Response(200, JsonHeaders, Document(v)))
        case Malformed => Some(Response(200, JsonHeaders, Document(Fallback(output.s))))
        case Failed => None
    else Some(Response(200, JsonHeaders, Document(output)))
  }

  /** What came back from the POST: nothing (the connection or the request
      failed), or an HTTP status code with the reply text. */
  datatype Upstream = NoResponse | Answered(code: int, text: string)

  /** `raise_for_status` raises on client and server error codes. */
  predicate ErrorStatus(code: int) {
    400 <= code < 600
  }

  /** The outer `except`: 500 with the target URL, and the reply text when
      the upstream answered. */
  function CallFailure(url: string, upstream: Upstream): (r: Response)
    ensures r.status == 500 && r.headers == JsonHeaders && r.body.CallFailed? && r.body.apiUrl == url
    ensures r.body.apiResponse.Some? <==> upstream.Answered?
    ensures upstream.Answered? ==> r.body.apiResponse == Some(upstream.text)
  {
    Response(500, JsonHeaders, CallFailed(url, if upstream.Answered? then Some(upstream.text) else None))
  }

  /** The reply is handled without an exception reaching the outer handler:
      it decodes, `'output' in data` does not raise, and when it holds,
      `data['output']` does not raise and neither does its rendering. */
  predicate Handled(text: string, parse: string -> Decoded) {
    match parse(text)
    case Parsed(data) =>
      && Contains(data, "output").Some?
      && (Contains(data, "output") == Some(true) ==> data.JObj? && RenderOutput(data.fields["output"], parse).Some?)
    case _ => false
  }

  /** Everything after the POST: the status check, `response.json()`, the
      `output` lookup and its rendering; every exception on the way lands in
      the outer handler. `show` is Python's `str()` for the wrapped reply. */
  function HandleUpstream(url: string, upstream: Upstream, parse: string -> Decoded, show: Json -> string): (r: Response)
    ensures r.headers == JsonHeaders
    ensures r.status == 200 || r.status == 500
    ensures r.status == 500 <==> upstream.NoResponse? || ErrorStatus(upstream.code) || !Handled(upstream.text, parse)
    ensures r.status == 500 ==> r == CallFailure(url, upstream)
    ensures upstream.Answered? && !ErrorStatus(upstream.code) && parse(upstream.text).Parsed?
            && Contains(parse(upstream.text).value, "output") == Some(false) ==>
      r == Response(200, JsonHeaders, Document(Wrapped(Str(parse(upstream.text).value, show), UnexpectedFormatNote)))
    ensures upstream.Answered? && !ErrorStatus(upstream.code) && parse(upstream.text).Parsed?
            && parse(upstream.text).value.JObj? && "output" in parse(upstream.text).value.fields
            && RenderOutput(parse(upstream.text).value.fields["output"], parse).Some? ==>
      r == RenderOutput(parse(upstream.text).value.fields["output"], parse).value
  {
    match upstream
    case NoResponse => CallFailure(url, upstream)
    case Answered(code, text) =>
      if ErrorStatus(code) then CallFailure(url, upstream)
      else match parse(text)
        case Parsed(data) =>
          (match Contains(data, "output")
           case None => CallFailure(url, upstream)
           case Some(false) => Response(200, JsonHeaders, Document(Wrapped(Str(data, show), UnexpectedFormatNote)))
           case Some(true) =>
             if !data.JObj? then CallFailure(url, upstream)
             else match RenderOutput(data.fields["output"], parse)
               case Some(ok) => ok
               case None => CallFailure(url, upstream))
        case _ => CallFailure(url, upstream)
  }

  // ---------------------------------------------------------------------------
  // Properties of the extraction.

  /** Without a `{` followed later by a `}` no parse is attempted: the
      outcome is the fallback whatever the parser would say. */
  lemma NoSpanNoParse(output: string, parse1: string -> Decoded, parse2: string -> Decoded)
    requires !HasBracePair(output)
    ensures RenderOutput(JStr(output), parse1) == RenderOutput(JStr(output), parse2)
      == Some(Response(200, JsonHeaders, Document(Fallback(output))))
  {
  }

  /** The extraction is greedy: prose with no `{` before a braced text and
      no `}` after it hands the parser that whole text, however many objects
      it holds, rather than its first balanced pair. */
  lemma {:induction false} SpanOfFramed(prose1: string, t: string, prose2: string)
    requires '{' !in prose1 && '}' !in prose2
    requires |t| >= 2 && t[0] == '{' && t[|t| - 1] == '}'
    ensures ExtractSpan(prose1 + t + prose2) == Some(t)
  {
    var s := prose1 + t + prose2;
    var start, end := |prose1|, |prose1| + |t| - 1;
    assert s[start] == '{' && s[end] == '}';
    assert forall k :: 0 <= k < start ==> s[k] == prose1[k];
    assert forall k :: end < k < |s| ==> s[k] == prose2[k - end - 1];
    assert Find(s, '{') == start;
    assert RFind(s, '}') == end;
    assert s[start..end + 1] == t;
  }

  /** A textual output that yields anything but the fallback yielded what the
      parser made of its outermost brace span. */
  lemma ParsedSpanIsAgentObject(output: string, parse: string -> Decoded, v: Json)
    requires RenderOutput(JStr(output), parse).Some? && RenderOutput(JStr(output), parse).value.body == Document(v)
    requires v != Fallback(output)
    ensures HasBracePair(output)
    ensures parse(ExtractSpan(output).value) == Parsed(v)
    ensures OutermostBraceSpan(output, Find(output, '{'), ExtractSpan(output).value)
  {
  }

  /** An upstream that answers with a JSON object under a success status is
      reported with 200, unless the decoder raises something other than
      `JSONDecodeError` on the brace span of a textual `output`. */
  lemma ObjectReplyIsOk(url: string, code: int, text: string, parse: string -> Decoded, show: Json -> string)
    requires !ErrorStatus(code) && parse(text).Parsed? && parse(text).value.JObj?
    ensures var fields := parse(text).value.fields;
      HandleUpstream(url, Answered(code, text), parse, show).status == 200 <==>
      !("output" in fields && fields["output"].JStr? && HasBracePair(fields["output"].s)
        && parse(ExtractSpan(fields["output"].s).value).Failed?)
  {
  }

  /** A decoder failure other than `JSONDecodeError` on the brace span is not
      caught by the inner handler: the client gets the upstream-failure
      answer, carrying the reply text. */
  lemma DecoderFailureIsCallFailure(url: string, code: int, text: string, parse: string -> Decoded, show: Json -> string)
    requires !ErrorStatus(code) && parse(text).Parsed? && parse(text).value.JObj?
    requires "output" in parse(text).value.fields && parse(text).value.fields["output"].JStr?
    requires HasBracePair(parse(text).value.fields["output"].s)
    requires parse(ExtractSpan(parse(text).value.fields["output"].s).value).Failed?
    ensures HandleUpstream(url, Answered(code, text), parse, show) == Response(500, JsonHeaders, CallFailed(url, Some(text)))
  {
  }

  /** A reply object without an `output` key comes back whole, as text under
      `response`, with the unexpected-format note. */
  lemma MissingOutputIsWrapped(url: string, code: int, text: string, parse: string -> Decoded, show: Json -> string)
    requires !ErrorStatus(code) && parse(text).Parsed? && parse(text).value.JObj?
    requires "output" !in parse(text).value.fields
    ensures HandleUpstream(url, Answered(code, text), parse, show)
      == Response(200, JsonHeaders, Document(Wrapped(show(parse(text).value), UnexpectedFormatNote)))
  {
  }
}
