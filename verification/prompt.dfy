/** `_format_agent_message`: the OBSERVE / REFLECT / LOOP prompt the remote
    agent expects, built from the session id, the query and the constraint. */
module Prompt {
  import opened PyText
  import opened JsonValues

  /** Stands in for a false constraint (an empty string, `None`, ...). */
  const NoConstraint: string := "No additional constraint."

  const ObserveHeader: string := "OBSERVE:"
  const ReflectHeader: string := "REFLECT:"
  const LoopHeader: string := "LOOP:"

  // The fixed lines of the template, each the concatenation of its pieces.

  const CaptureLine: string := "- Capture the " + "incoming request " + "exactly as " + "received."
  const ReviewLine: string :=
    "- Review the " + "observation for " + "missing context " + "(missing steps, " + "conflicting " + "instructions)."
  const TensionsLine: string :=
    "- Call out any " + "tensions or " + "nutrition " + "trade-offs before " + "planning."
  const PlanLine: string :=
    "- Produce a " + "corrected cooking " + "plan that " + "explicitly mentions " + "how you honored " + "the constraint."
  const SelfCorrectionLine: string :=
    "- Highlight a " + "single " + "self-correction " + "you made after " + "your reflection."
  const JsonOnlyLine: string :=
    "- **The ONLY output " + "you provide MUST " + "be a valid, " + "unadulterated " + "JSON object.**"

  /** The instruction that fixes the reply format the extraction relies on. */
  const JsonKeysInstruction: string :=
    "- Answer in JSON " + "with keys: plan " + "(array of steps), " + "constraint_ack " + "(string), "
    + "self_corrections " + "(string), " + "session_id (string)."

  const CloseLine: string := "- Close the loop " + "by confirming the " + "plan is ready " + "to execute."

  /** The constraint as it is written into the prompt. */
  function ConstraintSection(constraint: Json, show: Json -> string): (r: string)
    ensures !Truthy(constraint) ==> r == NoConstraint
    ensures constraint.JStr? ==> r == if constraint.s == "" then NoConstraint else constraint.s
  {
    if Truthy(constraint) then Str(constraint, show) else NoConstraint
  }

  /** The placeholder is a single line. */
  lemma NoConstraintIsLine()
    ensures SingleLine(NoConstraint)
  {
  }

  /** The line announcing the request, quoting it verbatim. */
  function RequestLine(request: string): string {
    "- Request: \"" + request + "\""
  }

  /** The line quoting the constraint section verbatim. */
  function ConstraintLine(section: string): string {
    "- Constraint: \"" + section + "\""
  }

  /** The prompt's lines once the template's indentation is removed. */
  function MessageLines(sessionId: string, request: string, section: string): (r: seq<string>)
    ensures |r| == 17
  {
    [ "SESSION_ID: " + sessionId,
      "",
      ObserveHeader,
      CaptureLine,
      RequestLine(request),
      ConstraintLine(section),
      "",
      ReflectHeader,
      ReviewLine,
      TensionsLine,
      "",
      LoopHeader,
      PlanLine,
      SelfCorrectionLine,
      JsonOnlyLine,
      JsonKeysInstruction,
      CloseLine
    ]
  }

  /** `_format_agent_message(query, constraint, session_id)`: the interpolated
      triple-quoted template, dedented and stripped. Values that are not
      strings are interpolated through `str()`, i.e. `show`. */
  function FormatAgentMessage(query: Json, constraint: Json, sessionId: string, show: Json -> string): string {
    var lines := MessageLines(sessionId, Str(query, show), ConstraintSection(constraint, show));
    Strip(Dedent(IndentedLiteral(lines)))
  }

  /** Every prompt line is a template line when the interpolated texts are
      single lines. */
  lemma MessageLinesAreTemplateLines(sessionId: string, request: string, section: string)
    requires SingleLine(sessionId) && SingleLine(request) && SingleLine(section)
    ensures forall i :: 0 <= i < 17 ==> TemplateLine(MessageLines(sessionId, request, section)[i])
  {
    var lines := MessageLines(sessionId, request, section);
    FixedLinesAreTemplateLines();
    assert TemplateLine(lines[0]) && TemplateLine(lines[4]) && TemplateLine(lines[5]);
  }

  /** The fixed lines are template lines. */
  lemma FixedLinesAreTemplateLines()
    ensures TemplateLine(ObserveHeader) && TemplateLine(ReflectHeader) && TemplateLine(LoopHeader)
    ensures TemplateLine(CaptureLine) && TemplateLine(ReviewLine) && TemplateLine(TensionsLine)
    ensures TemplateLine(PlanLine) && TemplateLine(SelfCorrectionLine) && TemplateLine(JsonOnlyLine)
    ensures TemplateLine(JsonKeysInstruction) && TemplateLine(CloseLine)
  {
    CaptureLineIsTemplateLine();
    ReviewLineIsTemplateLine();
    TensionsLineIsTemplateLine();
    PlanLineIsTemplateLine();
    SelfCorrectionLineIsTemplateLine();
    JsonOnlyLineIsTemplateLine();
    JsonKeysInstructionIsTemplateLine();
    CloseLineIsTemplateLine();
  }

  lemma CaptureLineIsTemplateLine() ensures TemplateLine(CaptureLine) { }
  lemma ReviewLineIsTemplateLine() ensures TemplateLine(ReviewLine) { }
  lemma TensionsLineIsTemplateLine() ensures TemplateLine(TensionsLine) { }
  lemma PlanLineIsTemplateLine() ensures TemplateLine(PlanLine) { }
  lemma SelfCorrectionLineIsTemplateLine() ensures TemplateLine(SelfCorrectionLine) { }
  lemma JsonOnlyLineIsTemplateLine() ensures TemplateLine(JsonOnlyLine) { }
  lemma JsonKeysInstructionIsTemplateLine() ensures TemplateLine(JsonKeysInstruction) { }
  lemma CloseLineIsTemplateLine() ensures TemplateLine(CloseLine) { }

  /** For single-line session id, query and constraint texts, the prompt is
      exactly the template lines joined by line breaks: dedent removes the
      eight-blank indentation and strip removes only the framing breaks. */
  lemma {:induction false} FormatSingleLine(query: Json, constraint: Json, sessionId: string, show: Json -> string)
    requires SingleLine(sessionId) && SingleLine(Str(query, show)) && SingleLine(ConstraintSection(constraint, show))
    ensures var lines := MessageLines(sessionId, Str(query, show), ConstraintSection(constraint, show));
      FormatAgentMessage(query, constraint, sessionId, show) == Join(lines)
      && SplitLines(FormatAgentMessage(query, constraint, sessionId, show)) == lines
  {
    var lines := MessageLines(sessionId, Str(query, show), ConstraintSection(constraint, show));
    MessageLinesAreTemplateLines(sessionId, Str(query, show), ConstraintSection(constraint, show));
    assert lines[16][|lines[16]| - 1] == '.';
    DedentIndentedLiteral(lines);
    SplitJoin(lines);
  }

  /** For single-line texts the prompt opens with the session id, and its
      OBSERVE section quotes the query and the constraint (or the placeholder
      standing in for a false one) verbatim on lines of their own. */
  lemma FormattedMessageQuotes(query: Json, constraint: Json, sessionId: string, show: Json -> string)
    requires SingleLine(sessionId) && SingleLine(Str(query, show)) && SingleLine(ConstraintSection(constraint, show))
    ensures var msg := FormatAgentMessage(query, constraint, sessionId, show);
      var lines := SplitLines(msg);
      && "SESSION_ID: " + sessionId <= msg
      && |lines| == 17 && lines[2] == ObserveHeader
      && lines[4] == RequestLine(Str(query, show))
      && lines[5] == ConstraintLine(ConstraintSection(constraint, show))
  {
    var request, section := Str(query, show), ConstraintSection(constraint, show);
    FormatSingleLine(query, constraint, sessionId, show);
    JoinedMessageQuotes(sessionId, request, section);
  }

  /** The joined prompt lines open with the session id line, and the
      quoting lines stand where the template puts them. */
  lemma JoinedMessageQuotes(sessionId: string, request: string, section: string)
    ensures var lines := MessageLines(sessionId, request, section);
      && "SESSION_ID: " + sessionId <= Join(lines)
      && lines[2] == ObserveHeader
      && lines[4] == RequestLine(request) && lines[5] == ConstraintLine(section)
  {
    JoinedMessageOpens(sessionId, request, section);
  }

  /** The joined prompt lines open with the session id line. */
  lemma JoinedMessageOpens(sessionId: string, request: string, section: string)
    ensures "SESSION_ID: " + sessionId <= Join(MessageLines(sessionId, request, section))
  {
    var lines := MessageLines(sessionId, request, section);
    JoinOpens(lines);
    assert lines[0] == "SESSION_ID: " + sessionId;
  }

  /** An empty constraint is quoted as the placeholder. */
  lemma PlaceholderQuoted(query: Json, sessionId: string, show: Json -> string)
    requires SingleLine(sessionId) && SingleLine(Str(query, show))
    ensures var lines := SplitLines(FormatAgentMessage(query, JStr(""), sessionId, show));
      |lines| == 17 && lines[5] == ConstraintLine(NoConstraint)
  {
    assert ConstraintSection(JStr(""), show) == NoConstraint;
    NoConstraintIsLine();
    FormattedMessageQuotes(query, JStr(""), sessionId, show);
  }

  /** For single-line texts OBSERVE, REFLECT and LOOP each head exactly one
      line of the prompt, in that order, and the LOOP section carries the
      instruction naming the JSON reply keys. */
  lemma FormattedMessageSections(query: Json, constraint: Json, sessionId: string, show: Json -> string)
    requires SingleLine(sessionId) && SingleLine(Str(query, show)) && SingleLine(ConstraintSection(constraint, show))
    ensures var lines := SplitLines(FormatAgentMessage(query, constraint, sessionId, show));
      && |lines| == 17
      && (forall i :: 0 <= i < |lines| ==> (lines[i] == ObserveHeader <==> i == 2))
      && (forall i :: 0 <= i < |lines| ==> (lines[i] == ReflectHeader <==> i == 7))
      && (forall i :: 0 <= i < |lines| ==> (lines[i] == LoopHeader <==> i == 11))
      && lines[15] == JsonKeysInstruction
  {
    FormatSingleLine(query, constraint, sessionId, show);
    HeadersOnce(sessionId, Str(query, show), ConstraintSection(constraint, show));
  }

  /** Only the three header lines are as short as a header, so each header
      names exactly one line of the prompt. */
  lemma HeadersOnce(sessionId: string, request: string, section: string)
    ensures var lines := MessageLines(sessionId, request, section);
      && (forall i :: 0 <= i < |lines| ==> (lines[i] == ObserveHeader <==> i == 2))
      && (forall i :: 0 <= i < |lines| ==> (lines[i] == ReflectHeader <==> i == 7))
      && (forall i :: 0 <= i < |lines| ==> (lines[i] == LoopHeader <==> i == 11))
  {
    var lines := MessageLines(sessionId, request, section);
    assert ObserveHeader != ReflectHeader && |ObserveHeader| == 8 && |LoopHeader| == 5;
    forall i | 0 <= i < 17 && i !in {2, 7, 11}
      ensures |lines[i]| > 8 || lines[i] == ""
    {
    }
  }
}
