/** Python string primitives the proxy relies on: `str.find`, `str.rfind`,
    `str.strip` and `textwrap.dedent`. Dedent works line by line; its lines
    are modelled by splitting at line breaks (`split("\n")`) and joining them
    again (`"\n".join`). */
module PyText {
  import opened Options

  /** `s.find(c)`: the index of the first occurrence of `c`, or -1. */
  function Find(s: string, c: char): (r: int)
    ensures -1 <= r < |s|
    ensures r == -1 <==> c !in s
    ensures r >= 0 ==> s[r] == c && forall i :: 0 <= i < r ==> s[i] != c
  {
    if |s| == 0 then -1
    else if s[0] == c then 0
    else
      var k := Find(s[1..], c);
      assert s == [s[0]] + s[1..];
      if k == -1 then -1 else k + 1
  }

  /** `s.rfind(c)`: the index of the last occurrence of `c`, or -1. */
  function RFind(s: string, c: char): (r: int)
    ensures -1 <= r < |s|
    ensures r == -1 <==> c !in s
    ensures r >= 0 ==> s[r] == c && forall i :: r < i < |s| ==> s[i] != c
  {
    if |s| == 0 then -1
    else if s[|s| - 1] == c then |s| - 1
    else
      var k := RFind(s[..|s| - 1], c);
      assert s == s[..|s| - 1] + [s[|s| - 1]];
      k
  }

  /** A line of text: no line break inside it. */
  predicate SingleLine(s: string) {
    '\n' !in s
  }

  /** `"\n".join(lines)`. */
  function Join(lines: seq<string>): string {
    if |lines| == 0 then ""
    else if |lines| == 1 then lines[0]
    else lines[0] + "\n" + Join(lines[1..])
  }

  /** `s.split("\n")`: the pieces between line breaks; never empty. */
  function SplitLines(s: string): (r: seq<string>)
    ensures |r| >= 1
    decreases |s|
  {
    var k := Find(s, '\n');
    if k == -1 then [s] else [s[..k]] + SplitLines(s[k + 1..])
  }

  /** Splitting joined single-line pieces gives the pieces back. */
  lemma {:induction false} SplitJoin(lines: seq<string>)
    requires |lines| >= 1
    requires forall i :: 0 <= i < |lines| ==> SingleLine(lines[i])
    ensures SplitLines(Join(lines)) == lines
  {
    if |lines| > 1 {
      SplitCons(lines[0], Join(lines[1..]));
      SplitJoin(lines[1..]);
      assert lines == [lines[0]] + lines[1..];
    }
  }

  /** Splitting at the first break: a line, then the split of the rest. */
  lemma SplitCons(l: string, rest: string)
    requires SingleLine(l)
    ensures SplitLines(l + "\n" + rest) == [l] + SplitLines(rest)
  {
    var s := l + "\n" + rest;
    var k := Find(s, '\n');
    assert k == |l| by {
      assert s[|l|] == '\n';
      assert forall i :: 0 <= i < |l| ==> s[i] == l[i];
    }
    assert s[k + 1..] == rest;
    assert s[..k] == l;
  }

  /** Joining the pieces of a split gives the text back. */
  lemma {:induction false} JoinSplit(s: string)
    ensures Join(SplitLines(s)) == s
    decreases |s|
  {
    var k := Find(s, '\n');
    if k != -1 {
      JoinSplit(s[k + 1..]);
      JoinCons(s[..k], SplitLines(s[k + 1..]));
      assert s == s[..k] + "\n" + s[k + 1..];
    }
  }

  lemma JoinCons(l: string, rest: seq<string>)
    requires |rest| >= 1
    ensures Join([l] + rest) == l + "\n" + Join(rest)
  {
    assert ([l] + rest)[1..] == rest;
  }

  /** A joined text opens with its first line. */
  lemma JoinOpens(lines: seq<string>)
    requires |lines| > 0
    ensures lines[0] <= Join(lines)
  {
  }

  /** Characters `str.isspace()` accepts, which `str.strip()` removes. */
  predicate IsSpace(c: char) {
    var n := c as int;
    n == 0x20 || 0x09 <= n <= 0x0D || 0x1C <= n <= 0x1F || n == 0x85 || n == 0xA0
    || n == 0x1680 || 0x2000 <= n <= 0x200A || n == 0x2028 || n == 0x2029
    || n == 0x202F || n == 0x205F || n == 0x3000
  }

  /** `s.lstrip()`. */
  function StripLeading(s: string): (r: string)
    ensures |r| <= |s| && r == s[|s| - |r|..]
    ensures forall i :: 0 <= i < |s| - |r| ==> IsSpace(s[i])
    ensures |r| > 0 ==> !IsSpace(r[0])
  {
    if |s| > 0 && IsSpace(s[0]) then StripLeading(s[1..]) else s
  }

  /** `s.rstrip()`. */
  function StripTrailing(s: string): (r: string)
    ensures |r| <= |s| && r == s[..|r|]
    ensures forall i :: |r| <= i < |s| ==> IsSpace(s[i])
    ensures |r| > 0 ==> !IsSpace(r[|r| - 1])
  {
    if |s| > 0 && IsSpace(s[|s| - 1]) then StripTrailing(s[..|s| - 1]) else s
  }

  /** `s.strip()`. */
  function Strip(s: string): string {
    StripTrailing(StripLeading(s))
  }

  /** Stripping a text framed by one line break on each side, whose own ends
      are not white space, leaves exactly that text. */
  lemma StripFramed(m: string)
    requires |m| > 0 && !IsSpace(m[0]) && !IsSpace(m[|m| - 1])
    ensures Strip("\n" + m + "\n") == m
  {
    var s := "\n" + m + "\n";
    assert s[1..] == m + "\n";
    assert StripLeading(s) == m + "\n";
    assert (m + "\n")[..|m|] == m;
  }

  // ---------------------------------------------------------------------------
  // textwrap.dedent: lines made only of blanks and tabs are emptied, then the
  // longest run of blanks and tabs that starts every remaining non-empty line
  // is removed from each of them.

  predicate IsBlank(c: char) {
    c == ' ' || c == '\t'
  }

  /** A non-empty line made only of blanks and tabs. */
  predicate BlankOnly(l: string) {
    |l| > 0 && forall i :: 0 <= i < |l| ==> IsBlank(l[i])
  }

  /** The run of blanks and tabs a line starts with. */
  function Indentation(l: string): (r: string)
    ensures |r| <= |l| && r == l[..|r|]
    ensures forall i :: 0 <= i < |r| ==> IsBlank(r[i])
    ensures |r| < |l| ==> !IsBlank(l[|r|])
  {
    if |l| > 0 && IsBlank(l[0]) then [l[0]] + Indentation(l[1..]) else ""
  }

  /** The longest common prefix of two strings. */
  function CommonPrefix(a: string, b: string): (r: string)
    ensures |r| <= |a| && |r| <= |b| && r == a[..|r|] && r == b[..|r|]
    ensures |r| < |a| && |r| < |b| ==> a[|r|] != b[|r|]
  {
    if |a| > 0 && |b| > 0 && a[0] == b[0] then [a[0]] + CommonPrefix(a[1..], b[1..]) else ""
  }

  function EmptyBlankLines(lines: seq<string>): (r: seq<string>)
    ensures |r| == |lines|
  {
    seq(|lines|, i requires 0 <= i < |lines| => if BlankOnly(lines[i]) then "" else lines[i])
  }

  /** The margin of already-emptied lines: the common prefix of the
      indentations of the non-empty lines, or None when every line is empty. */
  function Margin(lines: seq<string>): Option<string> {
    if |lines| == 0 then None
    else
      var rest := Margin(lines[1..]);
      if lines[0] == "" then rest
      else match rest
        case None => Some(Indentation(lines[0]))
        case Some(m) => Some(CommonPrefix(Indentation(lines[0]), m))
  }

  /** Removes the margin from the start of a line that starts with it. */
  function Unindent(l: string, margin: string): string {
    if margin <= l then l[|margin|..] else l
  }

  function DedentLines(lines: seq<string>): (r: seq<string>)
    ensures |r| == |lines|
  {
    var emptied := EmptyBlankLines(lines);
    match Margin(emptied)
    case None => emptied
    case Some(m) => seq(|emptied|, i requires 0 <= i < |emptied| => Unindent(emptied[i], m))
  }

  /** `textwrap.dedent(text)`. */
  function Dedent(text: string): string {
    Join(DedentLines(SplitLines(text)))
  }

  /** Eight blanks: the indentation of the source's template lines. */
  const Pad: string := "        "

  /** A template line: empty, or single-line and starting with neither a
      blank nor a tab. */
  predicate TemplateLine(l: string) {
    SingleLine(l) && (l == "" || !IsBlank(l[0]))
  }

  /** A template line as it stands inside an indented triple-quoted literal:
      empty lines stay empty, the others carry the eight-blank indentation. */
  function Indented(l: string): string {
    if l == "" then "" else Pad + l
  }

  function IndentAll(lines: seq<string>): (r: seq<string>)
    ensures |r| == |lines|
  {
    seq(|lines|, i requires 0 <= i < |lines| => Indented(lines[i]))
  }

  /** The text of an indented triple-quoted literal over `lines`: it opens
      with a line break and closes on the indentation of the closing quotes. */
  function IndentedLiteral(lines: seq<string>): string {
    Join([""] + IndentAll(lines) + [Pad])
  }

  lemma {:induction false} IndentationAfterBlanks(p: string, l: string)
    requires forall i :: 0 <= i < |p| ==> IsBlank(p[i])
    requires l != "" && !IsBlank(l[0])
    ensures Indentation(p + l) == p
  {
    if |p| > 0 {
      assert (p + l)[1..] == p[1..] + l;
      IndentationAfterBlanks(p[1..], l);
      assert p == [p[0]] + p[1..];
    }
  }

  lemma {:induction false} MarginOfIndented(lines: seq<string>)
    requires forall i :: 0 <= i < |lines| ==> TemplateLine(lines[i])
    ensures Margin(IndentAll(lines)) == if forall i :: 0 <= i < |lines| ==> lines[i] == "" then None else Some(Pad)
  {
    if |lines| > 0 {
      var il := IndentAll(lines);
      assert il[1..] == IndentAll(lines[1..]);
      MarginOfIndented(lines[1..]);
      if lines[0] != "" {
        IndentationAfterBlanks(Pad, lines[0]);
        assert Pad + lines[0] != "";
        assert CommonPrefix(Pad, Pad) == Pad;
      } else {
        assert forall i :: 1 <= i < |lines| ==> lines[i] == lines[1..][i - 1];
      }
    }
  }

  lemma MarginIgnoresEmptyEnds(lines: seq<string>)
    ensures Margin([""] + lines + [""]) == Margin(lines)
  {
    MarginAppendEmpty(lines);
    assert ([""] + lines + [""])[1..] == lines + [""];
  }

  lemma {:induction false} MarginAppendEmpty(lines: seq<string>)
    ensures Margin(lines + [""]) == Margin(lines)
  {
    if |lines| == 0 {
      assert Margin([""]) == Margin([""][1..]);
    } else {
      assert (lines + [""])[1..] == lines[1..] + [""];
      MarginAppendEmpty(lines[1..]);
    }
  }

  /** The lines of an indented literal, as `str.split` finds them. */
  function LiteralLines(lines: seq<string>): seq<string> {
    [""] + IndentAll(lines) + [Pad]
  }

  lemma SplitLiteral(lines: seq<string>)
    requires forall i :: 0 <= i < |lines| ==> TemplateLine(lines[i])
    ensures SplitLines(IndentedLiteral(lines)) == LiteralLines(lines)
  {
    var il := IndentAll(lines);
    var raw := LiteralLines(lines);
    forall i | 0 <= i < |raw| ensures SingleLine(raw[i]) {
      if 1 <= i < |raw| - 1 {
        assert raw[i] == il[i - 1];
        assert lines[i - 1] != "" ==> raw[i] == Pad + lines[i - 1];
      }
    }
    SplitJoin(raw);
  }

  lemma EmptiedLiteral(lines: seq<string>)
    requires forall i :: 0 <= i < |lines| ==> TemplateLine(lines[i])
    ensures EmptyBlankLines(LiteralLines(lines)) == [""] + IndentAll(lines) + [""]
  {
    var il := IndentAll(lines);
    var raw := LiteralLines(lines);
    assert BlankOnly(Pad);
    forall i | 0 <= i < |il| ensures !BlankOnly(il[i]) {
      if lines[i] != "" {
        assert il[i][|Pad|] == lines[i][0];
      }
    }
    forall i | 0 <= i < |raw| ensures EmptyBlankLines(raw)[i] == ([""] + il + [""])[i] {
      if 1 <= i < |raw| - 1 {
        assert raw[i] == il[i - 1];
      }
    }
  }

  lemma UnindentLiteral(lines: seq<string>)
    requires forall i :: 0 <= i < |lines| ==> TemplateLine(lines[i])
    ensures var e := [""] + IndentAll(lines) + [""];
      seq(|e|, i requires 0 <= i < |e| => Unindent(e[i], Pad)) == [""] + lines + [""]
  {
    var e := [""] + IndentAll(lines) + [""];
    var out := seq(|e|, i requires 0 <= i < |e| => Unindent(e[i], Pad));
    forall i | 0 <= i < |out| ensures out[i] == ([""] + lines + [""])[i] {
      if 1 <= i < |out| - 1 {
        var l := lines[i - 1];
        assert e[i] == Indented(l);
        if l != "" {
          assert Pad <= Pad + l;
          assert (Pad + l)[|Pad|..] == l;
        }
      }
    }
  }

  /** The dedented, stripped text of an indented literal is its lines joined,
      when they are template lines and the first and last are not empty and
      do not start, respectively end, with white space. */
  lemma DedentIndentedLiteral(lines: seq<string>)
    requires forall i :: 0 <= i < |lines| ==> TemplateLine(lines[i])
    requires |lines| > 0 && lines[0] != "" && lines[|lines| - 1] != ""
    requires !IsSpace(lines[0][0]) && !IsSpace(lines[|lines| - 1][|lines[|lines| - 1]| - 1])
    ensures Strip(Dedent(IndentedLiteral(lines))) == Join(lines)
  {
    SplitLiteral(lines);
    EmptiedLiteral(lines);
    MarginOfIndented(lines);
    MarginIgnoresEmptyEnds(IndentAll(lines));
    UnindentLiteral(lines);
    assert DedentLines(LiteralLines(lines)) == [""] + lines + [""];
    JoinFramed(lines);
    StripFramed(Join(lines));
  }

  lemma JoinFramed(lines: seq<string>)
    requires |lines| > 0 && lines[0] != "" && lines[|lines| - 1] != ""
    ensures Join([""] + lines + [""]) == "\n" + Join(lines) + "\n"
    ensures |Join(lines)| > 0 && Join(lines)[0] == lines[0][0]
    ensures Join(lines)[|Join(lines)| - 1] == lines[|lines| - 1][|lines[|lines| - 1]| - 1]
  {
    JoinAppend(lines, "");
    JoinCons("", lines + [""]);
    assert [""] + lines + [""] == [""] + (lines + [""]);
    JoinOpens(lines);
    assert lines[0][0] == Join(lines)[0];
    JoinLast(lines);
  }

  lemma {:induction false} JoinAppend(lines: seq<string>, l: string)
    requires |lines| > 0
    ensures Join(lines + [l]) == Join(lines) + "\n" + l
  {
    if |lines| > 1 {
      assert (lines + [l])[1..] == lines[1..] + [l];
      JoinAppend(lines[1..], l);
    }
  }

  /** A joined text ends where its last line ends. */
  lemma {:induction false} JoinLast(lines: seq<string>)
    requires |lines| > 0 && lines[|lines| - 1] != ""
    ensures |Join(lines)| >= |lines[|lines| - 1]|
    ensures Join(lines)[|Join(lines)| - |lines[|lines| - 1]|..] == lines[|lines| - 1]
  {
    if |lines| > 1 {
      JoinLast(lines[1..]);
    }
  }
}
