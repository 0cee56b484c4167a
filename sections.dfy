/** The line-oriented section parser that claude_api.py (its fallback when
    the reply holds no JSON object) and openai_api.py share: a line that
    names a section and starts with `#` or the section's number switches to
    that section; every other line is appended, with a newline, to the
    current section; lines before the first header are dropped. */
module Sections {
  import opened Text

  datatype Section = Explanation | Code | Complexity | Strategy

  /** The order in which the header tests are tried. */
  function Rank(s: Section): nat {
    match s
    case Explanation => 0
    case Code => 1
    case Complexity => 2
    case Strategy => 3
  }

  function Keyword(s: Section): string {
    match s
    case Explanation => "explanation"
    case Code => "code"
    case Complexity => "complexity"
    case Strategy => "strategy"
  }

  function Numbered(s: Section): string {
    match s
    case Explanation => "1."
    case Code => "2."
    case Complexity => "3."
    case Strategy => "4."
  }

  /** The lowered line names the section and starts with `#` or with the
      section's number. */
  predicate IsHeaderFor(line: string, s: Section) {
    var lower := Lower(line);
    Contains(lower, Keyword(s)) && (StartsWith(lower, "#") || StartsWith(lower, Numbered(s)))
  }

  /** The section a line is a header of: the first, in test order, whose
      test it passes. */
  function HeaderOf(line: string): (r: Option<Section>)
    ensures r.Some? ==> IsHeaderFor(line, r.value)
    ensures r.Some? ==> forall t :: Rank(t) < Rank(r.value) ==> !IsHeaderFor(line, t)
    ensures r.None? <==> forall t :: !IsHeaderFor(line, t)
  {
    if IsHeaderFor(line, Explanation) then Some(Explanation)
    else if IsHeaderFor(line, Code) then Some(Code)
    else if IsHeaderFor(line, Complexity) then Some(Complexity)
    else if IsHeaderFor(line, Strategy) then Some(Strategy)
    else None
  }

  /** The loop's variables: `current_section` and the four accumulators. */
  datatype Collected = Collected(current: Option<Section>, explanation: string, code: string,
                                 complexity: string, strategy: string)

  const Start := Collected(None, "", "", "", "")

  /** The accumulated text of section `s`. */
  function Body(c: Collected, s: Section): string {
    match s
    case Explanation => c.explanation
    case Code => c.code
    case Complexity => c.complexity
    case Strategy => c.strategy
  }

  /** A line with the outcome of its header test. */
  datatype Line = Line(header: Option<Section>, text: string)

  function Classify(lines: seq<string>): (r: seq<Line>)
    ensures |r| == |lines| && forall k :: 0 <= k < |lines| ==> r[k] == Line(HeaderOf(lines[k]), lines[k])
  {
    seq(|lines|, k requires 0 <= k < |lines| => Line(HeaderOf(lines[k]), lines[k]))
  }

  /** One iteration of the loop. */
  function Step(c: Collected, line: Line): Collected {
    if line.header.Some? then c.(current := line.header)
    else
      match c.current
      case None => c
      case Some(Explanation) => c.(explanation := c.explanation + line.text + "\n")
      case Some(Code) => c.(code := c.code + line.text + "\n")
      case Some(Complexity) => c.(complexity := c.complexity + line.text + "\n")
      case Some(Strategy) => c.(strategy := c.strategy + line.text + "\n")
  }

  /** A header switches the section and is not copied; any other line is
      appended, with a newline, to the current section, if there is one. */
  lemma StepEffect(c: Collected, line: Line)
    ensures var r := Step(c, line);
      (line.header.Some? ==> r.current == line.header && forall s :: Body(r, s) == Body(c, s))
      && (line.header.None? ==>
        r.current == c.current
        && forall s :: Body(r, s) == if c.current == Some(s) then Body(c, s) + line.text + "\n" else Body(c, s))
  {
  }

  /** The loop run over `lines` from `c`. */
  function Collect(c: Collected, lines: seq<Line>): Collected {
    if lines == [] then c else Step(Collect(c, lines[..|lines| - 1]), Last(lines))
  }

  lemma {:induction false} CollectAppend(c: Collected, a: seq<Line>, b: seq<Line>)
    ensures Collect(c, a + b) == Collect(Collect(c, a), b)
  {
    if b == [] {
      assert a + b == a;
    } else {
      CollectAppend(c, a, b[..|b| - 1]);
      assert (a + b)[..|a + b| - 1] == a + b[..|b| - 1];
    }
  }

  lemma {:induction false} NoHeaderKeepsStart(pre: seq<Line>)
    requires forall k :: 0 <= k < |pre| ==> pre[k].header.None?
    ensures Collect(Start, pre) == Start
  {
    if pre != [] {
      NoHeaderKeepsStart(pre[..|pre| - 1]);
    }
  }

  /** Lines before the first header are dropped. */
  lemma LinesBeforeFirstHeaderDropped(pre: seq<Line>, rest: seq<Line>)
    requires forall k :: 0 <= k < |pre| ==> pre[k].header.None?
    ensures Collect(Start, pre + rest) == Collect(Start, rest)
  {
    CollectAppend(Start, pre, rest);
    NoHeaderKeepsStart(pre);
  }

  /** The texts of `lines`, each followed by a newline. */
  function Appended(lines: seq<Line>): string {
    if lines == [] then "" else Appended(lines[..|lines| - 1]) + Last(lines).text + "\n"
  }

  /** After a header for `s`, the lines up to the next header become the
      text of `s`, one line and a newline each, and no other section grows. */
  lemma {:induction false} SectionAfterHeader(c: Collected, s: Section, header: string, body: seq<Line>)
    requires forall k :: 0 <= k < |body| ==> body[k].header.None?
    ensures var r := Collect(c, [Line(Some(s), header)] + body);
      r.current == Some(s)
      && Body(r, s) == Body(c, s) + Appended(body)
      && forall t :: t != s ==> Body(r, t) == Body(c, t)
  {
    var h := [Line(Some(s), header)];
    if body == [] {
      assert h + body == h;
      assert h[..0] == [];
    } else {
      var init := body[..|body| - 1];
      var l := Last(body);
      SectionAfterHeader(c, s, header, init);
      assert (h + body)[..|h + body| - 1] == h + init;
      assert Collect(c, h + body) == Step(Collect(c, h + init), l);
      StepEffect(Collect(c, h + init), l);
      ConcatAssoc(Body(c, s), Appended(init), l.text);
      ConcatAssoc(Body(c, s), Appended(init) + l.text, "\n");
    }
  }

  /** The loop over the lines of `text`. */
  function Sectioned(text: string): Collected {
    Collect(Start, Classify(Split(text, '\n')))
  }

  predicate NothingCollected(c: Collected) {
    c.explanation == "" && c.code == "" && c.complexity == "" && c.strategy == ""
  }

  /** The four sections the parser reports, before stripping: the collected
      texts, or the whole text as explanation when nothing was collected. */
  function Parsed(text: string): (r: Collected)
    ensures r.current == Sectioned(text).current
    ensures NothingCollected(Sectioned(text)) ==> r == Sectioned(text).(explanation := text)
    ensures !NothingCollected(Sectioned(text)) ==> r == Sectioned(text)
  {
    var c := Sectioned(text);
    if NothingCollected(c) then c.(explanation := text) else c
  }

  /** A text without any header line parses to the whole text as its
      explanation. */
  lemma NoHeaderIsExplanation(text: string)
    requires forall k :: 0 <= k < |Split(text, '\n')| ==> HeaderOf(Split(text, '\n')[k]).None?
    ensures Parsed(text) == Collected(None, text, "", "", "")
  {
    NoHeaderKeepsStart(Classify(Split(text, '\n')));
  }

  /** Running the loop one line further is one more `Step`. */
  lemma CollectStep(c: Collected, lines: seq<Line>, i: nat)
    requires i < |lines|
    ensures Collect(c, lines[..i + 1]) == Step(Collect(c, lines[..i]), lines[i])
  {
    assert lines[..i + 1][..i] == lines[..i];
  }

  /** The four header tests of the loop, written out. */
  lemma HeaderTests(line: string)
    ensures var lower := Lower(line);
      (IsHeaderFor(line, Explanation) <==> Contains(lower, "explanation") && (StartsWith(lower, "#") || StartsWith(lower, "1.")))
      && (IsHeaderFor(line, Code) <==> Contains(lower, "code") && (StartsWith(lower, "#") || StartsWith(lower, "2.")))
      && (IsHeaderFor(line, Complexity) <==> Contains(lower, "complexity") && (StartsWith(lower, "#") || StartsWith(lower, "3.")))
      && (IsHeaderFor(line, Strategy) <==> Contains(lower, "strategy") && (StartsWith(lower, "#") || StartsWith(lower, "4.")))
  {
  }

  /** The body of the parsing loop for one line. */
  method ParseLine(line: string, c: Collected) returns (r: Collected)
    ensures r == Step(c, Line(HeaderOf(line), line))
  {
    var lower := Lower(line);
    HeaderTests(line);
    if Contains(lower, "explanation") && (StartsWith(lower, "#") || StartsWith(lower, "1.")) {
      return c.(current := Some(Explanation));
    } else if Contains(lower, "code") && (StartsWith(lower, "#") || StartsWith(lower, "2.")) {
      return c.(current := Some(Code));
    } else if Contains(lower, "complexity") && (StartsWith(lower, "#") || StartsWith(lower, "3.")) {
      return c.(current := Some(Complexity));
    } else if Contains(lower, "strategy") && (StartsWith(lower, "#") || StartsWith(lower, "4.")) {
      return c.(current := Some(Strategy));
    }
    r := c;
    if c.current == Some(Explanation) {
      r := c.(explanation := c.explanation + line + "\n");
    } else if c.current == Some(Code) {
      r := c.(code := c.code + line + "\n");
    } else if c.current == Some(Complexity) {
      r := c.(complexity := c.complexity + line + "\n");
    } else if c.current == Some(Strategy) {
      r := c.(strategy := c.strategy + line + "\n");
    }
  }

  /** The parsing loop of both modules. */
  method ParseSections(text: string) returns (explanation: string, code: string, complexity: string, strategy: string)
    ensures var p := Parsed(text);
      explanation == p.explanation && code == p.code && complexity == p.complexity && strategy == p.strategy
  {
    var lines := Split(text, '\n');
    ghost var classified := Classify(lines);
    var state := Start;
    for i := 0 to |lines|
      invariant state == Collect(Start, classified[..i])
    {
      CollectStep(Start, classified, i);
      state := ParseLine(lines[i], state);
    }
    assert classified[..|lines|] == classified;
    assert state == Sectioned(text);
    explanation, code, complexity, strategy := state.explanation, state.code, state.complexity, state.strategy;
    if explanation == "" && code == "" && complexity == "" && strategy == "" {
      explanation := text;
    }
  }
}
