/** claude_api.py: how a Claude reply becomes a solution dictionary. The
    HTTP call is a parameter: `ApiReply` is the reply text of a 200 response,
    or `Failed` for another status or an exception (both give `None`), and
    `jsonLoads` is `json.loads`, `None` where it raises. */
module ClaudeApi {
  import opened Text
  import opened Values
  import opened Sections

  datatype ApiReply = Reply(text: string) | Failed

  /** Python's `s.find(c)`, with `None` for -1. */
  function Find(s: string, c: char): (r: Option<nat>)
    ensures r.Some? ==> r.value < |s| && s[r.value] == c && forall k :: 0 <= k < r.value ==> s[k] != c
    ensures r.None? <==> c !in s
  {
    if s == [] then None
    else if s[0] == c then Some(0)
    else
      match Find(s[1..], c)
      case None => None
      case Some(k) => Some(k + 1)
  }

  /** Python's `s.rfind(c)`, with `None` for -1. */
  function RFind(s: string, c: char): (r: Option<nat>)
    ensures r.Some? ==> r.value < |s| && s[r.value] == c && forall k :: r.value < k < |s| ==> s[k] != c
    ensures r.None? <==> c !in s
  {
    if s == [] then None
    else if Last(s) == c then Some(|s| - 1)
    else RFind(s[..|s| - 1], c)
  }

  /** The JSON candidate of `_get_solution_with_prompt`: from the first `{`
      to the last `}`, both included, when both exist in that order. */
  function BraceSpan(text: string): (r: Option<string>)
    ensures r.Some? <==> Find(text, '{').Some? && RFind(text, '}').Some? && Find(text, '{').value < RFind(text, '}').value
    ensures r.Some? ==>
      var i, j := Find(text, '{').value, RFind(text, '}').value;
      r.value == text[i..j + 1] && r.value[0] == '{' && Last(r.value) == '}'
      && '{' !in text[..i] && '}' !in text[j + 1..]
  {
    var start := if Find(text, '{').Some? then Find(text, '{').value else -1;
    var end := (if RFind(text, '}').Some? then RFind(text, '}').value else -1) + 1;
    if start >= 0 && end > start then Some(text[start..end]) else None
  }

  /** The dictionary the fallback parser returns for the stripped sections:
      the explanation always; code, complexity and strategy only when not
      empty; an empty solution for the React prompt. */
  function FallbackFields(explanation: string, code: string, complexity: string, strategy: string,
                          reactPrompt: bool): (r: Solution)
    ensures "explanation" in r && r["explanation"] == Str(explanation)
    ensures ("code" in r <==> code != "") && ("code" in r ==> r["code"] == Str(code))
    ensures ("complexity" in r <==> complexity != "") && ("complexity" in r ==> r["complexity"] == Str(complexity))
    ensures ("strategy" in r <==> strategy != "") && ("strategy" in r ==> r["strategy"] == Str(strategy))
    ensures ("solution" in r <==> reactPrompt) && (reactPrompt ==> r["solution"] == Str(""))
    ensures r.Keys <= {"explanation", "code", "complexity", "strategy", "solution"}
  {
    var withExplanation := map["explanation" := Str(explanation)];
    var withCode := if code != "" then withExplanation["code" := Str(code)] else withExplanation;
    var withComplexity := if complexity != "" then withCode["complexity" := Str(complexity)] else withCode;
    var withStrategy := if strategy != "" then withComplexity["strategy" := Str(strategy)] else withComplexity;
    if reactPrompt then withStrategy["solution" := Str("")] else withStrategy
  }

  /** The fallback result for the parsed sections `p`. */
  function FallbackResult(p: Collected, reactPrompt: bool): Solution {
    FallbackFields(Strip(p.explanation), Strip(p.code), Strip(p.complexity), Strip(p.strategy), reactPrompt)
  }

  /** What `_get_solution_with_prompt` returns for `reply`, with `reactPrompt`
      telling whether the prompt was the React prompt. */
  function SolutionOf(reply: ApiReply, jsonLoads: string -> Option<Solution>, reactPrompt: bool): Option<Solution> {
    match reply
    case Failed => None
    case Reply(text) =>
      var span := BraceSpan(text);
      if span.Some? && jsonLoads(span.value).Some? then jsonLoads(span.value)
      else Some(FallbackResult(Parsed(text), reactPrompt))
  }

  /** `_get_solution_with_prompt` once the request, if any, has been
      answered: `apiKey` is `ANTHROPIC_API_KEY` (`None` when unset), and no
      key means no request and `None`. */
  method GetSolutionWithPrompt(apiKey: Option<string>, reply: ApiReply, jsonLoads: string -> Option<Solution>,
                               reactPrompt: bool)
    returns (r: Option<Solution>)
    ensures apiKey.None? || apiKey.value == "" ==> r.None?
    ensures apiKey.Some? && apiKey.value != "" ==> r == SolutionOf(reply, jsonLoads, reactPrompt)
  {
    if apiKey.None? || apiKey.value == "" || reply.Failed? {
      return None;
    }
    var text := reply.text;
    var span := BraceSpan(text);
    if span.Some? && jsonLoads(span.value).Some? {
      var parsed := jsonLoads(span.value).value;
      var copy := map k | k in parsed :: Get(parsed, k, Str(""));
      assert copy == parsed by {
        assert copy.Keys == parsed.Keys;
      }
      return Some(copy);
    }
    var explanation, code, complexity, strategy := ParseSections(text);
    return Some(FallbackFields(Strip(explanation), Strip(code), Strip(complexity), Strip(strategy), reactPrompt));
  }

  /** Every answered request yields a solution; it is the parsed JSON object
      when the brace span parses, and otherwise always has an explanation. */
  lemma AnsweredRequestsYieldSolutions(text: string, jsonLoads: string -> Option<Solution>, reactPrompt: bool)
    ensures SolutionOf(Reply(text), jsonLoads, reactPrompt).Some?
    ensures var span := BraceSpan(text);
      span.Some? && jsonLoads(span.value).Some? ==> SolutionOf(Reply(text), jsonLoads, reactPrompt) == jsonLoads(span.value)
    ensures var span := BraceSpan(text);
      !(span.Some? && jsonLoads(span.value).Some?) ==> "explanation" in SolutionOf(Reply(text), jsonLoads, reactPrompt).value
  {
  }

  /** A reply with no `{` and no header line comes back as its stripped text,
      as the only field. */
  lemma PlainReplyIsExplanation(text: string, jsonLoads: string -> Option<Solution>)
    requires '{' !in text
    requires forall k :: 0 <= k < |Split(text, '\n')| ==> HeaderOf(Split(text, '\n')[k]).None?
    ensures SolutionOf(Reply(text), jsonLoads, false) == Some(map["explanation" := Str(Strip(text))])
  {
    NoHeaderIsExplanation(text);
    assert BraceSpan(text).None?;
    assert Strip("") == "";
    ExplanationOnly(Strip(text));
  }

  /** With every other section empty the fallback holds the explanation alone. */
  lemma ExplanationOnly(explanation: string)
    ensures FallbackFields(explanation, "", "", "", false) == map["explanation" := Str(explanation)]
  {
    var r := FallbackFields(explanation, "", "", "", false);
    assert r.Keys == {"explanation"};
  }

  /** `get_react_solution`: with no `ANTHROPIC_API_KEY` (`None` or empty) it
      returns `None` before any request; otherwise a reply becomes the five
      fields, with the stripped reply as the code and the others empty. */
  function ReactSolution(apiKey: Option<string>, reply: ApiReply): (r: Option<Solution>)
    ensures apiKey.None? || apiKey.value == "" ==> r.None?
    ensures apiKey.Some? && apiKey.value != "" ==> (r.None? <==> reply.Failed?)
    ensures r.Some? ==>
      r.value.Keys == {"explanation", "solution", "code", "complexity", "strategy"}
      && r.value["code"] == Str(Strip(reply.text))
      && forall k :: k in r.value && k != "code" ==> r.value[k] == Str("")
  {
    if apiKey.None? || apiKey.value == "" then None
    else
      match reply
      case Failed => None
      case Reply(text) =>
        var empty := map["explanation" := Str(""), "solution" := Str(""), "complexity" := Str(""), "strategy" := Str("")];
        assert forall k :: k in empty ==> empty[k] == Str("");
        Some(empty["code" := Str(Strip(text))])
  }
}
