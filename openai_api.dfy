/** openai_api.py, `get_solution_for_question_with_openai`: the section
    parser applied to the reply of the chat completion. The API key is the
    value of `OPENAI_API_KEY` (`None` when unset); the reply is the content
    of the first choice, or `Failed` for an empty response or an exception. */
module OpenAiApi {
  import opened Text
  import opened Values
  import opened Sections
  import ClaudeApi

  /** The dictionary returned for the stripped sections: all four fields,
      empty or not. */
  function SectionFields(explanation: string, code: string, complexity: string, strategy: string): (r: Solution)
    ensures r.Keys == {"explanation", "code", "complexity", "strategy"}
    ensures r["explanation"] == Str(explanation) && r["code"] == Str(code)
    ensures r["complexity"] == Str(complexity) && r["strategy"] == Str(strategy)
  {
    map["explanation" := Str(explanation), "code" := Str(code), "complexity" := Str(complexity),
        "strategy" := Str(strategy)]
  }

  /** The result for the parsed sections `p` of an answered request. */
  function OpenAiResult(p: Collected): Solution {
    SectionFields(Strip(p.explanation), Strip(p.code), Strip(p.complexity), Strip(p.strategy))
  }

  /** `get_solution_for_question_with_openai` once the request, if any, has
      been answered: no key means no request and `None`. */
  method GetSolutionForQuestion(apiKey: Option<string>, reply: ClaudeApi.ApiReply) returns (r: Option<Solution>)
    ensures apiKey.None? || apiKey.value == "" ==> r.None?
    ensures apiKey.Some? && apiKey.value != "" && reply.Failed? ==> r.None?
    ensures apiKey.Some? && apiKey.value != "" && reply.Reply? ==> r == Some(OpenAiResult(Parsed(reply.text)))
  {
    if apiKey.None? || apiKey.value == "" {
      return None;
    }
    if reply.Failed? {
      return None;
    }
    var explanation, code, complexity, strategy := ParseSections(reply.text);
    return Some(SectionFields(Strip(explanation), Strip(code), Strip(complexity), Strip(strategy)));
  }

  /** The two dictionaries built from the same sections agree on every
      field the fallback reports, and the fields it leaves out are empty. */
  lemma FieldsAgree(explanation: string, code: string, complexity: string, strategy: string, reactPrompt: bool)
    ensures var claude := ClaudeApi.FallbackFields(explanation, code, complexity, strategy, reactPrompt);
      var openai := SectionFields(explanation, code, complexity, strategy);
      (forall k :: k in claude && k != "solution" ==> k in openai && openai[k] == claude[k])
      && (forall k :: k in openai && k !in claude ==> openai[k] == Str(""))
  {
  }

  /** The two parsers agree: both collect `Parsed(text)` for a reply text,
      and every field Claude's fallback reports from it has the same value
      here, while every field missing there is empty here. */
  lemma AgreesWithClaudeFallback(p: Collected, reactPrompt: bool)
    ensures var claude := ClaudeApi.FallbackResult(p, reactPrompt);
      var openai := OpenAiResult(p);
      (forall k :: k in claude && k != "solution" ==> k in openai && openai[k] == claude[k])
      && (forall k :: k in openai && k !in claude ==> openai[k] == Str(""))
  {
    FieldsAgree(Strip(p.explanation), Strip(p.code), Strip(p.complexity), Strip(p.strategy), reactPrompt);
  }
}
