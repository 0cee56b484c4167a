/** server_modules/config.py: the shared `interview_data` store and the
    helpers that write into it. Each helper's locked block is one method. */
module Config {
  import opened Text
  import opened Values

  datatype Followup = Followup(id: int, notes: string, timestamp: string)

  datatype Question = Question(id: int, kind: string, notes: string, timestamp: string, followups: seq<Followup>)

  datatype Screenshot = Screenshot(path: string, timestamp: string, questionType: string, notes: string,
                                   questionId: Option<int>)

  /** `interview_data["current_question"] if interview_data["current_question"] else None`:
      a current question id of 0 is falsy too. */
  function QuestionRef(current: Option<int>): (r: Option<int>)
    ensures r.Some? <==> current.Some? && current.value != 0
    ensures r.Some? ==> r == current
  {
    if current.Some? && current.value != 0 then current else None
  }

  /** The key a follow-up solution is stored under:
      `path:provider-followup:seconds`. */
  function FollowupKey(path: string, provider: string, seconds: int): string {
    path + ":" + provider + "-followup:" + IntToString(seconds)
  }

  /** The record `store_followup_solution` stores: the three text fields of
      the solution (each `""` when absent), the follow-up mark and the time. */
  function FollowupRecord(solution: Solution, timestamp: string): (r: Solution)
    ensures r.Keys == {"explanation", "solution", "code", "is_followup", "timestamp"}
    ensures forall f :: f in {"explanation", "solution", "code"} ==>
      r[f] == (if f in solution then solution[f] else Str(""))
    ensures r["is_followup"] == Bool(true) && r["timestamp"] == Str(timestamp)
  {
    map["explanation" := Get(solution, "explanation", Str("")),
        "solution" := Get(solution, "solution", Str("")),
        "code" := Get(solution, "code", Str("")),
        "is_followup" := Bool(true),
        "timestamp" := Str(timestamp)]
  }

  /** A follow-up key starts with the screenshot path and a colon, names its
      provider, ends with the seconds, and is never the path itself. */
  lemma FollowupKeyShape(path: string, provider: string, seconds: int)
    ensures var key := FollowupKey(path, provider, seconds);
      StartsWith(key, path + ":")
      && ContainsAt(key, ":" + provider + "-followup:", |path|)
      && EndsWith(key, IntToString(seconds))
      && key != path
  {
    var key := FollowupKey(path, provider, seconds);
    var mid, digits := ":" + provider + "-followup:", IntToString(seconds);
    ConcatAssoc(path, ":", provider);
    ConcatAssoc(path, ":" + provider, "-followup:");
    assert key == (path + mid) + digits;
    assert key[..|path| + 1] == path + ":" by {
      assert key[..|path|] == path && key[|path|] == mid[0];
    }
    assert key[|path|..|path| + |mid|] == mid;
    assert key[|key| - |digits|..] == digits;
  }

  lemma {:induction false} NatToStringInjective(m: nat, n: nat)
    requires NatToString(m) == NatToString(n)
    ensures m == n
  {
    NatToStringValue(m);
    NatToStringValue(n);
  }

  /** Follow-ups for one path and provider stored in different seconds get
      different keys, so only follow-ups within the same second collide. */
  lemma FollowupKeysDistinct(path: string, provider: string, s1: nat, s2: nat)
    ensures FollowupKey(path, provider, s1) == FollowupKey(path, provider, s2) <==> s1 == s2
  {
    var prefix := path + ":" + provider + "-followup:";
    if FollowupKey(path, provider, s1) == FollowupKey(path, provider, s2) {
      assert prefix + NatToString(s1) == prefix + NatToString(s2);
      assert NatToString(s1) == (prefix + NatToString(s1))[|prefix|..];
      assert NatToString(s2) == (prefix + NatToString(s2))[|prefix|..];
      NatToStringInjective(s1, s2);
    }
  }

  /** `interview_data`. */
  class InterviewData {
    var questions: seq<Question>
    var screenshots: seq<Screenshot>
    var currentQuestion: Option<int>
    var extractedQuestions: map<string, string>
    var solutions: map<string, Solution>
    var reactSolutions: map<string, Value>

    constructor ()
      ensures questions == [] && screenshots == [] && currentQuestion == None
      ensures extractedQuestions == map[] && solutions == map[] && reactSolutions == map[]
    {
      questions := [];
      screenshots := [];
      currentQuestion := None;
      extractedQuestions := map[];
      solutions := map[];
      reactSolutions := map[];
    }

    /** `add_screenshot_to_interview`, with `timestamp` the formatted time
        of the call. */
    method AddScreenshot(path: string, questionType: string, notes: string, timestamp: string)
      returns (info: Screenshot)
      modifies this`screenshots
      ensures info == Screenshot(path, timestamp, questionType, notes, QuestionRef(currentQuestion))
      ensures screenshots == old(screenshots) + [info]
    {
      info := Screenshot(path, timestamp, questionType, notes, QuestionRef(currentQuestion));
      screenshots := screenshots + [info];
    }

    /** `store_extracted_question`: an empty or missing question is ignored. */
    method StoreExtractedQuestion(path: string, question: Option<string>)
      modifies this`extractedQuestions
      ensures question.Some? && question.value != "" ==>
        extractedQuestions == old(extractedQuestions)[path := question.value]
      ensures !(question.Some? && question.value != "") ==> extractedQuestions == old(extractedQuestions)
    {
      if question.Some? && question.value != "" {
        extractedQuestions := extractedQuestions[path := question.value];
      }
    }

    /** `store_solution`: a missing or empty solution is ignored. */
    method StoreSolution(path: string, solution: Option<Solution>)
      modifies this`solutions
      ensures TruthySolution(solution) ==> solutions == old(solutions)[path := solution.value]
      ensures !TruthySolution(solution) ==> solutions == old(solutions)
    {
      if TruthySolution(solution) {
        solutions := solutions[path := solution.value];
      }
    }

    /** `store_react_solution`: the solution under the path, and its code
        (`""` when absent) under the same path among the React solutions. */
    method StoreReactSolution(path: string, solution: Option<Solution>)
      modifies this`solutions, this`reactSolutions
      ensures TruthySolution(solution) ==>
        solutions == old(solutions)[path := solution.value]
        && reactSolutions == old(reactSolutions)[path := Get(solution.value, "code", Str(""))]
      ensures !TruthySolution(solution) ==>
        solutions == old(solutions) && reactSolutions == old(reactSolutions)
    {
      if TruthySolution(solution) {
        solutions := solutions[path := solution.value];
        reactSolutions := reactSolutions[path := Get(solution.value, "code", Str(""))];
      }
    }

    /** `store_followup_solution`, with `timestamp` the formatted time and
        `seconds` the integer Unix time read at the call. */
    method StoreFollowupSolution(path: string, solution: Option<Solution>, provider: string,
                                 timestamp: string, seconds: int)
      modifies this`solutions
      ensures TruthySolution(solution) ==>
        solutions == old(solutions)[FollowupKey(path, provider, seconds) := FollowupRecord(solution.value, timestamp)]
      ensures !TruthySolution(solution) ==> solutions == old(solutions)
    {
      if TruthySolution(solution) {
        var record := FollowupRecord(solution.value, timestamp);
        var key := path + ":" + provider + "-followup:" + IntToString(seconds);
        solutions := solutions[key := record];
      }
    }
  }

  /** Two follow-ups for the same path and provider in the same second share
      a key: the second replaces the first. */
  method SameSecondFollowupsCollide(path: string, provider: string, first: Solution, second: Solution,
                                    timestamp: string, seconds: int)
    returns (stored: map<string, Solution>)
    requires first != map[] && second != map[]
    ensures stored == map[FollowupKey(path, provider, seconds) := FollowupRecord(second, timestamp)]
  {
    var data := new InterviewData();
    data.StoreFollowupSolution(path, Some(first), provider, timestamp, seconds);
    data.StoreFollowupSolution(path, Some(second), provider, timestamp, seconds);
    stored := data.solutions;
  }
}
