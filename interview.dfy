/** server_modules/interview.py: the question / follow-up registry kept in
    `interview_data`, and the reset of every store. Request bodies are
    dictionaries of strings (`request.json or {}`: a missing body is the
    empty dictionary); `timestamp` is the formatted time of the call. */
module Interview {
  import opened Text
  import opened Values
  import opened Config
  import WebAdapter

  /** The registry invariant: question `k` (counting from 1) has id `k`, and
      the current question is `None` or one of those ids. */
  predicate RegistryValid(questions: seq<Question>, current: Option<int>) {
    (forall k :: 0 <= k < |questions| ==> questions[k].id == k + 1)
    && (current.None? || 1 <= current.value <= |questions|)
  }

  /** The index of the first question with id `id`, as the `for` loop of
      `mark_followup` finds it. */
  function FirstWithId(questions: seq<Question>, id: int): (r: Option<nat>)
    ensures r.Some? ==>
      r.value < |questions| && questions[r.value].id == id
      && forall k :: 0 <= k < r.value ==> questions[k].id != id
    ensures r.None? <==> forall k :: 0 <= k < |questions| ==> questions[k].id != id
  {
    if questions == [] then None
    else if questions[0].id == id then Some(0)
    else
      match FirstWithId(questions[1..], id)
      case None => None
      case Some(k) => Some(k + 1)
  }

  /** Under the registry invariant the current question is always found:
      the 404 branch of `mark_followup` cannot be reached. */
  lemma CurrentQuestionIsFound(questions: seq<Question>, current: Option<int>)
    requires RegistryValid(questions, current) && current.Some?
    ensures FirstWithId(questions, current.value) == Some(current.value - 1)
  {
    var r := FirstWithId(questions, current.value);
    assert questions[current.value - 1].id == current.value;
    if r.Some? && r.value < current.value - 1 {
      assert questions[r.value].id == r.value + 1;
    }
  }

  /** `mark_question`: appends a question whose id is one more than the
      number of questions, with no follow-ups, and makes it current. */
  method MarkQuestion(data: InterviewData, body: map<string, string>, timestamp: string)
    returns (question: Question)
    modifies data`questions, data`currentQuestion
    ensures question == Question(|old(data.questions)| + 1, Get(body, "question_type", "coding"),
                                 Get(body, "notes", ""), timestamp, [])
    ensures data.questions == old(data.questions) + [question]
    ensures data.currentQuestion == Some(question.id)
    ensures RegistryValid(old(data.questions), old(data.currentQuestion)) ==>
      RegistryValid(data.questions, data.currentQuestion)
  {
    var kind := Get(body, "question_type", "coding");
    var notes := Get(body, "notes", "");
    var id := |data.questions| + 1;
    question := Question(id, kind, notes, timestamp, []);
    data.questions := data.questions + [question];
    data.currentQuestion := Some(id);
  }

  datatype FollowupOutcome =
    | NoActiveQuestion          // 400
    | QuestionNotFound(id: int) // 404
    | FollowupAdded(followup: Followup)

  /** `mark_followup`: with no current question, or no question with the
      current id, nothing changes; otherwise the first question with that
      id gets a follow-up numbered one more than its follow-ups so far. */
  method MarkFollowup(data: InterviewData, body: map<string, string>, timestamp: string)
    returns (outcome: FollowupOutcome)
    modifies data`questions
    ensures data.currentQuestion.None? ==> outcome == NoActiveQuestion && data.questions == old(data.questions)
    ensures data.currentQuestion.Some? && FirstWithId(old(data.questions), data.currentQuestion.value).None? ==>
      outcome == QuestionNotFound(data.currentQuestion.value) && data.questions == old(data.questions)
    ensures data.currentQuestion.Some? && FirstWithId(old(data.questions), data.currentQuestion.value).Some? ==>
      var i := FirstWithId(old(data.questions), data.currentQuestion.value).value;
      var q := old(data.questions)[i];
      var f := Followup(|q.followups| + 1, Get(body, "notes", ""), timestamp);
      outcome == FollowupAdded(f)
      && data.questions == old(data.questions)[i := q.(followups := q.followups + [f])]
    ensures RegistryValid(old(data.questions), data.currentQuestion) ==>
      !outcome.QuestionNotFound?
      && RegistryValid(data.questions, data.currentQuestion)
  {
    var notes := Get(body, "notes", "");
    if data.currentQuestion.None? {
      return NoActiveQuestion;
    }
    var id := data.currentQuestion.value;
    var i := 0;
    while i < |data.questions|
      invariant 0 <= i <= |data.questions| && data.questions == old(data.questions)
      invariant forall k :: 0 <= k < i ==> data.questions[k].id != id
    {
      var q := data.questions[i];
      if q.id == id {
        var f := Followup(|q.followups| + 1, notes, timestamp);
        data.questions := data.questions[i := q.(followups := q.followups + [f])];
        assert FirstWithId(old(data.questions), id) == Some(i);
        return FollowupAdded(f);
      }
      i := i + 1;
    }
    if RegistryValid(data.questions, data.currentQuestion) {
      CurrentQuestionIsFound(data.questions, data.currentQuestion);
    }
    return QuestionNotFound(id);
  }

  /** `reset_all_data`: every interview store is emptied, there is no
      current question, and the transcript list is cleared. */
  method ResetAllData(data: InterviewData, store: WebAdapter.TranscriptStore)
    modifies data, store`transcriptions
    ensures data.questions == [] && data.screenshots == [] && data.currentQuestion == None
    ensures data.extractedQuestions == map[] && data.solutions == map[] && data.reactSolutions == map[]
    ensures store.transcriptions == []
    ensures RegistryValid(data.questions, data.currentQuestion)
  {
    data.questions := [];
    data.screenshots := [];
    data.currentQuestion := None;
    data.extractedQuestions := map[];
    data.solutions := map[];
    data.reactSolutions := map[];
    store.transcriptions := [];
  }

  /** `get_screenshots_list`: a copy of the screenshot records, in the
      order they were added. */
  method GetScreenshotsList(data: InterviewData) returns (list: seq<Screenshot>)
    ensures list == data.screenshots
  {
    list := data.screenshots;
  }

  /** Marking questions from an empty registry numbers them 1, 2, ...: the
      invariant every registry operation keeps. */
  method MarkTwoQuestions(body1: map<string, string>, body2: map<string, string>, t1: string, t2: string)
    returns (ids: seq<int>, followup: FollowupOutcome)
    ensures ids == [1, 2]
    ensures followup.FollowupAdded? && followup.followup.id == 1
  {
    var data := new InterviewData();
    var q1 := MarkQuestion(data, body1, t1);
    var q2 := MarkQuestion(data, body2, t2);
    ids := [q1.id, q2.id];
    followup := MarkFollowup(data, map[], t2);
  }
}
