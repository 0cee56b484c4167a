/** server_modules/solution.py: the POST routes that validate a request and
    start the provider in the background, the `process_*` workers that store
    a result, and the two read routes. */
module SolutionRoutes {
  import opened Text
  import opened Values
  import opened Config

  /** The POST routes, in the order the module declares them. */
  datatype Route =
    | ClaudeSolution | ClaudeFollowup | OpenAiSolution | GeminiSolution
    | GeminiReact | ClaudeReact | GeminiReact2 | GeminiFollowup | ClaudeReactFollowup

  /** The body fields a route requires, in the order it checks them. */
  function RequiredFields(route: Route): (fields: seq<string>)
    ensures |fields| >= 2 && Last(fields) == "screenshot_path"
  {
    match route
    case ClaudeFollowup => ["problem", "code", "transcript", "screenshot_path"]
    case GeminiFollowup => ["problem", "code", "transcript", "screenshot_path"]
    case ClaudeReactFollowup => ["react_question", "current_solution", "transcript", "screenshot_path"]
    case _ => ["question", "screenshot_path"]
  }

  /** The work a valid request starts: the route and its fields' values. */
  datatype Job = Job(route: Route, args: seq<string>)

  datatype Reply = BadRequest | Submitted(job: Job)

  /** The field values of `body` for `fields`, each `""` when missing. */
  function FieldValues(body: map<string, string>, fields: seq<string>): (r: seq<string>)
    ensures |r| == |fields| && forall i :: 0 <= i < |fields| ==> r[i] == Get(body, fields[i], "")
  {
    if fields == [] then [] else [Get(body, fields[0], "")] + FieldValues(body, fields[1..])
  }

  /** The validation at the head of every POST route: status 400 and no
      work started when a required field is missing or empty; otherwise the
      job is started with the fields' values. */
  function Validate(route: Route, body: map<string, string>): (r: Reply)
    ensures r.BadRequest? <==>
      exists i :: 0 <= i < |RequiredFields(route)| && Get(body, RequiredFields(route)[i], "") == ""
    ensures r.Submitted? ==>
      r.job.route == route && |r.job.args| == |RequiredFields(route)|
      && (forall i :: 0 <= i < |r.job.args| ==>
            RequiredFields(route)[i] in body && r.job.args[i] == body[RequiredFields(route)[i]] != "")
      && Last(r.job.args) == body["screenshot_path"]
  {
    var args := FieldValues(body, RequiredFields(route));
    if exists i :: 0 <= i < |args| && args[i] == "" then BadRequest
    else Submitted(Job(route, args))
  }

  /** How a worker stores its provider's result. */
  datatype Storage = Plain | React | Follow(provider: string)

  /** The config helper each route's worker calls. The Claude React
      follow-up worker calls a helper that config.py does not define. */
  function StorageOf(route: Route): Option<Storage> {
    match route
    case ClaudeSolution => Some(Plain)
    case OpenAiSolution => Some(Plain)
    case GeminiSolution => Some(Plain)
    case ClaudeFollowup => Some(Follow("claude"))
    case GeminiFollowup => Some(Follow("gemini"))
    case GeminiReact => Some(React)
    case ClaudeReact => Some(React)
    case GeminiReact2 => Some(React)
    case ClaudeReactFollowup => None
  }

  /** What the provider call of a worker did. */
  datatype ProviderOutcome = Returned(solution: Option<Solution>) | Raised

  /** A `process_*` worker: the result is stored (as its storage says)
      only when the provider returned a truthy solution; a `None`, an empty
      dictionary or an exception stores nothing. `timestamp` and `seconds`
      are the clock readings of a follow-up store. */
  method Process(data: InterviewData, storage: Storage, path: string, outcome: ProviderOutcome,
                 timestamp: string, seconds: int)
    modifies data`solutions, data`reactSolutions
    ensures !(outcome.Returned? && TruthySolution(outcome.solution)) ==>
      data.solutions == old(data.solutions) && data.reactSolutions == old(data.reactSolutions)
    ensures outcome.Returned? && TruthySolution(outcome.solution) ==>
      var s := outcome.solution.value;
      match storage
      case Plain =>
        data.solutions == old(data.solutions)[path := s] && data.reactSolutions == old(data.reactSolutions)
      case React =>
        data.solutions == old(data.solutions)[path := s]
        && data.reactSolutions == old(data.reactSolutions)[path := Get(s, "code", Str(""))]
      case Follow(provider) =>
        data.solutions == old(data.solutions)[FollowupKey(path, provider, seconds) := FollowupRecord(s, timestamp)]
        && data.reactSolutions == old(data.reactSolutions)
  {
    if outcome.Raised? {
      return;
    }
    match storage
    case Plain => data.StoreSolution(path, outcome.solution);
    case React => data.StoreReactSolution(path, outcome.solution);
    case Follow(provider) => data.StoreFollowupSolution(path, outcome.solution, provider, timestamp, seconds);
  }

  /** `get_all_solutions`: copies of the two solution stores. */
  method GetAllSolutions(data: InterviewData) returns (solutions: map<string, Solution>, react: map<string, Value>)
    ensures solutions == data.solutions && react == data.reactSolutions
  {
    solutions := data.solutions;
    react := data.reactSolutions;
  }

  /** Python's `os.path.join(base, name)` for a base without a trailing
      slash: an absolute `name` replaces the base. */
  function JoinPath(base: string, name: string): (r: string)
    ensures StartsWith(name, "/") ==> r == name
    ensures !StartsWith(name, "/") ==> StartsWith(r, base + "/") && r[|base| + 1..] == name
  {
    if StartsWith(name, "/") then name else base + "/" + name
  }

  /** The follow-up filter as written: the key starts with the path and a
      colon and contains `:followup:`. */
  predicate LegacyFollowupOf(path: string, key: string) {
    StartsWith(key, path + ":") && Contains(key, ":followup:")
  }

  /** The filter that matches the keys `store_followup_solution` writes. */
  predicate FollowupOf(path: string, key: string) {
    StartsWith(key, path + ":") && Contains(key, "-followup:")
  }

  /** The entries of `solutions` whose key satisfies `keep`, built by a loop
      over the dictionary. */
  method SelectEntries(solutions: map<string, Solution>, keep: string -> bool) returns (selected: map<string, Solution>)
    ensures selected == map k | k in solutions && keep(k) :: solutions[k]
  {
    selected := map[];
    var remaining := solutions.Keys;
    while remaining != {}
      invariant remaining <= solutions.Keys
      invariant selected == map k | k in solutions.Keys - remaining && keep(k) :: solutions[k]
      decreases |remaining|
    {
      var key :| key in remaining;
      if keep(key) {
        selected := selected[key := solutions[key]];
      }
      remaining := remaining - {key};
    }
  }

  datatype Lookup = Lookup(screenshot: string, solution: Option<Solution>, reactSolution: Option<Value>,
                           followupSolutions: map<string, Solution>)

  function Find<V>(m: map<string, V>, key: string): (r: Option<V>)
    ensures r.Some? <==> key in m
    ensures r.Some? ==> r.value == m[key]
  {
    if key in m then Some(m[key]) else None
  }

  /** `get_solution_for_screenshot_route` as written. */
  method GetSolutionForScreenshot(data: InterviewData, filename: string) returns (r: Lookup)
    ensures r.screenshot == JoinPath("screenshots", filename)
    ensures r.solution == Find(data.solutions, r.screenshot)
    ensures r.reactSolution == Find(data.reactSolutions, r.screenshot)
    ensures r.followupSolutions == map k | k in data.solutions && LegacyFollowupOf(r.screenshot, k) :: data.solutions[k]
  {
    var path := JoinPath("screenshots", filename);
    var followups := SelectEntries(data.solutions, k => LegacyFollowupOf(path, k));
    r := Lookup(path, Find(data.solutions, path), Find(data.reactSolutions, path), followups);
  }

  /** The lookup with the corrected filter: it returns exactly the
      follow-ups stored for the screenshot. */
  method GetSolutionForScreenshotCorrected(data: InterviewData, filename: string) returns (r: Lookup)
    ensures r.screenshot == JoinPath("screenshots", filename)
    ensures r.solution == Find(data.solutions, r.screenshot)
    ensures r.reactSolution == Find(data.reactSolutions, r.screenshot)
    ensures r.followupSolutions == map k | k in data.solutions && FollowupOf(r.screenshot, k) :: data.solutions[k]
  {
    var path := JoinPath("screenshots", filename);
    var followups := SelectEntries(data.solutions, k => FollowupOf(path, k));
    r := Lookup(path, Find(data.solutions, path), Find(data.reactSolutions, path), followups);
  }

  /** The suffix `store_followup_solution` appends to the path of a Claude or
      Gemini follow-up never contains `:followup:`. */
  lemma NoLegacyMarkInSuffix(provider: string, digits: string, j: int)
    requires provider == "claude" || provider == "gemini"
    requires forall k :: 0 <= k < |digits| ==> IsDigit(digits[k])
    ensures !ContainsAt(":" + provider + "-followup:" + digits, ":followup:", j)
  {
    var s := ":" + provider + "-followup:" + digits;
    var m := ":followup:";
    if 0 <= j && j + |m| <= |s| {
      assert s[j..j + |m|][0] == s[j] && s[j..j + |m|][1] == s[j + 1];
      if j >= 17 {
        assert s[j] == digits[j - 17];
      } else if j == 0 {
        assert s[1] == provider[0];
      } else if j == 16 {
        assert s[17] == digits[0];
      } else {
        assert s[j] != ':';
      }
    }
  }

  /** The follow-up filter as written misses every Claude and Gemini
      follow-up key of a path that does not itself contain `followup`. */
  lemma LegacyFilterMissesFollowups(path: string, provider: string, seconds: nat)
    requires provider == "claude" || provider == "gemini"
    requires !Contains(path, "followup")
    ensures !LegacyFollowupOf(path, FollowupKey(path, provider, seconds))
  {
    var key := FollowupKey(path, provider, seconds);
    var digits := NatToString(seconds);
    assert key == path + (":" + provider + "-followup:" + digits);
    forall j | 0 <= j <= |key| - 10
      ensures !ContainsAt(key, ":followup:", j)
    {
      NoLegacyMarkAt(path, provider, digits, j);
    }
  }

  /** No `:followup:` starts at `j` in a path without `followup` followed by
      a Claude or Gemini follow-up suffix. */
  lemma NoLegacyMarkAt(path: string, provider: string, digits: string, j: int)
    requires provider == "claude" || provider == "gemini"
    requires forall k :: 0 <= k < |digits| ==> IsDigit(digits[k])
    requires !Contains(path, "followup")
    ensures !ContainsAt(path + (":" + provider + "-followup:" + digits), ":followup:", j)
  {
    var suffix := ":" + provider + "-followup:" + digits;
    var key := path + suffix;
    var m := ":followup:";
    var p := |path|;
    if 0 <= j && j + |m| <= |key| {
      if j + |m| <= p || j == p - 9 {
        assert key[j + 1..j + 9] == path[j + 1..j + 9];
        assert !ContainsAt(path, "followup", j + 1);
        InnerWord(key, j);
      } else if j >= p {
        assert suffix[j - p..j - p + |m|] == key[j..j + |m|];
        NoLegacyMarkInSuffix(provider, digits, j - p);
      } else {
        assert key[p] == ':' && key[j..j + |m|][p - j] == key[p];
      }
    }
  }

  lemma InnerWord(s: string, j: int)
    ensures ContainsAt(s, ":followup:", j) ==> ContainsAt(s, "followup", j + 1)
  {
    if ContainsAt(s, ":followup:", j) {
      assert s[j + 1..j + 9] == s[j..j + 10][1..9];
    }
  }

  /** The corrected filter matches every follow-up key of the path. */
  lemma CorrectedFilterFindsFollowups(path: string, provider: string, seconds: int)
    ensures FollowupOf(path, FollowupKey(path, provider, seconds))
  {
    var key := FollowupKey(path, provider, seconds);
    FollowupKeyShape(path, provider, seconds);
    var i := |path| + 1 + |provider|;
    assert key == path + ":" + provider + "-followup:" + IntToString(seconds);
    assert key[i..i + 10] == "-followup:";
    assert ContainsAt(key, "-followup:", i);
  }

  /** The `screenshots/` folder adds no `followup` to a file name. */
  lemma ScreenshotPathUnmarked(filename: string)
    requires !Contains(filename, "followup")
    ensures !Contains("screenshots/" + filename, "followup")
  {
    var path := "screenshots/" + filename;
    forall i | 0 <= i <= |path| - 8
      ensures !ContainsAt(path, "followup", i)
    {
      assert path[i..i + 8][0] == path[i];
      if i < 12 {
        assert path[i] == "screenshots/"[i];
      } else {
        assert path[i..i + 8] == filename[i - 12..i - 12 + 8];
        assert !ContainsAt(filename, "followup", i - 12);
      }
    }
  }

  /** Storing a Claude follow-up and then looking the screenshot up: the
      route as written returns no follow-ups, the corrected one returns it. */
  method FollowupLookupScenario(filename: string, solution: Solution, timestamp: string, seconds: nat)
    returns (asWritten: Lookup, corrected: Lookup)
    requires solution != map[] && !StartsWith(filename, "/") && !Contains(filename, "followup")
    ensures asWritten.followupSolutions == map[]
    ensures corrected.followupSolutions
      == map[FollowupKey("screenshots/" + filename, "claude", seconds) := FollowupRecord(solution, timestamp)]
  {
    var data := new InterviewData();
    var path := "screenshots/" + filename;
    ScreenshotPathUnmarked(filename);
    data.StoreFollowupSolution(path, Some(solution), "claude", timestamp, seconds);
    var key := FollowupKey(path, "claude", seconds);
    assert data.solutions == map[key := FollowupRecord(solution, timestamp)];
    assert JoinPath("screenshots", filename) == path;
    LegacyFilterMissesFollowups(path, "claude", seconds);
    CorrectedFilterFindsFollowups(path, "claude", seconds);
    SingleFollowup(data.solutions, path, key);
    asWritten := GetSolutionForScreenshot(data, filename);
    corrected := GetSolutionForScreenshotCorrected(data, filename);
  }

  /** The two filters over a store holding the one entry `key`. */
  lemma SingleFollowup(m: map<string, Solution>, path: string, key: string)
    requires m.Keys == {key}
    ensures !LegacyFollowupOf(path, key) ==> (map k | k in m && LegacyFollowupOf(path, k) :: m[k]) == map[]
    ensures FollowupOf(path, key) ==> (map k | k in m && FollowupOf(path, k) :: m[k]) == map[key := m[key]]
  {
  }
}
