/** static/js/managers/solution/SolutionPollingManager.js: the poll-key
    bookkeeping, the choice of the latest follow-up key, and the effect of a
    poll tick, an error and a timeout on the application state. The timers
    are the browser's: an id the browser hands out is a positive number not
    in use, and the ids still scheduled are `liveIntervals` and
    `liveTimeouts`. A tick is given the `solutions` object of the
    `/api/solutions` reply and its keys in `Object.keys` order. */
module Polling {
  import opened Text
  import opened JsValues
  import Config
  import AppState
  import StateEvents

  // ---------------------------------------------------------------------
  // Keys and prefixes

  /** `_getFilename`: the text after the last `/`. */
  function GetFilename(path: string): (r: string)
    ensures '/' !in r && EndsWith(path, r)
    ensures |r| < |path| ==> path[|path| - |r| - 1] == '/'
  {
    Last(Split(path, '/'))
  }

  /** A string without the separator is its own last piece. */
  lemma LastPieceWhole(s: string, sep: char)
    requires sep !in s
    ensures Last(Split(s, sep)) == s
  {
  }

  /** After the last separator comes the last piece. */
  lemma LastPieceAfterSeparator(a: string, b: string, sep: char)
    requires sep !in b
    ensures Last(Split(a + [sep] + b, sep)) == b
  {
    var s := a + [sep] + b;
    assert s[|a|] == sep;
    assert s[|a| + 1..] == b;
  }

  /** `_getFilename` of a path without `/` is the whole path. */
  lemma FilenameOfPlainName(path: string)
    requires '/' !in path
    ensures GetFilename(path) == path
  {
    LastPieceWhole(path, '/');
  }

  /** `_getFilename` of `dir + "/" + name` is `name`. */
  lemma FilenameAfterSlash(dir: string, name: string)
    requires '/' !in name
    ensures GetFilename(dir + "/" + name) == name
  {
    LastPieceAfterSeparator(dir, name, '/');
  }

  function SolutionPollKey(key: string): string { "solution-" + key }
  function FollowupPollKey(path: string): string { "followup-" + GetFilename(path) }
  function GeminiFollowupPollKey(path: string): string { "gemini-followup-" + GetFilename(path) }
  function GeminiReactFollowupPollKey(path: string): string { "gemini-react-followup-" + GetFilename(path) }

  /** The prefix `pollForFollowupSolution` looks for, as written. */
  function FollowupPrefix(path: string): string { path + ":followup:" }

  /** The prefix of the keys `store_followup_solution` writes for Claude. */
  function FollowupPrefixCorrected(path: string): string { path + ":claude-followup:" }

  /** The prefix of the keys `store_followup_solution` writes for
      `provider`. */
  function ProviderPrefix(path: string, provider: string): string { path + ":" + provider + "-followup:" }

  function GeminiFollowupPrefix(path: string): string { path + ":gemini-followup:" }
  function GeminiReactFollowupPrefix(path: string): string { path + ":gemini-react-followup:" }

  // ---------------------------------------------------------------------
  // The latest follow-up key

  /** `parseInt` of the last `:`-separated piece; `None` is `NaN`. */
  function Stamp(key: string): Option<int> {
    ParseIntJs(Last(Split(key, ':')))
  }

  /** The stamp a key competes with: its `parseInt` when it has the
      prefix, none otherwise. */
  function Candidate(prefix: string, key: string): Option<int> {
    if StartsWith(key, prefix) then Stamp(key) else None
  }

  /** A candidate that can be selected: a stamp of at least the initial
      `latestTimestamp`, 0. */
  predicate Selectable(c: Option<int>) {
    c.Some? && c.value >= 0
  }

  /** A key that can be selected: it has the prefix and a selectable stamp. */
  predicate Qualifies(prefix: string, key: string) {
    Selectable(Candidate(prefix, key))
  }

  function Candidates(keys: seq<string>, prefix: string): (r: seq<Option<int>>)
    ensures |r| == |keys| && forall i :: 0 <= i < |keys| ==> r[i] == Candidate(prefix, keys[i])
  {
    seq(|keys|, i requires 0 <= i < |keys| => Candidate(prefix, keys[i]))
  }

  /** `latestKey` (as an index) and `latestTimestamp`. */
  datatype Pick = Pick(index: Option<nat>, stamp: int)

  /** The `forEach` over the candidates: one whose stamp is not below the
      current one replaces it, so ties go to the later one. */
  function PickOf(cands: seq<Option<int>>): (r: Pick)
    ensures r.index.None? ==> r.stamp == 0
    ensures r.index.Some? ==>
      r.index.value < |cands| && Selectable(cands[r.index.value]) && cands[r.index.value].value == r.stamp
    ensures forall i :: 0 <= i < |cands| && Selectable(cands[i]) ==> cands[i].value <= r.stamp
    ensures r.index.Some? ==>
      forall i :: r.index.value < i < |cands| && Selectable(cands[i]) ==> cands[i].value < r.stamp
    ensures r.index.None? <==> forall i :: 0 <= i < |cands| ==> !Selectable(cands[i])
  {
    if cands == [] then Pick(None, 0)
    else
      var p := PickOf(cands[..|cands| - 1]);
      var c := Last(cands);
      if c.Some? && c.value >= p.stamp then Pick(Some(|cands| - 1), c.value) else p
  }

  /** One more candidate in the `forEach`. */
  lemma PickStep(cands: seq<Option<int>>, i: nat)
    requires i < |cands|
    ensures var p := PickOf(cands[..i]);
      PickOf(cands[..i + 1]) == if cands[i].Some? && cands[i].value >= p.stamp then Pick(Some(i), cands[i].value) else p
  {
    assert cands[..i + 1][..i] == cands[..i];
  }

  /** The latest key among `keys` with the prefix, as an index into `keys`;
      `LatestPickChosen` and `LatestPickMaximal` say
      which one it is. */
  function LatestPick(keys: seq<string>, prefix: string): (r: Pick)
    ensures r.index.Some? ==> r.index.value < |keys|
  {
    PickOf(Candidates(keys, prefix))
  }

  /** The latest key qualifies and carries the chosen stamp, and there is
      none exactly when no key qualifies. */
  lemma LatestPickChosen(keys: seq<string>, prefix: string)
    ensures var r := LatestPick(keys, prefix);
      (r.index.None? ==> r.stamp == 0)
      && (r.index.Some? ==> Qualifies(prefix, keys[r.index.value]) && Stamp(keys[r.index.value]).value == r.stamp)
      && (r.index.None? <==> forall i :: 0 <= i < |keys| ==> !Qualifies(prefix, keys[i]))
  {
    var cands := Candidates(keys, prefix);
    forall i | 0 <= i < |keys| && Qualifies(prefix, keys[i])
      ensures Selectable(cands[i])
    {
    }
  }

  /** No qualifying key has a larger stamp than the latest one, and every
      later qualifying key has a smaller one. */
  lemma LatestPickMaximal(keys: seq<string>, prefix: string)
    ensures var r := LatestPick(keys, prefix);
      (forall i :: 0 <= i < |keys| && Qualifies(prefix, keys[i]) ==> Stamp(keys[i]).value <= r.stamp)
      && (r.index.Some? ==>
            forall i :: r.index.value < i < |keys| && Qualifies(prefix, keys[i]) ==> Stamp(keys[i]).value < r.stamp)
  {
    var cands := Candidates(keys, prefix);
    forall i | 0 <= i < |keys| && Qualifies(prefix, keys[i])
      ensures Selectable(cands[i]) && Stamp(keys[i]) == cands[i]
    {
    }
  }

  /** The selection loop of the follow-up pollers. */
  method SelectLatest(keys: seq<string>, prefix: string) returns (latestKey: Option<string>, latestTimestamp: int)
    ensures var p := LatestPick(keys, prefix);
      latestTimestamp == p.stamp
      && latestKey == if p.index.Some? then Some(keys[p.index.value]) else None
  {
    latestKey, latestTimestamp := None, 0;
    ghost var cands := Candidates(keys, prefix);
    ghost var index: Option<nat> := None;
    for i := 0 to |keys|
      invariant Pick(index, latestTimestamp) == PickOf(cands[..i])
      invariant index.Some? ==> index.value < i && latestKey == Some(keys[index.value])
      invariant index.None? ==> latestKey.None?
    {
      PickStep(cands, i);
      var key := keys[i];
      if StartsWith(key, prefix) {
        var timestamp := Stamp(key);
        if timestamp.Some? && timestamp.value >= latestTimestamp {
          latestTimestamp := timestamp.value;
          latestKey := Some(key);
          index := Some(i);
        }
      }
    }
    assert cands[..|keys|] == cands;
  }

  /** The stamp of a key `store_followup_solution` writes is its seconds. */
  lemma StampOfFollowupKey(path: string, provider: string, seconds: nat)
    ensures Stamp(Config.FollowupKey(path, provider, seconds)) == Some(seconds)
  {
    var digits := IntToString(seconds);
    assert ':' !in digits by {
      assert forall k :: 0 <= k < |digits| ==> IsDigit(digits[k]);
    }
    assert Config.FollowupKey(path, provider, seconds) == (path + ":" + provider + "-followup") + [':'] + digits;
    LastPieceAfterSeparator(path + ":" + provider + "-followup", digits, ':');
    ParseIntOfIntToString(seconds);
  }

  /** The standard poller's prefix matches no key written for Claude: the
      character after `path + ":"` is `c` in the key and `f` in the prefix. */
  lemma FollowupPrefixMissesClaudeKeys(path: string, seconds: int)
    ensures !StartsWith(Config.FollowupKey(path, "claude", seconds), FollowupPrefix(path))
  {
    var key := Config.FollowupKey(path, "claude", seconds);
    assert key[|path| + 1] == 'c';
    assert FollowupPrefix(path)[|path| + 1] == 'f';
  }

  /** Hence, when all the stored keys are Claude follow-ups of the path,
      the standard poller never selects one. */
  lemma StandardPollerNeverFinds(path: string, keys: seq<string>, seconds: seq<int>)
    requires |seconds| == |keys|
    requires forall i :: 0 <= i < |keys| ==> keys[i] == Config.FollowupKey(path, "claude", seconds[i])
    ensures LatestPick(keys, FollowupPrefix(path)).index.None?
  {
    LatestPickChosen(keys, FollowupPrefix(path));
    forall i | 0 <= i < |keys|
      ensures !Qualifies(FollowupPrefix(path), keys[i])
    {
      FollowupPrefixMissesClaudeKeys(path, seconds[i]);
    }
  }

  /** A key written for `provider` qualifies under `path + ":" + provider +
      "-followup:"`. */
  lemma ProviderKeyQualifies(path: string, provider: string, seconds: nat)
    ensures Qualifies(ProviderPrefix(path, provider), Config.FollowupKey(path, provider, seconds))
  {
    StampOfFollowupKey(path, provider, seconds);
    StartsWithConcat(path + ":" + provider + "-followup:", IntToString(seconds));
  }

  /** The Gemini poller's prefix and the corrected standard prefix are the
      ones `store_followup_solution` writes for their providers. */
  lemma PrefixesAgree(path: string)
    ensures GeminiFollowupPrefix(path) == ProviderPrefix(path, "gemini")
    ensures FollowupPrefixCorrected(path) == ProviderPrefix(path, "claude")
  {
    assert ":" + "gemini" + "-followup:" == ":gemini-followup:";
    assert ":" + "claude" + "-followup:" == ":claude-followup:";
  }

  /** The Gemini poller's prefix matches the keys written for Gemini. */
  lemma GeminiPrefixMatches(path: string, seconds: nat)
    ensures Qualifies(GeminiFollowupPrefix(path), Config.FollowupKey(path, "gemini", seconds))
  {
    PrefixesAgree(path);
    ProviderKeyQualifies(path, "gemini", seconds);
  }

  /** With the corrected prefix the standard poller selects a Claude
      follow-up of the path, one written last among the latest second. */
  lemma CorrectedPollerFindsLatest(path: string, keys: seq<string>, seconds: seq<nat>)
    requires |seconds| == |keys| > 0
    requires forall i :: 0 <= i < |keys| ==> keys[i] == Config.FollowupKey(path, "claude", seconds[i])
    ensures var p := LatestPick(keys, FollowupPrefixCorrected(path));
      p.index.Some?
      && p.stamp == seconds[p.index.value]
      && forall i :: 0 <= i < |keys| ==> seconds[i] <= p.stamp
  {
    var prefix := FollowupPrefixCorrected(path);
    LatestPickChosen(keys, prefix);
    LatestPickMaximal(keys, prefix);
    PrefixesAgree(path);
    forall i | 0 <= i < |keys|
      ensures Qualifies(prefix, keys[i]) && Stamp(keys[i]) == Some(seconds[i])
    {
      ProviderKeyQualifies(path, "claude", seconds[i]);
      StampOfFollowupKey(path, "claude", seconds[i]);
    }
    assert Qualifies(prefix, keys[0]);
  }

  // ---------------------------------------------------------------------
  // Interval and timeout bookkeeping

  /** `pollIntervals` or `pollTimeouts` after `_clearPolling(k)`: the entry
      goes when its id is truthy. */
  function Cleared(m: map<string, int>, k: string): map<string, int> {
    if k in m && m[k] != 0 then m - {k} else m
  }

  /** `_clearPolling` removes `k` when its id is positive, leaves the other
      keys as they were, and a second call changes nothing. */
  lemma ClearedEntries(m: map<string, int>, k: string)
    ensures k in m && m[k] > 0 ==> k !in Cleared(m, k)
    ensures forall j :: j != k ==> (j in Cleared(m, k) <==> j in m) && (j in m ==> Cleared(m, k)[j] == m[j])
    ensures (forall j :: j in m ==> m[j] > 0) ==> Cleared(Cleared(m, k), k) == Cleared(m, k)
  {
  }

  /** No two keys share an id. */
  predicate Injective(m: map<string, int>) {
    forall a, b :: a in m && b in m && a != b ==> m[a] != m[b]
  }

  /** Storing a new id under a key that has one, without clearing it first,
      leaves the old timer scheduled but unreachable from the map. */
  lemma OverwriteOrphansTimer(m: map<string, int>, k: string, id: int)
    requires Injective(m) && k in m && id !in m.Values
    ensures m[k] in m.Values && m[k] !in m[k := id].Values
  {
  }

  /** `appState` paths the handlers use. */
  const IsGenerating := "solution.isGenerating"

  /** The one property of `JSON.stringify` the handlers rely on: no truthy
      value serialises like `false`. */
  ghost predicate SerialisesFalseApart(stringify: JsValue -> Option<string>) {
    forall v :: Truthy(v) ==> stringify(v) != stringify(Bool(false))
  }

  /** The data of a follow-up event: `{type, solution}`, or `{solution}` for
      the React follow-up. */
  function Payload(kind: Option<string>, solution: JsValue): JsValue {
    if kind.Some? then Obj(map["type" := Str(kind.value), "solution" := solution])
    else Obj(map["solution" := solution])
  }

  class SolutionPollingManager {
    var pollIntervals: map<string, int>
    var pollTimeouts: map<string, int>
    var liveIntervals: set<int>
    var liveTimeouts: set<int>
    const app: AppState.Store

    /** Each key has one scheduled interval and one scheduled timeout, and
        every scheduled timer belongs to exactly one key. */
    predicate Valid()
      reads this
    {
      (forall k :: k in pollIntervals ==> pollIntervals[k] > 0)
      && (forall k :: k in pollTimeouts ==> pollTimeouts[k] > 0)
      && liveIntervals == pollIntervals.Values && liveTimeouts == pollTimeouts.Values
      && Injective(pollIntervals) && Injective(pollTimeouts)
    }

    constructor(app: AppState.Store)
      ensures pollIntervals == map[] && pollTimeouts == map[]
      ensures liveIntervals == {} && liveTimeouts == {}
      ensures this.app == app
      ensures Valid()
    {
      pollIntervals, pollTimeouts := map[], map[];
      liveIntervals, liveTimeouts := {}, {};
      this.app := app;
    }

    /** `_clearPolling(pollKey)`: the interval and the timeout of `pollKey`
        are cancelled and forgotten; no other key is touched. */
    method ClearPolling(pollKey: string)
      requires Valid()
      modifies this`pollIntervals, this`pollTimeouts, this`liveIntervals, this`liveTimeouts
      ensures pollIntervals == Cleared(old(pollIntervals), pollKey)
      ensures pollTimeouts == Cleared(old(pollTimeouts), pollKey)
      ensures pollKey !in pollIntervals && pollKey !in pollTimeouts
      ensures liveIntervals == old(liveIntervals) - (if pollKey in old(pollIntervals) then {old(pollIntervals)[pollKey]} else {})
      ensures liveTimeouts == old(liveTimeouts) - (if pollKey in old(pollTimeouts) then {old(pollTimeouts)[pollKey]} else {})
      ensures Valid()
    {
      if pollKey in pollIntervals && pollIntervals[pollKey] != 0 {
        RemoveKey(pollIntervals, pollKey);
        liveIntervals := liveIntervals - {pollIntervals[pollKey]};
        pollIntervals := pollIntervals - {pollKey};
      }
      if pollKey in pollTimeouts && pollTimeouts[pollKey] != 0 {
        RemoveKey(pollTimeouts, pollKey);
        liveTimeouts := liveTimeouts - {pollTimeouts[pollKey]};
        pollTimeouts := pollTimeouts - {pollKey};
      }
    }

    /** What every poll starter does with its key: clear it, then store the
        new interval and timeout, so the key never has two live intervals. */
    method StartPolling(pollKey: string, intervalId: int, timeoutId: int)
      requires Valid()
      requires intervalId > 0 && intervalId !in liveIntervals
      requires timeoutId > 0 && timeoutId !in liveTimeouts
      modifies this`pollIntervals, this`pollTimeouts, this`liveIntervals, this`liveTimeouts
      ensures pollIntervals == old(pollIntervals)[pollKey := intervalId]
      ensures pollTimeouts == old(pollTimeouts)[pollKey := timeoutId]
      ensures liveIntervals == old(liveIntervals) - (if pollKey in old(pollIntervals) then {old(pollIntervals)[pollKey]} else {}) + {intervalId}
      ensures liveTimeouts == old(liveTimeouts) - (if pollKey in old(pollTimeouts) then {old(pollTimeouts)[pollKey]} else {}) + {timeoutId}
      ensures Valid()
    {
      ClearedThenSet(pollIntervals, pollKey, intervalId);
      ClearedThenSet(pollTimeouts, pollKey, timeoutId);
      ClearPolling(pollKey);
      Schedule(pollKey, intervalId, timeoutId);
    }

    /** The two assignments after `_clearPolling`: the key has no timer yet. */
    method Schedule(pollKey: string, intervalId: int, timeoutId: int)
      requires Valid() && pollKey !in pollIntervals && pollKey !in pollTimeouts
      requires intervalId > 0 && intervalId !in liveIntervals
      requires timeoutId > 0 && timeoutId !in liveTimeouts
      modifies this`pollIntervals, this`pollTimeouts, this`liveIntervals, this`liveTimeouts
      ensures pollIntervals == old(pollIntervals)[pollKey := intervalId]
      ensures pollTimeouts == old(pollTimeouts)[pollKey := timeoutId]
      ensures liveIntervals == old(liveIntervals) + {intervalId}
      ensures liveTimeouts == old(liveTimeouts) + {timeoutId}
      ensures Valid()
    {
      AddFresh(pollIntervals, pollKey, intervalId);
      AddFresh(pollTimeouts, pollKey, timeoutId);
      pollIntervals := pollIntervals[pollKey := intervalId];
      liveIntervals := liveIntervals + {intervalId};
      pollTimeouts := pollTimeouts[pollKey := timeoutId];
      liveTimeouts := liveTimeouts + {timeoutId};
    }

    /** `pollForFollowupSolution(path)` as it schedules its timers. */
    method PollForFollowupSolution(path: string, intervalId: int, timeoutId: int)
      requires Valid()
      requires intervalId > 0 && intervalId !in liveIntervals
      requires timeoutId > 0 && timeoutId !in liveTimeouts
      modifies this`pollIntervals, this`pollTimeouts, this`liveIntervals, this`liveTimeouts
      ensures pollIntervals == old(pollIntervals)[FollowupPollKey(path) := intervalId]
      ensures pollTimeouts == old(pollTimeouts)[FollowupPollKey(path) := timeoutId]
      ensures Valid()
    {
      StartPolling(FollowupPollKey(path), intervalId, timeoutId);
    }

    /** `_handlePollingError` and `_handlePollingTimeout`: polling for the
        key stops; `isGenerating` becomes false only if it was truthy. */
    method HandlePollingError(pollKey: string)
      requires Valid()
      modifies this`pollIntervals, this`pollTimeouts, this`liveIntervals, this`liveTimeouts
      modifies app`state, app.events`delivered
      ensures pollIntervals == Cleared(old(pollIntervals), pollKey)
      ensures pollTimeouts == Cleared(old(pollTimeouts), pollKey)
      ensures pollKey !in pollIntervals && pollKey !in pollTimeouts && Valid()
      ensures !Truthy(old(app.ValueAt(IsGenerating))) ==>
        app.state == old(app.state) && app.events.delivered == old(app.events.delivered)
      ensures Truthy(old(app.ValueAt(IsGenerating))) && SerialisesFalseApart(app.stringify) ==>
        app.ValueAt(IsGenerating) == Bool(false)
      ensures Truthy(old(app.ValueAt(IsGenerating))) ==>
        app.state == old(app.UpdatedState(IsGenerating, Bool(false)))
        && app.events.delivered == old(app.events.delivered) + old(app.UpdateDeliveries(IsGenerating, Bool(false)))
    {
      ClearPolling(pollKey);
      StopGenerating();
    }

    method HandlePollingTimeout(pollKey: string)
      requires Valid()
      modifies this`pollIntervals, this`pollTimeouts, this`liveIntervals, this`liveTimeouts
      modifies app`state, app.events`delivered
      ensures pollIntervals == Cleared(old(pollIntervals), pollKey)
      ensures pollTimeouts == Cleared(old(pollTimeouts), pollKey)
      ensures pollKey !in pollIntervals && pollKey !in pollTimeouts && Valid()
      ensures !Truthy(old(app.ValueAt(IsGenerating))) ==>
        app.state == old(app.state) && app.events.delivered == old(app.events.delivered)
      ensures Truthy(old(app.ValueAt(IsGenerating))) && SerialisesFalseApart(app.stringify) ==>
        app.ValueAt(IsGenerating) == Bool(false)
      ensures Truthy(old(app.ValueAt(IsGenerating))) ==>
        app.state == old(app.UpdatedState(IsGenerating, Bool(false)))
        && app.events.delivered == old(app.events.delivered) + old(app.UpdateDeliveries(IsGenerating, Bool(false)))
    {
      ClearPolling(pollKey);
      StopGenerating();
    }

    /** The state part the two handlers share. */
    method StopGenerating()
      modifies app`state, app.events`delivered
      ensures !Truthy(old(app.ValueAt(IsGenerating))) ==>
        app.state == old(app.state) && app.events.delivered == old(app.events.delivered)
      ensures Truthy(old(app.ValueAt(IsGenerating))) && SerialisesFalseApart(app.stringify) ==>
        app.ValueAt(IsGenerating) == Bool(false)
      ensures Truthy(old(app.ValueAt(IsGenerating))) ==>
        app.state == old(app.UpdatedState(IsGenerating, Bool(false)))
        && app.events.delivered == old(app.events.delivered) + old(app.UpdateDeliveries(IsGenerating, Bool(false)))
    {
      var generating := app.Get(IsGenerating);
      if Truthy(generating) {
        AppState.SetWhereGetFinds(app.state, AppState.Keys(IsGenerating), Bool(false));
        var _ := app.Update(IsGenerating, Bool(false));
      }
    }

    /** One tick of a follow-up poller (`pollForFollowupSolution`, its
        Gemini and Gemini React variants): when the latest matching key is
        found with a truthy solution, the event is emitted, `isGenerating`
        is set to false and polling stops; otherwise nothing changes. An
        update that throws ends in the error handler, which clears the same
        key. */
    method FollowupTick(pollKey: string, prefix: string, event: string, kind: Option<string>,
                        solutions: map<string, JsValue>, keys: seq<string>) returns (found: bool)
      requires Valid()
      requires forall k :: k in keys <==> k in solutions
      modifies this`pollIntervals, this`pollTimeouts, this`liveIntervals, this`liveTimeouts
      modifies app`state, app.events`delivered
      ensures var p := LatestPick(keys, prefix);
        found <==> p.index.Some? && keys[p.index.value] != "" && Truthy(solutions[keys[p.index.value]])
      ensures !found ==>
        pollIntervals == old(pollIntervals) && pollTimeouts == old(pollTimeouts)
        && app.state == old(app.state) && app.events.delivered == old(app.events.delivered)
      ensures old(app.events.delivered) <= app.events.delivered
      ensures found ==>
        var p := LatestPick(keys, prefix);
        pollKey !in pollIntervals && pollKey !in pollTimeouts
        && StateEvents.Deliveries(app.events.CallbacksOf(event), event, Payload(kind, solutions[keys[p.index.value]]))
           <= app.events.delivered[|old(app.events.delivered)|..]
      ensures found && AppState.SetAt(old(app.state), AppState.Keys(IsGenerating), Bool(false)).Some? ==>
        app.stringify(app.ValueAt(IsGenerating)) == app.stringify(Bool(false))
      ensures found ==>
        var p := LatestPick(keys, prefix);
        pollIntervals == Cleared(old(pollIntervals), pollKey) && pollTimeouts == Cleared(old(pollTimeouts), pollKey)
        && app.state == old(app.UpdatedState(IsGenerating, Bool(false)))
        && app.events.delivered == old(app.events.delivered)
           + StateEvents.Deliveries(app.events.CallbacksOf(event), event, Payload(kind, solutions[keys[p.index.value]]))
           + old(app.UpdateDeliveries(IsGenerating, Bool(false)))
      ensures Valid()
    {
      var latestKey, _ := SelectLatest(keys, prefix);
      found := false;
      if latestKey.Some? && latestKey.value != "" {
        var solution := solutions[latestKey.value];
        if Truthy(solution) {
          Announce(pollKey, event, Payload(kind, solution));
          found := true;
        }
      }
    }

    /** A found follow-up: the event goes to its listeners, `isGenerating`
        is set to false and polling for the key stops. */
    method Announce(pollKey: string, event: string, data: JsValue)
      requires Valid()
      modifies this`pollIntervals, this`pollTimeouts, this`liveIntervals, this`liveTimeouts
      modifies app`state, app.events`delivered
      ensures pollIntervals == Cleared(old(pollIntervals), pollKey)
      ensures pollTimeouts == Cleared(old(pollTimeouts), pollKey)
      ensures pollKey !in pollIntervals && pollKey !in pollTimeouts && Valid()
      ensures old(app.events.delivered) <= app.events.delivered
      ensures StateEvents.Deliveries(app.events.CallbacksOf(event), event, data)
        <= app.events.delivered[|old(app.events.delivered)|..]
      ensures AppState.SetAt(old(app.state), AppState.Keys(IsGenerating), Bool(false)).Some? ==>
        app.stringify(app.ValueAt(IsGenerating)) == app.stringify(Bool(false))
      ensures app.state == old(app.UpdatedState(IsGenerating, Bool(false)))
      ensures app.events.delivered == old(app.events.delivered)
        + StateEvents.Deliveries(app.events.CallbacksOf(event), event, data)
        + old(app.UpdateDeliveries(IsGenerating, Bool(false)))
    {
      ghost var before := app.events.delivered;
      app.events.Emit(event, data);
      ghost var emitted := app.events.delivered;
      var _ := app.Update(IsGenerating, Bool(false));
      ClearPolling(pollKey);
      PrefixOfLater(before, emitted, app.events.delivered);
    }
  }

  /** What was appended after `before` by the time of `mid` is still there,
      right after `before`, by the time of `after`. */
  lemma PrefixOfLater<T>(before: seq<T>, mid: seq<T>, after: seq<T>)
    requires before <= mid <= after
    ensures mid[|before|..] <= after[|before|..]
  {
    assert after[|before|..][..|mid| - |before|] == mid[|before|..];
  }

  /** Valid bookkeeping stays injective when a fresh id is stored under a
      key that has none. */
  lemma AddFresh(m: map<string, int>, k: string, id: int)
    requires Injective(m) && k !in m && id !in m.Values
    ensures Injective(m[k := id]) && m[k := id].Values == m.Values + {id}
  {
    var n := m[k := id];
    forall v | v in m.Values ensures v in n.Values {
      var j :| j in m && m[j] == v;
      assert n[j] == v;
    }
    assert n[k] == id;
  }

  /** Forgetting a key of an injective map forgets exactly its id. */
  lemma RemoveKey(m: map<string, int>, k: string)
    requires Injective(m) && k in m
    ensures Injective(m - {k}) && (m - {k}).Values == m.Values - {m[k]}
  {
    var n := m - {k};
    forall v | v in m.Values - {m[k]} ensures v in n.Values {
      var j :| j in m && m[j] == v;
      assert j != k && n[j] == v;
    }
  }

  /** Clearing a key and storing a new id under it is storing the id. */
  lemma ClearedThenSet(m: map<string, int>, k: string, id: int)
    requires forall j :: j in m ==> m[j] > 0
    ensures Cleared(m, k)[k := id] == m[k := id]
  {
  }
}
