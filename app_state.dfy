/** static/js/state/AppState.js: the dot-path state store. The nested state
    object is a `JsValue`; `JSON.stringify` is the store's `stringify`, with
    `None` for the `undefined` it returns on `undefined`. A thrown
    `TypeError` is `ok == false`. */
module AppState {
  import opened Text
  import opened JsValues
  import StateEvents

  /** The state object every store starts with. */
  const InitialState: JsValue :=
    Obj(map[
      "recording" := Obj(map["isRecording" := Bool(false), "transcriptionCount" := Num(0),
                             "currentSpeaker" := Str("interviewer")]),
      "screenshots" := Obj(map["items" := Arr([]), "manuallySelectedScreenshot" := Bool(false),
                               "currentScreenshotPath" := Str("")]),
      "question" := Obj(map["current" := Null, "currentExtractedQuestion" := Str(""), "type" := Str("coding"),
                            "notes" := Str("")]),
      "solution" := Obj(map["isGenerating" := Bool(false), "currentSolution" := Null]),
      "ui" := Obj(map["leftPanelCollapsed" := Bool(false)])])

  /** The keys of a dot path. */
  function Keys(path: string): seq<string> {
    Split(path, '.')
  }

  /** The walk of `_getValueAtPath`: `undefined` once it stands on a value
      that is not an object, otherwise the member named by each key. */
  function GetAt(v: JsValue, keys: seq<string>): JsValue
    decreases keys
  {
    if keys == [] then v
    else if !IsObject(v) then Undefined
    else GetAt(Member(v, keys[0]), keys[1..])
  }

  /** `current[key] = value` on the last container: an object gets the
      property, an array the element at an existing index; a primitive,
      `null` or `undefined` throws. */
  function Assign(current: JsValue, key: string, value: JsValue): (r: Option<JsValue>)
    ensures r.Some? ==> IsObject(current) && IsObject(r.value) && Member(r.value, key) == value
  {
    match current
    case Obj(m) => Some(Obj(m[key := value]))
    case Arr(items) =>
      var i := IndexBelow(key, |items|);
      if i.Some? then Some(Arr(items[i.value := value])) else None
    case _ => None
  }

  /** `_setValueAtPath` on the state value: a missing intermediate key gets
      `{}`; reaching a primitive, `null` or `undefined` throws. Afterwards the
      path reads back the value set. */
  function SetAt(v: JsValue, keys: seq<string>, value: JsValue): (r: Option<JsValue>)
    requires keys != []
    ensures r.Some? ==> IsObject(v) && GetAt(r.value, keys) == value
    decreases keys
  {
    var k := keys[0];
    if |keys| == 1 then
      var r := Assign(v, k, value);
      if r.Some? then
        assert GetAt(r.value, keys) == GetAt(Member(r.value, k), []);
        r
      else None
    else
      match v
      case Obj(m) =>
        var child := if k in m then m[k] else Obj(map[]);
        var sub := SetAt(child, keys[1..], value);
        if sub.None? then None
        else
          assert Member(Obj(m[k := sub.value]), k) == sub.value;
          Some(Obj(m[k := sub.value]))
      case Arr(items) =>
        var i := IndexBelow(k, |items|);
        if i.Some? then
          var sub := SetAt(items[i.value], keys[1..], value);
          if sub.None? then None
          else
            assert Member(Arr(items[i.value := sub.value]), k) == sub.value;
            Some(Arr(items[i.value := sub.value]))
        else None
      case _ => None
  }

  /** The object `{path: value}` nested along `keys`, as a set into `{}`
      creates it. */
  function Nested(keys: seq<string>, value: JsValue): JsValue
    requires keys != []
  {
    if |keys| == 1 then Obj(map[keys[0] := value]) else Obj(map[keys[0] := Nested(keys[1..], value)])
  }

  /** `_getValueAtPath`: the walk over the keys of `path`. */
  method GetValueAtPath(obj: JsValue, path: string) returns (r: JsValue)
    ensures r == GetAt(obj, Keys(path))
  {
    var keys := Split(path, '.');
    var current := obj;
    for i := 0 to |keys|
      invariant GetAt(current, keys[i..]) == GetAt(obj, keys)
    {
      if !IsObject(current) {
        return Undefined;
      }
      assert keys[i..][1..] == keys[i + 1..];
      current := Member(current, keys[i]);
    }
    assert keys[|keys|..] == [];
    return current;
  }

  /** Walking `a` and then `b` is walking `a + b`. */
  lemma {:induction false} GetAtConcat(v: JsValue, a: seq<string>, b: seq<string>)
    ensures GetAt(v, a + b) == GetAt(GetAt(v, a), b)
    decreases a
  {
    if a == [] {
      assert a + b == b;
    } else if !IsObject(v) {
      if b != [] {
        assert GetAt(Undefined, b) == Undefined;
      }
    } else {
      assert (a + b)[1..] == a[1..] + b;
      GetAtConcat(Member(v, a[0]), a[1..], b);
    }
  }

  /** Once the walk stands on something that is not an object, every longer
      path reads `undefined`. */
  lemma WalkStopsAtNonObject(v: JsValue, a: seq<string>, b: seq<string>)
    requires !IsObject(GetAt(v, a)) && b != []
    ensures GetAt(v, a + b) == Undefined
  {
    GetAtConcat(v, a, b);
  }

  /** `q` leaves the path `keys` somewhere: it is neither a prefix nor an
      extension of it. */
  predicate Diverges(keys: seq<string>, q: seq<string>) {
    exists i :: 0 <= i < |keys| && i < |q| && keys[i] != q[i]
  }

  lemma GetFromEmpty(q: seq<string>)
    requires q != []
    ensures GetAt(Obj(map[]), q) == Undefined
  {
    if |q| > 1 {
      assert GetAt(Undefined, q[1..]) == Undefined;
    }
  }

  /** Setting a path leaves every path that diverges from it as it was. */
  lemma {:induction false} SetKeepsOtherPaths(v: JsValue, keys: seq<string>, value: JsValue, q: seq<string>)
    requires keys != [] && SetAt(v, keys, value).Some?
    requires Diverges(keys, q)
    ensures GetAt(SetAt(v, keys, value).value, q) == GetAt(v, q)
    decreases keys
  {
    var w := SetAt(v, keys, value).value;
    var d :| 0 <= d < |keys| && d < |q| && keys[d] != q[d];
    var k := keys[0];
    if k != q[0] {
      SetKeepsOtherMembers(v, keys, value, q[0]);
    } else {
      assert d >= 1 && |keys| >= 2;
      assert Diverges(keys[1..], q[1..]) by {
        assert keys[1..][d - 1] != q[1..][d - 1];
      }
      match v
      case Obj(m) =>
        var child := if k in m then m[k] else Obj(map[]);
        SetKeepsOtherPaths(child, keys[1..], value, q[1..]);
        if k !in m {
          GetFromEmpty(q[1..]);
          assert GetAt(Undefined, q[1..]) == Undefined;
        }
      case Arr(items) =>
        var i := IndexBelow(k, |items|).value;
        SetKeepsOtherPaths(items[i], keys[1..], value, q[1..]);
    }
  }

  /** Setting a path leaves the members not named by its first key as they were. */
  lemma SetKeepsOtherMembers(v: JsValue, keys: seq<string>, value: JsValue, key: string)
    requires keys != [] && SetAt(v, keys, value).Some? && key != keys[0]
    ensures IsObject(SetAt(v, keys, value).value)
    ensures Member(SetAt(v, keys, value).value, key) == Member(v, key)
  {
    if v.Arr? {
      var j := IndexBelow(key, |v.items|);
      var i := IndexBelow(keys[0], |v.items|);
      if j.Some? && i.Some? {
        assert j.value != i.value;
      }
    }
  }

  /** A set into `{}` creates every intermediate object. */
  lemma {:induction false} SetIntoEmpty(keys: seq<string>, value: JsValue)
    requires keys != []
    ensures SetAt(Obj(map[]), keys, value) == Some(Nested(keys, value))
  {
    if |keys| > 1 {
      SetIntoEmpty(keys[1..], value);
    }
  }

  /** A missing intermediate key gets `{}`, filled along the rest of the
      path; the object's other members stay. */
  lemma CreatesIntermediates(m: map<string, JsValue>, keys: seq<string>, value: JsValue)
    requires |keys| >= 2 && keys[0] !in m
    ensures SetAt(Obj(m), keys, value) == Some(Obj(m[keys[0] := Nested(keys[1..], value)]))
  {
    SetIntoEmpty(keys[1..], value);
  }

  /** A path that reads something other than `undefined` can be set. */
  lemma {:induction false} SetWhereGetFinds(v: JsValue, keys: seq<string>, value: JsValue)
    requires keys != [] && GetAt(v, keys) != Undefined
    ensures SetAt(v, keys, value).Some?
    decreases keys
  {
    if |keys| > 1 {
      match v
      case Obj(m) =>
        SetWhereGetFinds(m[keys[0]], keys[1..], value);
      case Arr(items) =>
        SetWhereGetFinds(items[IndexBelow(keys[0], |items|).value], keys[1..], value);
    }
  }

  /** The data of the `state:changed` event. */
  function ChangeRecord(path: string, value: JsValue, oldValue: JsValue): JsValue {
    Obj(map["path" := Str(path), "value" := value, "oldValue" := oldValue])
  }

  class Store {
    var state: JsValue
    const events: StateEvents.Registry
    const stringify: JsValue -> Option<string>

    constructor(events: StateEvents.Registry, stringify: JsValue -> Option<string>)
      ensures state == InitialState
      ensures this.events == events && this.stringify == stringify
    {
      state := InitialState;
      this.events := events;
      this.stringify := stringify;
    }

    /** The value `get(path)` returns. */
    function ValueAt(path: string): JsValue
      reads this
    {
      GetAt(state, Keys(path))
    }

    /** `get(path)`. */
    method Get(path: string) returns (r: JsValue)
      ensures r == GetAt(state, Keys(path))
    {
      r := GetValueAtPath(state, path);
    }

    /** The state `update(path, value)` leaves behind: the same state when
        the values serialise alike or the set throws, the set state otherwise. */
    function UpdatedState(path: string, value: JsValue): JsValue
      reads this
    {
      if stringify(ValueAt(path)) == stringify(value) then state
      else
        match SetAt(state, Keys(path), value)
        case None => state
        case Some(updated) => updated
    }

    /** The deliveries `update(path, value)` makes, in order: none unless the
        value is set; then `path:changed` and `state:changed`. */
    function UpdateDeliveries(path: string, value: JsValue): seq<StateEvents.Delivery>
      reads this, events`listeners
    {
      if stringify(ValueAt(path)) == stringify(value) || SetAt(state, Keys(path), value).None? then []
      else
        StateEvents.Deliveries(events.CallbacksOf(path + ":changed"), path + ":changed", value)
        + StateEvents.Deliveries(events.CallbacksOf("state:changed"), "state:changed",
                                 ChangeRecord(path, value, ValueAt(path)))
    }

    /** `update(path, value)`: nothing happens when the old and new values
        serialise alike; otherwise the value is set and `path:changed`, then
        `state:changed`, are emitted. A set that throws changes nothing. */
    method Update(path: string, value: JsValue) returns (ok: bool)
      modifies this`state, events`delivered
      ensures var oldValue := GetAt(old(state), Keys(path));
        stringify(oldValue) == stringify(value) ==>
          ok && state == old(state) && events.delivered == old(events.delivered)
      ensures var oldValue := GetAt(old(state), Keys(path));
        stringify(oldValue) != stringify(value) && SetAt(old(state), Keys(path), value).None? ==>
          !ok && state == old(state) && events.delivered == old(events.delivered)
      ensures var oldValue := GetAt(old(state), Keys(path));
        stringify(oldValue) != stringify(value) && SetAt(old(state), Keys(path), value).Some? ==>
          ok && state == SetAt(old(state), Keys(path), value).value
          && events.delivered == old(events.delivered)
             + StateEvents.Deliveries(events.CallbacksOf(path + ":changed"), path + ":changed", value)
             + StateEvents.Deliveries(events.CallbacksOf("state:changed"), "state:changed",
                                      ChangeRecord(path, value, oldValue))
      ensures ok ==> stringify(ValueAt(path)) == stringify(value)
      ensures ok && stringify(GetAt(old(state), Keys(path))) != stringify(value) ==> ValueAt(path) == value
      ensures old(events.delivered) <= events.delivered
      ensures state == old(UpdatedState(path, value))
      ensures events.delivered == old(events.delivered) + old(UpdateDeliveries(path, value))
    {
      ghost var newState, news := UpdatedState(path, value), UpdateDeliveries(path, value);
      var oldValue := Get(path);
      if stringify(oldValue) != stringify(value) {
        var updated := SetAt(state, Split(path, '.'), value);
        if updated.None? {
          assert newState == state && news == [];
          return false;
        }
        ghost var before := events.delivered;
        ghost var changed := StateEvents.Deliveries(events.CallbacksOf(path + ":changed"), path + ":changed", value);
        ghost var stateChanged := StateEvents.Deliveries(events.CallbacksOf("state:changed"), "state:changed",
                                                         ChangeRecord(path, value, oldValue));
        assert newState == updated.value && news == changed + stateChanged;
        state := updated.value;
        events.Emit(path + ":changed", value);
        events.Emit("state:changed", ChangeRecord(path, value, oldValue));
        ConcatAssoc(before, changed, stateChanged);
      } else {
        assert newState == state && news == [];
      }
      return true;
    }
  }

  /** The class itself, holding the static `instance`. */
  class AppStateClass {
    var instance: Store?

    constructor()
      ensures instance == null
    {
      instance := null;
    }

    /** `new AppState()`: throws once an instance exists. */
    method New(events: StateEvents.Registry, stringify: JsValue -> Option<string>) returns (r: Option<Store>)
      ensures instance != null ==> r.None?
      ensures instance == null ==> r.Some? && fresh(r.value) && r.value.state == InitialState
    {
      if instance != null {
        return None;
      }
      var s := new Store(events, stringify);
      return Some(s);
    }

    /** `getInstance()`: creates the instance on the first call and returns
        that same instance on every call. */
    method GetInstance(events: StateEvents.Registry, stringify: JsValue -> Option<string>) returns (s: Store)
      modifies this`instance
      ensures old(instance) != null ==> s == old(instance)
      ensures old(instance) == null ==> fresh(s) && s.state == InitialState
      ensures instance == s
    {
      if instance == null {
        var created := new Store(events, stringify);
        instance := created;
      }
      s := instance;
    }
  }

  /** Two `getInstance` calls give the same store, and a later `new
      AppState()` throws. */
  method SingletonScenario(events: StateEvents.Registry, stringify: JsValue -> Option<string>)
    returns (same: bool, secondThrows: bool)
    ensures same && secondThrows
  {
    var cls := new AppStateClass();
    var a := cls.GetInstance(events, stringify);
    var b := cls.GetInstance(events, stringify);
    same := a == b;
    var c := cls.New(events, stringify);
    secondThrows := c.None?;
  }
}
