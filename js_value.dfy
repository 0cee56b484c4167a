/** The JavaScript values the front-end state holds: primitives, arrays and
    plain objects (their own properties; prototype members are not part of
    the model). Numbers are integers. */
module JsValues {
  import opened Text

  datatype JsValue =
    | Undefined
    | Null
    | Bool(b: bool)
    | Num(n: int)
    | Str(s: string)
    | Arr(items: seq<JsValue>)
    | Obj(fields: map<string, JsValue>)

  /** JavaScript truthiness (`NaN` is not a value of the model). */
  predicate Truthy(v: JsValue) {
    match v
    case Undefined => false
    case Null => false
    case Bool(b) => b
    case Num(n) => n != 0
    case Str(s) => s != ""
    case Arr(_) => true
    case Obj(_) => true
  }

  /** `typeof v === "object"` and `v !== null`. */
  predicate IsObject(v: JsValue) {
    v.Arr? || v.Obj?
  }

  /** The index below `len` whose decimal form is `key`, if any: the
      canonical array indices. */
  function IndexBelow(key: string, len: nat): (r: Option<nat>)
    ensures r.Some? ==> r.value < len && NatToString(r.value) == key
    ensures r.None? ==> forall n :: 0 <= n < len ==> NatToString(n) != key
  {
    if len == 0 then None
    else if NatToString(len - 1) == key then Some(len - 1)
    else IndexBelow(key, len - 1)
  }

  /** `current[key]` for an object `current`: the own property, the array
      element at a canonical index, and `undefined` otherwise (an array's
      `length` is not modelled). */
  function Member(current: JsValue, key: string): JsValue
    requires IsObject(current)
  {
    match current
    case Obj(m) => if key in m then m[key] else Undefined
    case Arr(items) =>
      var i := IndexBelow(key, |items|);
      if i.Some? then items[i.value] else Undefined
  }
}
