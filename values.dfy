/** The JSON-like values the Python server stores: solution dictionaries
    from the providers, and the request bodies of the HTTP routes. */
module Values {
  import opened Text

  /** A value inside a solution dictionary. Strings and booleans are told
      apart; any other JSON value is kept as its serialised text. */
  datatype Value = Str(s: string) | Bool(b: bool) | OtherJson(text: string)

  /** A solution as the providers return it: a dictionary from field names. */
  type Solution = map<string, Value>

  /** Python's `d.get(key, default)`. */
  function Get<V>(d: map<string, V>, key: string, default: V): (r: V)
    ensures key in d ==> r == d[key]
    ensures key !in d ==> r == default
  {
    if key in d then d[key] else default
  }

  /** Python's truthiness of an optional dictionary: present and non-empty. */
  predicate TruthySolution(solution: Option<Solution>) {
    solution.Some? && solution.value != map[]
  }
}
