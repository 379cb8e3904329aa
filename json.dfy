/** JSON values as Python's `json` module hands them to the extraction scripts,
    and the few dictionary operations the scripts apply to them. */
module Json {

  datatype Option<+T> = None | Some(value: T)

  /** A decoded JSON value. Objects are Python dicts keyed by strings; numbers
      are integers in this model. */
  datatype Json =
    | JNull
    | JBool(b: bool)
    | JNum(n: int)
    | JStr(s: string)
    | JList(items: seq<Json>)
    | JDict(fields: map<string, Json>)

  const EmptyDict: Json := JDict(map[])
  const EmptyList: Json := JList([])

  /** Python's `d.get(k, default)`: a key that is present keeps its value,
      even when that value is null; only a missing key yields `default`.
      Calling `.get` on anything but a dict raises, hence the precondition. */
  function Get(d: Json, k: string, default: Json): Json
    requires d.JDict?
  {
    if k in d.fields then d.fields[k] else default
  }

  /** Python truthiness of a decoded JSON value. */
  predicate Truthy(j: Json) {
    match j
    case JNull => false
    case JBool(b) => b
    case JNum(n) => n != 0
    case JStr(s) => s != ""
    case JList(xs) => xs != []
    case JDict(m) => m != map[]
  }

  /** A value a `for x in v:` loop can walk when every `x` is then used as a
      dict: a list, or an empty dict or string (which yield no elements).
      A non-empty dict or string yields string elements, on which `.get`
      raises; null and numbers are not iterable at all. */
  predicate Iterable(j: Json) {
    j.JList? || j == EmptyDict || j == JStr("")
  }

  /** The elements a `for` loop visits for an `Iterable` value. */
  function Elements(j: Json): seq<Json> {
    if j.JList? then j.items else []
  }

  /** An iterable whose every element is a dict. */
  predicate DictList(j: Json) {
    Iterable(j) && forall x :: x in Elements(j) ==> x.JDict?
  }

  /** For an iterable value, `not v` holds exactly when the loop over it
      visits nothing: this is what lets the scripts use `if not v` after
      `for x in v` to emit a placeholder row. */
  lemma FalsyIffNoElements(j: Json)
    requires Iterable(j)
    ensures !Truthy(j) <==> Elements(j) == []
  {
  }

  /** `d.get(k, {})` on a dict is itself a dict (missing key or dict value). */
  predicate DictOrAbsent(d: Json, k: string)
    requires d.JDict?
  {
    Get(d, k, EmptyDict).JDict?
  }
}
