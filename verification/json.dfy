/** Decoded JSON documents, in the shape a JSON decoder hands them to the
    caller: objects become maps from member name to value. */
module JsonValues {
  import opened Wrappers

  /** A decoded JSON value. Numbers are kept as integers: the model never
      inspects a number, it only carries it. */
  datatype Json =
    | JNull
    | JBool(b: bool)
    | JNum(n: int)
    | JStr(s: string)
    | JArr(items: seq<Json>)
    | JObj(fields: map<string, Json>)

  /** Why a string subscript `value[key]` on a decoded value fails: the value
      is an object without that member (a `KeyError`), or it is not an object
      at all, so a string cannot index it (a `TypeError`). */
  datatype LookupError = KeyMissing | NotSubscriptable

  /** True when `v` is an object holding member `key`. */
  predicate HasMember(v: Json, key: string)
  {
    v.JObj? && key in v.fields
  }

  /** The subscript `v[key]` with a string key, as a dynamic language
      evaluates it on a decoded JSON value. */
  function Subscript(v: Json, key: string): (r: Result<Json, LookupError>)
    ensures r.Ok? <==> HasMember(v, key)
    ensures r.Ok? ==> r.value == v.fields[key]
    ensures r.Err? ==> (r.error == KeyMissing <==> v.JObj?)
  {
    match v
    case JObj(fields) =>
      if key in fields then Ok(fields[key]) else Err(KeyMissing)
    case _ => Err(NotSubscriptable)
  }
}
