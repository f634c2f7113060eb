/** JSON values as Python's `json` module decodes them, and the two Python operators the
    integration suite applies to them: `key in value` and `value[key]` for a str `key`.
    JSON numbers are modelled as integers. */
module PyJson {
  import opened Wrappers
  import opened Strings

  datatype Json =
    | JNull
    | JBool(b: bool)
    | JNum(n: int)
    | JStr(s: string)
    | JArr(items: seq<Json>)
    | JObj(fields: map<string, Json>)

  /** The Python exceptions these operators raise. */
  datatype PyError = KeyError(key: string) | TypeError

  /** Python's `key in v`: a key test on a dict, an element test on a list, a substring
      test on a str; None, booleans and numbers are not iterable. */
  function PyIn(key: string, v: Json): (r: Result<bool, PyError>)
    ensures r.Err? <==> v.JNull? || v.JBool? || v.JNum?
    ensures r.Err? ==> r.error == TypeError
    ensures v.JObj? ==> r == Ok(key in v.fields)
    ensures v.JArr? ==> r == Ok(JStr(key) in v.items)
    ensures v.JStr? ==> r == Ok(Contains(v.s, key))
  {
    match v
    case JObj(m) => Ok(key in m)
    case JArr(xs) => Ok(JStr(key) in xs)
    case JStr(s) => Ok(Contains(s, key))
    case _ => Err(TypeError)
  }

  /** Python's `v[key]`: only a dict can be indexed by a str; a missing key raises KeyError. */
  function PyIndex(v: Json, key: string): (r: Result<Json, PyError>)
    ensures r.Ok? <==> v.JObj? && key in v.fields
    ensures r.Ok? ==> r.value == v.fields[key]
    ensures v.JObj? && key !in v.fields ==> r == Err(KeyError(key))
    ensures !v.JObj? ==> r == Err(TypeError)
  {
    match v
    case JObj(m) => if key in m then Ok(m[key]) else Err(KeyError(key))
    case _ => Err(TypeError)
  }
}
