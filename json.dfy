/** JSON values as the search engine sends and receives them, with the
    Option type and Python's truthiness test used on them. */
module Json {

  datatype Option<+T> = None | Some(value: T)

  datatype Json =
    | Null
    | Boolean(b: bool)
    | Num(n: real)
    | Str(s: string)
    | Arr(items: seq<Json>)
    | Obj(fields: map<string, Json>)

  /** Python's `dict.get(key)`: None when the key is absent or the object is not a dict. */
  function Get(j: Json, key: string): (r: Option<Json>)
    ensures r.Some? <==> j.Obj? && key in j.fields
    ensures r.Some? ==> r.value == j.fields[key]
  {
    if j.Obj? && key in j.fields then Some(j.fields[key]) else None
  }

  /** Python's `bool(value)` on a decoded JSON value: null, false, 0, "", [] and {} are false. */
  predicate Truthy(j: Json)
  {
    match j
    case Null => false
    case Boolean(b) => b
    case Num(n) => n != 0.0
    case Str(s) => s != ""
    case Arr(items) => items != []
    case Obj(fields) => fields != map[]
  }

  /** `str.startswith(prefix)`. */
  predicate StartsWith(s: string, prefix: string)
  {
    |prefix| <= |s| && s[..|prefix|] == prefix
  }
}
