/** JSON values as Python's json module produces and consumes them. */
module Json {
  import opened Wrappers

  /** Numbers are kept as reals: float rounding and formatting are not modelled.
      An object is a dictionary from keys to values. */
  datatype Json =
    | Null
    | Bool(b: bool)
    | Num(n: real)
    | Str(s: string)
    | Arr(items: seq<Json>)
    | Obj(fields: map<string, Json>)

  /** `v[key]` in Python: None stands for the KeyError (missing key) or the
      TypeError (`v` is not a dictionary) that the lookup raises. */
  function Member(v: Json, key: string): Option<Json> {
    if v.Obj? && key in v.fields then Some(v.fields[key]) else None
  }
}
