/**
 * Values produced by `json.loads` and Python's truth test on them.
 * Numbers are kept as integers: the bot only tests them for truth and type.
 */
module JsonValue {

  datatype Json =
    | Null
    | Bool(b: bool)
    | Number(n: int)
    | Str(s: string)
    | Array(items: seq<Json>)
    | Object(fields: map<string, Json>)

  /** Python's `bool(v)`: `None`, `False`, `0`, `""`, `[]` and `{}` are false. */
  predicate Truthy(v: Json) {
    match v
    case Null => false
    case Bool(b) => b
    case Number(n) => n != 0
    case Str(s) => s != []
    case Array(items) => items != []
    case Object(fields) => fields != map[]
  }

  /** `d.get(key)` on a dict: the value under `key`, or `None` when it is absent. */
  function Get(v: Json, key: string): (r: Json)
    requires v.Object?
    ensures key !in v.fields ==> r == Null
    ensures key in v.fields ==> r == v.fields[key]
  {
    if key in v.fields then v.fields[key] else Null
  }

  /** The empty dict `{}`. */
  const EmptyObject: Json := Object(map[])
}
