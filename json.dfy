/**
 * The values `json.load` produces, typed as loosely as the asset-sync script
 * treats them: it inspects them with `isinstance` checks and `or` fall-backs.
 */
module PyJson {
  import opened Py

  datatype Json =
    | Null
    | Bool(b: bool)
    | Int(i: int)
    | Str(s: string)
    | List(items: seq<Json>)
    | Object(fields: seq<(string, Json)>)   // in insertion order; `json.load` never repeats a key

  /** Python truthiness: `None`, `False`, `0`, `""`, `[]` and `{}` are false. */
  predicate Truthy(v: Json) {
    match v
    case Null => false
    case Bool(b) => b
    case Int(i) => i != 0
    case Str(s) => s != ""
    case List(xs) => xs != []
    case Object(fs) => fs != []
  }

  /** `a or b` */
  function Or(a: Json, b: Json): Json {
    if Truthy(a) then a else b
  }

  function Lookup(fields: seq<(string, Json)>, key: string): Option<Json> {
    if fields == [] then None
    else if fields[0].0 == key then Some(fields[0].1)
    else Lookup(fields[1..], key)
  }

  /** `o.get(key, dflt)` */
  function GetOr(o: Json, key: string, dflt: Json): Json
    requires o.Object?
  {
    match Lookup(o.fields, key)
    case Some(v) => v
    case None => dflt
  }

  /** `o.get(key)`: a missing key reads as `None`. */
  function Get(o: Json, key: string): Json
    requires o.Object?
  {
    GetOr(o, key, Null)
  }

  /** `list(o.values())` */
  function Values(fields: seq<(string, Json)>): seq<Json> {
    seq(|fields|, i requires 0 <= i < |fields| => fields[i].1)
  }

  /** `list(o)`: iterating a dict yields its keys. */
  function KeysAsStrings(fields: seq<(string, Json)>): seq<Json> {
    seq(|fields|, i requires 0 <= i < |fields| => Str(fields[i].0))
  }

  /** `list(s)`: iterating a string yields its one-character strings. */
  function Chars(s: string): seq<Json> {
    seq(|s|, i requires 0 <= i < |s| => Str([s[i]]))
  }
}
