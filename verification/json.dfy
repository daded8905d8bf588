/**
 * The JSON-shaped values the services store and exchange.  A job record in
 * Cosmos DB, an item of the mock API's dictionary and a request body are all
 * Python dictionaries; they are modelled as `map<string, Json>`.
 */
module Json {
  import opened Wrappers

  /** A JSON value.  Numbers are integers: no stored field of the model is fractional. */
  datatype Json =
    | Null
    | Bool(b: bool)
    | Num(n: int)
    | Str(s: string)
    | Arr(items: seq<Json>)
    | Obj(fields: map<string, Json>)

  /** A Python `dict` with string keys: a job record, a progress object, a page entry. */
  type Record = map<string, Json>

  /** Python `d.get(k, default)`. */
  function Get(d: Record, k: string, default: Json): (v: Json)
    ensures k in d ==> v == d[k]
    ensures k !in d ==> v == default
  {
    if k in d then d[k] else default
  }

  /** Python truthiness: `None`, `False`, `0`, `""`, `[]` and `{}` are false. */
  predicate Truthy(j: Json)
  {
    match j
    case Null => false
    case Bool(b) => b
    case Num(n) => n != 0
    case Str(s) => |s| > 0
    case Arr(items) => |items| > 0
    case Obj(fields) => |fields| > 0
  }

  /** Python `d.get(k) == Str(s)`: the key is present and holds exactly that string. */
  predicate HasStr(d: Record, k: string, s: string)
  {
    k in d && d[k] == Str(s)
  }

  /** `None` as `null`, a string as itself. */
  function OptStr(o: Option<string>): Json
  {
    match o
    case None => Null
    case Some(s) => Str(s)
  }
}
