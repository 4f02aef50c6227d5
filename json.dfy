/**
 * The Python values json.loads produces, and the handful of Python
 * operations the client applies to them: dict.get, subscripting,
 * iteration and str().
 */
module Json {
  import opened Errors
  import Text

  /** A decoded JSON value (JSON floats are not modelled). */
  datatype Json =
    | JNull
    | JBool(b: bool)
    | JInt(i: int)
    | JStr(s: string)
    | JArr(items: seq<Json>)
    | JObj(fields: map<string, Json>)

  const EmptyDict := JObj(map[])
  const EmptyList := JArr([])

  /** d.get(key, default): only a dict has a get method; anything else raises AttributeError. */
  function Get(d: Json, key: string, default: Json): Result<Json>
  {
    match d
    case JObj(m) => Ok(if key in m then m[key] else default)
    case _ => Err(Uncaught("AttributeError"))
  }

  /**
   * The elements `for i in j` visits, for a loop whose body needs each element
   * to be a dict. Iterating a dict or a string yields strings, which every such
   * body rejects with TypeError, so only empty ones get through; None, numbers
   * and booleans are not iterable at all.
   */
  function Items(j: Json): Result<seq<Json>>
  {
    match j
    case JArr(xs) => Ok(xs)
    case JObj(m) => if m == map[] then Ok([]) else Err(Uncaught("TypeError"))
    case JStr(s) => if s == "" then Ok([]) else Err(Uncaught("TypeError"))
    case _ => Err(Uncaught("TypeError"))
  }

  /** `j.get(outer, {}).get(inner, [])`, iterated: the listing shape every response uses. */
  function ListAt(j: Json, outer: string, inner: string): (r: Result<seq<Json>>)
    ensures j.JObj? && outer !in j.fields ==> r == Ok([])
    ensures j.JObj? && outer in j.fields && j.fields[outer].JObj? && inner !in j.fields[outer].fields ==> r == Ok([])
    ensures (j.JObj? && outer in j.fields && j.fields[outer].JObj? && inner in j.fields[outer].fields
             && j.fields[outer].fields[inner].JArr?) ==> r == Ok(j.fields[outer].fields[inner].items)
    ensures !j.JObj? ==> r == Err(Uncaught("AttributeError"))
  {
    var d :- Get(j, outer, EmptyDict);
    var x :- Get(d, inner, EmptyList);
    Items(x)
  }

  /** A key hashes unless it is a list or a dict. */
  predicate Hashable(j: Json)
  {
    !j.JArr? && !j.JObj?
  }

  /**
   * str() of a decoded value. Lists and dicts print through Python's repr,
   * which `repr` stands for.
   */
  function Str(repr: Json -> string, j: Json): string
  {
    match j
    case JNull => "None"
    case JBool(b) => if b then "True" else "False"
    case JInt(i) => Text.Decimal(i)
    case JStr(s) => s
    case _ => repr(j)
  }
}
