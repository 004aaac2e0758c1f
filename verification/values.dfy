/** The Python values a caller hands to the library — keyword arguments,
    attribute values — restricted to what `json.dumps` can encode. */
module Values {
  import opened Wrappers
  import opened Errors
  import opened OrderedMaps

  datatype Json =
    | JNull
    | JBool(b: bool)
    | JInt(i: int)
    | JFloat(r: real)
    | JString(s: string)
    | JArray(items: seq<Json>)
    | JObject(members: OMap<string, Json>)

  /** File contents and encoded documents. */
  type Bytes = seq<bv8>

  /** Python truthiness: `None`, `False`, zero, and empty strings, lists and dicts are false. */
  predicate Truthy(v: Json) {
    match v
    case JNull => false
    case JBool(b) => b
    case JInt(i) => i != 0
    case JFloat(r) => r != 0.0
    case JString(s) => s != ""
    case JArray(items) => items != []
    case JObject(members) => members != []
  }

  /** Lists and dicts cannot be dictionary keys. */
  predicate Hashable(v: Json) {
    !v.JArray? && !v.JObject?
  }

  /** The keyword arguments of one call; their order never matters here. */
  type Kwargs = map<string, Json>

  /** `kwargs.get(name, default)` */
  function KwGet(kw: Kwargs, name: string, default: Json): Json {
    if name in kw then kw[name] else default
  }

  /** An attribute the constructor sets only when the keyword was given. */
  function KwOpt(kw: Kwargs, name: string): Option<Json> {
    if name in kw then Some(kw[name]) else None
  }

  /** `table.get(v, default)` for a table of string constants; a list or
      dict as key raises `TypeError`. */
  function Lookup(table: OMap<string, string>, v: Json, default: Json): Result<Json, Error> {
    if !Hashable(v) then Failure(Unhashable)
    else if v.JString? && v.s in Keys(table) then Success(JString(Get(table, v.s).value))
    else Success(default)
  }

  /** 2**1024 - 2**970: the least int whose nearest double, rounding half
      to even, is 2**1024, past the largest finite double. */
  const FloatOverflowBound: int := 0xffff_ffff_ffff_fc00_0000_0000_0000_0000_0000_0000_0000_0000_0000_0000_0000_0000_0000_0000_0000_0000_0000_0000_0000_0000_0000_0000_0000_0000_0000_0000_0000_0000_0000_0000_0000_0000_0000_0000_0000_0000_0000_0000_0000_0000_0000_0000_0000_0000_0000_0000_0000_0000_0000_0000_0000_0000_0000_0000_0000_0000_0000_0000_0000_0000

  /** An int `float()` refuses with `OverflowError`. */
  predicate TooLargeForFloat(v: Json) {
    v.JInt? && !(-FloatOverflowBound < v.i < FloatOverflowBound)
  }

  /** `float(v)`: `OverflowError` for an int beyond the double range,
      `ValueError` or `TypeError` for what it cannot convert. How a string
      is parsed is left to `parseText`. */
  function ToFloat(v: Json, parseText: string -> Option<real>): (r: Result<real, Error>)
    ensures r == Failure(FloatOverflow) <==> TooLargeForFloat(v)
    ensures r.Failure? ==> r.error == NotANumber || r.error == FloatOverflow
    ensures v.JInt? && !TooLargeForFloat(v) ==> r == Success(v.i as real)
    ensures v.JFloat? ==> r == Success(v.r)
  {
    match v
    case JInt(i) => if TooLargeForFloat(v) then Failure(FloatOverflow) else Success(i as real)
    case JFloat(x) => Success(x)
    case JBool(b) => Success(if b then 1.0 else 0.0)
    case JString(s) => (match parseText(s) case Some(x) => Success(x) case None => Failure(NotANumber))
    case _ => Failure(NotANumber)
  }

  /** The keys of a JSON object, in order; empty for anything else. */
  function ObjectKeys(v: Json): seq<string> {
    if v.JObject? then Keys(v.members) else []
  }

  /** `obj[k]` of a JSON object. */
  function Member(v: Json, k: string): Option<Json> {
    if v.JObject? then Get(v.members, k) else None
  }

  /** The arguments a lookup table recognises. */
  function KeysAsJson(table: OMap<string, string>): set<Json> {
    set k | k in Keys(table) :: JString(k)
  }

  /** The member an attribute contributes to `__dict__`: none when the
      attribute was never set. */
  function OptMember(name: string, v: Option<Json>): OMap<string, Json> {
    if v.Some? then [(name, v.value)] else []
  }
}
