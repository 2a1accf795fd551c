/**
 * JSON values as the Python code sees them after `json.loads`: `None`,
 * `bool`, numbers (including the `NaN`/`Infinity` literals that Python's
 * decoder accepts), `str`, `list` and `dict`.
 */
module JsonValue {
  import opened Wrappers
  import opened Text

  datatype Json =
    | JNull
    | JBool(b: bool)
    | JNum(r: real)
    | JNaN
    | JInf(positive: bool)
    | JStr(s: string)
    | JArr(items: seq<Json>)
    | JObj(fields: map<string, Json>)

  /** Python truthiness of a decoded JSON value. */
  predicate Truthy(j: Json) {
    match j
    case JNull => false
    case JBool(b) => b
    case JNum(r) => r != 0.0
    case JNaN => true
    case JInf(_) => true
    case JStr(s) => s != ""
    case JArr(items) => items != []
    case JObj(fields) => fields != map[]
  }

  /** `d.get(k)`: the value under `k`, or `None` when the key is absent. */
  function Get(m: map<string, Json>, k: string): (r: Json)
    ensures k !in m ==> r == JNull
    ensures k in m ==> r == m[k]
  {
    if k in m then m[k] else JNull
  }

  /** `d.get(k, default)` */
  function GetOrDefault(m: map<string, Json>, k: string, default: Json): (r: Json)
    ensures k !in m ==> r == default
    ensures k in m ==> r == m[k]
  {
    if k in m then m[k] else default
  }

  /** `a or b` on JSON values. */
  function Or(a: Json, b: Json): (r: Json)
    ensures Truthy(a) ==> r == a
    ensures !Truthy(a) ==> r == b
  {
    if Truthy(a) then a else b
  }

  /** The JSON text helpers the code calls but that this model does not
      define: `json.loads`, `json.dumps` in its several configurations and
      `rfc8785.dump`. They are parameters of the model. */
  datatype JsonCodec = JsonCodec(
    /** `json.loads(raw.decode("utf-8"))`; `None` when either step raises. */
    loads: seq<byte> -> Option<Json>,
    /** `json.loads(s)` of a `str`; `None` when it raises. */
    loadsText: string -> Option<Json>,
    /** `json.dumps(v, sort_keys=True, separators=(",", ":"), ensure_ascii=False).encode("utf-8")` */
    sortedMinified: Json -> seq<byte>,
    /** `rfc8785.dump(v)` as bytes; `None` when the library is missing or raises. */
    jcs: Json -> Option<seq<byte>>,
    /** the compact header encoding a JWS library applies to a protected header */
    compact: Json -> seq<byte>,
    /** `json.dumps(v)` with default separators */
    text: Json -> string,
    /** `json.dumps(v, indent=2)` */
    pretty: Json -> string,
    /** `str(v)` of a number */
    numberText: Json -> string
  )
}
