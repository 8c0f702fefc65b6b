/**
 * Decoded JSON documents as the Manifold client sees them after `response.json()`,
 * and the read-only dictionary operations it applies to them that cannot fail.
 */
module Json {

  datatype Option<+T> = None | Some(value: T)

  /** Python's None, bool, int/float, str, list and dict, as produced by a JSON decoder. */
  datatype Json =
    | Null
    | Bool(b: bool)
    | Number(n: real)
    | Str(s: string)
    | Array(items: seq<Json>)
    | Object(fields: map<string, Json>)

  /** The outcome of decoding a response body: either a JSON value or a JSONDecodeError. */
  datatype Decoded = Undecodable | Parsed(json: Json)

  /** Python's `bool(v)`: None, False, zero and empty containers are false. */
  predicate Truthy(v: Json) {
    match v
    case Null => false
    case Bool(b) => b
    case Number(n) => n != 0.0
    case Str(s) => |s| > 0
    case Array(items) => |items| > 0
    case Object(fields) => |fields| > 0
  }

  /**
   * `key in v`. Only a dict is treated as having keys: membership in a list or a
   * string is not modelled, and every caller fails on a non-dict right afterwards.
   */
  predicate Has(v: Json, key: string) {
    v.Object? && key in v.fields
  }

  /** `d.get(key, default)` on a dict. */
  function Get(fields: map<string, Json>, key: string, default: Json): Json {
    if key in fields then fields[key] else default
  }

  /** `d.get(key, None)` on a dict: a missing key and a present `null` both give None. */
  function Optional(fields: map<string, Json>, key: string): Option<Json> {
    if key in fields && !fields[key].Null? then Some(fields[key]) else None
  }
}
