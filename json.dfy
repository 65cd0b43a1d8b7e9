/**
 * Decoded JSON values. Decoding JSON text (JSON.parse, json.loads) is not
 * modelled: every parser in this project takes the decoder as a parameter
 * and sees only its outcome. Numbers are modelled as integers.
 * Objects are maps, since both decoders keep the last of duplicate keys.
 */
module Json {
  import opened Wrappers

  datatype Json =
    | JNull
    | JBool(b: bool)
    | JNum(n: int)
    | JStr(s: string)
    | JArr(items: seq<Json>)
    | JObj(fields: map<string, Json>)

  /** Property access `v.key` / `v.get(key)`: present only on an object that has the key. */
  function Get(v: Json, key: string): (r: Option<Json>)
    ensures r.Some? <==> v.JObj? && key in v.fields
    ensures r.Some? ==> r.value == v.fields[key]
  {
    if v.JObj? && key in v.fields then Some(v.fields[key]) else None
  }

  /** The property is present and is the string literal `lit`. */
  predicate IsLiteral(v: Json, key: string, lit: string) {
    Get(v, key) == Some(JStr(lit))
  }

  /** The property is present and holds a string. */
  predicate HasString(v: Json, key: string) {
    Get(v, key).Some? && Get(v, key).value.JStr?
  }

  /** The string held by a property, or `default` when it is absent or not a string. */
  function StringOr(v: Json, key: string, default: string): (r: string)
    ensures HasString(v, key) ==> JStr(r) == v.fields[key]
    ensures !HasString(v, key) ==> r == default
  {
    match Get(v, key)
    case Some(JStr(s)) => s
    case _ => default
  }

  /** JavaScript truthiness of a decoded value (arrays and objects are truthy). */
  predicate JsTruthy(v: Json) {
    match v
    case JNull => false
    case JBool(b) => b
    case JNum(n) => n != 0
    case JStr(s) => s != ""
    case _ => true
  }

  /** Python truthiness of a decoded value (empty lists and dicts are falsy). */
  predicate PyTruthy(v: Json) {
    match v
    case JNull => false
    case JBool(b) => b
    case JNum(n) => n != 0
    case JStr(s) => s != ""
    case JArr(items) => items != []
    case JObj(fields) => fields != map[]
  }
}
