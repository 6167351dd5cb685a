/**
 * Already-parsed JSON values, as the three firmware variants and the Python tools see them after
 * their JSON library has run. Encoding and decoding themselves are not modelled: a payload arrives
 * either as a parsed object or as a parse failure.
 */
module Json {
  import opened Wrappers

  /** A JSON value. Integers and non-integral numbers are kept apart because Python's `json`
      and ArduinoJson distinguish them (cJSON and JavaScript do not). */
  datatype JVal =
    | JNull
    | JBool(b: bool)
    | JInt(i: int)
    | JFloat(x: real)
    | JStr(s: string)
    | JArray(items: seq<JVal>)
    | JObject(fields: map<string, JVal>)

  type JObj = map<string, JVal>

  /** One inbound MQTT payload after JSON decoding. A failed decode may leave a partially
      filled document behind (ArduinoJson does); the other decoders ignore it. */
  datatype Inbound = Parsed(obj: JObj) | Unparseable(partial: JObj)

  /** `obj.get(key)` */
  function Get(obj: JObj, key: string): (r: Option<JVal>)
    ensures r.Some? <==> key in obj
    ensures r.Some? ==> r.value == obj[key]
  {
    if key in obj then Some(obj[key]) else None
  }

  /** `obj.get(key, default)` */
  function GetOr(obj: JObj, key: string, default: JVal): JVal {
    Get(obj, key).GetOr(default)
  }

  /** The value of a JSON number, integral or not (what cJSON's `valuedouble` and a JavaScript
      number hold); `None` for every other kind of value. */
  function AsNumber(v: JVal): (r: Option<real>)
    ensures r.Some? <==> v.JInt? || v.JFloat?
  {
    match v
    case JInt(i) => Some(i as real)
    case JFloat(x) => Some(x)
    case _ => None
  }

  /** Python's truth value of a decoded JSON value (`if not x`). */
  predicate PyTruthy(v: JVal) {
    match v
    case JNull => false
    case JBool(b) => b
    case JInt(i) => i != 0
    case JFloat(x) => x != 0.0
    case JStr(s) => s != ""
    case JArray(items) => |items| > 0
    case JObject(fields) => |fields| > 0
  }

  /** C's `(int)d` on a double: truncation toward zero (values outside `int` are undefined
      behaviour in C and are not modelled). */
  function TruncToInt(x: real): (r: int)
    ensures 0.0 <= x ==> r as real <= x < r as real + 1.0
    ensures x < 0.0 ==> r as real - 1.0 < x <= r as real
  {
    if x >= 0.0 then x.Floor else -((-x).Floor)
  }
}
