/** Values shared by every part of the model: an optional value, the dynamic
    JavaScript values that forms and request payloads carry, and JSON. */
module Common {

  datatype Option<+T> = None | Some(value: T)

  /** A JavaScript value as it appears in a form store or a request payload.
      Numbers are integers here: every number in the modelled code is an id,
      a count or a day. `NaN` is what `Number(...)` yields on text that is not
      a number. */
  datatype Value = Undefined | Null | Bool(b: bool) | Num(n: int) | NaN | Str(s: string)

  /** A plain JavaScript object: field name to value. An absent key reads as
      `undefined`; the object spread `{...a, ...b}` is the right-biased union
      `a + b`. */
  type Record = map<string, Value>

  /** `obj[key]`, with `undefined` for a missing key. */
  function Get(r: Record, k: string): (v: Value)
    ensures k !in r ==> v == Undefined
    ensures k in r ==> v == r[k]
  {
    if k in r then r[k] else Undefined
  }

  /** `p` is `{...values, ...extra}`: every key of either, the value of
      `extra` where both have the key, the value of `values` elsewhere. */
  predicate Overrides(values: Record, extra: Record, p: Record) {
    && p.Keys == values.Keys + extra.Keys
    && (forall k :: k in extra ==> p[k] == extra[k])
    && (forall k :: k in values && k !in extra ==> p[k] == values[k])
  }

  /** The object spread `{...a, ...b}`. */
  function Spread(a: Record, b: Record): (r: Record)
    ensures Overrides(a, b, r)
  {
    a + b
  }

  /** Reading a field of a spread object. */
  lemma SpreadGet(a: Record, b: Record, k: string)
    ensures Get(Spread(a, b), k) == (if k in b then b[k] else Get(a, k))
  {
  }

  /** JavaScript truthiness. */
  predicate Truthy(v: Value) {
    match v
    case Undefined => false
    case Null => false
    case Bool(b) => b
    case Num(n) => n != 0
    case NaN => false
    case Str(s) => s != ""
  }

  /** `s ?? null` for an optional text column. */
  function TextOrNull(o: Option<string>): (v: Value)
    ensures o.None? <==> v == Null
    ensures o.Some? ==> v == Str(o.value)
  {
    match o
    case None => Null
    case Some(s) => Str(s)
  }

  /** `n ?? null` for an optional numeric column. */
  function NumberOrNull(o: Option<int>): (v: Value)
    ensures o.None? <==> v == Null
    ensures o.Some? ==> v == Num(o.value)
  {
    match o
    case None => Null
    case Some(n) => Num(n)
  }

  /** The JSON values a `Json` column holds (the mcp_config blob). */
  datatype Json =
    | JNull
    | JBool(b: bool)
    | JNumber(n: int)
    | JString(s: string)
    | JArray(items: seq<Json>)
    | JObject(members: seq<(string, Json)>)

  /** JavaScript truthiness of a parsed JSON value (objects and arrays are
      always truthy). */
  predicate JsonTruthy(j: Json) {
    match j
    case JNull => false
    case JBool(b) => b
    case JNumber(n) => n != 0
    case JString(s) => s != ""
    case JArray(_) => true
    case JObject(_) => true
  }

  /** How a call into a service the model cannot see ended: with a result, or
      by throwing an error that carries a message. */
  datatype Outcome<+T> = Done(result: T) | Threw(message: string)
}
