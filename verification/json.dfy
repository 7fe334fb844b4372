/**
 * Parsed JSON values and the few JavaScript operations the build applies to them:
 * property access, truthiness, `||`, `Object.keys(v).length` and `String(v)`.
 */
module Json {
  import opened Wrappers

  /** A value produced by `JSON.parse`. Numbers are modelled as integers. */
  datatype Json =
    | JNull
    | JBool(b: bool)
    | JNum(n: int)
    | JStr(s: string)
    | JArr(items: seq<Json>)
    | JObj(fields: map<string, Json>)

  /**
   * `v.key` on a value that is not null: an own property of an object, and
   * `undefined` (None) for every other value.
   */
  function Field(v: Json, key: string): Option<Json>
  {
    if v.JObj? && key in v.fields then Some(v.fields[key]) else None
  }

  /** JavaScript truthiness; `undefined` is None. */
  predicate Truthy(v: Option<Json>)
  {
    match v
    case None => false
    case Some(JNull) => false
    case Some(JBool(b)) => b
    case Some(JNum(n)) => n != 0
    case Some(JStr(s)) => s != ""
    case Some(_) => true
  }

  /** JavaScript's `a || b`. */
  function OrElse(a: Option<Json>, b: Option<Json>): Option<Json>
  {
    if Truthy(a) then a else b
  }

  /** `Object.keys(v).length`; None where `Object.keys` throws a TypeError (v is null). */
  function KeyCount(v: Json): Option<nat>
  {
    match v
    case JNull => None
    case JBool(_) => Some(0)
    case JNum(_) => Some(0)
    case JStr(s) => Some(|s|)
    case JArr(items) => Some(|items|)
    case JObj(fields) => Some(|fields|)
  }

  function DigitChar(d: nat): char
    requires d < 10
  {
    ('0' as int + d) as char
  }

  /** Decimal notation of a natural number, most significant digit first. */
  function NatToString(n: nat): string
    decreases n
  {
    if n < 10 then [DigitChar(n)] else NatToString(n / 10) + [DigitChar(n % 10)]
  }

  /** `String(n)` for an integer `n`. */
  function IntToString(n: int): string
  {
    if n < 0 then "-" + NatToString(-n) else NatToString(n)
  }

  /** `String(v)`, which is also what a template literal `${v}` produces. */
  function ToJsString(v: Option<Json>): string
  {
    match v
    case None => "undefined"
    case Some(j) => JsonToString(j)
  }

  function JsonToString(j: Json): string
    decreases j, 1
  {
    match j
    case JNull => "null"
    case JBool(b) => if b then "true" else "false"
    case JNum(n) => IntToString(n)
    case JStr(s) => s
    case JArr(items) => JoinElements(items)
    case JObj(_) => "[object Object]"
  }

  /** `items.join(",")`: a null element contributes the empty string. */
  function JoinElements(items: seq<Json>): string
    decreases items, 0
  {
    if items == [] then ""
    else
      var first := if items[0] == JNull then "" else JsonToString(items[0]);
      if |items| == 1 then first else first + "," + JoinElements(items[1..])
  }
}
