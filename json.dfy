/**
 * JSON values as the client sees them after `response.json()`, and the few
 * JavaScript operations the commands apply to them: truthiness, property
 * reads, `a || b`, `Object.keys(v).length` and `String(v)`.
 */
module Json {
  import opened Wrappers
  import Text

  /** A parsed JSON value. Objects are maps from property name to value. */
  datatype Json =
    | JNull
    | JBool(b: bool)
    | JNum(r: real)
    | JStr(s: string)
    | JArr(items: seq<Json>)
    | JObj(fields: map<string, Json>)

  /** The object literal `{}`. */
  const EmptyObject: Json := JObj(map[])

  /** JavaScript truthiness of a JSON value (JSON has no NaN). */
  predicate Truthy(v: Json) {
    match v
    case JNull => false
    case JBool(b) => b
    case JNum(r) => r != 0.0
    case JStr(s) => s != ""
    case JArr(_) => true
    case JObj(_) => true
  }

  /** Truthiness of a value that may be `undefined` (None). */
  predicate IsTruthy(v: Option<Json>) {
    v.Some? && Truthy(v.value)
  }

  /**
   * `v?.key`: the property `key` of an object, and `undefined` for every
   * other value (strings, numbers and arrays have no such own property;
   * `null?.key` is `undefined` too).
   */
  function Get(v: Json, key: string): (r: Option<Json>)
    ensures r.Some? <==> v.JObj? && key in v.fields
    ensures r.Some? ==> r.value == v.fields[key]
  {
    match v
    case JObj(fields) => if key in fields then Some(fields[key]) else None
    case _ => None
  }

  /** `v?.key` where `v` itself may be `undefined`. */
  function OptGet(v: Option<Json>, key: string): Option<Json> {
    if v.None? then None else Get(v.value, key)
  }

  /** `a || b` where `a` may be `undefined`. */
  function Or(a: Option<Json>, b: Json): Json {
    if IsTruthy(a) then a.value else b
  }

  /** `Object.keys(v).length` for a non-null value. */
  function KeyCount(v: Json): nat {
    match v
    case JObj(fields) => |fields|
    case JArr(items) => |items|
    case JStr(s) => |s|
    case _ => 0
  }

  /** `Number.MAX_SAFE_INTEGER`: up to it, every integer is a double and prints exactly. */
  const MaxSafeInteger: int := 9007199254740991

  /** An integral number whose digits `String()` prints exactly. */
  predicate IsSafeInteger(r: real) {
    r == r.Floor as real && -MaxSafeInteger <= r.Floor <= MaxSafeInteger
  }

  /**
   * Whether converting `v` to a primitive throws a TypeError, as `String(v)`,
   * a template literal, `Number(v)` and `new Date(v)` all convert it. JSON
   * has no functions, so an object's own `toString` property is never
   * callable and hides the inherited one: no conversion method is left. An
   * array converts through `join`, which converts each element.
   */
  predicate ToPrimitiveThrows(v: Json)
    decreases v
  {
    match v
    case JObj(fields) => "toString" in fields
    case JArr(items) => exists i :: 0 <= i < |items| && ToPrimitiveThrows(items[i])
    case _ => false
  }

  /**
   * `String(v)` as a template literal renders it. None where the text needs
   * floating-point formatting (a number that is not a safe integer: a
   * fraction, or an integer printed in exponent form or with rounded
   * digits) and where the conversion throws.
   */
  function JsString(v: Json): (r: Option<string>)
    ensures v.JStr? ==> r == Some(v.s)
    ensures v.JNum? ==> (r.Some? <==> IsSafeInteger(v.r))
    ensures v.JObj? ==> (r.Some? <==> !ToPrimitiveThrows(v))
    decreases v
  {
    match v
    case JNull => Some("null")
    case JBool(b) => Some(if b then "true" else "false")
    case JNum(r) => if IsSafeInteger(r) then Some(Text.IntToString(r.Floor)) else None
    case JStr(s) => Some(s)
    case JObj(fields) => if "toString" in fields then None else Some("[object Object]")
    case JArr(items) =>
      // Array.prototype.join renders null elements as the empty string.
      JoinWithComma(seq(|items|, i requires 0 <= i < |items| =>
        if items[i].JNull? then Some("") else JsString(items[i])))
  }

  /** The text of a safe non-negative integer is its decimal digits, and reads back as it. */
  lemma SafeIntegerText(n: nat)
    requires n <= MaxSafeInteger
    ensures JsString(JNum(n as real)) == Some(Text.NatToString(n))
    ensures Text.DigitsValue(JsString(JNum(n as real)).value) == n
  {
  }

  function JoinWithComma(parts: seq<Option<string>>): Option<string> {
    if parts == [] then Some("")
    else if |parts| == 1 then parts[0]
    else
      match JoinWithComma(parts[..|parts| - 1])
      case None => None
      case Some(head) =>
        if parts[|parts| - 1].None? then None else Some(head + "," + parts[|parts| - 1].value)
  }
}
