/** JSON values as the request handlers receive them (the result of `JSON.parse`),
    together with the handful of JavaScript operations on them that the quote
    core relies on: truthiness, property reads and decimal rendering of an index. */
module JsonValue {

  datatype Option<+T> = None | Some(value: T)

  /** A parsed JSON value. An object key that is "missing" is absent from the map;
      JSON has no `undefined`, so a present key always carries a value. Numbers are
      kept as exact reals: the core only tests their type, never computes with them. */
  datatype Json =
    | JNull
    | JBool(b: bool)
    | JNum(n: real)
    | JStr(s: string)
    | JArr(items: seq<Json>)
    | JObj(fields: map<string, Json>)

  /** An exception escaping a core function: an `Error` the code throws with its own
      message, or a `TypeError` raised by the JavaScript runtime itself (reading a
      property of `null`, `in` on a primitive, calling a missing `forEach`), whose
      runtime-specific text is not modelled. */
  datatype JsError = Error(message: string) | TypeError

  /** The outcome of a core function that returns a value or throws. */
  datatype Result<+T> = Ok(value: T) | Err(error: JsError)

  /** JavaScript truthiness of a JSON value: `null`, `false`, `0` and `""` are falsy,
      every array and object (even an empty one) is truthy. */
  predicate Truthy(j: Json)
  {
    match j
    case JNull => false
    case JBool(b) => b
    case JNum(n) => n != 0.0
    case JStr(s) => s != ""
    case JArr(_) => true
    case JObj(_) => true
  }

  /** `j.key` for the named keys the core reads: only an object has such an own
      property; on an array or a primitive the read yields `undefined` (None).
      (The core never reads `length` or an index through this function.) */
  function Prop(j: Json, key: string): (r: Option<Json>)
    ensures r.Some? <==> j.JObj? && key in j.fields
    ensures r.Some? ==> r.value == j.fields[key]
  {
    if j.JObj? && key in j.fields then Some(j.fields[key]) else None
  }

  /** `key in obj && obj.key` — the key is present and its value is truthy. */
  predicate TruthyField(m: map<string, Json>, key: string)
  {
    key in m && Truthy(m[key])
  }

  /** `x.key` is a non-empty string: `!x.key || typeof x.key !== 'string'` is false. */
  predicate NonEmptyStringProp(j: Json, key: string)
  {
    var v := Prop(j, key);
    v.Some? && v.value.JStr? && v.value.s != ""
  }

  predicate IsDecimalDigit(c: char)
  {
    '0' <= c <= '9'
  }

  function DigitChar(d: nat): (c: char)
    requires d < 10
    ensures IsDecimalDigit(c)
  {
    ['0', '1', '2', '3', '4', '5', '6', '7', '8', '9'][d]
  }

  /** The decimal rendering of a natural number, as a template literal `${n}` shows it. */
  function NatToString(n: nat): (r: string)
    ensures |r| >= 1
    ensures forall i :: 0 <= i < |r| ==> IsDecimalDigit(r[i])
    decreases n
  {
    if n < 10 then [DigitChar(n)] else NatToString(n / 10) + [DigitChar(n % 10)]
  }
}
