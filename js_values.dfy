/**
 * The JavaScript values the services receive in request bodies and JSON
 * columns, and the few built-in operations they apply to them: the object
 * tests, truthiness, property reads with optional chaining, `Object.entries`
 * and string conversion inside a template literal.
 *
 * `undefined` is `None`; every other value is `Some(j)` for a `Json` `j`.
 */
module JsValues {
  import opened Wrappers
  import opened ObjectEntries

  datatype Json =
    | JNull
    | JBool(b: bool)
    | JNum(n: int)
    | JStr(s: string)
    | JArr(items: seq<Json>)
    | JObj(fields: seq<(string, Json)>)

  /** A JavaScript value: `None` is `undefined`. */
  type Value = Option<Json>

  /** remeda's `isObjectType`: `typeof v === "object"` and not null, so arrays pass too. */
  predicate IsObjectType(v: Value)
  {
    v.Some? && (v.value.JObj? || v.value.JArr?)
  }

  /** `Object.isObject`: a plain (non-array) object. */
  predicate IsPlainObject(v: Value)
  {
    v.Some? && v.value.JObj?
  }

  /** `isString` / `Object.isString`. */
  predicate IsString(v: Value)
  {
    v.Some? && v.value.JStr?
  }

  /** JavaScript truthiness, as in `if (v)`. */
  predicate Truthy(v: Value)
  {
    match v
    case None => false
    case Some(JNull) => false
    case Some(JBool(b)) => b
    case Some(JNum(n)) => n != 0
    case Some(JStr(s)) => s != ""
    case Some(_) => true
  }

  /**
   * `v?.[k]` for a named key `k` (never an array index nor `length`): the
   * property of an object, `undefined` for every other value.
   */
  function Prop(v: Value, k: string): (r: Value)
    ensures r.Some? ==> IsPlainObject(v) && k in KeySet(v.value.fields)
    ensures IsPlainObject(v) ==> r == Lookup(v.value.fields, k)
  {
    if v.Some? && v.value.JObj? then Lookup(v.value.fields, k) else None
  }

  /** Decimal digits of a natural number, as `String(n)` writes it. */
  function NatToDecimal(n: nat): (r: string)
    ensures |r| > 0
    ensures forall i :: 0 <= i < |r| ==> '0' <= r[i] <= '9'
    decreases n
  {
    if n < 10 then ["0123456789"[n]]
    else NatToDecimal(n / 10) + ["0123456789"[n % 10]]
  }

  /** `String(n)` for an integral number. */
  function IntToDecimal(n: int): string
  {
    if n < 0 then "-" + NatToDecimal(-n) else NatToDecimal(n)
  }

  /** `Array.prototype.join(",")`. */
  function JoinWithCommas(parts: seq<string>): string
  {
    if parts == [] then ""
    else if |parts| == 1 then parts[0]
    else parts[0] + "," + JoinWithCommas(parts[1..])
  }

  /**
   * `${v}` for a defined value: arrays join their elements with commas
   * (a null element becomes the empty string), plain objects print as
   * `[object Object]`.
   */
  function Render(v: Json): string
    decreases v
  {
    match v
    case JNull => "null"
    case JBool(b) => if b then "true" else "false"
    case JNum(n) => IntToDecimal(n)
    case JStr(s) => s
    case JArr(items) =>
      JoinWithCommas(seq(|items|, i requires 0 <= i < |items| =>
        if items[i].JNull? then "" else Render(items[i])))
    case JObj(_) => "[object Object]"
  }

  /** `${v}` for any value, `undefined` included. */
  function ToJsString(v: Value): string
  {
    if v.None? then "undefined" else Render(v.value)
  }

  /**
   * `Object.entries(v)` for a truthy value: an object's own entries, an
   * array's or a string's positions with their elements or characters, and
   * no entries for numbers and booleans. (The services call it only on truthy
   * values; `undefined` and `null`, where it would throw, give no entries.)
   */
  function Entries(v: Value): (r: seq<(string, Json)>)
    ensures v.Some? && v.value.JObj? ==> r == v.value.fields
    ensures !IsObjectType(v) && !IsString(v) ==> r == []
  {
    match v
    case Some(JObj(fields)) => fields
    case Some(JArr(items)) =>
      seq(|items|, i requires 0 <= i < |items| => (NatToDecimal(i), items[i]))
    case Some(JStr(s)) =>
      seq(|s|, i requires 0 <= i < |s| => (NatToDecimal(i), JStr([s[i]])))
    case _ => []
  }
}
