/**
 * Values shared by every part of the model: an optional value, the JSON
 * values that travel in request and response bodies, and the JavaScript
 * truthiness rules the handlers use to test them.
 */
module Values {

  datatype Option<+T> = None | Some(value: T) {
    /** The value, or `d` when absent (JavaScript's `x ?? d` on an optional field). */
    function GetOr(d: T): (r: T)
      ensures Some? ==> r == value
      ensures None? ==> r == d
    {
      match this
      case Some(v) => v
      case None => d
    }
  }

  /**
   * A JSON value. Numbers are integers in this model: the core only ever
   * stores integer priorities, counts, sizes and millisecond times.
   */
  datatype Json =
    | JNull
    | JBool(b: bool)
    | JNum(n: int)
    | JStr(s: string)
    | JArr(items: seq<Json>)
    | JObj(fields: map<string, Json>)

  /** JavaScript truthiness of a JSON value: `null`, `false`, `0` and `""` are falsy. */
  predicate Truthy(j: Json)
  {
    match j
    case JNull => false
    case JBool(b) => b
    case JNum(n) => n != 0
    case JStr(s) => s != ""
    case JArr(_) => true
    case JObj(_) => true
  }

  /** Truthiness of a possibly `undefined` value; `undefined` is falsy. */
  predicate Present(o: Option<Json>)
  {
    o.Some? && Truthy(o.value)
  }

  /** `typeof v === 'object'`: true for objects, arrays and `null`. */
  predicate IsObjectType(j: Json)
  {
    j.JNull? || j.JArr? || j.JObj?
  }

  /**
   * Property access `j.key`: the value when `j` is an object that has the
   * key, `undefined` otherwise (a property of a string, number, boolean or
   * array that the JSON does not carry reads as `undefined`).
   */
  function Field(j: Json, key: string): (r: Option<Json>)
    ensures r.Some? <==> j.JObj? && key in j.fields
    ensures r.Some? ==> r.value == j.fields[key]
  {
    if j.JObj? && key in j.fields then Some(j.fields[key]) else None
  }

  /** Optional chaining `o?.key` on a possibly `undefined` or `null` value. */
  function OptField(o: Option<Json>, key: string): (r: Option<Json>)
    ensures r.Some? <==> o.Some? && o.value.JObj? && key in o.value.fields
    ensures r.Some? ==> r.value == o.value.fields[key]
  {
    if o.Some? then Field(o.value, key) else None
  }
}
