/**
 * The JSON values that cross the wire between the sync client and the
 * writer, and the JavaScript tests the writer's validators apply to their
 * fields.
 */
module Json {
  import opened Common

  /** A value as `JSON.parse` yields it; numbers are taken as exact reals. */
  datatype Json = JNull | JBool(b: bool) | JNum(n: real) | JStr(s: string) | JArr(elems: seq<Json>) | JObj(fields: map<string, Json>)

  /**
   * `v.key`: the field of an object, `undefined` (here `None`) when it is
   * absent or `v` is any other non-null value, and a TypeError on `null`.
   */
  function Get(v: Json, key: string): (r: Result<Option<Json>, string>)
    ensures r.Failure? <==> v.JNull?
    ensures v.JObj? ==> r == Success(if key in v.fields then Some(v.fields[key]) else None)
  {
    match v
    case JNull => Failure("TypeError: Cannot read properties of null")
    case JObj(fields) => Success(if key in fields then Some(fields[key]) else None)
    case _ => Success(None)
  }

  /** `!x`: `undefined`, `null`, `false`, `0` and `""` are falsy. */
  predicate Falsy(x: Option<Json>) {
    x.None? || x.value == JNull || x.value == JBool(false) || x.value == JNum(0.0) || x.value == JStr("")
  }

  /** `typeof x`. */
  function TypeOf(x: Option<Json>): string {
    if x.None? then "undefined"
    else match x.value
      case JBool(_) => "boolean"
      case JNum(_) => "number"
      case JStr(_) => "string"
      case _ => "object"
  }

  /** `!x || typeof x !== 'string'` rejects `x`. */
  predicate NotAString(x: Option<Json>) {
    Falsy(x) || TypeOf(x) != "string"
  }

  /** `typeof x !== 'number' || x < lo || x > hi` rejects `x`. */
  predicate NotANumberIn(x: Option<Json>, lo: real, hi: real) {
    TypeOf(x) != "number" || x.value.n < lo || x.value.n > hi
  }

  /** `typeof x !== 'number' || x < lo` rejects `x`. */
  predicate NotANumberFrom(x: Option<Json>, lo: real) {
    TypeOf(x) != "number" || x.value.n < lo
  }

  /** `!x || !Array.isArray(x)` rejects `x`. */
  predicate NotAnArray(x: Option<Json>) {
    Falsy(x) || !(x.Some? && x.value.JArr?)
  }

  /** What the JavaScript tests accept, said plainly: a non-empty string, a number in range, an array. */
  lemma AcceptedValues(x: Option<Json>, lo: real, hi: real)
    ensures !NotAString(x) <==> exists s :: s != "" && x == Some(JStr(s))
    ensures !NotANumberIn(x, lo, hi) <==> x.Some? && x.value.JNum? && lo <= x.value.n <= hi
    ensures !NotANumberFrom(x, lo) <==> x.Some? && x.value.JNum? && lo <= x.value.n
    ensures !NotAnArray(x) <==> x.Some? && x.value.JArr?
  {
    if x.Some? && x.value.JStr? && x.value.s != "" {
      assert x == Some(JStr(x.value.s));
    }
  }
}
