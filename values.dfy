/**
 * Values shared by the Gateway client and the REST handlers: an Option type,
 * already-parsed JSON values, and JavaScript's notion of "truthy" for the
 * values the source tests with `!x`, `x || y` and `x ?? y`.
 */
module Values {

  datatype Option<+T> = None | Some(value: T)

  /** A parsed JSON value. Numbers are integers here (see README, "Left out"). */
  datatype Json =
    | JNull
    | JBool(b: bool)
    | JNum(n: int)
    | JStr(s: string)
    | JArr(items: seq<Json>)
    | JObj(fields: map<string, Json>)

  /** JavaScript truthiness of a JSON value: null, false, 0 and "" are falsy. */
  predicate Truthy(v: Json) {
    match v
    case JNull => false
    case JBool(b) => b
    case JNum(n) => n != 0
    case JStr(s) => s != ""
    case JArr(_) => true
    case JObj(_) => true
  }

  /** An optional string field that is truthy: present and not "". */
  predicate NonEmpty(v: Option<string>) {
    v.Some? && v.value != ""
  }

  /** JavaScript `a ?? b` where an absent field is `undefined`. */
  function Coalesce(a: Option<Json>, b: Option<Json>): (r: Option<Json>)
    ensures (a.Some? && a.value != JNull) ==> r == a
    ensures (a.None? || a.value == JNull) ==> r == b
  {
    if a.Some? && a.value != JNull then a else b
  }

  /** The text a template literal `${v}` produces for a nullable string column. */
  function Interpolate(v: Option<string>): (r: string)
    ensures v.Some? ==> r == v.value
    ensures v.None? ==> r == "null"
  {
    match v
    case Some(x) => x
    case None => "null"
  }

  /** `process.env.X || fallback`: an unset or empty variable yields the fallback. */
  function EnvOr(v: Option<string>, fallback: string): (r: string)
    ensures NonEmpty(v) ==> r == v.value
    ensures !NonEmpty(v) ==> r == fallback
  {
    if NonEmpty(v) then v.value else fallback
  }
}
