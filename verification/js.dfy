/**
 * The JavaScript side of the API: parsed JSON request bodies, query strings,
 * the truthiness rule the route handlers use, and the foreign primitives
 * (validator.isEmail, parseInt, new Date, new RegExp, ObjectId casting) that
 * the model does not define but takes as parameters.
 */
module Js {
  import opened Wrappers

  /** An abstract document identifier (a MongoDB ObjectId). */
  type Id = nat

  /** A JSON value as `express.json()` parses it. Numbers are modelled as integers. */
  datatype Json =
    | Null
    | Bool(b: bool)
    | Num(n: int)
    | Str(s: string)
    | Arr(items: seq<Json>)
    | Obj(fields: map<string, Json>)

  /** A parsed request body; a key that is not in the map is `undefined`. */
  type Body = map<string, Json>

  /** Parsed query-string parameters (`req.query`); a missing key is `undefined`. */
  type Query = map<string, string>

  /**
   * JavaScript truthiness of a possibly undefined value: undefined, null,
   * false, 0 and "" are falsy; every object and array is truthy.
   */
  predicate Truthy(v: Option<Json>) {
    match v
    case None => false
    case Some(Null) => false
    case Some(Bool(b)) => b
    case Some(Num(n)) => n != 0
    case Some(Str(s)) => s != ""
    case Some(Arr(_)) => true
    case Some(Obj(_)) => true
  }

  /** `v.k` for a defined value `v`: only objects have members, anything else gives undefined. */
  function Member(v: Json, k: string): (r: Option<Json>)
    ensures r.Some? ==> v.Obj? && k in v.fields && r.value == v.fields[k]
  {
    if v.Obj? then Get(v.fields, k) else None
  }

  /** Truthiness of a query parameter: present and not the empty string. */
  predicate Given(q: Query, k: string) {
    k in q && q[k] != ""
  }

  /** What `validator.isEmail(v)` does: return true, return false, or throw. */
  datatype Verdict = Accepts | Rejects | Throws

  /**
   * The primitives that come from code outside the repository.
   *   parseInt       JavaScript parseInt; None is NaN
   *   toNumber       JavaScript Number(s) on a string; None is NaN
   *   parseDate      new Date(s) as milliseconds since the epoch; None is an Invalid Date
   *   regexCompiles  whether new RegExp(p, 'i') succeeds rather than throwing
   *   regexMatches   whether the compiled case-insensitive pattern p finds a match in s
   *   objectId       the ObjectId a string casts to; None is a cast failure
   *   isEmail        validator.isEmail applied to a possibly undefined value
   */
  datatype Host = Host(
    parseInt: string -> Option<int>,
    toNumber: string -> Option<int>,
    parseDate: string -> Option<int>,
    regexCompiles: string -> bool,
    regexMatches: (string, string) -> bool,
    objectId: string -> Option<Id>,
    isEmail: Option<Json> -> Verdict)
}
