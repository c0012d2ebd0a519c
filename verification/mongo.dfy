/**
 * The part of MongoDB/Mongoose query semantics the route handlers rely on:
 * the values a query filter holds, Mongoose's casting of a filter against the
 * schema (which throws on NaN, an Invalid Date or a malformed ObjectId), how a
 * stored document satisfies a filter, `find`, and the `skip`/`limit` window.
 */
module Mongo {
  import opened Wrappers
  import opened Js
  import Seqs

  /** A stored document together with its `_id`. */
  datatype Entry<T> = Entry(id: Id, doc: T)

  /**
   * Mongoose's cast of one body path: left undefined (Unset), cast to the
   * schema type (Set), or refused, which makes `create`/`findByIdAndUpdate`
   * throw (Invalid).
   */
  datatype Casted<T> = Unset | Set(value: T) | Invalid {
    function ToOption(): Option<T> {
      match this
      case Set(v) => Some(v)
      case _ => None
    }
  }

  function CastPath<T>(v: Option<Json>, cast: Json -> Option<T>): (r: Casted<T>)
    ensures v.None? <==> r.Unset?
    ensures v.Some? ==> (r.Set? <==> cast(v.value).Some?)
    ensures r.Set? ==> r.value == cast(v.value).value
  {
    match v
    case None => Unset
    case Some(j) => (match cast(j) case Some(x) => Set(x) case None => Invalid)
  }

  /** A String path takes a JSON string. */
  function CastString(v: Json): Option<string> {
    if v.Str? then Some(v.s) else None
  }

  /**
   * A Number path takes a number as it is, a boolean as 1 or 0, and a
   * non-empty string as JavaScript's `Number(s)` reads it (NaN is a cast
   * error). The empty string becomes null, which, like null itself, is
   * refused here.
   */
  function CastNumber(v: Json, host: Host): (r: Option<int>)
    ensures v.Num? ==> r == Some(v.n)
    ensures v.Bool? ==> r == Some(if v.b then 1 else 0)
    ensures v.Str? && v.s != "" ==> r == host.toNumber(v.s)
    ensures v.Null? || v.Arr? || v.Obj? || v == Str("") ==> r.None?
  {
    match v
    case Num(n) => Some(n)
    case Bool(b) => Some(if b then 1 else 0)
    case Str(s) => if s == "" then None else host.toNumber(s)
    case _ => None
  }

  /** A Boolean path takes true, 'true', 1, '1', 'yes' as true and false, 'false', 0, '0', 'no' as false. */
  function CastBoolean(v: Json): (r: Option<bool>)
    ensures v.Bool? ==> r == Some(v.b)
  {
    match v
    case Bool(b) => Some(b)
    case Num(n) => if n == 1 then Some(true) else if n == 0 then Some(false) else None
    case Str(s) =>
      if s == "true" || s == "1" || s == "yes" then Some(true)
      else if s == "false" || s == "0" || s == "no" then Some(false)
      else None
    case _ => None
  }

  /** Mongoose's `required` on a String path: defined and not empty. */
  predicate Present(s: Option<string>) {
    s.Some? && s.value != ""
  }

  /** An ObjectId path takes a string the driver can parse as an ObjectId. */
  function CastObjectId(v: Json, host: Host): Option<Id> {
    if v.Str? then host.objectId(v.s) else None
  }

  /** A Date path takes a date string (new Date(s)) or a number of milliseconds. */
  function CastDate(v: Json, host: Host): Option<int> {
    match v
    case Str(s) => host.parseDate(s)
    case Num(n) => Some(n)
    case _ => None
  }

  /**
   * A value in a filter or a document field. VNum(None) is NaN (a parseInt
   * that failed), VDate(None) an Invalid Date.
   */
  datatype Value =
    | VBool(b: bool)
    | VStr(s: string)
    | VNum(n: Option<int>)
    | VDate(t: Option<int>)
    | VId(id: Id)

  /** What one filter key demands: `k: v`, `k: /p/i`, or `k: { $gte: lo, $lte: hi }`. */
  datatype Condition =
    | Equals(v: Value)
    | Like(pattern: string)
    | Between(gte: Option<Value>, lte: Option<Value>)

  /** A query filter object, keyed by (dotted) path. */
  type Filter = map<string, Condition>

  /** Mongoose's cast of one filter value; `isId` says the path is an ObjectId path. */
  function CastValue(v: Value, isId: bool, host: Host): (r: Option<Value>)
    ensures v.VNum? ==> (r.Some? <==> v.n.Some?)
    ensures v.VDate? ==> (r.Some? <==> v.t.Some?)
    ensures v.VBool? ==> r == Some(v)
    ensures v.VStr? && !isId ==> r == Some(v)
    ensures v.VStr? && isId ==> r == (match host.objectId(v.s) case Some(id) => Some(VId(id)) case None => None)
  {
    match v
    case VNum(n) => if n.Some? then Some(v) else None
    case VDate(t) => if t.Some? then Some(v) else None
    case VStr(s) =>
      if isId then (match host.objectId(s) case Some(id) => Some(VId(id)) case None => None)
      else Some(v)
    case _ => Some(v)
  }

  function CastBound(b: Option<Value>, isId: bool, host: Host): Option<Option<Value>> {
    match b
    case None => Some(None)
    case Some(v) => (match CastValue(v, isId, host) case Some(w) => Some(Some(w)) case None => None)
  }

  function CastCondition(c: Condition, isId: bool, host: Host): Option<Condition> {
    match c
    case Equals(v) => (match CastValue(v, isId, host) case Some(w) => Some(Equals(w)) case None => None)
    case Like(p) => Some(c)
    case Between(lo, hi) =>
      (match (CastBound(lo, isId, host), CastBound(hi, isId, host))
       case (Some(l), Some(h)) => Some(Between(l, h))
       case _ => None)
  }

  /** Mongoose's cast of a whole filter: one failing key makes the query throw (None). */
  function CastFilter(f: Filter, idPaths: set<string>, host: Host): (r: Option<Filter>)
    ensures r.Some? <==> forall k :: k in f ==> CastCondition(f[k], k in idPaths, host).Some?
    ensures r.Some? ==> r.value.Keys == f.Keys
    ensures r.Some? ==> forall k :: k in f ==> r.value[k] == CastCondition(f[k], k in idPaths, host).value
  {
    if forall k :: k in f ==> CastCondition(f[k], k in idPaths, host).Some? then
      Some(map k | k in f :: CastCondition(f[k], k in idPaths, host).value)
    else None
  }

  /** `a <= b` between two values of the same comparable type. */
  predicate AtMost(a: Value, b: Value) {
    match (a, b)
    case (VNum(Some(x)), VNum(Some(y))) => x <= y
    case (VDate(Some(x)), VDate(Some(y))) => x <= y
    case _ => false
  }

  /** Whether a document field (None when the document lacks it) satisfies a cast condition. */
  predicate Holds(v: Option<Value>, c: Condition, host: Host) {
    match c
    case Equals(w) => v == Some(w)
    case Like(p) => v.Some? && v.value.VStr? && host.regexMatches(p, v.value.s)
    case Between(lo, hi) =>
      v.Some? && (lo.Some? ==> AtMost(lo.value, v.value)) && (hi.Some? ==> AtMost(v.value, hi.value))
  }

  /** A document matches a filter when every key's condition holds of its field. */
  predicate Matches<T>(doc: T, f: Filter, field: (T, string) -> Option<Value>, host: Host) {
    forall k :: k in f ==> Holds(field(doc, k), f[k], host)
  }

  /** `Model.find(filter)`: the matching documents in the collection's natural order. */
  function Find<T>(entries: seq<Entry<T>>, f: Filter, field: (T, string) -> Option<Value>, host: Host)
    : (r: seq<Entry<T>>)
    ensures |r| <= |entries|
    ensures forall i :: 0 <= i < |r| ==> r[i] in entries && Matches(r[i].doc, f, field, host)
    ensures forall i :: 0 <= i < |entries| && Matches(entries[i].doc, f, field, host) ==> entries[i] in r
  {
    Seqs.Select(entries, (e: Entry<T>) => Matches(e.doc, f, field, host))
  }

  /** A matching document is found as often as it is stored; any other never. */
  lemma FindCount<T>(entries: seq<Entry<T>>, f: Filter, field: (T, string) -> Option<Value>,
                     host: Host, e: Entry<T>)
    ensures multiset(Find(entries, f, field, host))[e] == if Matches(e.doc, f, field, host) then multiset(entries)[e] else 0
  {
    Seqs.SelectCount(entries, (d: Entry<T>) => Matches(d.doc, f, field, host), e);
  }

  /** `find` keeps the collection's order: finding in two parts is finding in each in turn. */
  lemma FindAppend<T>(a: seq<Entry<T>>, b: seq<Entry<T>>, f: Filter,
                      field: (T, string) -> Option<Value>, host: Host)
    ensures Find(a + b, f, field, host) == Find(a, f, field, host) + Find(b, f, field, host)
  {
    Seqs.SelectAppend(a, b, (e: Entry<T>) => Matches(e.doc, f, field, host));
  }

  /** A single document is found exactly when it matches. */
  lemma FindOne<T>(e: Entry<T>, f: Filter, field: (T, string) -> Option<Value>, host: Host)
    ensures Find([e], f, field, host) == if Matches(e.doc, f, field, host) then [e] else []
  {
    assert [e][1..] == [];
  }

  function Min(a: int, b: int): int { if a <= b then a else b }
  function Abs(a: int): nat { if a < 0 then -a else a }

  /**
   * `cursor.skip(skip).limit(limit)`: a negative skip is refused by the server
   * (None); a limit of 0 means no limit and a negative limit counts as its
   * absolute value.
   */
  function Window<T>(xs: seq<T>, skip: int, limit: int): (r: Option<seq<T>>)
    ensures r.Some? <==> skip >= 0
    ensures r.Some? ==> var from := Min(skip, |xs|);
      && |r.value| == (if limit == 0 then |xs| - from else Min(Abs(limit), |xs| - from))
      && r.value == xs[from..from + |r.value|]
  {
    if skip < 0 then None
    else
      var rest := if skip <= |xs| then xs[skip..] else [];
      Some(if limit == 0 then rest else Seqs.Take(rest, Abs(limit)))
  }
}
