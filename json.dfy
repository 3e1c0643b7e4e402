/**
 * The JSON-like values that the loggers, the middleware and the endpoints pass around,
 * with JavaScript's and Python's notions of truthiness. Numbers are integers: the float
 * side of JSON is not part of this model.
 */
module JsonValue {
  import opened Wrappers
  import opened Assoc

  datatype Json =
    | JNull                          // `null` / `None` (and JavaScript's `undefined` where a key holds it)
    | JBool(b: bool)
    | JNum(n: int)
    | JStr(s: string)
    | JArr(items: seq<Json>)
    | JObj(fields: seq<(string, Json)>)

  /** The entries of an object, in insertion order. */
  type Fields = seq<(string, Json)>

  /** JavaScript truthiness: `null`, `false`, `0` and `""` are falsy; every array and object is truthy. */
  predicate JsTruthy(v: Json)
  {
    match v
    case JNull => false
    case JBool(b) => b
    case JNum(n) => n != 0
    case JStr(s) => s != ""
    case _ => true
  }

  /** A possibly `undefined` value that is truthy: what `if (x) ...` tests in JavaScript. */
  predicate JsPresent(o: Option<Json>)
  {
    o.Some? && JsTruthy(o.value)
  }

  /** Python truthiness: `None`, `False`, `0`, `""`, `[]` and `{}` are falsy. */
  predicate PyTruthy(v: Json)
  {
    match v
    case JNull => false
    case JBool(b) => b
    case JNum(n) => n != 0
    case JStr(s) => s != ""
    case JArr(items) => items != []
    case JObj(fields) => fields != []
  }

  /** `typeof v === "object"` (true of `null` as well). */
  predicate TypeofObject(v: Json)
  {
    v.JNull? || v.JArr? || v.JObj?
  }

  /** `v.k` in JavaScript: the property of an object, `undefined` (None) for anything else. */
  function Member(v: Json, k: string): Option<Json>
  {
    if v.JObj? then Lookup(v.fields, k) else None
  }

  /** `o?.k`: stops at `undefined` and `null`. */
  function OptMember(o: Option<Json>, k: string): Option<Json>
  {
    if o.None? || o.value.JNull? then None else Member(o.value, k)
  }

  /** The value of an optional field as it is stored in a record: `undefined` becomes JNull. */
  function OrNull(o: Option<Json>): Json
  {
    o.GetOr(JNull)
  }

  /** Every object at every depth has distinct keys, as every parsed JSON dict does. */
  predicate DictsDistinct(v: Json)
    decreases v
  {
    match v
    case JArr(items) => forall i | 0 <= i < |items| :: DictsDistinct(items[i])
    case JObj(fields) => DistinctKeys(fields) && forall i | 0 <= i < |fields| :: DictsDistinct(fields[i].1)
    case _ => true
  }
}
