/** JavaScript values as they arrive from `response.json()` or leave through `JSON.stringify`. */
module JsValues {
  import opened Wrappers

  /** A JSON value; numbers are limited to integers, which is all the modelled code handles. */
  datatype Json =
    | JNull
    | JBool(b: bool)
    | JNum(n: int)
    | JStr(s: string)
    | JArr(items: seq<Json>)
    | JObj(members: map<string, Json>)

  /** JavaScript truthiness of a property that may be `undefined` (`None`). */
  predicate Truthy(v: Option<Json>) {
    match v
    case None => false
    case Some(JNull) => false
    case Some(JBool(b)) => b
    case Some(JNum(n)) => n != 0
    case Some(JStr(s)) => s != []
    case Some(_) => true
  }

  /** Reading `o[key]` from an object: `undefined` when absent or when `o` is not an object. */
  function Get(o: Json, key: string): (r: Option<Json>)
    ensures r.Some? <==> o.JObj? && key in o.members
  {
    if o.JObj? && key in o.members then Some(o.members[key]) else None
  }

  /** An object literal with only the given keys; `undefined` members are dropped. */
  function Restrict(o: map<string, Json>, keys: set<string>): (r: map<string, Json>)
    ensures r.Keys == o.Keys * keys
    ensures forall k :: k in r ==> r[k] == o[k]
  {
    map k | k in o.Keys * keys :: o[k]
  }

  /** Restricting twice to the same keys is restricting once. */
  lemma {:induction false} RestrictIdempotent(o: map<string, Json>, keys: set<string>)
    ensures Restrict(Restrict(o, keys), keys) == Restrict(o, keys)
  {
  }
}
