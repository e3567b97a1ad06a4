/**
 * Decoded JSON values as the client sees them after `json.loads` or
 * `response.json()`, with Python's truth value and the two Python
 * operations the client applies to them (`dict.get` and `int`).
 * Numbers are integers only.
 */
module Json {
  import opened Wrappers
  import Decimal

  datatype Json =
    | JNull
    | JBool(b: bool)
    | JInt(n: int)
    | JStr(s: string)
    | JArr(items: seq<Json>)
    | JObj(fields: map<string, Json>)

  /** Python's `bool(v)`: null, false, 0, "", [] and {} are false, and nothing else is. */
  predicate Truthy(v: Json)
    ensures !Truthy(v) <==>
      v == JNull || v == JBool(false) || v == JInt(0) || v == JStr("") || v == JArr([]) || v == JObj(map[])
  {
    match v
    case JNull => false
    case JBool(b) => b
    case JInt(n) => n != 0
    case JStr(s) => s != ""
    case JArr(items) => items != []
    case JObj(fields) => fields != map[]
  }

  /** `d.get(key)` on a decoded object: a missing key reads as null. */
  function Get(fields: map<string, Json>, key: string): Json {
    if key in fields then fields[key] else JNull
  }

  /** Python's `int(v)`; `None` where `int` raises (null, lists, objects, malformed text). */
  function ToInt(v: Json): (r: Option<int>)
    ensures v.JInt? ==> r == Some(v.n)
    ensures v == JBool(true) ==> r == Some(1)
    ensures v.JStr? ==> (r.Some? <==> Decimal.ParseInt(v.s).Some?)
    ensures v.JNull? || v.JArr? || v.JObj? ==> r.None?
  {
    match v
    case JBool(b) => Some(if b then 1 else 0)
    case JInt(n) => Some(n)
    case JStr(s) => Decimal.ParseInt(s)
    case _ => None
  }

  /** `int(str(n)) == n`: an id sent as decimal text reads back as the id. */
  lemma ToIntOfDecimalText(n: int)
    ensures ToInt(JStr(Decimal.Show(n))) == Some(n)
  {
    Decimal.ShowRoundTrip(n);
  }

  /** A list of integers as decoded JSON. */
  function Ints(xs: seq<int>): seq<Json> {
    seq(|xs|, i requires 0 <= i < |xs| => JInt(xs[i]))
  }
}
