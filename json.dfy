/**
 * Decoded JSON documents as Python sees them after `json.loads`, with the
 * conversions the monitor applies to them: truthiness (`bool(x)`), `int(x)`
 * and `str(x)`.
 */
module Json {
  import opened Wrappers
  import opened Text
  import opened Numbers
  import Dict

  /** A JSON value. Numbers with a fraction part are Python floats, held as
      the exact decimal their shortest printed form denotes. An object keeps
      its members in document order. */
  datatype Json =
    | JNull
    | JBool(b: bool)
    | JInt(i: int)
    | JFloat(d: Decimal)
    | JString(s: string)
    | JArray(items: seq<Json>)
    | JObject(members: seq<(string, Json)>)

  /** `bool(x)`: `None`, `False`, zero, and empty strings and containers are false. */
  predicate Truthy(j: Json) {
    match j
    case JNull => false
    case JBool(b) => b
    case JInt(i) => i != 0
    case JFloat(d) => d.mantissa != 0
    case JString(s) => s != []
    case JArray(items) => items != []
    case JObject(members) => members != []
  }

  /** `int(x)` of a decoded value: booleans count as 0 and 1, floats are
      truncated toward zero, strings must spell an integer; `None` where
      Python raises (`None`, containers, other strings). */
  function PyInt(j: Json): (r: Option<int>)
    ensures j.JInt? ==> r == Some(j.i)
    ensures j.JNull? || j.JArray? || j.JObject? ==> r == None
  {
    match j
    case JBool(b) => Some(if b then 1 else 0)
    case JInt(i) => Some(i)
    case JFloat(d) => Some(Truncate(d))
    case JString(s) => ParseInt(s)
    case _ => None
  }

  /** `repr(x)`; strings are quoted with single quotes and not escaped. */
  function Repr(j: Json): string {
    match j
    case JNull => "None"
    case JBool(b) => if b then "True" else "False"
    case JInt(i) => IntToString(i)
    case JFloat(d) => RenderDecimal(d)
    case JString(s) => "'" + s + "'"
    case JArray(items) =>
      "[" + Join(", ", seq(|items|, k requires 0 <= k < |items| => Repr(items[k]))) + "]"
    case JObject(members) =>
      "{" + Join(", ", seq(|members|, k requires 0 <= k < |members| =>
        "'" + members[k].0 + "': " + Repr(members[k].1))) + "}"
  }

  /** `str(x)`: a string is itself, anything else its `repr`. */
  function PyStr(j: Json): string {
    if j.JString? then j.s else Repr(j)
  }

  /** `str` of a number is its printed form. */
  lemma PyStrNumbers(n: int, d: Decimal)
    ensures PyStr(JInt(n)) == IntToString(n)
    ensures PyStr(JFloat(d)) == RenderDecimal(d)
  {
  }

  /** `payload.get(key, default)` on a decoded object. */
  function GetOr(members: seq<(string, Json)>, key: string, default: Json): (r: Json)
    ensures key !in Dict.Keys(members) ==> r == default
  {
    match Dict.Get(members, key)
    case Some(v) => v
    case None => default
  }
}
