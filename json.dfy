/**
 * The dynamically-typed values the migration engine works on. Swift's `Any`
 * (as produced by JSONSerialization) and `[String: Any]` become a closed
 * datatype and a map from keys to that datatype.
 */
module JsonValues {

  datatype Option<+T> = None | Some(value: T)

  /** A JSON value. Numbers are integers: the engine never computes with them. */
  datatype Json =
    | JNull
    | JBool(b: bool)
    | JNum(n: int)
    | JStr(s: string)
    | JArr(items: seq<Json>)
    | JObj(fields: map<string, Json>)

  /** Swift's `[String: Any]`: one JSON object. */
  type Dict = map<string, Json>

  /** Swift's `value as? String`. */
  function AsString(v: Json): (r: Option<string>)
    ensures r.Some? <==> v.JStr?
    ensures r.Some? ==> v == JStr(r.value)
  {
    if v.JStr? then Some(v.s) else None
  }

  /** True when every element of `items` is a string. */
  predicate AllStrings(items: seq<Json>)
  {
    forall i :: 0 <= i < |items| ==> items[i].JStr?
  }

  /** The strings held by a sequence whose elements are all strings. */
  function Strings(items: seq<Json>): (r: seq<string>)
    requires AllStrings(items)
    ensures |r| == |items|
    ensures forall i :: 0 <= i < |items| ==> items[i] == JStr(r[i])
  {
    if items == [] then [] else [items[0].s] + Strings(items[1..])
  }

  /**
   * Swift's `value as? [String]`: succeeds on an array whose elements are all
   * strings (the empty array included) and fails on anything else.
   */
  function AsStringArray(v: Json): (r: Option<seq<string>>)
    ensures r.Some? <==> v.JArr? && AllStrings(v.items)
    ensures r.Some? ==> |r.value| == |v.items|
    ensures r.Some? ==> forall i :: 0 <= i < |r.value| ==> v.items[i] == JStr(r.value[i])
  {
    if v.JArr? && AllStrings(v.items) then Some(Strings(v.items)) else None
  }
}
