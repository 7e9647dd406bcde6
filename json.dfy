/**
 * Decoded JSON documents, as `json.loads` and `requests`' `.json()` hand them
 * to the handlers, and the Python operations the handlers apply to them:
 * `d[key]` / `d.get(key)`, `x[0]`, truthiness and `int(x)`.  Every operation
 * that Python would answer with an exception answers `None` here.
 */
module Json {
  import opened Optional
  import Numerals

  datatype Json =
    | JNull
    | JBool(b: bool)
    | JInt(n: int)
    | JStr(s: string)
    | JArr(items: seq<Json>)
    | JObj(members: seq<(string, Json)>)

  /** The empty object `{}`. */
  const EmptyObject: Json := JObj([])

  /**
   * The value a dict built from `members` holds under `key`: `json.loads`
   * inserts the members in order, so the last one with that key wins.
   */
  function Lookup(members: seq<(string, Json)>, key: string): (r: Option<Json>)
    ensures r.None? <==> forall i :: 0 <= i < |members| ==> members[i].0 != key
    ensures r.Some? ==> exists i :: 0 <= i < |members| && members[i] == (key, r.value) &&
                                   forall k :: i < k < |members| ==> members[k].0 != key
  {
    if members == [] then None
    else if members[|members| - 1].0 == key then Some(members[|members| - 1].1)
    else Lookup(members[..|members| - 1], key)
  }

  /** `j[key]` or `j.get(key)` on an object; `None` when `j` is no object or lacks `key`. */
  function Get(j: Json, key: string): Option<Json> {
    if j.JObj? then Lookup(j.members, key) else None
  }

  /**
   * `j[0]`: the first item of a non-empty list, or the first character of a
   * non-empty string; an object has no key `0` (keys are strings).
   */
  function First(j: Json): Option<Json> {
    match j
    case JArr(items) => if items == [] then None else Some(items[0])
    case JStr(s) => if s == [] then None else Some(JStr([s[0]]))
    case _ => None
  }

  /** Python's truth value of a decoded value. */
  predicate Truthy(j: Json) {
    match j
    case JNull => false
    case JBool(b) => b
    case JInt(n) => n != 0
    case JStr(s) => s != []
    case JArr(items) => items != []
    case JObj(members) => members != []
  }

  /** `int(j)`: strings are parsed, booleans are 0 and 1, anything else is a `TypeError`. */
  function ToInt(j: Json): Option<int> {
    match j
    case JStr(s) => Numerals.ParseInt(s)
    case JInt(n) => Some(n)
    case JBool(b) => Some(if b then 1 else 0)
    case _ => None
  }

  /** A lookup finds the value of the last member written under the key. */
  lemma LookupFinds(members: seq<(string, Json)>, i: int, key: string)
    requires 0 <= i < |members| && members[i].0 == key
    requires forall k :: i < k < |members| ==> members[k].0 != key
    ensures Lookup(members, key) == Some(members[i].1)
  {
    var r := Lookup(members, key);
    var j :| 0 <= j < |members| && members[j] == (key, r.value) &&
             forall k :: j < k < |members| ==> members[k].0 != key;
    assert j == i;
  }

  /** Lookups in an object written with one member. */
  lemma GetOne(k: string, v: Json)
    ensures Get(JObj([(k, v)]), k) == Some(v)
  {
  }

  /** Lookups in an object written with two members under different keys. */
  lemma GetTwo(k1: string, v1: Json, k2: string, v2: Json)
    requires k1 != k2
    ensures Get(JObj([(k1, v1), (k2, v2)]), k1) == Some(v1)
    ensures Get(JObj([(k1, v1), (k2, v2)]), k2) == Some(v2)
  {
    LookupFinds([(k1, v1), (k2, v2)], 0, k1);
  }

  /** `int()` of the text `str(n)` of a booking id is that id. */
  lemma ToIntOfIdText(n: nat)
    ensures ToInt(JStr(Numerals.NatToString(n))) == Some(n)
  {
    Numerals.ParseIntOfNatToString(n);
  }
}
