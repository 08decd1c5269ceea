/**
 * Parsed JSON documents as the Python code sees them (dicts, lists, str,
 * int, float, bool, None), with `dict.get`, truthiness, iteration,
 * comparisons with 0 and f-string formatting.
 */
module Json {
  import opened Wrappers
  import opened Dicts
  import opened Text

  /** A JSON value. A float is carried as the real number its literal denotes. */
  datatype Json =
    | JNull
    | JBool(b: bool)
    | JInt(i: int)
    | JFloat(r: real)
    | JStr(s: string)
    | JArr(items: seq<Json>)
    | JObj(fields: seq<(string, Json)>)

  /** A Python dict with string keys: a JSON object, or a record being built. */
  type Dict = seq<(string, Json)>

  const EmptyObj: Json := JObj([])
  const EmptyArr: Json := JArr([])
  const Zero: Json := JInt(0)
  const EmptyStr: Json := JStr("")

  /** Python truthiness (`if x:`, `bool(x)`). */
  predicate Truthy(j: Json)
  {
    match j
    case JNull => false
    case JBool(b) => b
    case JInt(i) => i != 0
    case JFloat(r) => r != 0.0
    case JStr(s) => s != ""
    case JArr(a) => a != []
    case JObj(f) => f != []
  }

  /** `k in j` for a dict `j`. */
  predicate Has(j: Json, k: string)
  {
    j.JObj? && Lookup(j.fields, k).Some?
  }

  /**
   * `j.get(k, default)`: the value stored under `k`, and `default` only when
   * the key is absent. A value that is not a dict is treated as an empty dict.
   */
  function Get(j: Json, k: string, default: Json): Json
  {
    if j.JObj? then Lookup(j.fields, k).GetOr(default) else default
  }

  /** `j.get(k, {})`. */
  function GetObj(j: Json, k: string): Json { Get(j, k, EmptyObj) }

  /**
   * `dict.get` returns the stored value for a key among the dict's keys,
   * whatever the default, and the default for any other key: a stored null
   * or 0 is kept.
   */
  lemma GetDefaultOnlyWhenAbsent(j: Json, k: string, d1: Json, d2: Json)
    ensures j.JObj? && HasKey(j.fields, k) ==> Some(Get(j, k, d1)) == Lookup(j.fields, k)
    ensures (j.JObj? && HasKey(j.fields, k)) <==> Has(j, k)
    ensures !Has(j, k) ==> Get(j, k, d1) == d1
  {
    if j.JObj? {
      LookupHasKey(j.fields, k);
    }
  }

  /** `for x in j`: a list's items, a dict's keys, a string's characters; nothing otherwise. */
  function Items(j: Json): (r: seq<Json>)
    ensures j.JArr? ==> r == j.items
    ensures j.JObj? ==> |r| == |j.fields|
  {
    match j
    case JArr(a) => a
    case JObj(f) => seq(|f|, i requires 0 <= i < |f| => JStr(f[i].0))
    case JStr(s) => seq(|s|, i requires 0 <= i < |s| => JStr([s[i]]))
    case _ => []
  }

  /** `dict.values()` of a dict; nothing for any other value. */
  function Values(j: Json): (r: seq<Json>)
    ensures j.JObj? ==> |r| == |j.fields|
  {
    if j.JObj? then seq(|j.fields|, i requires 0 <= i < |j.fields| => j.fields[i].1) else []
  }

  /** `j > 0` for the numbers (and booleans) Python compares; false for any other value. */
  predicate Positive(j: Json)
  {
    match j
    case JInt(i) => i > 0
    case JFloat(r) => r > 0.0
    case JBool(b) => b
    case _ => false
  }

  /** `j >= 0` for the numbers (and booleans) Python compares; false for any other value. */
  predicate NonNegative(j: Json)
  {
    match j
    case JInt(i) => i >= 0
    case JFloat(r) => r >= 0.0
    case JBool(_) => true
    case _ => false
  }

  /** What an f-string prints for a str, int, bool or None; other values print as nothing. */
  function Display(j: Json): string
  {
    match j
    case JStr(s) => s
    case JInt(i) => IntToString(i)
    case JBool(b) => if b then "True" else "False"
    case JNull => "None"
    case _ => ""
  }

  /** `str.lower()` applied to a value, as the string it displays. */
  function LowerOf(j: Json): string { Lower(Display(j)) }

  /** The text of a str value; any other value is read as the empty string. */
  function StrOf(j: Json): string
  {
    if j.JStr? then j.s else ""
  }

  /** The (key, value) pairs of a dict; nothing for any other value. */
  function Fields(j: Json): Dict
  {
    if j.JObj? then j.fields else []
  }

  /** `j[k] = v` on a dict; a value that is not a dict is treated as an empty dict. */
  function Put(j: Json, k: string, v: Json): (r: Json)
    ensures r.JObj? && Has(r, k) && Get(r, k, JNull) == v
  {
    var f := if j.JObj? then j.fields else [];
    SetLookup(f, k, v, k);
    JObj(Set(f, k, v))
  }

  /** `j[k]` for a dict: nothing when `j` is not a dict or lacks `k` (KeyError). */
  function Index(j: Json, k: string): (r: Option<Json>)
    ensures r.Some? <==> Has(j, k)
    ensures r.Some? ==> r.value == Get(j, k, JNull)
  {
    if j.JObj? then Lookup(j.fields, k) else None
  }

  /** `j[i]` for a list: nothing when `j` is not a list or `i` is out of range (IndexError). */
  function At(j: Json, i: nat): (r: Option<Json>)
    ensures r.Some? <==> j.JArr? && i < |j.items|
  {
    if j.JArr? && i < |j.items| then Some(j.items[i]) else None
  }
}
