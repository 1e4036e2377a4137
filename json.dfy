/**
 * JSON documents as the Python code sees them after `json.loads`.
 *
 * A Python dict is an ordered list of key/value pairs.  Python dicts have
 * distinct keys; the operations below are defined on every pair list and
 * agree with Python on lists with distinct keys: `Get` reads the first pair
 * with the key and `Put` overwrites the first pair with the key or appends a
 * new pair at the end, which is where Python puts a new key.
 */
module JsonValues {
  import opened Outcomes
  import opened Text

  /**
   * A float is kept as the decimal its JSON text writes, `m × 10^e`
   * (`0.9` is `Float(9, -1)`).
   */
  datatype Json =
    | Null
    | Bool(b: bool)
    | Int(i: int)
    | Float(m: int, e: int)
    | Str(s: string)
    | Arr(items: seq<Json>)
    | Obj(fields: seq<(string, Json)>)

  type Fields = seq<(string, Json)>

  /** `k in d` for a dict `d` */
  predicate HasKey(fs: Fields, k: string) {
    exists i :: 0 <= i < |fs| && fs[i].0 == k
  }

  /** Position of the first pair with key `k`, or -1. */
  function IndexOf(fs: Fields, k: string): (r: int)
    ensures -1 <= r < |fs|
    ensures r == -1 <==> !HasKey(fs, k)
    ensures r >= 0 ==> fs[r].0 == k && forall j :: 0 <= j < r ==> fs[j].0 != k
  {
    if |fs| == 0 then -1
    else if fs[0].0 == k then 0
    else
      var r := IndexOf(fs[1..], k);
      if r == -1 then -1 else r + 1
  }

  /** A key is found at the first pair that holds it. */
  lemma IndexOfFirst(fs: Fields, k: string, i: nat)
    requires i < |fs| && fs[i].0 == k
    requires forall j :: 0 <= j < i ==> fs[j].0 != k
    ensures IndexOf(fs, k) == i && Get(fs, k) == fs[i].1
  {
    assert HasKey(fs, k);
  }

  /** `d.get(k, default)` */
  function GetOr(fs: Fields, k: string, default: Json): Json {
    var i := IndexOf(fs, k);
    if i == -1 then default else fs[i].1
  }

  /** `d.get(k)`: a missing key reads as `None`. */
  function Get(fs: Fields, k: string): Json {
    GetOr(fs, k, Null)
  }

  /** `d[k] = v` */
  function Put(fs: Fields, k: string, v: Json): (r: Fields)
    ensures HasKey(r, k) && Get(r, k) == v
    ensures HasKey(fs, k) ==> |r| == |fs|
    ensures !HasKey(fs, k) ==> r == fs + [(k, v)]
    ensures forall j :: 0 <= j < |fs| && fs[j].0 != k ==> r[j] == fs[j]
  {
    var i := IndexOf(fs, k);
    if i == -1 then
      var r := fs + [(k, v)];
      assert r[|fs|].0 == k;
      assert IndexOf(r, k) == |fs|;
      r
    else
      var r := fs[i := (k, v)];
      assert r[i].0 == k;
      assert IndexOf(r, k) == i;
      r
  }

  /** Python truthiness of a JSON value. */
  predicate Truthy(j: Json) {
    match j
    case Null => false
    case Bool(b) => b
    case Int(i) => i != 0
    case Float(m, _) => m != 0
    case Str(s) => s != ""
    case Arr(items) => items != []
    case Obj(fields) => fields != []
  }

  /** `isinstance(j, int)`; a Python `bool` is an `int` (0 or 1). */
  function AsInt(j: Json): Option<int> {
    match j
    case Bool(b) => Some(if b then 1 else 0)
    case Int(i) => Some(i)
    case _ => None
  }

  /** Lists and dicts are unhashable: `x in some_set` raises `TypeError` for them. */
  predicate Hashable(j: Json) {
    !j.Arr? && !j.Obj?
  }

  /** Python dicts never hold two pairs with the same key. */
  predicate DistinctKeys(fs: Fields) {
    forall i, j :: 0 <= i < j < |fs| ==> fs[i].0 != fs[j].0
  }

  /**
   * Python's `k in c` for a string `k`: a key test on a dict, an element
   * test on a list, a substring test on a str; any other value raises
   * `TypeError` (it is not iterable).
   */
  function Contains(c: Json, k: string): (r: Outcome<bool>)
    ensures r.Raise? <==> !(c.Obj? || c.Arr? || c.Str?)
    ensures r.Raise? ==> r.exc == TypeError
    ensures c.Obj? ==> r == Ok(HasKey(c.fields, k))
    ensures c.Arr? ==> r == Ok(Str(k) in c.items)
  {
    match c
    case Obj(fs) => Ok(HasKey(fs, k))
    case Arr(items) => Ok(Str(k) in items)
    case Str(s) => Ok(Find(s, k, 0) != -1)
    case _ => Raise(TypeError)
  }
}
