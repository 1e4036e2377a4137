/**
 * The canonical cache-key payload of the structuring cache.
 *
 * `_normalize_payload` NFC-normalises every string value, keeps lists in
 * order and re-emits every dict with its keys in ascending order.
 * `compute_input_hash` applies it to a fixed five-key payload and hashes
 * the compact JSON text.  The model stops at the canonical payload: the
 * SHA-256 digest and the JSON text are not modelled, so two inputs share
 * a cache key exactly when their canonical payloads are equal.
 */
module CacheHash {
  import opened Outcomes
  import opened JsonValues
  import opened Text
  import opened StructuringTypes

  /** Python's `<=` on `str`: lexicographic by code point. */
  predicate KeyLe(a: string, b: string) {
    if a == [] then true
    else if b == [] then false
    else a[0] < b[0] || (a[0] == b[0] && KeyLe(a[1..], b[1..]))
  }

  lemma KeyLeRefl(a: string)
    ensures KeyLe(a, a)
  {
  }

  lemma KeyLeTotal(a: string, b: string)
    ensures KeyLe(a, b) || KeyLe(b, a)
  {
  }

  lemma KeyLeAntisymmetric(a: string, b: string)
    requires KeyLe(a, b) && KeyLe(b, a)
    ensures a == b
  {
    if a != [] && b != [] {
      KeyLeAntisymmetric(a[1..], b[1..]);
      assert a == [a[0]] + a[1..] && b == [b[0]] + b[1..];
    }
  }

  lemma KeyLeTransitive(a: string, b: string, c: string)
    requires KeyLe(a, b) && KeyLe(b, c)
    ensures KeyLe(a, c)
  {
    if a != [] && b != [] && c != [] && a[0] == b[0] == c[0] {
      KeyLeTransitive(a[1..], b[1..], c[1..]);
    }
  }

  /** Pairs in ascending key order. */
  predicate SortedKeys(fs: Fields) {
    forall i, j :: 0 <= i < j < |fs| ==> KeyLe(fs[i].0, fs[j].0)
  }

  /** Inserts `x` before the first pair whose key is not smaller. */
  function Insert(x: (string, Json), fs: Fields): (r: Fields)
    ensures multiset(r) == multiset(fs) + multiset{x}
    ensures forall j :: 0 <= j < |r| ==> r[j] == x || r[j] in fs
  {
    if fs == [] || KeyLe(x.0, fs[0].0) then [x] + fs
    else
      assert fs == [fs[0]] + fs[1..];
      [fs[0]] + Insert(x, fs[1..])
  }

  lemma InsertKeepsSorted(x: (string, Json), fs: Fields)
    requires SortedKeys(fs)
    ensures SortedKeys(Insert(x, fs))
  {
    var r := Insert(x, fs);
    if fs == [] || KeyLe(x.0, fs[0].0) {
      forall j | 0 < j < |r|
        ensures KeyLe(x.0, r[j].0)
      {
        if j > 1 {
          KeyLeTransitive(x.0, fs[0].0, fs[j - 1].0);
        }
      }
    } else {
      InsertKeepsSorted(x, fs[1..]);
      var rest := Insert(x, fs[1..]);
      KeyLeTotal(x.0, fs[0].0);
      forall j | 0 <= j < |rest|
        ensures KeyLe(fs[0].0, rest[j].0)
      {
        if rest[j] != x {
          var p :| 0 <= p < |fs[1..]| && fs[1..][p] == rest[j];
          assert fs[p + 1] == rest[j];
        }
      }
    }
  }

  /** `sorted(d.keys())` as an insertion sort of the pairs by key. */
  function Sort(fs: Fields): (r: Fields)
    ensures multiset(r) == multiset(fs)
    ensures |r| == |fs|
    ensures forall j :: 0 <= j < |r| ==> r[j] in fs
    ensures SortedKeys(r)
  {
    if fs == [] then []
    else
      assert fs == [fs[0]] + fs[1..];
      var r := Insert(fs[0], Sort(fs[1..]));
      assert |r| == |multiset(r)| == |fs|;
      assert SortedKeys(r) by { InsertKeepsSorted(fs[0], Sort(fs[1..])); }
      r
  }

  /** `_normalize_payload` */
  function Normalize(nfc: Normalizer, v: Json): (r: Json)
    ensures v.Str? <==> r.Str?
    ensures v.Arr? <==> r.Arr?
    ensures v.Obj? <==> r.Obj?
    ensures v.Str? ==> r.s == nfc(v.s)
    ensures v.Arr? ==> |r.items| == |v.items|
    ensures v.Obj? ==> |r.fields| == |v.fields| && SortedKeys(r.fields)
    ensures !v.Str? && !v.Arr? && !v.Obj? ==> r == v
  {
    match v
    case Str(s) => Str(nfc(s))
    case Arr(items) =>
      Arr(seq(|items|, j requires 0 <= j < |items| => Normalize(nfc, items[j])))
    case Obj(fs) =>
      var sorted := Sort(fs);
      var r := seq(|sorted|, j requires 0 <= j < |sorted| => (sorted[j].0, Normalize(nfc, sorted[j].1)));
      assert forall i :: 0 <= i < |r| ==> r[i].0 == sorted[i].0;
      Obj(r)
    case _ => v
  }

  /** Sorting pairs that are already in key order changes nothing. */
  lemma {:induction false} SortOfSorted(fs: Fields)
    requires SortedKeys(fs)
    ensures Sort(fs) == fs
  {
    if fs != [] {
      assert SortedKeys(fs[1..]);
      SortOfSorted(fs[1..]);
      assert fs[1..] == [] || KeyLe(fs[0].0, fs[1..][0].0);
      assert Insert(fs[0], fs[1..]) == [fs[0]] + fs[1..];
      assert [fs[0]] + fs[1..] == fs;
    }
  }

  /** A pair is in the sorted list iff it is in the original. */
  lemma SortSameMembers(fs: Fields, p: (string, Json))
    ensures p in Sort(fs) <==> p in fs
  {
    assert p in multiset(Sort(fs)) <==> p in multiset(fs);
  }

  lemma SortSameKeys(fs: Fields, k: string)
    ensures HasKey(Sort(fs), k) <==> HasKey(fs, k)
  {
    var r := Sort(fs);
    if HasKey(r, k) {
      var i :| 0 <= i < |r| && r[i].0 == k;
      SortSameMembers(fs, r[i]);
    }
    if HasKey(fs, k) {
      var i :| 0 <= i < |fs| && fs[i].0 == k;
      SortSameMembers(fs, fs[i]);
      var j :| 0 <= j < |r| && r[j] == fs[i];
    }
  }

  lemma {:induction false} InsertKeepsDistinct(x: (string, Json), fs: Fields)
    requires DistinctKeys(fs) && !HasKey(fs, x.0)
    ensures DistinctKeys(Insert(x, fs))
  {
    if !(fs == [] || KeyLe(x.0, fs[0].0)) {
      assert DistinctKeys(fs[1..]) && !HasKey(fs[1..], x.0);
      InsertKeepsDistinct(x, fs[1..]);
      var rest := Insert(x, fs[1..]);
      forall j | 0 <= j < |rest|
        ensures rest[j].0 != fs[0].0
      {
        if rest[j] != x {
          var p :| 0 <= p < |fs[1..]| && fs[1..][p] == rest[j];
          assert fs[p + 1] == rest[j];
        }
      }
    }
  }

  lemma {:induction false} SortKeepsDistinct(fs: Fields)
    requires DistinctKeys(fs)
    ensures DistinctKeys(Sort(fs))
  {
    if fs != [] {
      SortKeepsDistinct(fs[1..]);
      assert !HasKey(fs[1..], fs[0].0);
      SortSameKeys(fs[1..], fs[0].0);
      InsertKeepsDistinct(fs[0], Sort(fs[1..]));
    }
  }

  /** Key-sorted lists with distinct keys are determined by their pairs. */
  lemma {:induction false} SortedUnique(a: Fields, b: Fields)
    requires SortedKeys(a) && SortedKeys(b) && DistinctKeys(a)
    requires multiset(a) == multiset(b)
    ensures a == b
    decreases |a|
  {
    assert |a| == |multiset(a)| == |multiset(b)| == |b|;
    if a != [] {
      SameHead(a, b);
      assert a == [a[0]] + a[1..] && b == [b[0]] + b[1..];
      assert multiset(a) == multiset{a[0]} + multiset(a[1..]);
      assert multiset(b) == multiset{a[0]} + multiset(b[1..]);
      assert forall p :: multiset(a[1..])[p] == multiset(b[1..])[p] by {
        forall p
          ensures multiset(a[1..])[p] == multiset(b[1..])[p]
        {
          assert multiset(a)[p] == multiset(b)[p];
        }
      }
      assert multiset(a[1..]) == multiset(b[1..]);
      SortedUnique(a[1..], b[1..]);
    }
  }

  lemma SameHead(a: Fields, b: Fields)
    requires SortedKeys(a) && SortedKeys(b) && DistinctKeys(a)
    requires multiset(a) == multiset(b) && a != [] && b != []
    ensures a[0] == b[0]
  {
    assert a[0] in multiset(b) && b[0] in multiset(a);
    var k :| 0 <= k < |b| && b[k] == a[0];
    var m :| 0 <= m < |a| && a[m] == b[0];
    KeyLeRefl(a[0].0);
    KeyLeRefl(b[0].0);
    assert KeyLe(a[0].0, a[m].0) && KeyLe(b[0].0, b[k].0);
    KeyLeAntisymmetric(a[0].0, b[0].0);
  }

  /** With distinct keys, the sorted order does not depend on the original order. */
  lemma SortIgnoresOrder(fs: Fields, gs: Fields)
    requires DistinctKeys(fs) && multiset(fs) == multiset(gs)
    ensures Sort(fs) == Sort(gs)
  {
    SortKeepsDistinct(fs);
    SortedUnique(Sort(fs), Sort(gs));
  }

  /** A normalised dict is the sorted dict with each value normalised. */
  lemma NormalizedPairs(nfc: Normalizer, fs: Fields)
    ensures var sorted := Sort(fs);
      var r := Normalize(nfc, Obj(fs)).fields;
      |r| == |sorted| && forall i :: 0 <= i < |r| ==> r[i] == (sorted[i].0, Normalize(nfc, sorted[i].1))
  {
  }

  /** Two pair lists whose keys agree pairwise hold a key at the same first place. */
  lemma KeysAgree(r: Fields, s: Fields, k: string)
    requires |r| == |s| && forall i :: 0 <= i < |r| ==> r[i].0 == s[i].0
    ensures HasKey(r, k) <==> HasKey(s, k)
    ensures IndexOf(r, k) == IndexOf(s, k)
  {
    var i := IndexOf(r, k);
    var j := IndexOf(s, k);
    if i >= 0 {
      assert s[i].0 == k;
    }
    if j >= 0 {
      assert r[j].0 == k;
    }
  }

  /**
   * A normalised dict holds the same keys as the original, and (keys being
   * distinct, as in every Python dict) each key maps to its normalised value.
   */
  lemma NormalizeDict(nfc: Normalizer, fs: Fields, k: string)
    requires DistinctKeys(fs)
    ensures HasKey(Normalize(nfc, Obj(fs)).fields, k) <==> HasKey(fs, k)
    ensures Get(Normalize(nfc, Obj(fs)).fields, k) == if HasKey(fs, k) then Normalize(nfc, Get(fs, k)) else Null
  {
    var sorted := Sort(fs);
    var r := Normalize(nfc, Obj(fs)).fields;
    NormalizedPairs(nfc, fs);
    KeysAgree(r, sorted, k);
    SortSameKeys(fs, k);
    if HasKey(fs, k) {
      var i := IndexOf(r, k);
      assert r[i] == (sorted[i].0, Normalize(nfc, sorted[i].1));
      SortSameMembers(fs, sorted[i]);
      var p :| 0 <= p < |fs| && fs[p] == sorted[i];
      assert IndexOf(fs, k) == p;
    }
  }

  /** `_normalize_payload` is idempotent, because NFC is. */
  lemma {:induction false} NormalizeIdempotent(nfc: Normalizer, v: Json)
    ensures Normalize(nfc, Normalize(nfc, v)) == Normalize(nfc, v)
    decreases v
  {
    match v
    case Str(s) =>
      assert nfc(nfc(s)) == nfc(s);
    case Arr(items) =>
      var n := Normalize(nfc, v).items;
      forall j | 0 <= j < |items|
        ensures Normalize(nfc, n[j]) == n[j]
      {
        NormalizeIdempotent(nfc, items[j]);
      }
    case Obj(fs) =>
      var sorted := Sort(fs);
      var n := Normalize(nfc, v).fields;
      SortOfSorted(n);
      forall j | 0 <= j < |n|
        ensures Normalize(nfc, n[j].1) == n[j].1
      {
        assert sorted[j] in fs;
        NormalizeIdempotent(nfc, sorted[j].1);
      }
    case _ =>
  }

  /**
   * The canonical payload of a dict with distinct keys does not depend on
   * the order in which its keys were inserted.
   */
  lemma NormalizeIgnoresKeyOrder(nfc: Normalizer, fs: Fields, gs: Fields)
    requires DistinctKeys(fs) && multiset(fs) == multiset(gs)
    ensures Normalize(nfc, Obj(fs)) == Normalize(nfc, Obj(gs))
  {
    SortIgnoresOrder(fs, gs);
  }

  /**
   * The payload `compute_input_hash` builds, in its insertion order, for an
   * input without segments.
   */
  function BasePayload(fullText: string, schemaVersion: string, promptVersion: string): Fields {
    [("modality", Str("text")),
     ("full_text", Str(fullText)),
     ("segments", Arr([])),
     ("schema_version", Str(schemaVersion)),
     ("prompt_version", Str(promptVersion))]
  }

  /** The same payload after `_normalize_payload`: keys ascending, strings in NFC. */
  function CanonicalPayload(nfc: Normalizer, fullText: string, schemaVersion: string, promptVersion: string): Json {
    Obj([("full_text", Str(nfc(fullText))),
         ("modality", Str(nfc("text"))),
         ("prompt_version", Str(nfc(promptVersion))),
         ("schema_version", Str(nfc(schemaVersion))),
         ("segments", Arr([]))])
  }

  /** The five payload keys in ascending order. */
  function SortedBase(fullText: string, schemaVersion: string, promptVersion: string): Fields {
    [("full_text", Str(fullText)),
     ("modality", Str("text")),
     ("prompt_version", Str(promptVersion)),
     ("schema_version", Str(schemaVersion)),
     ("segments", Arr([]))]
  }

  lemma SortedBaseIsSorted(fullText: string, schemaVersion: string, promptVersion: string)
    ensures SortedKeys(SortedBase(fullText, schemaVersion, promptVersion))
  {
    var sorted := SortedBase(fullText, schemaVersion, promptVersion);
    assert KeyLe("full_text", "modality") && KeyLe("modality", "prompt_version");
    assert KeyLe("prompt_version", "schema_version") && KeyLe("schema_version", "segments");
    forall i, j | 0 <= i < j < |sorted|
      ensures KeyLe(sorted[i].0, sorted[j].0)
    {
      if j > i + 1 {
        KeyLeTransitive(sorted[i].0, sorted[j - 1].0, sorted[j].0);
      }
    }
  }

  lemma SortBase(fullText: string, schemaVersion: string, promptVersion: string)
    ensures Sort(BasePayload(fullText, schemaVersion, promptVersion)) == SortedBase(fullText, schemaVersion, promptVersion)
  {
    var base := BasePayload(fullText, schemaVersion, promptVersion);
    var sorted := SortedBase(fullText, schemaVersion, promptVersion);
    SortedBaseIsSorted(fullText, schemaVersion, promptVersion);
    SortedBaseIsPermutation(fullText, schemaVersion, promptVersion);
    BaseKeysDistinct(fullText, schemaVersion, promptVersion);
    SortKeepsDistinct(base);
    SortedUnique(Sort(base), sorted);
  }

  lemma SortedBaseIsPermutation(fullText: string, schemaVersion: string, promptVersion: string)
    ensures multiset(SortedBase(fullText, schemaVersion, promptVersion))
         == multiset(BasePayload(fullText, schemaVersion, promptVersion))
  {
    var base := BasePayload(fullText, schemaVersion, promptVersion);
    assert SortedBase(fullText, schemaVersion, promptVersion) == [base[1], base[0], base[4], base[3], base[2]];
  }

  lemma BaseKeysDistinct(fullText: string, schemaVersion: string, promptVersion: string)
    ensures DistinctKeys(BasePayload(fullText, schemaVersion, promptVersion))
  {
  }

  lemma CanonicalForm(nfc: Normalizer, fullText: string, schemaVersion: string, promptVersion: string)
    ensures Normalize(nfc, Obj(BasePayload(fullText, schemaVersion, promptVersion)))
         == CanonicalPayload(nfc, fullText, schemaVersion, promptVersion)
  {
    var sorted := SortedBase(fullText, schemaVersion, promptVersion);
    var c := CanonicalPayload(nfc, fullText, schemaVersion, promptVersion).fields;
    assert Normalize(nfc, Arr([])) == Arr([]);
    assert forall i :: 0 <= i < 5 ==> c[i] == (sorted[i].0, Normalize(nfc, sorted[i].1));
    SortBase(fullText, schemaVersion, promptVersion);
    NormalizeObj(nfc, BasePayload(fullText, schemaVersion, promptVersion), sorted, c);
  }

  /** A dict normalises to its sorted pairs with normalised values. */
  lemma NormalizeObj(nfc: Normalizer, fs: Fields, sorted: Fields, out: Fields)
    requires Sort(fs) == sorted && |out| == |sorted|
    requires forall i :: 0 <= i < |sorted| ==> out[i] == (sorted[i].0, Normalize(nfc, sorted[i].1))
    ensures Normalize(nfc, Obj(fs)) == Obj(out)
  {
  }

  /**
   * `compute_input_hash`, up to the digest.  The segment objects are left as
   * they are by `_normalize_payload` and `json.dumps` cannot serialise
   * them, so any input with segments raises `TypeError`; otherwise the key
   * is the normalised payload, which `CanonicalForm` spells out.
   */
  function ComputeInputHash(
    nfc: Normalizer, input: StructuringInput, schemaVersion: string, promptVersion: string): (r: Outcome<Json>)
    ensures r.Raise? <==> input.segments != []
    ensures r.Raise? ==> r.exc == TypeError
  {
    if input.segments != [] then Raise(TypeError)
    else Ok(CanonicalPayload(nfc, input.fullText, schemaVersion, promptVersion))
  }

  /** The key is `_normalize_payload` of the five-key base payload. */
  lemma KeyIsNormalizedPayload(
    nfc: Normalizer, input: StructuringInput, schemaVersion: string, promptVersion: string)
    requires input.segments == []
    ensures ComputeInputHash(nfc, input, schemaVersion, promptVersion)
         == Ok(Normalize(nfc, Obj(BasePayload(input.fullText, schemaVersion, promptVersion))))
  {
    CanonicalForm(nfc, input.fullText, schemaVersion, promptVersion);
  }

  /**
   * Two segment-free inputs share a cache key exactly when their full texts
   * and version strings agree after NFC; language and source type never
   * matter.
   */
  lemma SameKeyIffNfcEqual(
    nfc: Normalizer, a: StructuringInput, b: StructuringInput,
    sa: string, pa: string, sb: string, pb: string)
    requires a.segments == [] && b.segments == []
    ensures ComputeInputHash(nfc, a, sa, pa) == ComputeInputHash(nfc, b, sb, pb)
        <==> nfc(a.fullText) == nfc(b.fullText) && nfc(sa) == nfc(sb) && nfc(pa) == nfc(pb)
  {
    var ca := CanonicalPayload(nfc, a.fullText, sa, pa);
    var cb := CanonicalPayload(nfc, b.fullText, sb, pb);
    if ca == cb {
      assert ca.fields[0] == cb.fields[0] && ca.fields[2] == cb.fields[2] && ca.fields[3] == cb.fields[3];
    }
  }
}
