/**
 * What `apply_anchors` guarantees: the document keeps its shape, only the
 * "evidence_anchor" entries of span-carrying dicts change, each written
 * anchor locates its span, and applying anchors twice is applying them once.
 */
module AnchorApplyFacts {
  import opened Outcomes
  import opened JsonValues
  import opened Text
  import opened AnchorMatcher
  import opened AnchorApply

  /** No pair at or after index `i` has the key "evidence_anchor". */
  predicate NoAnchorKeyFrom(fs: Fields, i: nat) {
    forall k :: i <= k < |fs| ==> fs[k].0 != "evidence_anchor"
  }

  /** The walk over the pairs from index `i` keeps their keys in order and appends at most the anchor pair. */
  lemma {:induction false} FieldsKeys(nfc: Normalizer, full: string, node: Json, i: nat, anchor: Option<Json>)
    requires node.Obj? && i <= |node.fields|
    requires WalkFields(nfc, full, node, i, anchor).Ok?
    ensures
      var fs := node.fields;
      var out := WalkFields(nfc, full, node, i, anchor).value;
      && |out| == |fs| - i + (if anchor.Some? && NoAnchorKeyFrom(fs, i) then 1 else 0)
      && (forall j :: i <= j < |fs| ==> out[j - i].0 == fs[j].0)
    decreases |node.fields| - i
  {
    var fs := node.fields;
    if i == |fs| {
    } else if anchor.Some? && fs[i].0 == "evidence_anchor" {
      var rest := WalkFields(nfc, full, node, i + 1, None).value;
      assert WalkFields(nfc, full, node, i, anchor).value == [(fs[i].0, anchor.value)] + rest;
      FieldsKeys(nfc, full, node, i + 1, None);
    } else {
      var v := Walk(nfc, full, fs[i].1).value;
      var rest := WalkFields(nfc, full, node, i + 1, anchor).value;
      assert WalkFields(nfc, full, node, i, anchor).value == [(fs[i].0, v)] + rest;
      FieldsKeys(nfc, full, node, i + 1, anchor);
    }
  }

  /** Every value from index `i` on is walked, except the anchor pair that is overwritten. */
  lemma {:induction false} FieldsValues(nfc: Normalizer, full: string, node: Json, i: nat, anchor: Option<Json>)
    requires node.Obj? && i <= |node.fields|
    requires WalkFields(nfc, full, node, i, anchor).Ok?
    ensures
      var fs := node.fields;
      var out := WalkFields(nfc, full, node, i, anchor).value;
      && |out| >= |fs| - i
      && (forall j :: i <= j < |fs| ==>
            Walk(nfc, full, fs[j].1) == Ok(out[j - i].1) || (anchor.Some? && fs[j].0 == "evidence_anchor"))
    decreases |node.fields| - i
  {
    var fs := node.fields;
    if i < |fs| {
      var out := WalkFields(nfc, full, node, i, anchor).value;
      var next := if anchor.Some? && fs[i].0 == "evidence_anchor" then None else anchor;
      var head := if next.None? && anchor.Some? then anchor.value else Walk(nfc, full, fs[i].1).value;
      var rest := WalkFields(nfc, full, node, i + 1, next).value;
      assert out == [(fs[i].0, head)] + rest;
      FieldsValues(nfc, full, node, i + 1, next);
      forall j | i < j < |fs| && (Walk(nfc, full, fs[j].1) != Ok(out[j - i].1))
        ensures anchor.Some? && fs[j].0 == "evidence_anchor"
      {
        assert out[j - i] == rest[j - (i + 1)];
      }
    }
  }

  /** The anchor lands on the first "evidence_anchor" pair from index `i` on, or is appended. */
  lemma {:induction false} FieldsAnchor(nfc: Normalizer, full: string, node: Json, i: nat, anchor: Option<Json>)
    requires node.Obj? && i <= |node.fields|
    requires WalkFields(nfc, full, node, i, anchor).Ok?
    requires anchor.Some?
    ensures
      var fs := node.fields;
      var out := WalkFields(nfc, full, node, i, anchor).value;
      && |out| >= |fs| - i + (if NoAnchorKeyFrom(fs, i) then 1 else 0)
      && (!NoAnchorKeyFrom(fs, i) ==>
            0 <= IndexOf(fs[i..], "evidence_anchor") && out[IndexOf(fs[i..], "evidence_anchor")].1 == anchor.value)
      && (NoAnchorKeyFrom(fs, i) ==> out[|fs| - i] == ("evidence_anchor", anchor.value))
    decreases |node.fields| - i
  {
    var fs := node.fields;
    FieldsKeys(nfc, full, node, i, anchor);
    if i == |fs| {
    } else if fs[i].0 == "evidence_anchor" {
      assert IndexOf(fs[i..], "evidence_anchor") == 0;
    } else {
      var v := Walk(nfc, full, fs[i].1).value;
      var rest := WalkFields(nfc, full, node, i + 1, anchor).value;
      assert WalkFields(nfc, full, node, i, anchor).value == [(fs[i].0, v)] + rest;
      FieldsAnchor(nfc, full, node, i + 1, anchor);
      assert fs[i..][1..] == fs[i + 1..];
      if !NoAnchorKeyFrom(fs, i) {
        assert !NoAnchorKeyFrom(fs, i + 1);
      }
    }
  }

  lemma {:induction false} ItemsShape(nfc: Normalizer, full: string, node: Json, i: nat)
    requires node.Arr? && i <= |node.items|
    requires WalkItems(nfc, full, node, i).Ok?
    ensures
      var out := WalkItems(nfc, full, node, i).value;
      && |out| == |node.items| - i
      && forall j :: i <= j < |node.items| ==> Walk(nfc, full, node.items[j]) == Ok(out[j - i])
    decreases |node.items| - i
  {
    if i < |node.items| {
      ItemsShape(nfc, full, node, i + 1);
    }
  }

  /** Two pair lists whose keys agree on the first one's length find a key at the same place. */
  lemma IndexOfSameKeys(fs: Fields, gs: Fields, k: string)
    requires |fs| <= |gs| && forall j :: 0 <= j < |fs| ==> gs[j].0 == fs[j].0
    requires HasKey(fs, k)
    ensures IndexOf(gs, k) == IndexOf(fs, k)
  {
    var r := IndexOf(fs, k);
    assert gs[r].0 == k;
    assert HasKey(gs, k);
  }

  /**
   * Applying anchors to a dict keeps its keys in order and walks every value;
   * the only exception is a dict with a truthy "evidence_span", whose first
   * "evidence_anchor" pair is set to the matcher's result (a new pair is
   * appended when there was none).
   */
  lemma ApplyDictShape(nfc: Normalizer, full: string, node: Json)
    requires node.Obj? && Walk(nfc, full, node).Ok?
    ensures
      var fs := node.fields;
      var out := Walk(nfc, full, node).value;
      && out.Obj?
      && |fs| <= |out.fields| <= |fs| + 1
      && (forall j :: 0 <= j < |fs| ==> out.fields[j].0 == fs[j].0)
      && (forall j :: 0 <= j < |fs| && (fs[j].0 != "evidence_anchor" || !CarriesSpan(fs)) ==>
            Walk(nfc, full, fs[j].1) == Ok(out.fields[j].1))
      && (|out.fields| == |fs| + 1 ==>
            CarriesSpan(fs) && !HasKey(fs, "evidence_anchor") && out.fields[|fs|].0 == "evidence_anchor")
  {
    var fs := node.fields;
    if CarriesSpan(fs) {
      var a := MatchSpec(nfc, full, Get(fs, "evidence_span")).value;
      var anchor := Some(AnchorValue(a));
      assert Walk(nfc, full, node).value.fields == WalkFields(nfc, full, node, 0, anchor).value;
      DictFieldsShape(nfc, full, node, anchor);
    } else {
      assert Walk(nfc, full, node).value.fields == WalkFields(nfc, full, node, 0, None).value;
      DictFieldsShape(nfc, full, node, None);
    }
  }

  /** The whole loop over a dict's pairs, with or without an anchor to write. */
  lemma DictFieldsShape(nfc: Normalizer, full: string, node: Json, anchor: Option<Json>)
    requires node.Obj? && WalkFields(nfc, full, node, 0, anchor).Ok?
    ensures
      var fs := node.fields;
      var out := WalkFields(nfc, full, node, 0, anchor).value;
      && |fs| <= |out| <= |fs| + 1
      && (forall j :: 0 <= j < |fs| ==> out[j].0 == fs[j].0)
      && (forall j :: 0 <= j < |fs| && (fs[j].0 != "evidence_anchor" || anchor.None?) ==>
            Walk(nfc, full, fs[j].1) == Ok(out[j].1))
      && (|out| == |fs| + 1 ==>
            anchor.Some? && !HasKey(fs, "evidence_anchor") && out[|fs|].0 == "evidence_anchor")
  {
    var fs := node.fields;
    var out := WalkFields(nfc, full, node, 0, anchor).value;
    FieldsKeys(nfc, full, node, 0, anchor);
    FieldsValues(nfc, full, node, 0, anchor);
    forall j | 0 <= j < |fs| && (fs[j].0 != "evidence_anchor" || anchor.None?)
      ensures Walk(nfc, full, fs[j].1) == Ok(out[j].1)
    {
      assert out[j - 0] == out[j];
    }
    if |out| == |fs| + 1 {
      assert anchor.Some? && NoAnchorKeyFrom(fs, 0);
      FieldsAnchor(nfc, full, node, 0, anchor);
      NoAnchorKeyNotHasKey(fs);
    }
  }

  lemma NoAnchorKeyNotHasKey(fs: Fields)
    requires NoAnchorKeyFrom(fs, 0)
    ensures !HasKey(fs, "evidence_anchor")
  {
  }

  /** A dict with a truthy "evidence_span" reads back the matcher's result under "evidence_anchor". */
  lemma ApplyDictAnchor(nfc: Normalizer, full: string, node: Json)
    requires node.Obj? && CarriesSpan(node.fields) && Walk(nfc, full, node).Ok?
    ensures MatchSpec(nfc, full, Get(node.fields, "evidence_span")).Ok?
    ensures Get(Walk(nfc, full, node).value.fields, "evidence_anchor")
         == AnchorValue(MatchSpec(nfc, full, Get(node.fields, "evidence_span")).value)
  {
    var a := MatchSpec(nfc, full, Get(node.fields, "evidence_span")).value;
    AnchorReadBack(nfc, full, node, AnchorValue(a));
  }

  lemma AnchorReadBack(nfc: Normalizer, full: string, node: Json, anchor: Json)
    requires node.Obj? && WalkFields(nfc, full, node, 0, Some(anchor)).Ok?
    ensures Get(WalkFields(nfc, full, node, 0, Some(anchor)).value, "evidence_anchor") == anchor
  {
    var fs := node.fields;
    var out := WalkFields(nfc, full, node, 0, Some(anchor)).value;
    FieldsKeys(nfc, full, node, 0, Some(anchor));
    FieldsAnchor(nfc, full, node, 0, Some(anchor));
    assert fs[0..] == fs;
    if HasKey(fs, "evidence_anchor") {
      IndexOfSameKeys(fs, out, "evidence_anchor");
    } else {
      assert NoAnchorKeyFrom(fs, 0);
      assert out[|fs|].0 == "evidence_anchor";
      forall j | 0 <= j < |fs|
        ensures out[j].0 != "evidence_anchor"
      {
        assert out[j - 0].0 == fs[j].0;
      }
      assert HasKey(out, "evidence_anchor");
      assert IndexOf(out, "evidence_anchor") == |fs|;
    }
  }

  /** Walking never turns a truthy value into a falsy one or back. */
  lemma WalkKeepsTruthiness(nfc: Normalizer, full: string, v: Json)
    requires Walk(nfc, full, v).Ok?
    ensures Truthy(Walk(nfc, full, v).value) == Truthy(v)
  {
    match v
    case Obj(fs) => ApplyDictShape(nfc, full, v);
    case Arr(items) => ItemsShape(nfc, full, v, 0);
    case _ =>
  }

  /**
   * Walking the walked dict reaches the same "evidence_span" decision with
   * the same span value.
   */
  lemma SpanDecisionKept(nfc: Normalizer, full: string, node: Json)
    requires node.Obj? && Walk(nfc, full, node).Ok?
    ensures
      var out := Walk(nfc, full, node).value;
      && CarriesSpan(out.fields) == CarriesSpan(node.fields)
      && (CarriesSpan(node.fields) ==> Get(out.fields, "evidence_span") == Get(node.fields, "evidence_span"))
  {
    var fs := node.fields;
    var out := Walk(nfc, full, node).value;
    ApplyDictShape(nfc, full, node);
    if HasKey(fs, "evidence_span") {
      IndexOfSameKeys(fs, out.fields, "evidence_span");
      var p := IndexOf(fs, "evidence_span");
      assert Walk(nfc, full, fs[p].1) == Ok(out.fields[p].1);
      WalkKeepsTruthiness(nfc, full, fs[p].1);
    } else {
      assert !HasKey(out.fields, "evidence_span");
    }
  }

  /** `apply_anchors` is idempotent: a second pass over its result changes nothing. */
  lemma {:induction false} WalkIdempotent(nfc: Normalizer, full: string, node: Json)
    requires Walk(nfc, full, node).Ok?
    ensures Walk(nfc, full, Walk(nfc, full, node).value) == Walk(nfc, full, node)
    decreases node
  {
    match node
    case Obj(fs) =>
      var out := Walk(nfc, full, node).value;
      SpanDecisionKept(nfc, full, node);
      assert out.fields[0..] == out.fields;
      if CarriesSpan(fs) {
        var a := MatchSpec(nfc, full, Get(fs, "evidence_span")).value;
        FieldsIdempotent(nfc, full, node, out, 0, Some(AnchorValue(a)));
      } else {
        FieldsIdempotent(nfc, full, node, out, 0, None);
      }
    case Arr(items) =>
      var out := Walk(nfc, full, node).value;
      assert out.items[0..] == out.items;
      ItemsIdempotent(nfc, full, node, out, 0);
    case _ =>
  }

  lemma {:induction false} FieldsIdempotent(
    nfc: Normalizer, full: string, node: Json, node1: Json, i: nat, anchor: Option<Json>)
    requires node.Obj? && node1.Obj? && i <= |node.fields| && i <= |node1.fields|
    requires WalkFields(nfc, full, node, i, anchor) == Ok(node1.fields[i..])
    ensures WalkFields(nfc, full, node1, i, anchor) == Ok(node1.fields[i..])
    decreases node, |node.fields| - i
  {
    var fs := node.fields;
    var gs := node1.fields;
    if i == |fs| {
      if anchor.Some? {
        assert gs[i..] == [("evidence_anchor", anchor.value)];
        assert |gs| == i + 1 && gs[i].0 == "evidence_anchor";
        assert WalkFields(nfc, full, node1, i + 1, None) == Ok([]);
        assert [(gs[i].0, anchor.value)] + [] == gs[i..];
      }
    } else if anchor.Some? && fs[i].0 == "evidence_anchor" {
      var rest := WalkFields(nfc, full, node, i + 1, None).value;
      assert gs[i..] == [(fs[i].0, anchor.value)] + rest;
      assert gs[i + 1..] == gs[i..][1..];
      FieldsIdempotent(nfc, full, node, node1, i + 1, None);
    } else {
      var v := Walk(nfc, full, fs[i].1).value;
      var rest := WalkFields(nfc, full, node, i + 1, anchor).value;
      assert gs[i..] == [(fs[i].0, v)] + rest;
      assert gs[i + 1..] == gs[i..][1..];
      WalkIdempotent(nfc, full, fs[i].1);
      FieldsIdempotent(nfc, full, node, node1, i + 1, anchor);
    }
  }

  lemma {:induction false} ItemsIdempotent(nfc: Normalizer, full: string, node: Json, node1: Json, i: nat)
    requires node.Arr? && node1.Arr? && i <= |node.items| && i <= |node1.items|
    requires WalkItems(nfc, full, node, i) == Ok(node1.items[i..])
    ensures WalkItems(nfc, full, node1, i) == Ok(node1.items[i..])
    decreases node, |node.items| - i
  {
    var xs := node.items;
    var ys := node1.items;
    if i < |xs| {
      var v := Walk(nfc, full, xs[i]).value;
      var rest := WalkItems(nfc, full, node, i + 1).value;
      assert ys[i..] == [v] + rest;
      assert ys[i + 1..] == ys[i..][1..];
      WalkIdempotent(nfc, full, xs[i]);
      ItemsIdempotent(nfc, full, node, node1, i + 1);
    }
  }
}
