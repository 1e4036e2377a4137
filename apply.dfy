/**
 * `apply_anchors`: writes an "evidence_anchor" entry into every dict of a
 * structuring result that carries a truthy "evidence_span".
 *
 * The source deep-copies the document and then updates the dicts of the
 * copy in place; here the walk rebuilds the document, which is the same
 * value and leaves the caller's document untouched in the same way.
 */
module AnchorApply {
  import opened Outcomes
  import opened JsonValues
  import opened Text
  import opened AnchorMatcher

  /** The value written to `node["evidence_anchor"]` for a matcher result. */
  function AnchorValue(a: Option<EvidenceAnchor>): (j: Json)
    ensures a.None? <==> j == Null
    ensures a.Some? ==>
      j.Obj? && Get(j.fields, "start_char") == Int(a.value.startChar)
      && Get(j.fields, "end_char") == Int(a.value.endChar)
      && !HasKey(j.fields, "modality")
  {
    match a
    case None => Null
    case Some(x) =>
      var fs := [("start_char", Int(x.startChar)), ("end_char", Int(x.endChar))];
      assert fs[0].0[0] != 'e';
      assert IndexOf(fs, "end_char") == 1;
      assert fs[0].0[0] != 'm' && fs[1].0[0] != 'm';
      Obj(fs)
  }

  /** The node has a key "evidence_span" whose value is truthy. */
  predicate CarriesSpan(fs: Fields) {
    HasKey(fs, "evidence_span") && Truthy(Get(fs, "evidence_span"))
  }

  /** Prefix `out` to the fields produced by the rest of the walk. */
  function PrependFields(out: Fields, rest: Outcome<Fields>): Outcome<Fields> {
    match rest
    case Raise(e) => Raise(e)
    case Ok(fs) => Ok(out + fs)
  }

  function PrependItems(out: seq<Json>, rest: Outcome<seq<Json>>): Outcome<seq<Json>> {
    match rest
    case Raise(e) => Raise(e)
    case Ok(xs) => Ok(out + xs)
  }

  lemma PrependFieldsNothing(rest: Outcome<Fields>)
    ensures PrependFields([], rest) == rest
  {
    if rest.Ok? {
      assert [] + rest.value == rest.value;
    }
  }

  lemma PrependFieldsStep(out: Fields, f: (string, Json), rest: Outcome<Fields>)
    ensures PrependFields(out, PrependFields([f], rest)) == PrependFields(out + [f], rest)
  {
    if rest.Ok? {
      assert out + ([f] + rest.value) == out + [f] + rest.value;
    }
  }

  lemma PrependItemsNothing(rest: Outcome<seq<Json>>)
    ensures PrependItems([], rest) == rest
  {
    if rest.Ok? {
      assert [] + rest.value == rest.value;
    }
  }

  lemma PrependItemsStep(out: seq<Json>, x: Json, rest: Outcome<seq<Json>>)
    ensures PrependItems(out, PrependItems([x], rest)) == PrependItems(out + [x], rest)
  {
    if rest.Ok? {
      assert out + ([x] + rest.value) == out + [x] + rest.value;
    }
  }

  /** `walk(node)` over the normalised transcript `full`. */
  ghost function Walk(nfc: Normalizer, full: string, node: Json): Outcome<Json>
    decreases node
  {
    match node
    case Obj(fs) =>
      if CarriesSpan(fs) then
        var a :- MatchSpec(nfc, full, Get(fs, "evidence_span"));
        var fs' :- WalkFields(nfc, full, node, 0, Some(AnchorValue(a)));
        Ok(Obj(fs'))
      else
        var fs' :- WalkFields(nfc, full, node, 0, None);
        Ok(Obj(fs'))
    case Arr(items) =>
      var items' :- WalkItems(nfc, full, node, 0);
      Ok(Arr(items'))
    case _ => Ok(node)
  }

  /**
   * The loop over `node.values()`, from the pair at index `i` on, after
   * `node["evidence_anchor"] = anchor` when `anchor` is present: the written
   * value replaces the first "evidence_anchor" pair, or is appended after the
   * last pair.  Walking the written value changes nothing (it holds no
   * "evidence_span"), so it is kept as is.
   */
  ghost function WalkFields(nfc: Normalizer, full: string, node: Json, i: nat, anchor: Option<Json>)
    : Outcome<Fields>
    requires node.Obj? && i <= |node.fields|
    decreases node, |node.fields| - i
  {
    var fs := node.fields;
    if i == |fs| then
      if anchor.Some? then Ok([("evidence_anchor", anchor.value)]) else Ok([])
    else if anchor.Some? && fs[i].0 == "evidence_anchor" then
      PrependFields([(fs[i].0, anchor.value)], WalkFields(nfc, full, node, i + 1, None))
    else
      var v :- Walk(nfc, full, fs[i].1);
      PrependFields([(fs[i].0, v)], WalkFields(nfc, full, node, i + 1, anchor))
  }

  /** The loop over the items of a list, from index `i` on. */
  ghost function WalkItems(nfc: Normalizer, full: string, node: Json, i: nat): Outcome<seq<Json>>
    requires node.Arr? && i <= |node.items|
    decreases node, |node.items| - i
  {
    if i == |node.items| then Ok([])
    else
      var v :- Walk(nfc, full, node.items[i]);
      PrependItems([v], WalkItems(nfc, full, node, i + 1))
  }

  /** `apply_anchors(structuring_result, full_text, matcher)` */
  method ApplyAnchors(nfc: Normalizer, structuringResult: Json, fullText: string)
    returns (r: Outcome<Json>)
    ensures r == Walk(nfc, nfc(fullText), structuringResult)
  {
    var normalizedFullText := nfc(fullText);
    r := WalkNode(nfc, normalizedFullText, structuringResult);
  }

  /** The recursive `walk` of `apply_anchors`. */
  method WalkNode(nfc: Normalizer, full: string, node: Json) returns (r: Outcome<Json>)
    ensures r == Walk(nfc, full, node)
    decreases node, 2
  {
    if node.Obj? {
      r := WalkDict(nfc, full, node);
    } else if node.Arr? {
      r := WalkList(nfc, full, node);
    } else {
      r := Ok(node);
    }
  }

  /** `walk` on a dict: write the anchor, then walk every value. */
  method WalkDict(nfc: Normalizer, full: string, node: Json) returns (r: Outcome<Json>)
    requires node.Obj?
    ensures r == Walk(nfc, full, node)
    decreases node, 1
  {
    var fs := node.fields;
    var anchor: Option<Json> := None;
    if CarriesSpan(fs) {
      var m := Match(nfc, full, Get(fs, "evidence_span"));
      if m.Raise? {
        return Raise(m.exc);
      }
      anchor := Some(AnchorValue(m.value));
    }
    var out :- WalkDictFields(nfc, full, node, anchor);
    return Ok(Obj(out));
  }

  /** The loop over the values of a dict, with the anchor to write, if any. */
  method WalkDictFields(nfc: Normalizer, full: string, node: Json, anchor: Option<Json>)
    returns (r: Outcome<Fields>)
    requires node.Obj?
    ensures r == WalkFields(nfc, full, node, 0, anchor)
    decreases node, 0
  {
    var fs := node.fields;
    var out: Fields := [];
    var pending := anchor;
    var i := 0;
    PrependFieldsNothing(WalkFields(nfc, full, node, 0, anchor));
    while i < |fs|
      invariant 0 <= i <= |fs|
      invariant WalkFields(nfc, full, node, 0, anchor)
             == PrependFields(out, WalkFields(nfc, full, node, i, pending))
    {
      if pending.Some? && fs[i].0 == "evidence_anchor" {
        PrependFieldsStep(out, (fs[i].0, pending.value), WalkFields(nfc, full, node, i + 1, None));
        out := out + [(fs[i].0, pending.value)];
        pending := None;
      } else {
        var v := WalkNode(nfc, full, fs[i].1);
        if v.Raise? {
          return Raise(v.exc);
        }
        PrependFieldsStep(out, (fs[i].0, v.value), WalkFields(nfc, full, node, i + 1, pending));
        out := out + [(fs[i].0, v.value)];
      }
      i := i + 1;
    }
    if pending.Some? {
      out := out + [("evidence_anchor", pending.value)];
    } else {
      assert out + [] == out;
    }
    return Ok(out);
  }

  /** `walk` on a list: walk every item. */
  method WalkList(nfc: Normalizer, full: string, node: Json) returns (r: Outcome<Json>)
    requires node.Arr?
    ensures r == Walk(nfc, full, node)
    decreases node, 0
  {
    var items := node.items;
    var out: seq<Json> := [];
    var i := 0;
    PrependItemsNothing(WalkItems(nfc, full, node, 0));
    while i < |items|
      invariant 0 <= i <= |items|
      invariant WalkItems(nfc, full, node, 0) == PrependItems(out, WalkItems(nfc, full, node, i))
    {
      var v := WalkNode(nfc, full, items[i]);
      if v.Raise? {
        return Raise(v.exc);
      }
      PrependItemsStep(out, v.value, WalkItems(nfc, full, node, i + 1));
      out := out + [v.value];
      i := i + 1;
    }
    assert out + [] == out;
    return Ok(Arr(out));
  }
}
