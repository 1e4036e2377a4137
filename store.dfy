/**
 * `collect_anchors`: lists every dict of an anchored document that has an
 * "evidence_anchor" key, in document order, with the JSONPath-like location
 * of the dict ("$", then ".key" and "[index]" steps).
 */
module AnchorStore {
  import opened Outcomes
  import opened JsonValues
  import opened Text

  /** The anchor part of a record: `{"modality": "text", "start_char": …, "end_char": …}` */
  datatype StoredAnchor = StoredAnchor(modality: string, startChar: Json, endChar: Json)

  /** One element of the list `collect_anchors` returns. */
  datatype AnchorRecord = AnchorRecord(jsonPath: string, evidenceSpan: Json, evidenceAnchor: Option<StoredAnchor>)

  /**
   * The record for a dict that has the key "evidence_anchor".  A raw anchor
   * that is neither `None` nor a dict has no `.get`, so Python raises.
   */
  function RecordOf(fs: Fields, path: string): (r: Outcome<AnchorRecord>)
    ensures r.Raise? <==> Get(fs, "evidence_anchor") != Null && !Get(fs, "evidence_anchor").Obj?
    ensures r.Ok? ==>
      && r.value.jsonPath == path
      && r.value.evidenceSpan == Get(fs, "evidence_span")
      && (r.value.evidenceAnchor.None? <==> Get(fs, "evidence_anchor") == Null)
      && (r.value.evidenceAnchor.Some? ==>
            var raw := Get(fs, "evidence_anchor").fields;
            r.value.evidenceAnchor.value == StoredAnchor("text", Get(raw, "start_char"), Get(raw, "end_char")))
  {
    var raw := Get(fs, "evidence_anchor");
    if raw == Null then
      Ok(AnchorRecord(path, Get(fs, "evidence_span"), None))
    else if !raw.Obj? then
      Raise(AttributeError)
    else
      Ok(AnchorRecord(path, Get(fs, "evidence_span"),
                      Some(StoredAnchor("text", Get(raw.fields, "start_char"), Get(raw.fields, "end_char")))))
  }

  function Prepend(out: seq<AnchorRecord>, rest: Outcome<seq<AnchorRecord>>): Outcome<seq<AnchorRecord>> {
    match rest
    case Raise(e) => Raise(e)
    case Ok(xs) => Ok(out + xs)
  }

  /** The records `walk(node, path)` appends, in order. */
  function Collect(node: Json, path: string): Outcome<seq<AnchorRecord>>
    decreases node
  {
    match node
    case Obj(fs) =>
      if HasKey(fs, "evidence_anchor") then
        var rec :- RecordOf(fs, path);
        Prepend([rec], CollectFields(node, path, 0))
      else
        CollectFields(node, path, 0)
    case Arr(_) => CollectItems(node, path, 0)
    case _ => Ok([])
  }

  /** The loop over `node.items()` from pair `i` on. */
  function CollectFields(node: Json, path: string, i: nat): Outcome<seq<AnchorRecord>>
    requires node.Obj? && i <= |node.fields|
    decreases node, |node.fields| - i
  {
    if i == |node.fields| then Ok([])
    else
      var here :- Collect(node.fields[i].1, path + "." + node.fields[i].0);
      Prepend(here, CollectFields(node, path, i + 1))
  }

  /** The loop over `enumerate(node)` from item `i` on. */
  function CollectItems(node: Json, path: string, i: nat): Outcome<seq<AnchorRecord>>
    requires node.Arr? && i <= |node.items|
    decreases node, |node.items| - i
  {
    if i == |node.items| then Ok([])
    else
      var here :- Collect(node.items[i], path + "[" + IntToString(i) + "]");
      Prepend(here, CollectItems(node, path, i + 1))
  }

  /** Dicts holding the key "evidence_anchor", counted over the whole document. */
  function AnchorDicts(node: Json): nat
    decreases node
  {
    match node
    case Obj(fs) => (if HasKey(fs, "evidence_anchor") then 1 else 0) + AnchorDictsInFields(node, 0)
    case Arr(_) => AnchorDictsInItems(node, 0)
    case _ => 0
  }

  function AnchorDictsInFields(node: Json, i: nat): nat
    requires node.Obj? && i <= |node.fields|
    decreases node, |node.fields| - i
  {
    if i == |node.fields| then 0 else AnchorDicts(node.fields[i].1) + AnchorDictsInFields(node, i + 1)
  }

  function AnchorDictsInItems(node: Json, i: nat): nat
    requires node.Arr? && i <= |node.items|
    decreases node, |node.items| - i
  {
    if i == |node.items| then 0 else AnchorDicts(node.items[i]) + AnchorDictsInItems(node, i + 1)
  }

  /** `collect_anchors` returns one record per dict that has an "evidence_anchor" key. */
  lemma {:induction false} CollectCountsAnchorDicts(node: Json, path: string)
    requires Collect(node, path).Ok?
    ensures |Collect(node, path).value| == AnchorDicts(node)
    decreases node
  {
    match node
    case Obj(fs) => FieldsCount(node, path, 0);
    case Arr(_) => ItemsCount(node, path, 0);
    case _ =>
  }

  lemma {:induction false} FieldsCount(node: Json, path: string, i: nat)
    requires node.Obj? && i <= |node.fields| && CollectFields(node, path, i).Ok?
    ensures |CollectFields(node, path, i).value| == AnchorDictsInFields(node, i)
    decreases node, |node.fields| - i
  {
    if i < |node.fields| {
      CollectCountsAnchorDicts(node.fields[i].1, path + "." + node.fields[i].0);
      FieldsCount(node, path, i + 1);
    }
  }

  lemma {:induction false} ItemsCount(node: Json, path: string, i: nat)
    requires node.Arr? && i <= |node.items| && CollectItems(node, path, i).Ok?
    ensures |CollectItems(node, path, i).value| == AnchorDictsInItems(node, i)
    decreases node, |node.items| - i
  {
    if i < |node.items| {
      CollectCountsAnchorDicts(node.items[i], path + "[" + IntToString(i) + "]");
      ItemsCount(node, path, i + 1);
    }
  }

  /** A dict holding "evidence_anchor" is reported first, at the path it was reached by. */
  lemma DictReportedFirst(node: Json, path: string)
    requires node.Obj? && HasKey(node.fields, "evidence_anchor") && Collect(node, path).Ok?
    ensures |Collect(node, path).value| >= 1
    ensures Collect(node, path).value[0] == RecordOf(node.fields, path).value
  {
  }

  lemma PrependAssoc(acc: seq<AnchorRecord>, here: seq<AnchorRecord>, rest: Outcome<seq<AnchorRecord>>)
    ensures Prepend(acc, Prepend(here, rest)) == Prepend(acc + here, rest)
  {
    if rest.Ok? {
      assert acc + (here + rest.value) == acc + here + rest.value;
    }
  }

  /** `collect_anchors(structuring_result)` */
  method CollectAnchors(structuringResult: Json) returns (r: Outcome<seq<AnchorRecord>>)
    ensures r == Collect(structuringResult, "$")
  {
    r := WalkNode(structuringResult, "$", []);
    assert Prepend([], Collect(structuringResult, "$")) == Collect(structuringResult, "$") by {
      var c := Collect(structuringResult, "$");
      if c.Ok? {
        assert [] + c.value == c.value;
      }
    }
  }

  /** `walk(node, path)`: appends to the records `anchors` collected so far. */
  method WalkNode(node: Json, path: string, anchors: seq<AnchorRecord>) returns (r: Outcome<seq<AnchorRecord>>)
    ensures r == Prepend(anchors, Collect(node, path))
    decreases node, 1
  {
    if node.Obj? {
      var acc := anchors;
      if HasKey(node.fields, "evidence_anchor") {
        var rec := RecordOf(node.fields, path);
        if rec.Raise? {
          return Raise(rec.exc);
        }
        acc := acc + [rec.value];
      }
      r := WalkFields(node, path, acc);
      if HasKey(node.fields, "evidence_anchor") && r.Ok? {
        assert anchors + ([acc[|acc| - 1]] + (r.value[|acc|..])) == r.value;
      }
    } else if node.Arr? {
      r := WalkItems(node, path, anchors);
    } else {
      r := Ok(anchors);
      assert anchors + [] == anchors;
    }
  }

  method WalkFields(node: Json, path: string, anchors: seq<AnchorRecord>) returns (r: Outcome<seq<AnchorRecord>>)
    requires node.Obj?
    ensures r == Prepend(anchors, CollectFields(node, path, 0))
    decreases node, 0
  {
    var fs := node.fields;
    var acc := anchors;
    var i := 0;
    while i < |fs|
      invariant 0 <= i <= |fs|
      invariant Prepend(anchors, CollectFields(node, path, 0)) == Prepend(acc, CollectFields(node, path, i))
    {
      var fieldPath := path + "." + fs[i].0;
      var next := WalkNode(fs[i].1, fieldPath, acc);
      if next.Raise? {
        return Raise(next.exc);
      }
      PrependAssoc(acc, Collect(fs[i].1, fieldPath).value, CollectFields(node, path, i + 1));
      acc := next.value;
      i := i + 1;
    }
    assert acc + [] == acc;
    return Ok(acc);
  }

  method WalkItems(node: Json, path: string, anchors: seq<AnchorRecord>) returns (r: Outcome<seq<AnchorRecord>>)
    requires node.Arr?
    ensures r == Prepend(anchors, CollectItems(node, path, 0))
    decreases node, 0
  {
    var items := node.items;
    var acc := anchors;
    var i := 0;
    while i < |items|
      invariant 0 <= i <= |items|
      invariant Prepend(anchors, CollectItems(node, path, 0)) == Prepend(acc, CollectItems(node, path, i))
    {
      var itemPath := path + "[" + IntToString(i) + "]";
      var next := WalkNode(items[i], itemPath, acc);
      if next.Raise? {
        return Raise(next.exc);
      }
      PrependAssoc(acc, Collect(items[i], itemPath).value, CollectItems(node, path, i + 1));
      acc := next.value;
      i := i + 1;
    }
    assert acc + [] == acc;
    return Ok(acc);
  }
}
