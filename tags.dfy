/**
 * Evidence tags: what the anchor statistics, the structural validation and
 * the presence of confidence fields say about one structuring result.
 */
module EvidenceTags {
  import opened Outcomes
  import opened JsonValues
  import opened StructuringTypes

  /** The closed tag vocabulary. */
  datatype TagKind =
    | AnchorOk | AnchorNotFound | AnchorAmbiguous
    | StructValid | StructInvalid
    | ConfidencePresent | ConfidenceWithoutAnchor
  {
    function Name(): string {
      match this
      case AnchorOk => "ANCHOR_OK"
      case AnchorNotFound => "ANCHOR_NOT_FOUND"
      case AnchorAmbiguous => "ANCHOR_AMBIGUOUS"
      case StructValid => "STRUCT_VALID"
      case StructInvalid => "STRUCT_INVALID"
      case ConfidencePresent => "CONFIDENCE_PRESENT"
      case ConfidenceWithoutAnchor => "CONFIDENCE_WITHOUT_ANCHOR"
    }
  }

  datatype TagSource = AnchorSource | StructureSource | ConfidenceSource

  /** `EvidenceTag(tag, source, note)` */
  datatype EvidenceTag = EvidenceTag(tag: TagKind, source: TagSource, note: Option<string>)

  /** The set of tag values, `{t.tag for t in tags}`. */
  function KindsOf(tags: seq<EvidenceTag>): set<TagKind> {
    set i | 0 <= i < |tags| :: tags[i].tag
  }

  /**
   * `_has_confidence`: the dict's own keys are looked at one by one, each
   * followed by a search of its value; lists are searched item by item.
   */
  function HasConfidence(j: Json): bool
    decreases j, 1
  {
    match j
    case Obj(_) => FieldsHaveConfidence(j, 0)
    case Arr(_) => ItemsHaveConfidence(j, 0)
    case _ => false
  }

  function FieldsHaveConfidence(j: Json, i: nat): bool
    requires j.Obj? && i <= |j.fields|
    decreases j, 0, |j.fields| - i
  {
    if i == |j.fields| then false
    else j.fields[i].0 == "confidence" || HasConfidence(j.fields[i].1) || FieldsHaveConfidence(j, i + 1)
  }

  function ItemsHaveConfidence(j: Json, i: nat): bool
    requires j.Arr? && i <= |j.items|
    decreases j, 0, |j.items| - i
  {
    if i == |j.items| then false
    else HasConfidence(j.items[i]) || ItemsHaveConfidence(j, i + 1)
  }

  /** Some dict, at any depth through dicts and lists, has the key "confidence". */
  ghost predicate ConfidenceSomewhere(j: Json)
    decreases j
  {
    match j
    case Obj(fs) => HasKey(fs, "confidence") || exists i :: 0 <= i < |fs| && ConfidenceSomewhere(fs[i].1)
    case Arr(items) => exists i :: 0 <= i < |items| && ConfidenceSomewhere(items[i])
    case _ => false
  }

  /** The early-return search finds a "confidence" key exactly when one exists. */
  lemma {:induction false} HasConfidenceIffSomewhere(j: Json)
    ensures HasConfidence(j) <==> ConfidenceSomewhere(j)
    decreases j, 1
  {
    match j
    case Obj(fs) => FieldsSearch(j, 0);
    case Arr(items) => ItemsSearch(j, 0);
    case _ =>
  }

  lemma {:induction false} FieldsSearch(j: Json, i: nat)
    requires j.Obj? && i <= |j.fields|
    ensures FieldsHaveConfidence(j, i) <==>
      exists k :: i <= k < |j.fields| && (j.fields[k].0 == "confidence" || ConfidenceSomewhere(j.fields[k].1))
    ensures i == 0 ==> (FieldsHaveConfidence(j, 0) <==> ConfidenceSomewhere(j))
    decreases j, 0, |j.fields| - i
  {
    var fs := j.fields;
    if i < |fs| {
      HasConfidenceIffSomewhere(fs[i].1);
      FieldsSearch(j, i + 1);
      if FieldsHaveConfidence(j, i + 1) {
        var k :| i + 1 <= k < |fs| && (fs[k].0 == "confidence" || ConfidenceSomewhere(fs[k].1));
      }
    }
    if i == 0 {
      if HasKey(fs, "confidence") {
        var k := IndexOf(fs, "confidence");
        assert fs[k].0 == "confidence";
      }
      if exists k :: 0 <= k < |fs| && fs[k].0 == "confidence" {
        var k :| 0 <= k < |fs| && fs[k].0 == "confidence";
        assert HasKey(fs, "confidence");
      }
    }
  }

  lemma {:induction false} ItemsSearch(j: Json, i: nat)
    requires j.Arr? && i <= |j.items|
    ensures ItemsHaveConfidence(j, i) <==> exists k :: i <= k < |j.items| && ConfidenceSomewhere(j.items[k])
    decreases j, 0, |j.items| - i
  {
    if i < |j.items| {
      HasConfidenceIffSomewhere(j.items[i]);
      ItemsSearch(j, i + 1);
      if ItemsHaveConfidence(j, i + 1) {
        var k :| i + 1 <= k < |j.items| && ConfidenceSomewhere(j.items[k]);
      }
    }
  }

  /** The anchor tag: ANCHOR_OK, or ANCHOR_NOT_FOUND with a note when some span went unmatched. */
  function AnchorTag(stats: AnchorStats): EvidenceTag {
    if stats.matchedSpans > 0 then EvidenceTag(AnchorOk, AnchorSource, None)
    else EvidenceTag(AnchorNotFound, AnchorSource,
                     if stats.unmatchedSpans > 0 then Some("no unique anchor match") else None)
  }

  /** The structure tag: STRUCT_VALID on "PASS", else STRUCT_INVALID noting the validation message. */
  function StructureTag(validation: StructuringValidation): EvidenceTag {
    if validation.status == "PASS" then EvidenceTag(StructValid, StructureSource, None)
    else EvidenceTag(StructInvalid, StructureSource, validation.message)
  }

  /** The confidence tags. */
  function ConfidenceTags(result: StructuringResult): seq<EvidenceTag> {
    if !HasConfidence(result.outputJson) then []
    else if result.anchorStats.matchedSpans == 0 then
      [EvidenceTag(ConfidencePresent, ConfidenceSource, None), EvidenceTag(ConfidenceWithoutAnchor, ConfidenceSource, None)]
    else [EvidenceTag(ConfidencePresent, ConfidenceSource, None)]
  }

  /** The tags `generate_evidence_tags(result=result)` returns. */
  function EvidenceTagsFor(result: StructuringResult): (tags: seq<EvidenceTag>)
    ensures 2 <= |tags| <= 4
    ensures tags[0].tag == (if result.anchorStats.matchedSpans > 0 then AnchorOk else AnchorNotFound)
    ensures tags[0].tag == AnchorNotFound ==>
      (tags[0].note == Some("no unique anchor match") <==> result.anchorStats.unmatchedSpans > 0)
    ensures tags[0].tag == AnchorNotFound ==> (tags[0].note.None? <==> result.anchorStats.unmatchedSpans == 0)
    ensures tags[1].tag == (if result.validation.status == "PASS" then StructValid else StructInvalid)
    ensures tags[1].tag == StructInvalid ==> tags[1].note == result.validation.message
    ensures ConfidencePresent in KindsOf(tags) <==> ConfidenceSomewhere(result.outputJson)
    ensures ConfidenceWithoutAnchor in KindsOf(tags) <==>
      ConfidenceSomewhere(result.outputJson) && result.anchorStats.matchedSpans == 0
    ensures AnchorAmbiguous !in KindsOf(tags)
    ensures forall i :: 2 <= i < |tags| ==> tags[i].source == ConfidenceSource
  {
    HasConfidenceIffSomewhere(result.outputJson);
    var tags := [AnchorTag(result.anchorStats), StructureTag(result.validation)] + ConfidenceTags(result);
    assert |tags| > 2 ==> tags[2].tag == ConfidencePresent && tags[2].tag in KindsOf(tags);
    assert |tags| > 3 ==> tags[3].tag == ConfidenceWithoutAnchor && tags[3].tag in KindsOf(tags);
    tags
  }

  /** `generate_evidence_tags`, appending to the tag list as the source does. */
  method GenerateEvidenceTags(result: StructuringResult) returns (tags: seq<EvidenceTag>)
    ensures tags == EvidenceTagsFor(result)
  {
    tags := [];
    if result.anchorStats.matchedSpans > 0 {
      tags := tags + [EvidenceTag(AnchorOk, AnchorSource, None)];
    } else {
      var note: Option<string> := None;
      if result.anchorStats.unmatchedSpans > 0 {
        note := Some("no unique anchor match");
      }
      tags := tags + [EvidenceTag(AnchorNotFound, AnchorSource, note)];
    }
    if result.validation.status == "PASS" {
      tags := tags + [EvidenceTag(StructValid, StructureSource, None)];
    } else {
      tags := tags + [EvidenceTag(StructInvalid, StructureSource, result.validation.message)];
    }
    var hasConfidence := HasConfidence(result.outputJson);
    if hasConfidence {
      tags := tags + [EvidenceTag(ConfidencePresent, ConfidenceSource, None)];
      if result.anchorStats.matchedSpans == 0 {
        tags := tags + [EvidenceTag(ConfidenceWithoutAnchor, ConfidenceSource, None)];
      }
    }
  }
}
