/**
 * `validate_evidence_tags_v0`: the meta-validation of a tag list.  A
 * STRUCT_INVALID tag is the only way to FAIL; everything else it reports
 * is a warning.
 */
module TagValidation {
  import opened Outcomes
  import opened ValidatorResult
  import opened EvidenceTags

  /** `next((t for t in tags if t.tag == kind), None)` */
  function FirstTagWith(tags: seq<EvidenceTag>, kind: TagKind): (r: Option<EvidenceTag>)
    ensures r.Some? <==> kind in KindsOf(tags)
    ensures r.Some? ==> r.value.tag == kind && r.value in tags
  {
    if tags == [] then None
    else if tags[0].tag == kind then Some(tags[0])
    else
      assert forall i :: 1 <= i < |tags| ==> tags[i] == tags[1..][i - 1];
      assert KindsOf(tags) == {tags[0].tag} + KindsOf(tags[1..]);
      FirstTagWith(tags[1..], kind)
  }

  /** `f" ({tag.note})" if tag and tag.note else ""` */
  function Detail(tag: Option<EvidenceTag>): string {
    if tag.Some? && tag.value.note.Some? && tag.value.note.value != "" then " (" + tag.value.note.value + ")" else ""
  }

  const NoTags: Message := Message("W_NO_TAGS", "no evidence tags provided", None)

  /** The message about the anchor tags: the ambiguous one wins over the not-found one. */
  function AnchorMessages(tags: seq<EvidenceTag>): seq<Message> {
    var kinds := KindsOf(tags);
    if AnchorAmbiguous in kinds then
      [Message("W_ANCHOR_AMBIGUOUS", "anchor match is ambiguous" + Detail(FirstTagWith(tags, AnchorAmbiguous)), Some("anchor"))]
    else if AnchorNotFound in kinds then
      [Message("W_ANCHOR_NOT_FOUND", "no reproducible anchor match" + Detail(FirstTagWith(tags, AnchorNotFound)), Some("anchor"))]
    else []
  }

  function ConfidenceMessages(kinds: set<TagKind>): seq<Message> {
    if ConfidenceWithoutAnchor in kinds then
      [Message("W_CONFIDENCE_WITHOUT_ANCHOR", "confidence is present without reproducible anchor", Some("confidence"))]
    else []
  }

  function CompletenessMessages(kinds: set<TagKind>): seq<Message> {
    if !(StructValid in kinds || StructInvalid in kinds) then
      [Message("W_TAGS_INCOMPLETE", "structure validity tag is missing", None)]
    else []
  }

  /** What `validate_evidence_tags_v0(tags=tags)` returns. */
  function TagValidationOf(tags: seq<EvidenceTag>): (r: RunnerResult)
    ensures tags == [] ==> r == RunnerResult(Warn, [NoTags])
    ensures r.status == Fail <==> StructInvalid in KindsOf(tags)
    ensures r.status == Fail ==> Codes(r.messages) == ["E_STRUCT_INVALID"]
    ensures r.status != Fail ==> (r.status == Pass <==> r.messages == [])
  {
    if tags == [] then RunnerResult(Warn, [NoTags])
    else
      var kinds := KindsOf(tags);
      if StructInvalid in kinds then
        RunnerResult(Fail, [Message("E_STRUCT_INVALID",
                                    "structured output is invalid" + Detail(FirstTagWith(tags, StructInvalid)),
                                    Some("structure"))])
      else
        var messages := AnchorMessages(tags) + ConfidenceMessages(kinds) + CompletenessMessages(kinds);
        RunnerResult(if messages == [] then Pass else Warn, messages)
  }

  /** The status and the codes depend only on the set of tag values, not on order, repeats or notes. */
  lemma CodesDependOnKinds(tags1: seq<EvidenceTag>, tags2: seq<EvidenceTag>)
    requires KindsOf(tags1) == KindsOf(tags2)
    ensures TagValidationOf(tags1).status == TagValidationOf(tags2).status
    ensures Codes(TagValidationOf(tags1).messages) == Codes(TagValidationOf(tags2).messages)
  {
    NoKindsNoTags(tags1);
    NoKindsNoTags(tags2);
    var kinds := KindsOf(tags1);
    if tags1 != [] && tags2 != [] && StructInvalid !in kinds {
      var c := ConfidenceMessages(kinds);
      var m := CompletenessMessages(kinds);
      var a1, a2 := AnchorMessages(tags1), AnchorMessages(tags2);
      assert Codes(a1) == Codes(a2);
      CodesConcat(a1, c);
      CodesConcat(a1 + c, m);
      CodesConcat(a2, c);
      CodesConcat(a2 + c, m);
    } else if tags1 != [] && tags2 != [] {
      assert Codes(TagValidationOf(tags1).messages) == ["E_STRUCT_INVALID"];
      assert Codes(TagValidationOf(tags2).messages) == ["E_STRUCT_INVALID"];
    }
  }

  lemma NoKindsNoTags(tags: seq<EvidenceTag>)
    ensures tags == [] <==> KindsOf(tags) == {}
  {
    if tags != [] {
      assert tags[0].tag in KindsOf(tags);
    }
  }

  /**
   * Off the FAIL path, each warning code appears exactly when its tag
   * condition holds, and only one of the two anchor warnings can appear.
   */
  lemma WarningCodes(tags: seq<EvidenceTag>)
    requires tags != [] && StructInvalid !in KindsOf(tags)
    ensures var codes := Codes(TagValidationOf(tags).messages);
      var kinds := KindsOf(tags);
      && ("W_ANCHOR_AMBIGUOUS" in codes <==> AnchorAmbiguous in kinds)
      && ("W_ANCHOR_NOT_FOUND" in codes <==> AnchorNotFound in kinds && AnchorAmbiguous !in kinds)
      && ("W_CONFIDENCE_WITHOUT_ANCHOR" in codes <==> ConfidenceWithoutAnchor in kinds)
      && ("W_TAGS_INCOMPLETE" in codes <==> StructValid !in kinds)
      && |codes| <= 3
  {
    var kinds := KindsOf(tags);
    var a := AnchorMessages(tags);
    var c := ConfidenceMessages(kinds);
    var m := CompletenessMessages(kinds);
    CodesConcat(a, c);
    CodesConcat(a + c, m);
    var ca, cc, cm := AnchorCodes(tags), ConfidenceCodes(kinds), CompletenessCodes(kinds);
    assert Codes(TagValidationOf(tags).messages) == ca + cc + cm;
    AnchorCodesFacts(tags);
    OtherCodesFacts(kinds);
    InThree(ca, cc, cm);
  }

  lemma InThree(ca: seq<string>, cc: seq<string>, cm: seq<string>)
    ensures forall x :: x in ca + cc + cm <==> x in ca || x in cc || x in cm
  {
  }

  lemma AnchorCodesFacts(tags: seq<EvidenceTag>)
    ensures var ca := AnchorCodes(tags); var kinds := KindsOf(tags);
      && |ca| <= 1
      && ("W_ANCHOR_AMBIGUOUS" in ca <==> AnchorAmbiguous in kinds)
      && ("W_ANCHOR_NOT_FOUND" in ca <==> AnchorNotFound in kinds && AnchorAmbiguous !in kinds)
      && "W_CONFIDENCE_WITHOUT_ANCHOR" !in ca && "W_TAGS_INCOMPLETE" !in ca
  {
    assert "W_ANCHOR_AMBIGUOUS"[9] != "W_ANCHOR_NOT_FOUND"[9];
  }

  lemma OtherCodesFacts(kinds: set<TagKind>)
    ensures var cc := ConfidenceCodes(kinds); var cm := CompletenessCodes(kinds);
      && |cc| <= 1 && |cm| <= 1
      && ("W_CONFIDENCE_WITHOUT_ANCHOR" in cc <==> ConfidenceWithoutAnchor in kinds)
      && "W_ANCHOR_AMBIGUOUS" !in cc && "W_ANCHOR_NOT_FOUND" !in cc && "W_TAGS_INCOMPLETE" !in cc
      && "W_ANCHOR_AMBIGUOUS" !in cm && "W_ANCHOR_NOT_FOUND" !in cm && "W_CONFIDENCE_WITHOUT_ANCHOR" !in cm
      && (StructInvalid !in kinds ==> ("W_TAGS_INCOMPLETE" in cm <==> StructValid !in kinds))
  {
  }

  /** The codes of each part of the warning list, as explicit sequences. */
  function AnchorCodes(tags: seq<EvidenceTag>): (r: seq<string>)
    ensures r == Codes(AnchorMessages(tags))
  {
    var kinds := KindsOf(tags);
    if AnchorAmbiguous in kinds then ["W_ANCHOR_AMBIGUOUS"]
    else if AnchorNotFound in kinds then ["W_ANCHOR_NOT_FOUND"]
    else []
  }

  function ConfidenceCodes(kinds: set<TagKind>): (r: seq<string>)
    ensures r == Codes(ConfidenceMessages(kinds))
  {
    if ConfidenceWithoutAnchor in kinds then ["W_CONFIDENCE_WITHOUT_ANCHOR"] else []
  }

  function CompletenessCodes(kinds: set<TagKind>): (r: seq<string>)
    ensures r == Codes(CompletenessMessages(kinds))
  {
    if !(StructValid in kinds || StructInvalid in kinds) then ["W_TAGS_INCOMPLETE"] else []
  }

  lemma {:induction false} CodesConcat(a: seq<Message>, b: seq<Message>)
    ensures Codes(a + b) == Codes(a) + Codes(b)
    decreases |a|
  {
    if a != [] {
      assert (a + b)[1..] == a[1..] + b;
      CodesConcat(a[1..], b);
    }
  }

  /** `validate_evidence_tags_v0`, building the message list step by step. */
  method ValidateEvidenceTags(tags: seq<EvidenceTag>) returns (r: RunnerResult)
    ensures r == TagValidationOf(tags)
  {
    if |tags| == 0 {
      return RunnerResult(Warn, [NoTags]);
    }
    var tagValues := KindsOf(tags);
    var messages: seq<Message> := [];
    if StructInvalid in tagValues {
      var structTag := FirstTagWith(tags, StructInvalid);
      messages := messages + [Message("E_STRUCT_INVALID", "structured output is invalid" + Detail(structTag), Some("structure"))];
      return RunnerResult(Fail, messages);
    }
    if AnchorAmbiguous in tagValues {
      var anchorTag := FirstTagWith(tags, AnchorAmbiguous);
      messages := messages + [Message("W_ANCHOR_AMBIGUOUS", "anchor match is ambiguous" + Detail(anchorTag), Some("anchor"))];
    } else if AnchorNotFound in tagValues {
      var anchorTag := FirstTagWith(tags, AnchorNotFound);
      messages := messages + [Message("W_ANCHOR_NOT_FOUND", "no reproducible anchor match" + Detail(anchorTag), Some("anchor"))];
    }
    assert messages == AnchorMessages(tags);
    if ConfidenceWithoutAnchor in tagValues {
      messages := messages + [Message("W_CONFIDENCE_WITHOUT_ANCHOR", "confidence is present without reproducible anchor", Some("confidence"))];
    }
    assert messages == AnchorMessages(tags) + ConfidenceMessages(tagValues);
    if !(StructValid in tagValues || StructInvalid in tagValues) {
      messages := messages + [Message("W_TAGS_INCOMPLETE", "structure validity tag is missing", None)];
    }
    assert messages == AnchorMessages(tags) + ConfidenceMessages(tagValues) + CompletenessMessages(tagValues);
    var status := if |messages| == 0 then Pass else Warn;
    r := RunnerResult(status, messages);
  }

  /** A valid structure with a unique anchor and confidence fields passes with no message. */
  lemma CleanTagsPass(tags: seq<EvidenceTag>)
    requires KindsOf(tags) == {StructValid, AnchorOk, ConfidencePresent}
    ensures TagValidationOf(tags) == RunnerResult(Pass, [])
  {
    assert StructValid in KindsOf(tags);
  }
}
