/**
 * `evaluate_requirement_state_v0`: the tag verdict decides whether a
 * requirement can be evaluated (PASS), is unstable (WARN) or invalid (FAIL).
 */
module RequirementStates {
  import opened Outcomes
  import opened ValidatorResult
  import opened EvidenceTags
  import opened TagValidation

  datatype RequirementState = Evaluatable | Unstable | Invalid
  {
    function Value(): string {
      match this
      case Evaluatable => "EVALUATABLE"
      case Unstable => "UNSTABLE"
      case Invalid => "INVALID"
    }
  }

  datatype RequirementStateResult = RequirementStateResult(state: RequirementState, reasonCodes: seq<string>)

  /** The state for a tag verdict: FAIL is INVALID, WARN is UNSTABLE, PASS is EVALUATABLE. */
  function StateFor(status: Status): (s: RequirementState)
    ensures s == Invalid <==> status == Fail
    ensures s == Unstable <==> status == Warn
    ensures s == Evaluatable <==> status == Pass
  {
    match status
    case Fail => Invalid
    case Warn => Unstable
    case Pass => Evaluatable
  }

  /**
   * `evaluate_requirement_state_v0(tags=…, tag_validation=…)`; an omitted
   * verdict is computed from the tags.
   */
  function EvaluateRequirementState(tags: seq<EvidenceTag>, tagValidation: Option<RunnerResult>): (r: RequirementStateResult)
    ensures var v := if tagValidation.Some? then tagValidation.value else TagValidationOf(tags);
      && r.state == StateFor(v.status)
      && r.reasonCodes == Codes(v.messages)
  {
    var validation := if tagValidation.None? then TagValidationOf(tags) else tagValidation.value;
    var codes := Codes(validation.messages);
    if validation.status == Fail then RequirementStateResult(Invalid, codes)
    else if validation.status == Warn then RequirementStateResult(Unstable, codes)
    else RequirementStateResult(Evaluatable, codes)
  }

  /** Leaving the verdict out is the same as passing the verdict of the tags. */
  lemma OmittedVerdictIsComputed(tags: seq<EvidenceTag>)
    ensures EvaluateRequirementState(tags, None) == EvaluateRequirementState(tags, Some(TagValidationOf(tags)))
  {
  }

  /**
   * With the verdict computed from the tags: an evaluatable requirement has
   * no reason codes, and a STRUCT_INVALID tag makes it INVALID with the one
   * code E_STRUCT_INVALID.
   */
  lemma ComputedStateReasons(tags: seq<EvidenceTag>)
    ensures var r := EvaluateRequirementState(tags, None);
      && (r.state == Evaluatable ==> r.reasonCodes == [])
      && (r.state == Invalid <==> StructInvalid in KindsOf(tags))
      && (StructInvalid in KindsOf(tags) ==> r.reasonCodes == ["E_STRUCT_INVALID"])
      && (tags == [] ==> r == RequirementStateResult(Unstable, ["W_NO_TAGS"]))
  {
    if tags == [] {
      assert Codes([NoTags]) == ["W_NO_TAGS"];
    }
  }
}
