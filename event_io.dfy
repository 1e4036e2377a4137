/**
 * `evaluate_event_io_contract_v0` and `run_requirement_service_v0`: the
 * requirement state decides whether an event may be created, and under
 * which policy.
 */
module EventIo {
  import opened Outcomes
  import opened JsonValues
  import opened ValidatorResult
  import opened EvidenceTags
  import opened TagValidation
  import opened RequirementStates

  /** `DEFAULT_REQUIRED_EVIDENCE_TOP_KEYS_V0` */
  const DefaultRequiredEvidenceTopKeys: seq<string> := [
    "evidence_metadata", "parties", "period", "frequency", "channel",
    "locations", "action_types", "refusal_signal", "threat_indicators",
    "impact_on_victim", "report_or_record"]

  datatype Policy = Deny | Allow | AllowWithCaution
  {
    function Value(): string {
      match this
      case Deny => "deny"
      case Allow => "allow"
      case AllowWithCaution => "allow_with_caution"
    }
  }

  /** `RequirementRuleEngineOutputV0` */
  datatype EventIoOutput = EventIoOutput(
    canCreateEvent: bool,
    policy: Policy,
    reasonCodes: seq<string>,
    requiredEvidenceTopKeys: seq<string>,
    cautionTag: Option<string>)

  /** `RequirementServiceResultV0` */
  datatype ServiceResult = ServiceResult(
    tagValidation: RunnerResult,
    requirementState: RequirementStateResult,
    eventIo: EventIoOutput)

  /** `evaluate_event_io_contract_v0` */
  function EvaluateEventIo(state: RequirementStateResult, requiredKeys: Option<seq<string>>): (r: EventIoOutput)
    ensures state.state == Invalid ==> r.canCreateEvent == false && r.policy == Deny && r.cautionTag == None
    ensures state.state == Unstable ==>
      r.canCreateEvent && r.policy == AllowWithCaution && r.cautionTag == Some("UNSTABLE")
    ensures state.state == Evaluatable ==> r.canCreateEvent && r.policy == Allow && r.cautionTag == None
    ensures !r.canCreateEvent <==> r.policy == Deny
    ensures r.cautionTag.Some? <==> r.policy == AllowWithCaution
    ensures r.reasonCodes == state.reasonCodes
    ensures r.requiredEvidenceTopKeys == if requiredKeys.None? then DefaultRequiredEvidenceTopKeys else requiredKeys.value
  {
    var keys := if requiredKeys.None? then DefaultRequiredEvidenceTopKeys else requiredKeys.value;
    match state.state
    case Invalid => EventIoOutput(false, Deny, state.reasonCodes, keys, None)
    case Unstable => EventIoOutput(true, AllowWithCaution, state.reasonCodes, keys, Some("UNSTABLE"))
    case Evaluatable => EventIoOutput(true, Allow, state.reasonCodes, keys, None)
  }

  /** `run_requirement_service_v0`; `evidence` is accepted and not looked at. */
  function RunRequirementService(
    evidence: Json, tags: seq<EvidenceTag>, tagValidation: Option<RunnerResult>,
    requirementState: Option<RequirementStateResult>, requiredKeys: Option<seq<string>>): (r: ServiceResult)
    ensures r.tagValidation == if tagValidation.Some? then tagValidation.value else TagValidationOf(tags)
    ensures r.requirementState ==
      if requirementState.Some? then requirementState.value
      else EvaluateRequirementState(tags, Some(r.tagValidation))
    ensures r.eventIo == EvaluateEventIo(r.requirementState, requiredKeys)
  {
    var validation := if tagValidation.None? then TagValidationOf(tags) else tagValidation.value;
    var state := if requirementState.None? then EvaluateRequirementState(tags, Some(validation)) else requirementState.value;
    ServiceResult(validation, state, EvaluateEventIo(state, requiredKeys))
  }

  /** The evidence document never changes what the service decides. */
  lemma EvidenceIgnored(
    e1: Json, e2: Json, tags: seq<EvidenceTag>, tagValidation: Option<RunnerResult>,
    requirementState: Option<RequirementStateResult>, requiredKeys: Option<seq<string>>)
    ensures RunRequirementService(e1, tags, tagValidation, requirementState, requiredKeys)
         == RunRequirementService(e2, tags, tagValidation, requirementState, requiredKeys)
  {
  }

  /** STRUCT_INVALID among the tags: the state is INVALID and the event is denied. */
  lemma StructInvalidDenies(evidence: Json, tags: seq<EvidenceTag>, requiredKeys: Option<seq<string>>)
    requires StructInvalid in KindsOf(tags)
    ensures var r := RunRequirementService(evidence, tags, None, None, requiredKeys);
      && r.tagValidation.status == Fail
      && r.requirementState == RequirementStateResult(Invalid, ["E_STRUCT_INVALID"])
      && !r.eventIo.canCreateEvent
      && r.eventIo.policy == Deny
      && r.eventIo.reasonCodes == ["E_STRUCT_INVALID"]
  {
    ComputedStateReasons(tags);
  }
}
