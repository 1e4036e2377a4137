/**
 * What the stages say about each other when they are run one after the
 * other: the structuring pipeline with the v0 validator, the evidence tags
 * of its result, the tag verdict, the requirement state and the event I/O
 * decision.
 */
module PipelineScenarios {
  import opened Outcomes
  import opened JsonValues
  import opened Text
  import opened AnchorMatcher
  import opened AnchorApply
  import opened AnchorApplyFacts
  import opened AnchorStore
  import opened StructuringTypes
  import opened SchemaRules
  import opened ValidatorAdapter
  import opened EvidenceTags
  import opened RequirementStates
  import opened EventIo
  import opened StructuringPipeline
  import TrialEvidenceSignals

  /** `StructuringValidatorV0().validate` seen as the dict the pipeline reads. */
  function V0Validator(data: Json): (r: Outcome<RawValidation>)
    ensures r.Raise? <==> ValidateV0(data).Raise?
    ensures r.Ok? ==> SummaryOf(r.value) == ValidateV0(data).value
  {
    match ValidateV0(data)
    case Raise(e) => Raise(e)
    case Ok(v) => Ok(RawValidation(Some(v.status), Some(v.errorCodes), v.message))
  }

  /**
   * A dict whose span the matcher finds comes out of the walk with a string
   * span and an anchor object that has no "modality".
   */
  lemma MatchedDictAnchor(nfc: Normalizer, full: string, f: Json)
    requires f.Obj? && CarriesSpan(f.fields)
    requires MatchSpec(nfc, full, Get(f.fields, "evidence_span")).Ok?
    requires MatchSpec(nfc, full, Get(f.fields, "evidence_span")).value.Some?
    requires Walk(nfc, full, f).Ok?
    ensures var wf := Walk(nfc, full, f).value;
      && wf.Obj? && Get(wf.fields, "evidence_span").Str?
      && Get(wf.fields, "evidence_anchor").Obj?
      && !HasKey(Get(wf.fields, "evidence_anchor").fields, "modality")
  {
    var wf := Walk(nfc, full, f).value;
    ApplyDictAnchor(nfc, full, f);
    SpanDecisionKept(nfc, full, f);
    var anchor := Get(wf.fields, "evidence_anchor");
    assert anchor.Obj? && !HasKey(anchor.fields, "modality");
  }

  /**
   * The anchor `apply_anchors` writes has no "modality", which the v0
   * validator requires to be "text": a top-level field whose span matched
   * makes the validation of the anchored document FAIL (when it does not
   * raise).
   */
  lemma MatchedFieldFailsV0(nfc: Normalizer, full: string, output: Json, i: nat)
    requires output.Obj? && i < |output.fields| && output.fields[i].0 != "evidence_anchor"
    requires var f := output.fields[i].1;
      && f.Obj? && CarriesSpan(f.fields)
      && MatchSpec(nfc, full, Get(f.fields, "evidence_span")).Ok?
      && MatchSpec(nfc, full, Get(f.fields, "evidence_span")).value.Some?
    requires Walk(nfc, full, output).Ok? && ValidateV0(Walk(nfc, full, output).value).Ok?
    ensures ValidateV0(Walk(nfc, full, output).value).value.status == "FAIL"
  {
    var out := Walk(nfc, full, output).value;
    var f := output.fields[i].1;
    ApplyDictShape(nfc, full, output);
    var wf := out.fields[i].1;
    assert Walk(nfc, full, f) == Ok(wf);
    MatchedDictAnchor(nfc, full, f);
    assert Get(wf.fields, "evidence_span") != Null;
    FieldProblemFails(out, i);
  }

  /**
   * End to end without a cache: when the model's output has a top-level
   * field whose span occurs exactly once in the transcript, the run with the
   * v0 validator reports STRUCT_INVALID, the requirement is INVALID and the
   * event I/O decision is "deny".
   */
  lemma MatchedFieldDeniesEvent(
    nfc: Normalizer, input: StructuringInput, llm: StructuringInput -> Outcome<Json>,
    saved: map<(string, Json), seq<AnchorRecord>>, i: nat,
    evidence: Json, requiredKeys: Option<seq<string>>)
    requires llm(input).Ok?
    requires var output := llm(input).value;
      && output.Obj? && i < |output.fields| && output.fields[i].0 != "evidence_anchor"
      && var f := output.fields[i].1;
      && f.Obj? && CarriesSpan(f.fields)
      && MatchSpec(nfc, nfc(input.fullText), Get(f.fields, "evidence_span")).Ok?
      && MatchSpec(nfc, nfc(input.fullText), Get(f.fields, "evidence_span")).value.Some?
    requires PipelineSpec(nfc, input, llm, V0Validator, None, saved).result.Ok?
    ensures var result := PipelineSpec(nfc, input, llm, V0Validator, None, saved).result.value;
      var tags := EvidenceTagsFor(result);
      var service := RunRequirementService(evidence, tags, None, None, requiredKeys);
      && result.validation.status == "FAIL"
      && StructInvalid in KindsOf(tags)
      && service.requirementState.state == Invalid
      && service.eventIo.policy == Deny && !service.eventIo.canCreateEvent
  {
    var output := llm(input).value;
    var full := nfc(input.fullText);
    var result := PipelineSpec(nfc, input, llm, V0Validator, None, saved).result.value;
    assert Walk(nfc, full, output) == Ok(result.outputJson);
    MatchedFieldFailsV0(nfc, full, output, i);
    var tags := EvidenceTagsFor(result);
    assert tags[1].tag == StructInvalid;
    assert StructInvalid in KindsOf(tags);
    StructInvalidDenies(evidence, tags, requiredKeys);
  }

  /**
   * The evidence-mode trial signals cannot be generated for a run whose
   * first dict-valued top-level field carries a span that occurs exactly
   * once in the transcript: the anchor written for it has no "modality",
   * which `EvidenceAnchor` requires, so the wrapper raises a validation
   * error whatever `max_trial_evidence` is.
   */
  lemma MatchedFieldBreaksTrialSignals(
    nfc: Normalizer, input: StructuringInput, llm: StructuringInput -> Outcome<Json>,
    validator: Json -> Outcome<RawValidation>, saved: map<(string, Json), seq<AnchorRecord>>,
    i: nat, maxTrialEvidence: int)
    requires llm(input).Ok?
    requires var output := llm(input).value;
      && output.Obj? && i < |output.fields|
      && (forall j :: 0 <= j <= i ==> output.fields[j].0 != "evidence_anchor")
      && (forall j :: 0 <= j < i ==> !output.fields[j].1.Obj?)
      && var f := output.fields[i].1;
      && f.Obj? && CarriesSpan(f.fields)
      && MatchSpec(nfc, nfc(input.fullText), Get(f.fields, "evidence_span")).Ok?
      && MatchSpec(nfc, nfc(input.fullText), Get(f.fields, "evidence_span")).value.Some?
    requires PipelineSpec(nfc, input, llm, validator, None, saved).result.Ok?
    ensures var result := PipelineSpec(nfc, input, llm, validator, None, saved).result.value;
      TrialEvidenceSignals.EvidenceSignalsSpec(result, EvidenceTagsFor(result), maxTrialEvidence)
        == Raise(ValidationError)
  {
    var output := llm(input).value;
    var full := nfc(input.fullText);
    var result := PipelineSpec(nfc, input, llm, validator, None, saved).result.value;
    assert Walk(nfc, full, output) == Ok(result.outputJson);
    WalkedFirstDict(nfc, full, output, i);
    TrialEvidenceSignals.AnchorWithoutModalityRaises(result, EvidenceTagsFor(result), maxTrialEvidence, i);
  }

  /**
   * After the walk, the pairs before the first dict-valued field are still
   * not dicts, and that field carries a string span and an anchor without
   * "modality".
   */
  lemma WalkedFirstDict(nfc: Normalizer, full: string, output: Json, i: nat)
    requires output.Obj? && i < |output.fields|
    requires forall j :: 0 <= j <= i ==> output.fields[j].0 != "evidence_anchor"
    requires forall j :: 0 <= j < i ==> !output.fields[j].1.Obj?
    requires var f := output.fields[i].1;
      && f.Obj? && CarriesSpan(f.fields)
      && MatchSpec(nfc, full, Get(f.fields, "evidence_span")).Ok?
      && MatchSpec(nfc, full, Get(f.fields, "evidence_span")).value.Some?
    requires Walk(nfc, full, output).Ok?
    ensures var out := Walk(nfc, full, output).value;
      && out.Obj? && i < |out.fields|
      && (forall j :: 0 <= j < i ==> !TrialEvidenceSignals.Eligible(out.fields[j]))
      && var wf := out.fields[i].1;
      && wf.Obj? && Get(wf.fields, "evidence_span").Str?
      && Get(wf.fields, "evidence_anchor").Obj?
      && !HasKey(Get(wf.fields, "evidence_anchor").fields, "modality")
  {
    var out := Walk(nfc, full, output).value;
    ApplyDictShape(nfc, full, output);
    forall j | 0 <= j < i
      ensures !TrialEvidenceSignals.Eligible(out.fields[j])
    {
      assert Walk(nfc, full, output.fields[j].1) == Ok(out.fields[j].1);
    }
    var f := output.fields[i].1;
    assert Walk(nfc, full, f) == Ok(out.fields[i].1);
    MatchedDictAnchor(nfc, full, f);
  }
}
