/**
 * The trial generators against the trial validator: text-mode outputs
 * always validate PASS, and evidence-mode outputs validate PASS exactly
 * when the pool holds at most three items, which the default
 * `max_evidence` of 3 guarantees.
 */
module TrialSignalFacts {
  import opened Outcomes
  import opened ValidatorResult
  import opened StructuringTypes
  import opened EvidenceTags
  import opened TagValidation
  import opened TrialTypes
  import opened TrialTextSignals
  import opened TrialEvidenceSignals
  import opened TrialValidation

  /** A code made of a prefix letter, an underscore and upper-case letters, digits and underscores. */
  lemma UpperCodeOk(rc: string)
    requires |rc| >= 3 && rc[0] in "TEWP" && rc[1] == '_'
    requires forall k :: 2 <= k < |rc| ==> 'A' <= rc[k] <= 'Z' || rc[k] == '_' || '0' <= rc[k] <= '9'
    ensures ReasonCodeOk(rc)
  {
    assert rc[|rc| - 1] != '\n';
    assert forall k :: 2 <= k < |rc| ==> CodeChar(rc[k]);
  }

  /** All reason codes of a verdict or grade match `^[TEWP]_[A-Z0-9_]+$`. */
  predicate CodesOk(codes: seq<string>) {
    forall k :: 0 <= k < |codes| ==> ReasonCodeOk(codes[k])
  }

  lemma RepetitionCodesOk(text: string)
    ensures CodesOk(RepetitionSpec(text).codes)
  {
    var codes := RepetitionSpec(text).codes;
    assert codes == ["T_REPETITION_NO_TOKENS"] || codes == ["T_REPETITION_TOKEN_X3"]
        || codes == ["T_REPETITION_TOKEN_X2"] || codes == ["T_REPETITION_TOKEN_X1"];
    RepetitionLiteralsOk();
  }

  /** The fixed codes of the repetition signal are well formed. */
  lemma RepetitionLiteralsOk()
    ensures ReasonCodeOk("T_REPETITION_NO_TOKENS") && ReasonCodeOk("T_REPETITION_TOKEN_X3")
    ensures ReasonCodeOk("T_REPETITION_TOKEN_X2") && ReasonCodeOk("T_REPETITION_TOKEN_X1")
  {
    UpperCodeOk("T_REPETITION_NO_TOKENS");
    UpperCodeOk("T_REPETITION_TOKEN_X3");
    UpperCodeOk("T_REPETITION_TOKEN_X2");
    UpperCodeOk("T_REPETITION_TOKEN_X1");
  }

  /** The fixed codes of the strength signal are well formed. */
  lemma StrengthLiteralsOk()
    ensures ReasonCodeOk("E_NO_EVIDENCE_POOL") && ReasonCodeOk("E_CONFIDENCE_LOW_PRESENT")
    ensures ReasonCodeOk("E_CONFIDENCE_MEDIUM_PRESENT") && ReasonCodeOk("E_CONFIDENCE_HIGH_ONLY")
  {
    UpperCodeOk("E_NO_EVIDENCE_POOL");
    UpperCodeOk("E_CONFIDENCE_LOW_PRESENT");
    UpperCodeOk("E_CONFIDENCE_MEDIUM_PRESENT");
    UpperCodeOk("E_CONFIDENCE_HIGH_ONLY");
  }

  /** The fixed codes of the clarity signal are well formed. */
  lemma ClarityLiteralsOk()
    ensures ReasonCodeOk("E_STRUCT_INVALID") && ReasonCodeOk("E_ANCHOR_OK")
    ensures ReasonCodeOk("W_ANCHOR_AMBIGUOUS") && ReasonCodeOk("W_ANCHOR_NOT_FOUND")
    ensures ReasonCodeOk("W_ANCHOR_STATE_UNKNOWN")
  {
    UpperCodeOk("E_STRUCT_INVALID");
    UpperCodeOk("E_ANCHOR_OK");
    AnchorLiteralsOk();
  }

  /** The anchor warning codes are well formed. */
  lemma AnchorLiteralsOk()
    ensures ReasonCodeOk("W_ANCHOR_AMBIGUOUS") && ReasonCodeOk("W_ANCHOR_NOT_FOUND")
    ensures ReasonCodeOk("W_ANCHOR_STATE_UNKNOWN")
  {
    UpperCodeOk("W_ANCHOR_AMBIGUOUS");
    UpperCodeOk("W_ANCHOR_NOT_FOUND");
    UpperCodeOk("W_ANCHOR_STATE_UNKNOWN");
  }

  /** The headline codes of the safety signal are well formed. */
  lemma SafetyLiteralsOk()
    ensures ReasonCodeOk("E_TAG_VALIDATION_FAIL") && ReasonCodeOk("W_TAG_VALIDATION_WARN")
    ensures ReasonCodeOk("P_TAG_VALIDATION_PASS")
  {
    UpperCodeOk("E_TAG_VALIDATION_FAIL");
    UpperCodeOk("W_TAG_VALIDATION_WARN");
    UpperCodeOk("P_TAG_VALIDATION_PASS");
  }

  lemma KeywordCodesOk(text: string, patterns: seq<Pattern>, matched: string, unmatched: string)
    requires ReasonCodeOk(matched) && ReasonCodeOk(unmatched)
    ensures CodesOk(KeywordSpec(text, patterns, matched, unmatched).codes)
  {
  }

  lemma ThreatCodesOk(text: string)
    ensures CodesOk(ThreatSpec(text).codes)
  {
    UpperCodeOk("T_THREAT_KEYWORD_MATCH");
    UpperCodeOk("T_THREAT_NO_MATCH");
    KeywordCodesOk(text, ThreatPatterns, "T_THREAT_KEYWORD_MATCH", "T_THREAT_NO_MATCH");
  }

  lemma RefusalCodesOk(text: string)
    ensures CodesOk(RefusalSpec(text).codes)
  {
    UpperCodeOk("T_REFUSAL_KEYWORD_MATCH");
    UpperCodeOk("T_REFUSAL_NO_MATCH");
    KeywordCodesOk(text, RefusalPatterns, "T_REFUSAL_KEYWORD_MATCH", "T_REFUSAL_NO_MATCH");
  }

  lemma StrengthCodesOk(pool: seq<TrialEvidence>, confidences: seq<string>)
    ensures CodesOk(StrengthOf(pool, confidences).codes)
  {
    var codes := StrengthOf(pool, confidences).codes;
    assert codes == ["E_NO_EVIDENCE_POOL"] || codes == ["E_CONFIDENCE_LOW_PRESENT"]
        || codes == ["E_CONFIDENCE_MEDIUM_PRESENT"] || codes == ["E_CONFIDENCE_HIGH_ONLY"];
    StrengthLiteralsOk();
  }

  lemma ClarityCodesOk(kinds: set<TagKind>)
    ensures CodesOk(ClarityOf(kinds).codes)
  {
    var codes := ClarityOf(kinds).codes;
    assert codes == ["E_STRUCT_INVALID"] || codes == ["E_ANCHOR_OK"] || codes == ["W_ANCHOR_AMBIGUOUS"]
        || codes == ["W_ANCHOR_NOT_FOUND"] || codes == ["W_ANCHOR_STATE_UNKNOWN"];
    ClarityLiteralsOk();
  }

  /** Every message carries a well-formed code. */
  predicate MessageCodesOk(ms: seq<Message>) {
    forall m :: m in ms ==> ReasonCodeOk(m.code)
  }

  lemma AnchorMessageCodesOk(tags: seq<EvidenceTag>)
    ensures MessageCodesOk(AnchorMessages(tags))
  {
    UpperCodeOk("W_ANCHOR_AMBIGUOUS");
    UpperCodeOk("W_ANCHOR_NOT_FOUND");
  }

  lemma OtherMessageCodesOk(kinds: set<TagKind>)
    ensures MessageCodesOk(ConfidenceMessages(kinds)) && MessageCodesOk(CompletenessMessages(kinds))
  {
    UpperCodeOk("W_CONFIDENCE_WITHOUT_ANCHOR");
    UpperCodeOk("W_TAGS_INCOMPLETE");
  }

  /** The tag validator's message codes are well formed. */
  lemma TagCodesOk(tags: seq<EvidenceTag>)
    ensures MessageCodesOk(TagValidationOf(tags).messages)
  {
    UpperCodeOk("W_NO_TAGS");
    UpperCodeOk("E_STRUCT_INVALID");
    AnchorMessageCodesOk(tags);
    OtherMessageCodesOk(KindsOf(tags));
  }

  lemma SafetyCodesOk(v: RunnerResult)
    requires MessageCodesOk(v.messages)
    ensures CodesOk(SafetyOf(v).codes)
  {
    var codes := SafetyOf(v).codes;
    SafetyLiteralsOk();
    forall k | 1 <= k < |codes|
      ensures ReasonCodeOk(codes[k])
    {
      assert codes[k] == v.messages[k - 1].code;
      assert v.messages[k - 1] in v.messages;
    }
  }

  /** The names of three signals. */
  lemma NamesOfThree(ss: seq<TrialSignal>)
    requires |ss| == 3
    ensures NamesOf(ss) == {ss[0].name, ss[1].name, ss[2].name}
  {
    var one := ss[..1];
    var two := ss[..2];
    assert one[..0] == [];
    assert NamesOf(one) == {ss[0].name};
    assert two[..1] == one;
    assert NamesOf(two) == {ss[0].name, ss[1].name};
    assert ss[..2] == two;
  }

  /** An output with a known mode, version "v0", the mode's three names and clean signals passes. */
  lemma ThreeCleanSignalsPass(o: TrialOutput)
    requires o.version == "v0" && KnownMode(o.mode) && |o.signals| == 3
    requires {o.signals[0].name, o.signals[1].name, o.signals[2].name} == ModeNames(o.mode)
    requires forall i :: 0 <= i < 3 ==> SignalClean(o.signals[i], o.mode)
    ensures TrialValidationOf(o).status == Pass
  {
    NamesOfThree(o.signals);
    PassExactly(o);
  }

  /** The text-mode output record passes when its three verdicts carry text levels and well-formed codes. */
  lemma TextRecordPasses(rep: Verdict, thr: Verdict, ref: Verdict)
    requires rep.level in TextLevels && thr.level in TextLevels && ref.level in TextLevels
    requires rep.codes != [] && thr.codes != [] && ref.codes != []
    requires CodesOk(rep.codes) && CodesOk(thr.codes) && CodesOk(ref.codes)
    ensures TrialValidationOf(TrialOutput("text", "v0", "TRIAL signals v0 (text)", [
      TrialSignal("repetition", rep.level, rep.codes, rep.evidence),
      TrialSignal("threat", thr.level, thr.codes, thr.evidence),
      TrialSignal("refusal", ref.level, ref.codes, ref.evidence)])).status == Pass
  {
    var o := TrialOutput("text", "v0", "TRIAL signals v0 (text)", [
      TrialSignal("repetition", rep.level, rep.codes, rep.evidence),
      TrialSignal("threat", thr.level, thr.codes, thr.evidence),
      TrialSignal("refusal", ref.level, ref.codes, ref.evidence)]);
    assert forall i :: 0 <= i < 3 ==> SignalClean(o.signals[i], "text");
    ThreeCleanSignalsPass(o);
  }

  /** `validate_trial_signals_output_v0` passes every output of `generate_trial_signals_v0_from_text`. */
  lemma TextOutputPasses(text: string)
    ensures TrialValidationOf(TextSignalsSpec(text)).status == Pass
  {
    RepetitionIsTextVerdict(text);
    KeywordIsTextVerdict(text, ThreatPatterns, "T_THREAT_KEYWORD_MATCH", "T_THREAT_NO_MATCH");
    KeywordIsTextVerdict(text, RefusalPatterns, "T_REFUSAL_KEYWORD_MATCH", "T_REFUSAL_NO_MATCH");
    RepetitionCodesOk(text);
    ThreatCodesOk(text);
    RefusalCodesOk(text);
    TextRecordPasses(RepetitionSpec(text), ThreatSpec(text), RefusalSpec(text));
  }

  /** The evidence-mode output record passes exactly when the pool has at most three items. */
  lemma EvidenceRecordValidation(pool: seq<TrialEvidence>, strength: Grade, clarity: Grade, safety: Grade)
    requires strength.level in EvidenceLevels && clarity.level in EvidenceLevels && safety.level in EvidenceLevels
    requires strength.codes != [] && clarity.codes != [] && safety.codes != []
    requires CodesOk(strength.codes) && CodesOk(clarity.codes) && CodesOk(safety.codes)
    ensures TrialValidationOf(EvidenceOutput(pool, strength, clarity, safety)).status == Pass <==> |pool| <= 3
  {
    var o := EvidenceOutput(pool, strength, clarity, safety);
    NamesOfThree(o.signals);
    PassExactly(o);
    if |pool| > 3 {
      assert !SignalClean(o.signals[0], "evidence");
    }
  }

  /**
   * `validate_trial_signals_output_v0` passes an output of
   * `generate_trial_signals_v0_from_structuring` exactly when its pool has at
   * most three items; otherwise it warns with one E_MAX_EVIDENCE per signal.
   * With `max_evidence` at most 3 it always passes.
   */
  lemma EvidenceOutputValidation(result: StructuringResult, tags: seq<EvidenceTag>, maxEvidence: int)
    requires EvidenceSignalsSpec(result, tags, maxEvidence).Ok?
    ensures var o := EvidenceSignalsSpec(result, tags, maxEvidence).value;
      var pool := PoolSpec(result.outputJson, maxEvidence).value;
      TrialValidationOf(o).status == Pass <==> |pool| <= 3
    ensures maxEvidence <= 3 ==> TrialValidationOf(EvidenceSignalsSpec(result, tags, maxEvidence).value).status == Pass
  {
    var pool := PoolSpec(result.outputJson, maxEvidence).value;
    var confidences := ConfidencesOf(result.outputJson, pool);
    var strength := StrengthOf(pool, confidences);
    var clarity := ClarityOf(KindsOf(tags));
    var safety := SafetyOf(TagValidationOf(tags));
    assert EvidenceSignalsSpec(result, tags, maxEvidence).value == EvidenceOutput(pool, strength, clarity, safety);
    StrengthCodesOk(pool, confidences);
    ClarityCodesOk(KindsOf(tags));
    TagCodesOk(tags);
    SafetyCodesOk(TagValidationOf(tags));
    EvidenceRecordValidation(pool, strength, clarity, safety);
    PoolBound(result.outputJson, maxEvidence);
  }
}
