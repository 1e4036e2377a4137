/**
 * The evaluation runner: each case runs the structuring pipeline with
 * tags, the tag validator and the requirement service, compares what they
 * decide with the case's expectations, and reports a status and reason
 * codes; an exception inside the pipeline becomes a failed case.
 *
 * Each case runs the structuring pipeline with its own LLM client (its
 * mock output, or the default mock client) and the v0 validator; the cases
 * of one set share the cache and the anchor archive.  The mock transcriber,
 * the default mock LLM client and the input model's validation of a
 * `structuring_input` dict are parameters.
 */
module EvalRunner {
  import opened Outcomes
  import opened JsonValues
  import opened Text
  import opened ValidatorResult
  import opened StructuringTypes
  import opened EvidenceTags
  import opened TagValidation
  import opened RequirementStates
  import opened EventIo
  import opened InputAdapters
  import opened AnchorStore
  import opened StructuringCache
  import StructuringPipeline
  import PipelineScenarios

  // ----- the evaluation set (`types_v0`) -----

  datatype EvalInputKind = TextInput | StructuringInputKind

  datatype EvalInput = EvalInput(kind: EvalInputKind, text: Option<string>, structuringInput: Option<Json>)

  datatype ExpectedRequirementState = ExpectedRequirementState(state: string, reasonCodesContains: seq<string>)

  datatype ExpectedEventIo = ExpectedEventIo(policy: string, canCreateEvent: Option<bool>, cautionTag: Option<string>)

  datatype ExpectedTagValidation = ExpectedTagValidation(status: Option<string>, codesContains: seq<string>)

  datatype EvalExpected = EvalExpected(
    requirementState: ExpectedRequirementState,
    eventIo: ExpectedEventIo,
    tagValidation: Option<ExpectedTagValidation>)

  datatype EvalCase = EvalCase(caseId: string, input: EvalInput, expected: EvalExpected, mockLlmOutputJson: Option<Json>)

  /** `UsageMetricsV0` without the timing and size fields. */
  datatype UsageMetrics = UsageMetrics(inputChars: int, cacheHit: Option<bool>)

  /** `EvalCaseResultV0` without the summary dict. */
  datatype EvalCaseResult = EvalCaseResult(caseId: string, status: string, reasonCodes: seq<string>, usage: UsageMetrics)

  /** What the services decided for one case, as `_compare_case` receives it. */
  datatype Observed = Observed(
    state: string, reasonCodes: seq<string>, policy: string, canCreateEvent: bool,
    cautionTag: Option<string>, tagStatus: string, tagCodes: seq<string>)

  // ----- `_subset_contains` -----

  /** `all(code in set(actual) for code in required)` */
  function SubsetContains(required: seq<string>, actual: seq<string>): (r: bool)
    ensures r <==> forall i :: 0 <= i < |required| ==> required[i] in actual
  {
    required == [] || (required[0] in actual && SubsetContains(required[1..], actual))
  }

  // ----- `_compare_case` -----

  const ReqStateMismatch := "E_REQ_STATE_MISMATCH"
  const ReqReasonCodesMissing := "E_REQ_REASON_CODES_MISSING"
  const EventPolicyMismatch := "E_EVENT_POLICY_MISMATCH"
  const EventCanCreateMismatch := "E_EVENT_CAN_CREATE_MISMATCH"
  const EventCautionTagMismatch := "E_EVENT_CAUTION_TAG_MISMATCH"
  const TagStatusMismatch := "E_TAG_VALIDATION_STATUS_MISMATCH"
  const TagCodesMissing := "E_TAG_VALIDATION_CODES_MISSING"

  /** The mismatch codes in the order the comparison checks them. */
  const MismatchCodes := [ReqStateMismatch, ReqReasonCodesMissing, EventPolicyMismatch,
                          EventCanCreateMismatch, EventCautionTagMismatch, TagStatusMismatch, TagCodesMissing]

  /** `[code] if b else []` */
  function Opt(b: bool, code: string): (r: seq<string>)
    ensures code in r <==> b
    ensures forall x :: x in r ==> x == code
  {
    if b then [code] else []
  }

  predicate StateDiffers(e: EvalExpected, o: Observed) { o.state != e.requirementState.state }
  predicate ReasonsMissing(e: EvalExpected, o: Observed) { !SubsetContains(e.requirementState.reasonCodesContains, o.reasonCodes) }
  predicate PolicyDiffers(e: EvalExpected, o: Observed) { o.policy != e.eventIo.policy }
  predicate CanCreateDiffers(e: EvalExpected, o: Observed) {
    e.eventIo.canCreateEvent.Some? && o.canCreateEvent != e.eventIo.canCreateEvent.value
  }
  predicate CautionDiffers(e: EvalExpected, o: Observed) {
    e.eventIo.cautionTag.Some? && o.cautionTag != e.eventIo.cautionTag
  }
  predicate TagStatusDiffers(e: EvalExpected, o: Observed) {
    e.tagValidation.Some? && e.tagValidation.value.status.Some? && o.tagStatus != e.tagValidation.value.status.value
  }
  predicate TagCodesMiss(e: EvalExpected, o: Observed) {
    e.tagValidation.Some? && !SubsetContains(e.tagValidation.value.codesContains, o.tagCodes)
  }

  /** The mismatch codes `_compare_case` returns. */
  function MismatchesOf(e: EvalExpected, o: Observed): seq<string> {
    Opt(StateDiffers(e, o), ReqStateMismatch)
    + Opt(ReasonsMissing(e, o), ReqReasonCodesMissing)
    + Opt(PolicyDiffers(e, o), EventPolicyMismatch)
    + Opt(CanCreateDiffers(e, o), EventCanCreateMismatch)
    + Opt(CautionDiffers(e, o), EventCautionTagMismatch)
    + Opt(TagStatusDiffers(e, o), TagStatusMismatch)
    + Opt(TagCodesMiss(e, o), TagCodesMissing)
  }

  /** `_compare_case`: appends one code per failed check, in order. */
  method CompareCase(e: EvalExpected, o: Observed) returns (ok: bool, mismatches: seq<string>)
    ensures mismatches == MismatchesOf(e, o)
    ensures ok <==> mismatches == []
  {
    ghost var m1 := Opt(StateDiffers(e, o), ReqStateMismatch);
    ghost var m2 := Opt(ReasonsMissing(e, o), ReqReasonCodesMissing);
    ghost var m3 := Opt(PolicyDiffers(e, o), EventPolicyMismatch);
    ghost var m4 := Opt(CanCreateDiffers(e, o), EventCanCreateMismatch);
    ghost var m5 := Opt(CautionDiffers(e, o), EventCautionTagMismatch);
    ghost var m6 := Opt(TagStatusDiffers(e, o), TagStatusMismatch);
    ghost var m7 := Opt(TagCodesMiss(e, o), TagCodesMissing);
    mismatches := [];
    if o.state != e.requirementState.state {
      mismatches := mismatches + [ReqStateMismatch];
    }
    assert mismatches == m1;
    if !SubsetContains(e.requirementState.reasonCodesContains, o.reasonCodes) {
      mismatches := mismatches + [ReqReasonCodesMissing];
    }
    assert mismatches == m1 + m2;
    if o.policy != e.eventIo.policy {
      mismatches := mismatches + [EventPolicyMismatch];
    }
    assert mismatches == m1 + m2 + m3;
    if e.eventIo.canCreateEvent.Some? {
      if o.canCreateEvent != e.eventIo.canCreateEvent.value {
        mismatches := mismatches + [EventCanCreateMismatch];
      }
    }
    assert mismatches == m1 + m2 + m3 + m4;
    if e.eventIo.cautionTag.Some? {
      if o.cautionTag != e.eventIo.cautionTag {
        mismatches := mismatches + [EventCautionTagMismatch];
      }
    }
    ghost var front := mismatches;
    assert front == m1 + m2 + m3 + m4 + m5;
    if e.tagValidation.Some? {
      if e.tagValidation.value.status.Some? {
        if o.tagStatus != e.tagValidation.value.status.value {
          mismatches := mismatches + [TagStatusMismatch];
        }
      }
      assert mismatches == front + m6;
      if !SubsetContains(e.tagValidation.value.codesContains, o.tagCodes) {
        mismatches := mismatches + [TagCodesMissing];
      }
    }
    assert mismatches == front + m6 + m7;
    ok := |mismatches| == 0;
  }

  /** A subsequence stays one when more is put in front of the sequence. */
  lemma {:induction false} SubsequenceSkip(t: seq<string>, front: seq<string>, tail: seq<string>)
    requires SubsequenceOf(t, tail)
    ensures SubsequenceOf(t, front + tail)
    decreases |front|
  {
    if front != [] {
      SubsequenceSkip(t, front[1..], tail);
      assert (front + tail)[1..] == front[1..] + tail;
    } else {
      assert front + tail == tail;
    }
  }

  /** Subsequences of two sequences concatenate to a subsequence of their concatenation. */
  lemma {:induction false} SubsequenceConcat(a: seq<string>, rest: seq<string>, t: seq<string>, tail: seq<string>)
    requires SubsequenceOf(a, rest) && SubsequenceOf(t, tail)
    ensures SubsequenceOf(a + t, rest + tail)
    decreases |rest|
  {
    if a == [] {
      assert a + t == t;
      SubsequenceSkip(t, rest, tail);
    } else {
      assert (rest + tail)[1..] == rest[1..] + tail;
      if a[0] == rest[0] && SubsequenceOf(a[1..], rest[1..]) {
        SubsequenceConcat(a[1..], rest[1..], t, tail);
        assert (a + t)[1..] == a[1..] + t;
      } else {
        SubsequenceConcat(a, rest[1..], t, tail);
      }
    }
  }

  lemma OptSubsequence(b: bool, x: string)
    ensures SubsequenceOf(Opt(b, x), [x])
  {
    assert SubsequenceOf<string>([], []);
    assert [x][1..] == [];
  }

  /** The mismatch codes come in the fixed order of `MismatchCodes`. */
  lemma MismatchOrder(e: EvalExpected, o: Observed)
    ensures SubsequenceOf(MismatchesOf(e, o), MismatchCodes)
  {
    var m1 := Opt(StateDiffers(e, o), ReqStateMismatch);
    var m2 := Opt(ReasonsMissing(e, o), ReqReasonCodesMissing);
    var m3 := Opt(PolicyDiffers(e, o), EventPolicyMismatch);
    var m4 := Opt(CanCreateDiffers(e, o), EventCanCreateMismatch);
    var m5 := Opt(CautionDiffers(e, o), EventCautionTagMismatch);
    var m6 := Opt(TagStatusDiffers(e, o), TagStatusMismatch);
    var m7 := Opt(TagCodesMiss(e, o), TagCodesMissing);
    OptSubsequence(StateDiffers(e, o), ReqStateMismatch);
    OptSubsequence(ReasonsMissing(e, o), ReqReasonCodesMissing);
    OptSubsequence(PolicyDiffers(e, o), EventPolicyMismatch);
    OptSubsequence(CanCreateDiffers(e, o), EventCanCreateMismatch);
    OptSubsequence(CautionDiffers(e, o), EventCautionTagMismatch);
    OptSubsequence(TagStatusDiffers(e, o), TagStatusMismatch);
    OptSubsequence(TagCodesMiss(e, o), TagCodesMissing);
    SubsequenceConcat(m1, [ReqStateMismatch], m2, [ReqReasonCodesMissing]);
    SubsequenceConcat(m1 + m2, MismatchCodes[..2], m3, [EventPolicyMismatch]);
    assert MismatchCodes[..2] + [EventPolicyMismatch] == MismatchCodes[..3];
    SubsequenceConcat(m1 + m2 + m3, MismatchCodes[..3], m4, [EventCanCreateMismatch]);
    assert MismatchCodes[..3] + [EventCanCreateMismatch] == MismatchCodes[..4];
    SubsequenceConcat(m1 + m2 + m3 + m4, MismatchCodes[..4], m5, [EventCautionTagMismatch]);
    assert MismatchCodes[..4] + [EventCautionTagMismatch] == MismatchCodes[..5];
    SubsequenceConcat(m1 + m2 + m3 + m4 + m5, MismatchCodes[..5], m6, [TagStatusMismatch]);
    assert MismatchCodes[..5] + [TagStatusMismatch] == MismatchCodes[..6];
    SubsequenceConcat(m1 + m2 + m3 + m4 + m5 + m6, MismatchCodes[..6], m7, [TagCodesMissing]);
    assert MismatchCodes[..6] + [TagCodesMissing] == MismatchCodes;
  }

  /**
   * Each mismatch code is reported exactly when its check fails; the
   * optional expectations are checked only when given.
   */
  lemma MismatchesReport(e: EvalExpected, o: Observed)
    ensures var m := MismatchesOf(e, o);
      && (ReqStateMismatch in m <==> o.state != e.requirementState.state)
      && (ReqReasonCodesMissing in m <==>
            exists i :: 0 <= i < |e.requirementState.reasonCodesContains|
                        && e.requirementState.reasonCodesContains[i] !in o.reasonCodes)
      && (EventPolicyMismatch in m <==> o.policy != e.eventIo.policy)
      && (EventCanCreateMismatch in m <==>
            e.eventIo.canCreateEvent.Some? && o.canCreateEvent != e.eventIo.canCreateEvent.value)
      && (EventCautionTagMismatch in m <==> e.eventIo.cautionTag.Some? && o.cautionTag != e.eventIo.cautionTag)
      && (TagStatusMismatch in m <==>
            e.tagValidation.Some? && e.tagValidation.value.status.Some?
            && o.tagStatus != e.tagValidation.value.status.value)
      && (TagCodesMissing in m <==>
            e.tagValidation.Some?
            && exists i :: 0 <= i < |e.tagValidation.value.codesContains|
                           && e.tagValidation.value.codesContains[i] !in o.tagCodes)
  {
    MismatchMembers(e, o);
  }

  /** Each code is in the mismatch list exactly when its check fails. */
  lemma MismatchMembers(e: EvalExpected, o: Observed)
    ensures var m := MismatchesOf(e, o);
      && (ReqStateMismatch in m <==> StateDiffers(e, o))
      && (ReqReasonCodesMissing in m <==> ReasonsMissing(e, o))
      && (EventPolicyMismatch in m <==> PolicyDiffers(e, o))
      && (EventCanCreateMismatch in m <==> CanCreateDiffers(e, o))
      && (EventCautionTagMismatch in m <==> CautionDiffers(e, o))
      && (TagStatusMismatch in m <==> TagStatusDiffers(e, o))
      && (TagCodesMissing in m <==> TagCodesMiss(e, o))
  {
    var m1 := Opt(StateDiffers(e, o), ReqStateMismatch);
    var m2 := Opt(ReasonsMissing(e, o), ReqReasonCodesMissing);
    var m3 := Opt(PolicyDiffers(e, o), EventPolicyMismatch);
    var m4 := Opt(CanCreateDiffers(e, o), EventCanCreateMismatch);
    var m5 := Opt(CautionDiffers(e, o), EventCautionTagMismatch);
    var m6 := Opt(TagStatusDiffers(e, o), TagStatusMismatch);
    var m7 := Opt(TagCodesMiss(e, o), TagCodesMissing);
    assert forall c :: c in MismatchesOf(e, o) <==>
      c in m1 || c in m2 || c in m3 || c in m4 || c in m5 || c in m6 || c in m7;
  }

  /** Every element of a subsequence is an element of the sequence. */
  lemma {:induction false} SubsequenceMembers(a: seq<string>, b: seq<string>, c: string)
    requires SubsequenceOf(a, b) && c in a
    ensures c in b
    decreases |b|
  {
    if a[0] == b[0] && SubsequenceOf(a[1..], b[1..]) {
      if c != a[0] {
        assert c in a[1..];
        SubsequenceMembers(a[1..], b[1..], c);
      }
    } else {
      SubsequenceMembers(a, b[1..], c);
    }
  }

  // ----- status and reason codes -----

  /** `fail` on a mismatch, else `warn` on a WARN tag verdict, else `pass`. */
  function CaseStatus(mismatches: seq<string>, tagStatus: Status): (r: string)
    ensures r == "fail" <==> mismatches != []
    ensures r == "warn" <==> mismatches == [] && tagStatus == Warn
    ensures r == "pass" <==> mismatches == [] && tagStatus != Warn
  {
    if mismatches != [] then "fail" else if tagStatus == Warn then "warn" else "pass"
  }

  /** No element occurs twice. */
  predicate Distinct(xs: seq<string>) {
    forall i, j :: 0 <= i < j < |xs| ==> xs[i] != xs[j]
  }

  /** The elements of `xs`, each at its first occurrence. */
  function Dedup(xs: seq<string>): (r: seq<string>)
    ensures forall c :: c in r <==> c in xs
    ensures Distinct(r)
  {
    if xs == [] then []
    else
      var d := Dedup(xs[..|xs| - 1]);
      var x := xs[|xs| - 1];
      if x in d then d else d + [x]
  }

  /** The dedup loop of `run_eval_case_v0`. */
  method DedupCodes(codes: seq<string>) returns (reasonCodes: seq<string>)
    ensures reasonCodes == Dedup(codes)
  {
    reasonCodes := [];
    for i := 0 to |codes|
      invariant reasonCodes == Dedup(codes[..i])
    {
      assert codes[..i + 1][..i] == codes[..i];
      if codes[i] !in reasonCodes {
        reasonCodes := reasonCodes + [codes[i]];
      }
    }
    assert codes[..|codes|] == codes;
  }

  /** Deduplicating a longer list only appends: the first occurrences keep their order. */
  lemma {:induction false} DedupPrefix(xs: seq<string>, ys: seq<string>)
    ensures Dedup(xs) <= Dedup(xs + ys)
    decreases |ys|
  {
    if ys == [] {
      assert xs + ys == xs;
    } else {
      var init := ys[..|ys| - 1];
      assert (xs + ys)[..|xs + ys| - 1] == xs + init;
      DedupPrefix(xs, init);
    }
  }

  /** A list without repeats is its own dedup. */
  lemma {:induction false} DedupOfDistinct(xs: seq<string>)
    requires Distinct(xs)
    ensures Dedup(xs) == xs
  {
    if xs != [] {
      var init := xs[..|xs| - 1];
      DedupOfDistinct(init);
      assert xs[|xs| - 1] !in init;
      assert init + [xs[|xs| - 1]] == xs;
    }
  }

  /** The mismatch codes never repeat. */
  lemma MismatchesDistinct(e: EvalExpected, o: Observed)
    ensures Distinct(MismatchesOf(e, o))
  {
    MismatchOrder(e, o);
    DistinctSubsequence(MismatchesOf(e, o), MismatchCodes);
  }

  /** A subsequence of a list without repeats has none. */
  lemma {:induction false} DistinctSubsequence(a: seq<string>, b: seq<string>)
    requires SubsequenceOf(a, b) && Distinct(b)
    ensures Distinct(a)
    decreases |b|
  {
    if a != [] {
      assert Distinct(b[1..]) by {
        forall i, j | 0 <= i < j < |b[1..]| ensures b[1..][i] != b[1..][j] {
          assert b[1..][i] == b[i + 1] && b[1..][j] == b[j + 1];
        }
      }
      if a[0] == b[0] && SubsequenceOf(a[1..], b[1..]) {
        DistinctSubsequence(a[1..], b[1..]);
        forall j | 0 < j < |a| ensures a[0] != a[j] {
          assert a[j] in a[1..];
          SubsequenceMembers(a[1..], b[1..], a[j]);
        }
        forall i, j | 0 <= i < j < |a| ensures a[i] != a[j] {
          if i > 0 {
            assert a[i] == a[1..][i - 1] && a[j] == a[1..][j - 1];
          }
        }
      } else {
        DistinctSubsequence(a, b[1..]);
      }
    }
  }

  /**
   * The reason codes are the mismatch codes first, in order, then the
   * requirement and tag codes; each code once.
   */
  lemma ReasonCodesLayout(mismatches: seq<string>, requirementCodes: seq<string>, tagCodes: seq<string>)
    requires Distinct(mismatches)
    ensures var r := Dedup(mismatches + requirementCodes + tagCodes);
      && mismatches <= r
      && Distinct(r)
      && forall c :: c in r <==> c in mismatches || c in requirementCodes || c in tagCodes
  {
    DedupOfDistinct(mismatches);
    assert mismatches + requirementCodes + tagCodes == mismatches + (requirementCodes + tagCodes);
    DedupPrefix(mismatches, requirementCodes + tagCodes);
  }

  // ----- one case -----

  /** What `_compare_case` is given, from the requirement service's result. */
  function ObservedOf(req: ServiceResult): Observed {
    Observed(req.requirementState.state.Value(), req.requirementState.reasonCodes,
             req.eventIo.policy.Value(), req.eventIo.canCreateEvent, req.eventIo.cautionTag,
             req.tagValidation.status.Value(), Codes(req.tagValidation.messages))
  }

  /**
   * The structuring input of a case: the mock transcription of the text
   * (an absent text reads as ""), or the case's `structuring_input`, which
   * must be a non-empty dict and is validated by the input model.
   */
  function PrepareInput(input: EvalInput, transcribe: string -> SttResult, parse: Json -> Outcome<StructuringInput>)
    : (r: Outcome<StructuringInput>)
    ensures input.kind == StructuringInputKind && (input.structuringInput.None? || input.structuringInput.value == Obj([]))
      ==> r == Raise(ValueError)
  {
    if input.kind == TextInput then
      BuildFromStt(transcribe(if input.text.Some? then input.text.value else ""))
    else if input.structuringInput.None? || input.structuringInput.value == Obj([]) then
      Raise(ValueError)
    else
      parse(input.structuringInput.value)
  }

  /** The result of a pipeline run that did not raise. */
  function EvaluatedCase(c: EvalCase, inputChars: int, result: StructuringResult, tags: seq<EvidenceTag>): EvalCaseResult {
    var req := RunRequirementService(result.outputJson, tags, Some(TagValidationOf(tags)), None, None);
    var o := ObservedOf(req);
    var m := MismatchesOf(c.expected, o);
    EvalCaseResult(c.caseId, CaseStatus(m, req.tagValidation.status),
                   Dedup(m + o.reasonCodes + o.tagCodes), UsageMetrics(inputChars, Some(result.cacheHit)))
  }

  /** The result when the pipeline raised `e`. */
  function FailedCase(c: EvalCase, inputChars: int, e: Exc): EvalCaseResult {
    EvalCaseResult(c.caseId, "fail", ["E_EXCEPTION", e.Name()], UsageMetrics(inputChars, None))
  }

  /**
   * The LLM client a case runs with: a client answering with the case's
   * `mock_llm_output_json`, which the structuring call reads back as that
   * same document, when the case has one; otherwise the default mock
   * client `mock`.
   */
  function CaseLlm(c: EvalCase, mock: StructuringInput -> Outcome<Json>): (llm: StructuringInput -> Outcome<Json>)
    ensures c.mockLlmOutputJson.Some? ==> forall input :: llm(input) == Ok(c.mockLlmOutputJson.value)
    ensures c.mockLlmOutputJson.None? ==> forall input :: llm(input) == mock(input)
  {
    if c.mockLlmOutputJson.Some? then
      var payload := c.mockLlmOutputJson.value;
      (input: StructuringInput) => Ok(payload)
    else mock
  }

  /**
   * What a run is given besides the cases: Unicode normalisation, the mock
   * transcriber, the input model's validation of a `structuring_input`
   * dict and the default mock LLM client.
   */
  datatype EvalEnv = EvalEnv(
    nfc: Normalizer, transcribe: string -> SttResult,
    parse: Json -> Outcome<StructuringInput>, mock: StructuringInput -> Outcome<Json>)

  /** What the cases of one run share: the cache (`None` without one) and the anchor archive. */
  datatype EvalState = EvalState(cache: Option<map<Json, Json>>, saved: map<(string, Json), seq<AnchorRecord>>)

  /** The pipeline run of one case against the state `st`: the case's LLM and the v0 validator. */
  ghost function CaseRun(c: EvalCase, env: EvalEnv, input: StructuringInput, st: EvalState): StructuringPipeline.PipelineRun {
    StructuringPipeline.PipelineSpec(env.nfc, input, CaseLlm(c, env.mock), PipelineScenarios.V0Validator, st.cache, st.saved)
  }

  /**
   * `run_eval_case_v0` against the state `st`: an error preparing the
   * input propagates; an error inside the pipeline becomes a failed case.
   * The second component is the state the case leaves behind.
   */
  ghost function EvalCaseSpec(c: EvalCase, env: EvalEnv, st: EvalState): (Outcome<EvalCaseResult>, EvalState) {
    match PrepareInput(c.input, env.transcribe, env.parse)
    case Raise(e) => (Raise(e), st)
    case Ok(input) =>
      var run := CaseRun(c, env, input, st);
      var st' := EvalState(run.entries, run.saved);
      match run.result
      case Raise(e) => (Ok(FailedCase(c, |input.fullText|, e)), st')
      case Ok(result) => (Ok(EvaluatedCase(c, |input.fullText|, result, EvidenceTagsFor(result))), st')
  }

  /** `run_eval_case_v0(case=c, cache=cache)`, with the anchors archived in `archive`. */
  method RunEvalCase(
    c: EvalCase, env: EvalEnv, cache: StructuringPipeline.MemoryCache?, archive: StructuringPipeline.AnchorArchive)
    returns (r: Outcome<EvalCaseResult>)
    modifies cache, archive
    ensures var s := EvalCaseSpec(c, env, EvalState(if cache == null then None else Some(old(cache.entries)), old(archive.saved)));
      && r == s.0
      && s.1 == EvalState(if cache == null then None else Some(cache.entries), archive.saved)
  {
    var input :- PrepareInput(c.input, env.transcribe, env.parse);
    var inputChars := |input.fullText|;
    var llm := new StructuringCall(CaseLlm(c, env.mock));
    if cache == null {
      StructuringPipeline.WithoutCache(env.nfc, input, llm.fn, PipelineScenarios.V0Validator, archive.saved);
    }
    var run := StructuringPipeline.RunStructuringPipelineWithTags(
      env.nfc, input, llm, PipelineScenarios.V0Validator, cache, archive);
    if run.Raise? {
      return Ok(EvalCaseResult(c.caseId, "fail", ["E_EXCEPTION", run.exc.Name()], UsageMetrics(inputChars, None)));
    }
    var (result, tags) := run.value;
    var tagValidation := ValidateEvidenceTags(tags);
    var req := RunRequirementService(result.outputJson, tags, Some(tagValidation), None, None);
    var requirementCodes := req.requirementState.reasonCodes;
    var tagCodes := Codes(req.tagValidation.messages);
    var ok, mismatches := CompareCase(c.expected, ObservedOf(req));
    var status: string;
    if !ok {
      status := "fail";
    } else if req.tagValidation.status == Warn {
      status := "warn";
    } else {
      status := "pass";
    }
    var reasonCodes := DedupCodes(mismatches + requirementCodes + tagCodes);
    r := Ok(EvalCaseResult(c.caseId, status, reasonCodes, UsageMetrics(inputChars, Some(result.cacheHit))));
  }

  /** A pipeline exception fails the case with E_EXCEPTION and the exception's class name. */
  lemma ExceptionFailsCase(c: EvalCase, env: EvalEnv, st: EvalState)
    requires PrepareInput(c.input, env.transcribe, env.parse).Ok?
    requires CaseRun(c, env, PrepareInput(c.input, env.transcribe, env.parse).value, st).result.Raise?
    ensures var r := EvalCaseSpec(c, env, st).0;
      var e := CaseRun(c, env, PrepareInput(c.input, env.transcribe, env.parse).value, st).result.exc;
      && r.Ok? && r.value.caseId == c.caseId && r.value.status == "fail"
      && r.value.reasonCodes == ["E_EXCEPTION", e.Name()]
      && r.value.usage.cacheHit == None
  {
  }

  /**
   * A case that ran fails exactly when a check failed, warns exactly when
   * none did and the tag verdict is WARN, and passes otherwise, even when
   * the tag verdict is FAIL as the case expected; its reason codes start
   * with the mismatch codes and hold each code once.
   */
  lemma EvaluatedCaseVerdict(c: EvalCase, inputChars: int, result: StructuringResult, tags: seq<EvidenceTag>)
    ensures var r := EvaluatedCase(c, inputChars, result, tags);
      var req := RunRequirementService(result.outputJson, tags, Some(TagValidationOf(tags)), None, None);
      var m := MismatchesOf(c.expected, ObservedOf(req));
      && (r.status == "fail" <==> m != [])
      && (r.status == "warn" <==> m == [] && TagValidationOf(tags).status == Warn)
      && (r.status == "pass" <==> m == [] && TagValidationOf(tags).status != Warn)
      && m <= r.reasonCodes
      && Distinct(r.reasonCodes)
      && (forall code :: code in r.reasonCodes <==>
            code in m || code in req.requirementState.reasonCodes || code in Codes(TagValidationOf(tags).messages))
  {
    var req := RunRequirementService(result.outputJson, tags, Some(TagValidationOf(tags)), None, None);
    var o := ObservedOf(req);
    MismatchesDistinct(c.expected, o);
    ReasonCodesLayout(MismatchesOf(c.expected, o), o.reasonCodes, o.tagCodes);
  }

  // ----- the whole set -----

  /** One case run against a state: its outcome and the state it leaves. */
  type CaseStep = (EvalCase, EvalState) -> (Outcome<EvalCaseResult>, EvalState)

  /**
   * The loop of `run_evalset_v0` for any way of running one case: the
   * cases in order, each against the state the earlier ones left; the
   * first case that raises makes the run raise.
   */
  function ThreadCases(cases: seq<EvalCase>, step: CaseStep, st: EvalState): (Outcome<seq<EvalCaseResult>>, EvalState) {
    if cases == [] then (Ok([]), st)
    else
      var before := ThreadCases(cases[..|cases| - 1], step, st);
      match before.0
      case Raise(e) => (Raise(e), before.1)
      case Ok(results) =>
        var one := step(cases[|cases| - 1], before.1);
        match one.0
        case Raise(e) => (Raise(e), one.1)
        case Ok(r) => (Ok(results + [r]), one.1)
  }

  /** Once a prefix of the cases raises, the whole run raises the same and leaves the same state. */
  lemma {:induction false} ThreadRaiseSticks(cases: seq<EvalCase>, k: nat, step: CaseStep, st: EvalState)
    requires k <= |cases|
    requires ThreadCases(cases[..k], step, st).0.Raise?
    ensures ThreadCases(cases, step, st) == ThreadCases(cases[..k], step, st)
    decreases |cases| - k
  {
    if k < |cases| {
      assert cases[..k + 1][..k] == cases[..k];
      ThreadRaiseSticks(cases, k + 1, step, st);
    } else {
      assert cases[..k] == cases;
    }
  }

  /**
   * The results of a run that does not raise, one per case: the i-th is
   * case i run against the state the first i cases left behind.
   */
  lemma {:induction false} ThreadResults(cases: seq<EvalCase>, step: CaseStep, st: EvalState)
    requires ThreadCases(cases, step, st).0.Ok?
    ensures var rs := ThreadCases(cases, step, st).0.value;
      && |rs| == |cases|
      && forall i :: 0 <= i < |cases| ==> step(cases[i], ThreadCases(cases[..i], step, st).1).0 == Ok(rs[i])
  {
    if cases != [] {
      var n := |cases| - 1;
      var init := cases[..n];
      ThreadResults(init, step, st);
      var rs := ThreadCases(cases, step, st).0.value;
      var ri := ThreadCases(init, step, st).0.value;
      forall i | 0 <= i < |cases|
        ensures step(cases[i], ThreadCases(cases[..i], step, st).1).0 == Ok(rs[i])
      {
        if i < n {
          assert cases[i] == init[i] && rs[i] == ri[i] && init[..i] == cases[..i];
        }
      }
    }
  }

  /** Cases that all leave the state `st` as they find it leave it so together. */
  lemma {:induction false} ThreadKeepsState(cases: seq<EvalCase>, step: CaseStep, st: EvalState)
    requires forall c :: step(c, st).1 == st
    ensures ThreadCases(cases, step, st).1 == st
  {
    if cases != [] {
      ThreadKeepsState(cases[..|cases| - 1], step, st);
    }
  }

  /** Two cases in a row: the second runs against the state the first left. */
  lemma TwoCasesThread(c1: EvalCase, c2: EvalCase, step: CaseStep, st: EvalState)
    requires step(c1, st).0.Ok? && step(c2, step(c1, st).1).0.Ok?
    ensures ThreadCases([c1, c2], step, st) == (Ok([step(c1, st).0.value, step(c2, step(c1, st).1).0.value]), step(c2, step(c1, st).1).1)
  {
    var one := step(c1, st);
    var two := step(c2, one.1);
    assert [c1][..0] == [];
    assert ThreadCases([c1], step, st) == (Ok([] + [one.0.value]), one.1);
    assert [] + [one.0.value] == [one.0.value];
    assert [c1, c2][..1] == [c1];
    assert [one.0.value] + [two.0.value] == [one.0.value, two.0.value];
  }

  /** `run_eval_case_v0` as a step of the set runner. */
  ghost function EvalStep(env: EvalEnv): CaseStep {
    (c: EvalCase, st: EvalState) => EvalCaseSpec(c, env, st)
  }

  /** `run_evalset_v0`: every case runs with the environment `env` and the shared state. */
  ghost function EvalSetSpec(cases: seq<EvalCase>, env: EvalEnv, st: EvalState): (Outcome<seq<EvalCaseResult>>, EvalState) {
    ThreadCases(cases, EvalStep(env), st)
  }

  /** `run_evalset_v0(evalset, cache)`: one `run_eval_case_v0` per case, all sharing `cache`. */
  method RunEvalSet(
    cases: seq<EvalCase>, env: EvalEnv, cache: StructuringPipeline.MemoryCache?, archive: StructuringPipeline.AnchorArchive)
    returns (r: Outcome<seq<EvalCaseResult>>)
    modifies cache, archive
    ensures var s := EvalSetSpec(cases, env, EvalState(if cache == null then None else Some(old(cache.entries)), old(archive.saved)));
      && r == s.0
      && s.1 == EvalState(if cache == null then None else Some(cache.entries), archive.saved)
  {
    ghost var st0 := EvalState(if cache == null then None else Some(cache.entries), archive.saved);
    var results: seq<EvalCaseResult> := [];
    for i := 0 to |cases|
      invariant ThreadCases(cases[..i], EvalStep(env), st0)
        == (Ok(results), EvalState(if cache == null then None else Some(cache.entries), archive.saved))
    {
      assert cases[..i + 1][..i] == cases[..i];
      var one := RunEvalCase(cases[i], env, cache, archive);
      assert EvalStep(env)(cases[i], ThreadCases(cases[..i], EvalStep(env), st0).1) == (one, EvalState(if cache == null then None else Some(cache.entries), archive.saved));
      if one.Raise? {
        ThreadRaiseSticks(cases, i + 1, EvalStep(env), st0);
        return Raise(one.exc);
      }
      results := results + [one.value];
    }
    assert cases[..|cases|] == cases;
    r := Ok(results);
  }

  /** Once a prefix of the cases raises, the whole run raises the same and leaves the same state. */
  lemma EvalSetRaiseSticks(cases: seq<EvalCase>, k: nat, env: EvalEnv, st: EvalState)
    requires k <= |cases|
    requires EvalSetSpec(cases[..k], env, st).0.Raise?
    ensures EvalSetSpec(cases, env, st) == EvalSetSpec(cases[..k], env, st)
  {
    ThreadRaiseSticks(cases, k, EvalStep(env), st);
  }

  /**
   * The results of a run that does not raise, one per case: the i-th is
   * case i run against the state the first i cases left behind.
   */
  lemma EvalSetResults(cases: seq<EvalCase>, env: EvalEnv, st: EvalState)
    requires EvalSetSpec(cases, env, st).0.Ok?
    ensures var rs := EvalSetSpec(cases, env, st).0.value;
      && |rs| == |cases|
      && forall i :: 0 <= i < |cases| ==>
           EvalCaseSpec(cases[i], env, EvalSetSpec(cases[..i], env, st).1).0 == Ok(rs[i])
  {
    ThreadResults(cases, EvalStep(env), st);
  }

  /**
   * A run that does not raise returns one result per case, in case order,
   * each carrying its case's id and computed against the cache and archive
   * the earlier cases left.
   */
  lemma EvalSetOnePerCase(cases: seq<EvalCase>, env: EvalEnv, st: EvalState)
    requires EvalSetSpec(cases, env, st).0.Ok?
    ensures var rs := EvalSetSpec(cases, env, st).0.value;
      && |rs| == |cases|
      && forall i :: 0 <= i < |cases| ==>
           && EvalCaseSpec(cases[i], env, EvalSetSpec(cases[..i], env, st).1).0 == Ok(rs[i])
           && rs[i].caseId == cases[i].caseId
  {
    EvalSetResults(cases, env, st);
    forall i | 0 <= i < |cases|
      ensures EvalSetSpec(cases, env, st).0.value[i].caseId == cases[i].caseId
    {
      EvalCaseKeepsId(cases[i], env, EvalSetSpec(cases[..i], env, st).1);
    }
  }

  /** A case's result carries the case's id. */
  lemma EvalCaseKeepsId(c: EvalCase, env: EvalEnv, st: EvalState)
    ensures EvalCaseSpec(c, env, st).0.Ok? ==> EvalCaseSpec(c, env, st).0.value.caseId == c.caseId
  {
  }

  /** Without a cache a case leaves the state as it found it. */
  lemma CaseWithoutCacheKeepsState(c: EvalCase, env: EvalEnv, saved: map<(string, Json), seq<AnchorRecord>>)
    ensures EvalCaseSpec(c, env, EvalState(None, saved)).1 == EvalState(None, saved)
  {
    var prepared := PrepareInput(c.input, env.transcribe, env.parse);
    if prepared.Ok? {
      StructuringPipeline.WithoutCache(env.nfc, prepared.value, CaseLlm(c, env.mock), PipelineScenarios.V0Validator, saved);
    }
  }

  /** Without a cache the cases do not affect each other: each result is that case's run on its own. */
  lemma CasesIndependentWithoutCache(cases: seq<EvalCase>, env: EvalEnv, saved: map<(string, Json), seq<AnchorRecord>>)
    requires EvalSetSpec(cases, env, EvalState(None, saved)).0.Ok?
    ensures var rs := EvalSetSpec(cases, env, EvalState(None, saved)).0.value;
      && |rs| == |cases|
      && forall i :: 0 <= i < |cases| ==> EvalCaseSpec(cases[i], env, EvalState(None, saved)).0 == Ok(rs[i])
  {
    var st := EvalState(None, saved);
    forall c
      ensures EvalStep(env)(c, st).1 == st
    {
      CaseWithoutCacheKeepsState(c, env, saved);
    }
    EvalSetResults(cases, env, st);
    forall i | 0 <= i < |cases|
      ensures EvalSetSpec(cases[..i], env, st).1 == st
    {
      ThreadKeepsState(cases[..i], EvalStep(env), st);
    }
  }

  /**
   * With a shared cache, a second case on the same input as the first is a
   * cache hit: it is judged on the first case's output, whatever its own
   * `mock_llm_output_json` says, and reports `cache_hit`.
   */
  lemma SharedCacheReusesFirstOutput(
    c1: EvalCase, c2: EvalCase, env: EvalEnv, entries: map<Json, Json>, saved: map<(string, Json), seq<AnchorRecord>>)
    requires c2.input == c1.input
    requires PrepareInput(c1.input, env.transcribe, env.parse).Ok?
    requires var input := PrepareInput(c1.input, env.transcribe, env.parse).value;
      && input.segments == []
      && CaseLlm(c1, env.mock)(input).Ok? && CaseLlm(c1, env.mock)(input).value != Null
      && CaseRun(c1, env, input, EvalState(Some(entries), saved)).result.Ok?
    ensures var input := PrepareInput(c1.input, env.transcribe, env.parse).value;
      var first := CaseRun(c1, env, input, EvalState(Some(entries), saved)).result.value.(cacheHit := true);
      var rs := EvalSetSpec([c1, c2], env, EvalState(Some(entries), saved)).0;
      && rs.Ok? && |rs.value| == 2
      && rs.value[1] == EvaluatedCase(c2, |input.fullText|, first, EvidenceTagsFor(first))
      && rs.value[1].usage.cacheHit == Some(true)
  {
    var input := PrepareInput(c1.input, env.transcribe, env.parse).value;
    var st := EvalState(Some(entries), saved);
    var run1 := CaseRun(c1, env, input, st);
    var mid := EvalState(run1.entries, run1.saved);
    var first := run1.result.value.(cacheHit := true);
    assert EvalCaseSpec(c1, env, st).1 == mid;
    SecondCaseHits(c1, c2, env, input, entries, saved);
    assert EvalCaseSpec(c2, env, mid).0 == Ok(EvaluatedCase(c2, |input.fullText|, first, EvidenceTagsFor(first)));
    TwoCasesThread(c1, c2, EvalStep(env), st);
  }

  /** The pipeline run of the second case is the first case's, marked as a hit. */
  lemma SecondCaseHits(
    c1: EvalCase, c2: EvalCase, env: EvalEnv, input: StructuringInput,
    entries: map<Json, Json>, saved: map<(string, Json), seq<AnchorRecord>>)
    requires input.segments == []
    requires CaseLlm(c1, env.mock)(input).Ok? && CaseLlm(c1, env.mock)(input).value != Null
    requires CaseRun(c1, env, input, EvalState(Some(entries), saved)).result.Ok?
    ensures var run1 := CaseRun(c1, env, input, EvalState(Some(entries), saved));
      CaseRun(c2, env, input, EvalState(run1.entries, run1.saved)).result == Ok(run1.result.value.(cacheHit := true))
  {
    var llm1 := CaseLlm(c1, env.mock);
    var run1 := CaseRun(c1, env, input, EvalState(Some(entries), saved));
    StructuringPipeline.SecondRunHits(env.nfc, input, llm1, PipelineScenarios.V0Validator, entries, saved);
    StructuringPipeline.UncalledIgnoresModel(
      env.nfc, input, llm1, CaseLlm(c2, env.mock), PipelineScenarios.V0Validator, run1.entries, run1.saved);
  }
}
