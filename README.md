# AnsimOn-AI evidence pipeline, modelled in Dafny

This project models the deterministic core of AnsimOn-AI (`src/ansimon_ai`): the evidence pipeline that turns a statement of harassment or stalking into a structured, anchored and validated evidence document, and then into tags, a requirement state, an event-creation policy and trial signals. Every stage is modelled as the source writes it, and properties of each stage and of their composition are proved.

The stages, with the Dafny module that models each:

- **Anchor matching** (`AnchorMatcher`, `AnchorApply`, `AnchorApplyFacts`, `AnchorStore`). A span is anchored only when it occurs exactly once in the NFC-normalised text, counting overlapping hits. `apply_anchors` copies the JSON tree and writes an `evidence_anchor` into every node with a truthy `evidence_span`. `collect_anchors` flattens the tree into `(json_path, span, anchor)` entries in document order.
- **Structuring pipeline** (`StructuringPipeline`, `StructuringCache`, `CacheHash`, `FileStorage`, `StructuringTypes`, `PipelineScenarios`). The pipeline looks up the cache, calls the language model on a miss, anchors, counts matched and unmatched anchors, archives them and validates. The cache key is the canonical, NFC-normalised and key-sorted payload. The disk cache writes `{_metadata, result}`.
- **Validator rule engine** (`ValidatorResult`, `RuleEngine`, `SchemaRules`, `FieldRules`, `LegacyRules`, `ValidatorAdapter`). Rule outputs fold into PASS, WARN or FAIL. An explicit sub-result wins; otherwise any `E_` code fails. `StructuringValidatorV0` fixes the rule list and maps the status to upper case.
- **Tags, requirement state and event policy** (`EvidenceTags`, `TagValidation`, `RequirementStates`, `EventIo`). Tags come from the anchor statistics and the validation. A tag verdict gives a requirement state, and the state gives an event policy. For example, STRUCT_INVALID leads to INVALID, which leads to deny.
- **Trial signals** (`TrialTypes`, `TrialTokens`, `TrialTextSignals`, `TrialEvidenceSignals`, `TrialValidation`, `TrialSignalFacts`, `TrialCache`). Text mode uses token-frequency repetition and first-pattern-wins keyword search. Evidence mode uses a capped evidence pool and three grades. The trial validator can never return FAIL. The trial cache keys files by the truncation limits.
- **Evaluation and inputs** (`EvalRunner`, `InputAdapters`). The eval runner runs each case with its own mock output, or the default client when it has none. The cases share one cache and one anchor archive. For each case it compares the result, computes the status and deduplicates the reason codes. The STT and OCR adapters build the structuring input.

Shared modules: `Outcomes` models Python exceptions as `Raise(exc)` results, with the exception's class name. `JsonValues` models JSON trees whose objects are ordered key/value sequences, since insertion order decides first-error rules, pool order and path order. `Text` holds the string helpers. `PyFormat` prints values as Python's `str` and `repr` do in message texts: the quote choice and escapes of a string, the shortest digits of a float, and list and dict displays. A JSON float is kept as the decimal its text writes.

Operations that update state in place are classes with `modifies` clauses: the validator runner, the file store, the in-memory cache, the anchor archive and the language-model call log. Loops in the source are methods with loop invariants, each proved equal to a specification function. Those functions carry the properties as lemmas.

Some behaviour of the source is modelled exactly as written, and lemmas state its consequences:

- Anchors written by `apply_anchors` carry no `modality`, so the V0 validator fails any document with a matched top-level anchor. Such an anchor on the first pooled field also makes evidence-mode trial signals raise (`PipelineScenarios`, `TrialEvidenceSignals.AnchorWithoutModalityRaises`).
- `compute_input_hash` raises `TypeError` for an input with segments, because segment objects are not JSON-serialisable (`CacheHash`).
- The OCR builder always raises `ValidationError`, because the input model does not admit the source type "ocr" (`InputAdapters.OcrBuildAlwaysRaises`).
- The reason-code pattern `^[TEWP]_[A-Z0-9_]+$` accepts one trailing newline, as Python's `$` does.

## Model

| member | source | states |
|---|---|---|
| ValidatorResult.Codes | src/ansimon_ai/validator/result.py:10-19 | the code list has one entry per message, in message order |
| RuleEngine.DecideStatus | src/ansimon_ai/validator/runner.py:49-68 | with explicit statuses: FAIL iff one of them is FAIL, WARN iff none is FAIL and one is WARN; without: PASS iff there are no messages, FAIL iff some code starts with "E_", WARN otherwise |
| RuleEngine.OutputsNext | src/ansimon_ai/validator/runner.py:25-26 | each next rule either raises, which ends the run with its exception, or appends its output to the earlier ones |
| RuleEngine.OutputsRaiseEarly | src/ansimon_ai/validator/runner.py:25-26 | once a rule raises, the run raises that exception whatever the later rules do |
| RuleEngine.RunSpecExtensional | src/ansimon_ai/validator/runner.py:21-47 | two rule lists that agree on every document give the same run |
| RuleEngine.NoRulesPass | src/ansimon_ai/validator/runner.py:62-63 | a runner without rules passes with no messages |
| RuleEngine.AddedRuleMessagesLast | src/ansimon_ai/validator/runner.py:18-40 | a rule added last contributes its messages after all earlier messages, which keep their order |
| RuleEngine.StatusIgnoresRuleOrder | src/ansimon_ai/validator/runner.py:25-68 | the status depends only on the multiset of rule outputs, not on rule order |
| RuleEngine.ValidatorRunner.constructor | src/ansimon_ai/validator/runner.py:15-16 | the runner holds exactly the given rules (none for `None`) |
| RuleEngine.ValidatorRunner.Add | src/ansimon_ai/validator/runner.py:18-19 | the rule is appended; the earlier rules are unchanged |
| RuleEngine.ValidatorRunner.Run | src/ansimon_ai/validator/runner.py:21-47 | the loop's result equals the run specification: messages of all outputs in order, explicit statuses collected, status decided from them; the first raise propagates |
| RuleEngine.Absorb | src/ansimon_ai/validator/runner.py:27-40 | one output adds exactly its messages, in order, and its status only when it is an explicit result |
| SchemaRules.SchemaExists | src/ansimon_ai/validator/rules/schema_exists.py:3-10 | silent exactly on a dict; otherwise one E_NOT_OBJECT message with no field |
| SchemaRules.MissingKeys | src/ansimon_ai/validator/rules/schema/required_keys.py:18-20 | on a dict: exactly the listed keys the dict lacks, in list order; raises TypeError on a value that `in` cannot search |
| SchemaRules.RequiredTopLevelKeysOnDict | src/ansimon_ai/validator/rules/schema/required_keys.py:17-29 | silent iff all eleven keys are present; otherwise one E_REQUIRED_KEY_MISSING at field "." listing exactly the missing keys, in declaration order |
| SchemaRules.CheckConfidence | src/ansimon_ai/validator/rules/schema/confidence_and_evidence.py:5-13 | E_INVALID_CONFIDENCE at `<path>.confidence` iff the confidence is not high/medium/low, its text the fixed prefix followed by `str(confidence)` as Python prints it; an unhashable confidence raises TypeError |
| SchemaRules.CheckEvidencePair | src/ansimon_ai/validator/rules/schema/confidence_and_evidence.py:15-48 | anchor without span, non-text modality, and a non-integer or empty range each give their code at their field; a span with a non-dict anchor raises AttributeError |
| SchemaRules.FirstProblem | src/ansimon_ai/validator/rules/schema/confidence_and_evidence.py:51-63 | the result is the problem of the first dict field that has one, in insertion order; none iff no field has one |
| SchemaRules.ConfidenceAndEvidence | src/ansimon_ai/validator/rules/schema/confidence_and_evidence.py:50-63 | a non-dict raises AttributeError; otherwise at most one message |
| SchemaRules.ConfidenceAndEvidenceCodes | src/ansimon_ai/validator/rules/schema/confidence_and_evidence.py:8-45 | every code the rule emits starts with "E_", so the runner FAILs whenever it fires |
| FieldRules.ConfidenceFieldMessages | src/ansimon_ai/validator/rules/confidence/confidence_value.py:15-48 | a non-dict field gives nothing; a missing confidence gives confidence_missing, a value outside high/medium/low gives confidence_invalid_value with the text `invalid confidence value: ` followed by `str(confidence)` as Python prints it, "high" without a span gives confidence_high_requires_evidence, all at the field's name; an unhashable confidence raises TypeError |
| FieldRules.ConfidenceMessages | src/ansimon_ai/validator/rules/confidence/confidence_value.py:14-48 | at most one message per dict field |
| FieldRules.ConfidenceValue | src/ansimon_ai/validator/rules/confidence/confidence_value.py:11-58 | always an explicit result: FAIL iff there are messages, PASS otherwise; a non-dict payload raises AttributeError |
| FieldRules.ValidateConfidenceValue | src/ansimon_ai/validator/rules/confidence/confidence_value.py:11-58 | the loop computes exactly the rule's specification |
| FieldRules.ConfidenceRaiseEarly | src/ansimon_ai/validator/rules/confidence/confidence_value.py:14-31 | a raise on one field ends the rule with that exception |
| SchemaRules.FloatConfidenceMessage | src/ansimon_ai/validator/rules/schema/confidence_and_evidence.py:5-13 | a float confidence written 0.90 is reported as `0.9`, as `str` prints the float |
| SchemaRules.StringConfidenceMessage | src/ansimon_ai/validator/rules/schema/confidence_and_evidence.py:5-13 | a string confidence is reported without quotes |
| FieldRules.FloatConfidenceFieldMessages | src/ansimon_ai/validator/rules/confidence/confidence_value.py:31-38 | a float confidence 0.9 is reported as `0.9`, as Python prints the float |
| FieldRules.SmallFloatConfidenceFieldMessages | src/ansimon_ai/validator/rules/confidence/confidence_value.py:31-38 | a float confidence 0.00001 is reported as `1e-05`, in Python's scientific notation |
| PyFormat.ReprQuote | src/ansimon_ai/trial/signals_v0/validate.py:63 | `repr` quotes with `"` iff the string holds `'` and no `"`, otherwise with `'` |
| PyFormat.Repr | src/ansimon_ai/trial/signals_v0/validate.py:63 | `repr(s)` begins and ends with the quote `ReprQuote` chooses |
| PyFormat.EscapeCharReadsBack | src/ansimon_ai/trial/signals_v0/validate.py:63 | each escape `repr` writes (the quote, backslash, `\t`, `\n`, `\r`, `\xhh`) reads back as its character |
| PyFormat.EscapeReadsBack | src/ansimon_ai/trial/signals_v0/validate.py:63 | the body `repr` writes between the quotes reads back as the string |
| PyFormat.ReprReadsBack | src/ansimon_ai/trial/signals_v0/validate.py:63 | the literal `repr(s)` prints evaluates to `s` |
| PyFormat.ReprInjective | src/ansimon_ai/trial/signals_v0/validate.py:63 | different codes are reported with different texts |
| PyFormat.EscapePlain | src/ansimon_ai/trial/signals_v0/validate.py:63 | characters that need no escape are written as they are |
| PyFormat.ReprOfPlain | src/ansimon_ai/trial/signals_v0/validate.py:63 | a string without quotes, backslashes or control characters prints between single quotes |
| PyFormat.ReprApostrophe | src/ansimon_ai/trial/signals_v0/validate.py:63 | `repr("it's")` is `"it's"` |
| PyFormat.ReprTab | src/ansimon_ai/trial/signals_v0/validate.py:63 | `repr("a\tb")` is `'a\\tb'` |
| PyFormat.Shorten | src/ansimon_ai/validator/rules/confidence/confidence_value.py:36 | the shortest digits of `n × 10^e`: no trailing zero, an exponent no smaller than `e`, and zero exactly for zero |
| PyFormat.ShortenKeepsValue | src/ansimon_ai/validator/rules/confidence/confidence_value.py:36 | the shortest digits stand for the same value as the digits written |
| PyFormat.ShortenScaled | src/ansimon_ai/validator/rules/confidence/confidence_value.py:36 | trailing zeros written in the JSON text do not change the shortest digits |
| PyFormat.FloatReprScaled | src/ansimon_ai/validator/rules/confidence/confidence_value.py:36 | extra trailing zeros in the JSON text of a float do not change its `repr` |
| PyFormat.FloatReprOfValue | src/ansimon_ai/validator/rules/confidence/confidence_value.py:36 | two JSON texts of the same number print the same float `repr` |
| PyFormat.FloatReprPositional | src/ansimon_ai/validator/rules/confidence/confidence_value.py:36 | 0.9, 0.05 and 100.0 print in positional notation |
| PyFormat.FloatReprFraction | src/ansimon_ai/validator/rules/confidence/confidence_value.py:36 | -2.5 and 12.5 print with their sign and fraction |
| PyFormat.FloatReprSmall | src/ansimon_ai/validator/rules/confidence/confidence_value.py:36 | 1e-05 prints in scientific notation with a two-digit exponent |
| PyFormat.FloatReprSmallFraction | src/ansimon_ai/validator/rules/confidence/confidence_value.py:36 | 1.5e-07 prints in scientific notation with its fraction |
| PyFormat.FloatReprLarge | src/ansimon_ai/validator/rules/confidence/confidence_value.py:36 | 1e+16 prints in scientific notation with a `+` exponent |
| PyFormat.LayOutShape | src/ansimon_ai/validator/rules/confidence/confidence_value.py:36 | either notation of a float's digits starts with a digit and holds a `.` or an `e` |
| PyFormat.FloatTextShape | src/ansimon_ai/validator/rules/confidence/confidence_value.py:36 | the text of a float is `0.0` for zero digits, begins with `-` exactly for a negative non-zero value, and holds a `.` or an `e` |
| PyFormat.FloatReprShape | src/ansimon_ai/validator/rules/confidence/confidence_value.py:36 | `repr` of a float is `0.0` for zero, begins with `-` exactly for a negative value, and holds a `.` or an `e` |
| PyFormat.FloatReprNotInt | src/ansimon_ai/validator/rules/confidence/confidence_value.py:36 | a float never prints as any integer does: `1.0`, not `1` |
| PyFormat.PyRepr | src/ansimon_ai/validator/rules/schema/confidence_and_evidence.py:10 | `repr` of a `json.loads` value: `None`, `True`/`False`, decimal integers, the float `repr`, the quoted string `repr`, a list between brackets and a dict between braces |
| PyFormat.PyReprList | src/ansimon_ai/validator/rules/schema/confidence_and_evidence.py:10 | `[1, "a"]` prints as `[1, 'a']` |
| PyFormat.PyReprDict | src/ansimon_ai/validator/rules/schema/confidence_and_evidence.py:10 | `{"k": null}` prints as `{'k': None}` |
| PyFormat.PyStr | src/ansimon_ai/validator/rules/schema/confidence_and_evidence.py:10 | an f-string prints a string as itself and any other value as its `repr` |
| PyFormat.PyStrFloat | src/ansimon_ai/validator/rules/schema/confidence_and_evidence.py:10 | the float 0.9 prints as `0.9` |
| FieldRules.AnchorFieldMessages | src/ansimon_ai/validator/rules/anchor_consistency.py:7-45 | a null anchor gives nothing; anchor without span gives E_ANCHOR_WITHOUT_SPAN; non-integer bounds or start >= end give E_ANCHOR_INVALID_RANGE, all at the field's name; a non-dict anchor with a span raises AttributeError |
| FieldRules.AnchorMessages | src/ansimon_ai/validator/rules/anchor_consistency.py:7-45 | at most one message per dict field |
| FieldRules.AnchorConsistency | src/ansimon_ai/validator/rules/anchor_consistency.py:4-47 | a list of messages, at most one per dict field; a non-dict raises AttributeError |
| FieldRules.ValidateAnchorConsistency | src/ansimon_ai/validator/rules/anchor_consistency.py:4-47 | the loop computes exactly the rule's specification |
| FieldRules.AnchorRaiseEarly | src/ansimon_ai/validator/rules/anchor_consistency.py:7-26 | a raise on one field ends the rule with that exception |
| LegacyRules.MissingTopKeys | src/ansimon_ai/validator/rules/required_keys.py:15-17 | on a dict, MISSING_REQUIRED_KEY for exactly the absent keys; raises TypeError on a value `in` cannot search |
| LegacyRules.MissingCommon | src/ansimon_ai/validator/rules/required_keys.py:24-26 | MISSING_COMMON_FIELD `k.cf` for every absent common field and for nothing else |
| LegacyRules.ConfidenceProblems | src/ansimon_ai/validator/rules/required_keys.py:28-30 | INVALID_CONFIDENCE iff the confidence is non-null and outside the allowed set |
| LegacyRules.PairingProblems | src/ansimon_ai/validator/rules/required_keys.py:32-35 | SPAN_ANCHOR_INCONSISTENT iff exactly one of span and anchor is null |
| LegacyRules.FieldProblems | src/ansimon_ai/validator/rules/required_keys.py:20-35 | a non-dict field gives nothing; otherwise empty iff the field is clean; an unhashable confidence raises TypeError |
| LegacyRules.FieldProblemsOnDict | src/ansimon_ai/validator/rules/required_keys.py:24-35 | each condition on a dict field is reported with its own code and field path |
| LegacyRules.MissingCommonField | src/ansimon_ai/validator/rules/required_keys.py:24-26 | every absent common field is reported under its own path |
| LegacyRules.PerFieldProblems | src/ansimon_ai/validator/rules/required_keys.py:19-35 | empty iff every listed field is clean; never a MISSING_REQUIRED_KEY |
| LegacyRules.RequiredKeysCheck | src/ansimon_ai/validator/rules/required_keys.py:12-37 | a value that `in` cannot search raises TypeError; a list or string raises AttributeError at `.get` |
| LegacyRules.RequiredKeysOnDict | src/ansimon_ai/validator/rules/required_keys.py:12-37 | missing-key errors come first, one per absent key, later errors never carry that code; the list is empty iff every key is present and every field is clean |
| LegacyRules.ValidateRequiredKeys | src/ansimon_ai/validator/rules/required_keys.py:12-37 | the two loops compute exactly the specification |
| LegacyRules.ReportMissingKeys | src/ansimon_ai/validator/rules/required_keys.py:15-17 | the first loop computes exactly its specification |
| LegacyRules.CheckFields | src/ansimon_ai/validator/rules/required_keys.py:19-35 | the second loop computes exactly its specification |
| LegacyRules.CheckField | src/ansimon_ai/validator/rules/required_keys.py:20-35 | one pass of the second loop computes exactly the field's problems |
| LegacyRules.CheckCommonFields | src/ansimon_ai/validator/rules/required_keys.py:24-26 | the common-field loop reports MISSING_COMMON_FIELD for each of the four common fields the field lacks, in order |
| LegacyRules.MissingRaiseEarly | src/ansimon_ai/validator/rules/required_keys.py:15-17 | a raise in the first loop ends the call with that exception |
| LegacyRules.PerFieldRaiseEarly | src/ansimon_ai/validator/rules/required_keys.py:19-30 | a raise in the second loop ends the call with that exception |
| ValidatorAdapter.MapStatus | src/ansimon_ai/eval/validator_adapter_v0.py:38-44 | "PASS" iff "pass", "WARN" iff "warn", "FAIL" for every other value |
| ValidatorAdapter.Summarize | src/ansimon_ai/eval/validator_adapter_v0.py:47-59 | mapped status, every message code in order, and a message iff there are messages, made of the first code and text |
| ValidatorAdapter.OutputsOfThree | src/ansimon_ai/eval/validator_adapter_v0.py:30-36 | a run of the three rules raises with the first rule that raises, else yields their three outputs in order |
| ValidatorAdapter.V0RulesErrorOnly | src/ansimon_ai/eval/validator_adapter_v0.py:30-36 | each of the three rules reports nothing or one "E_" message |
| ValidatorAdapter.ErrorOnlyStatus | src/ansimon_ai/validator/runner.py:62-68 | with at most three "E_" messages and no explicit result the runner passes iff there is no message |
| ValidatorAdapter.NeverWarn | src/ansimon_ai/eval/validator_adapter_v0.py:46-59 | never "WARN": "PASS" iff no codes, "FAIL" iff some; at most three codes, all "E_"; a message iff a code |
| ValidatorAdapter.FieldProblemFails | src/ansimon_ai/eval/validator_adapter_v0.py:46-59 | a field with a confidence or span/anchor problem makes a completed validation FAIL with a code |
| ValidatorAdapter.NonDictRaises | src/ansimon_ai/eval/validator_adapter_v0.py:46-48 | a non-dict document raises: TypeError for a value `in` cannot search, AttributeError for a list or string |
| ValidatorAdapter.SingleRuleStatus | src/ansimon_ai/validator/runner.py:25-68 | one rule reporting nothing or one "E_" message: the runner passes iff it reports nothing |
| ValidatorAdapter.SchemaExistsThroughRunner | tests/validator/test_schema_exists.py:4-14 | the schema rule alone in a runner passes a dict and fails anything else |
| ValidatorAdapter.SilentFirstRule | src/ansimon_ai/validator/runner.py:25-28 | a rule that reports nothing, run first, leaves the status and messages of the run of the next rule unchanged |
| ValidatorAdapter.RequiredKeysThroughRunner | tests/validator/test_required_top_level_keys.py:19-29 | a runner of the schema-exists and required-keys rules passes a dict iff it has all eleven keys, and fails it otherwise |
| ValidatorAdapter.StructuringValidatorV0.constructor | src/ansimon_ai/eval/validator_adapter_v0.py:29-36 | the runner holds exactly the three rules, in order |
| ValidatorAdapter.StructuringValidatorV0.Validate | src/ansimon_ai/eval/validator_adapter_v0.py:46-59 | the result equals the adapter's specification over the runner |
| ValidatorAdapter.CollectCodes | src/ansimon_ai/eval/validator_adapter_v0.py:48 | the list of the messages' codes, in order |
| AnchorMatcher.UniqueAnchor | src/ansimon_ai/structuring/anchor/matcher.py:25-49 | an anchor exists iff the span occurs exactly once; it is that occurrence and ends `len(span)` later |
| AnchorMatcher.MatchSpec | src/ansimon_ai/structuring/anchor/matcher.py:11-49 | a falsy span gives no anchor; a truthy non-string span raises TypeError; otherwise the unique occurrence of the normalised, stripped span in the normalised transcript |
| AnchorMatcher.Match | src/ansimon_ai/structuring/anchor/matcher.py:11-49 | the method returns exactly the matcher's specification |
| AnchorMatcher.FindUnique | src/ansimon_ai/structuring/anchor/matcher.py:25-49 | the search loop, which stops at the second hit, returns the unique occurrence or nothing |
| AnchorMatcher.TwoOccurrences | src/ansimon_ai/structuring/anchor/matcher.py:37-38 | a span found twice gets no anchor |
| AnchorMatcher.NoOccurrence | src/ansimon_ai/structuring/anchor/matcher.py:40-41 | a span not found gets no anchor |
| AnchorMatcher.OnlyOccurrence | src/ansimon_ai/structuring/anchor/matcher.py:43-49 | a span found once at `m` gets the anchor `[m, m + len(span))` |
| AnchorApply.AnchorValue | src/ansimon_ai/structuring/anchor/apply.py:25-31 | no match writes `None`; a match writes a dict with exactly start_char and end_char |
| AnchorApply.ApplyAnchors | src/ansimon_ai/structuring/anchor/apply.py:7-41 | the result is the recursive walk over a copy, against the normalised transcript |
| AnchorApply.WalkNode | src/ansimon_ai/structuring/anchor/apply.py:17-38 | the recursive method computes exactly the walk's specification |
| AnchorApply.WalkDict | src/ansimon_ai/structuring/anchor/apply.py:18-34 | a dict: anchor written when the span is truthy, then every value walked in order |
| AnchorApply.WalkDictFields | src/ansimon_ai/structuring/anchor/apply.py:26-34 | the loop over the values, after the anchor is written in place of an existing "evidence_anchor" or appended, walks every value in order |
| AnchorApply.WalkList | src/ansimon_ai/structuring/anchor/apply.py:36-38 | a list: every item walked in order |
| AnchorApplyFacts.FieldsKeys | src/ansimon_ai/structuring/anchor/apply.py:26-34 | the loop over a dict keeps every key in place; only the written anchor may be appended |
| AnchorApplyFacts.FieldsValues | src/ansimon_ai/structuring/anchor/apply.py:26-34 | the loop over a dict walks every value except the "evidence_anchor" pair it overwrites |
| AnchorApplyFacts.FieldsAnchor | src/ansimon_ai/structuring/anchor/apply.py:26-34 | the anchor is written to the first "evidence_anchor" pair, or appended when there is none |
| AnchorApplyFacts.DictFieldsShape | src/ansimon_ai/structuring/anchor/apply.py:26-34 | over the whole dict: keys kept in order, values walked, and a pair appended only when an anchor is written and no "evidence_anchor" key existed |
| AnchorApplyFacts.ItemsShape | src/ansimon_ai/structuring/anchor/apply.py:36-38 | the loop over a list keeps its length and walks each item |
| AnchorApplyFacts.ApplyDictShape | src/ansimon_ai/structuring/anchor/apply.py:18-34 | a dict keeps its keys in order and walks every value; only the first "evidence_anchor" of a dict with a truthy span is replaced, or added at the end |
| AnchorApplyFacts.ApplyDictAnchor | src/ansimon_ai/structuring/anchor/apply.py:19-31 | a dict with a truthy span reads back the matcher's result under "evidence_anchor" |
| AnchorApplyFacts.WalkKeepsTruthiness | src/ansimon_ai/structuring/anchor/apply.py:17-38 | walking never makes a truthy value falsy or a falsy one truthy |
| AnchorApplyFacts.SpanDecisionKept | src/ansimon_ai/structuring/anchor/apply.py:19 | the walked dict reaches the same span decision with the same span |
| AnchorApplyFacts.WalkIdempotent | src/ansimon_ai/structuring/anchor/apply.py:7-41 | applying anchors twice gives the same result as once |
| AnchorStore.RecordOf | src/ansimon_ai/structuring/anchor/store.py:13-30 | the record carries the path and span; its anchor is absent iff the raw anchor is `None`, else modality "text" with the raw bounds; a raw anchor that is neither `None` nor a dict raises AttributeError |
| AnchorStore.CollectCountsAnchorDicts | src/ansimon_ai/structuring/anchor/store.py:5-40 | one record per dict that has an "evidence_anchor" key, over the whole document |
| AnchorStore.DictReportedFirst | src/ansimon_ai/structuring/anchor/store.py:12-30 | a dict with an "evidence_anchor" key is reported before anything below it, at the path it was reached by |
| AnchorStore.CollectAnchors | src/ansimon_ai/structuring/anchor/store.py:5-40 | the method returns exactly the collection's specification, starting at path "$" |
| AnchorStore.WalkNode | src/ansimon_ai/structuring/anchor/store.py:11-37 | the records found below the node are appended after those collected so far |
| AnchorStore.WalkFields | src/ansimon_ai/structuring/anchor/store.py:32-33 | the loop over `items()` appends each value's records, under `path.key` |
| AnchorStore.WalkItems | src/ansimon_ai/structuring/anchor/store.py:35-37 | the loop over `enumerate` appends each item's records, under `path[idx]` |
| CacheHash.KeyLeTotal | src/ansimon_ai/structuring/cache/hash.py:18 | string order is total, so `sorted` orders any two keys |
| CacheHash.KeyLeAntisymmetric | src/ansimon_ai/structuring/cache/hash.py:18 | string order is antisymmetric |
| CacheHash.KeyLeTransitive | src/ansimon_ai/structuring/cache/hash.py:18 | string order is transitive |
| CacheHash.Insert | src/ansimon_ai/structuring/cache/hash.py:18 | inserting a pair adds exactly that pair |
| CacheHash.InsertKeepsSorted | src/ansimon_ai/structuring/cache/hash.py:18 | inserting into a key-sorted list keeps it sorted |
| CacheHash.Sort | src/ansimon_ai/structuring/cache/hash.py:16-19 | the pairs in ascending key order, a permutation of the original |
| CacheHash.Normalize | src/ansimon_ai/structuring/cache/hash.py:8-21 | strings become their NFC form, lists keep their length, dicts keep their size and come out key-sorted, every other value is unchanged |
| CacheHash.SortOfSorted | src/ansimon_ai/structuring/cache/hash.py:16-19 | sorting pairs already in key order changes nothing |
| CacheHash.SortSameKeys | src/ansimon_ai/structuring/cache/hash.py:16-19 | sorting keeps exactly the same keys |
| CacheHash.SortKeepsDistinct | src/ansimon_ai/structuring/cache/hash.py:16-19 | sorting keeps keys distinct |
| CacheHash.SortedUnique | src/ansimon_ai/structuring/cache/hash.py:16-19 | two key-sorted lists of the same pairs with distinct keys are equal |
| CacheHash.SortIgnoresOrder | src/ansimon_ai/structuring/cache/hash.py:16-19 | with distinct keys the sorted result does not depend on insertion order |
| CacheHash.NormalizeDict | src/ansimon_ai/structuring/cache/hash.py:15-19 | a normalised dict has the same keys, each mapped to its normalised value |
| CacheHash.NormalizeIdempotent | src/ansimon_ai/structuring/cache/hash.py:8-21 | normalising twice equals normalising once |
| CacheHash.NormalizeIgnoresKeyOrder | src/ansimon_ai/structuring/cache/hash.py:15-19 | a dict's canonical form does not depend on the order its keys were inserted |
| CacheHash.CanonicalForm | src/ansimon_ai/structuring/cache/hash.py:29-37 | the normalised base payload is the five keys in ascending order with NFC strings |
| CacheHash.ComputeInputHash | src/ansimon_ai/structuring/cache/hash.py:23-45 | raises TypeError exactly when the input has segments, which `json.dumps` cannot serialise |
| CacheHash.KeyIsNormalizedPayload | src/ansimon_ai/structuring/cache/hash.py:29-37 | the key is the normalised five-key base payload |
| CacheHash.SameKeyIffNfcEqual | src/ansimon_ai/structuring/cache/hash.py:23-45 | two inputs share a key iff full text, schema version and prompt version agree after NFC; language and source type never matter |
| FileStorage.FileStore.constructor | src/ansimon_ai/structuring/cache/storage.py:5-7 | no file exists yet |
| FileStorage.FileStore.Load | src/ansimon_ai/structuring/cache/storage.py:5-10 | a missing file reads as `None`; an unparsable file raises JSONDecodeError; otherwise the stored document |
| FileStorage.FileStore.Save | src/ansimon_ai/structuring/cache/storage.py:12-21 | exactly the one file is written or overwritten; all others are unchanged |
| StructuringCache.DefaultStoragePath | src/ansimon_ai/structuring/cache/manager.py:12-13 | the file is `data/structuring/<schema_version>/<key>.json` |
| StructuringCache.StructuringCall.constructor | src/ansimon_ai/structuring/cache/manager.py:17 | `call_fn` with an empty call log |
| StructuringCache.StructuringCall.Call | src/ansimon_ai/structuring/cache/manager.py:36 | returns `call_fn`'s result and logs the input |
| StructuringCache.GetOrCreateStructuredResult | src/ansimon_ai/structuring/cache/manager.py:15-49 | the result and the files afterwards are those of the cache specification; `call_fn` runs exactly on a miss |
| StructuringCache.HitSkipsCall | src/ansimon_ai/structuring/cache/manager.py:32-34 | a stored document is returned unchanged, no file changes and `call_fn` does not run |
| StructuringCache.MissSavesPayload | src/ansimon_ai/structuring/cache/manager.py:36-49 | on a miss `call_fn` runs once; its result is saved under "result" with the versions, key and time under "_metadata", and the saved payload is returned |
| StructuringCache.BrokenFileRaises | tests/structuring/test_cache.py:91-108 | an unparsable cache file makes the call raise JSONDecodeError |
| StructuringCache.SecondRequestHits | tests/structuring/test_cache.py:40-63 | after a successful call the same request is a hit returning the same document |
| StructuringCache.PromptVersionChangeMisses | tests/structuring/test_cache.py:65-89 | a different prompt version uses a different file, so the second request still calls |
| StructuringTypes.NewStructuringInput | src/ansimon_ai/structuring/types.py:9-14 | the model accepts exactly modality "text" and source type "stt", keeping every field; anything else raises ValidationError |
| StructuringTypes.SummaryOf | src/ansimon_ai/structuring/run.py:94-98 | a missing status reads "FAIL", missing error codes read as [], the message is copied |
| EvidenceTags.HasConfidenceIffSomewhere | src/ansimon_ai/structuring/tags/generate.py:6-17 | the early-return search finds a "confidence" key iff some dict at any depth, through dicts and lists, has one |
| EvidenceTags.EvidenceTagsFor | src/ansimon_ai/structuring/tags/generate.py:19-79 | 2 to 4 tags in the order anchor, structure, confidence: ANCHOR_OK iff matched spans, ANCHOR_NOT_FOUND noting unmatched spans, STRUCT_VALID iff status "PASS" else STRUCT_INVALID with the message, CONFIDENCE_PRESENT iff a confidence key exists, CONFIDENCE_WITHOUT_ANCHOR iff also no match; never ANCHOR_AMBIGUOUS |
| EvidenceTags.GenerateEvidenceTags | src/ansimon_ai/structuring/tags/generate.py:19-79 | the appending method returns exactly the tag specification |
| StructuringPipeline.MemoryCache.constructor | src/ansimon_ai/structuring/run.py:26 | an empty cache |
| StructuringPipeline.MemoryCache.Get | src/ansimon_ai/structuring/run.py:39 | the stored value, `None` for a missing key |
| StructuringPipeline.MemoryCache.Set | src/ansimon_ai/structuring/run.py:51-52 | exactly the one key is written |
| StructuringPipeline.AnchorArchive.constructor | src/ansimon_ai/structuring/anchor/store.py:42-48 | nothing is archived yet |
| StructuringPipeline.AnchorArchive.Save | src/ansimon_ai/structuring/anchor/store.py:42-65 | the file for (schema version, key) holds exactly the records; every other file is unchanged |
| StructuringPipeline.CountsPartition | src/ansimon_ai/structuring/run.py:65-73 | each record is counted once, as matched iff its anchor is set, else as unmatched |
| StructuringPipeline.CountAnchors | src/ansimon_ai/structuring/run.py:66-73 | the counting loop returns the matched and unmatched counts |
| StructuringPipeline.RunStructuringPipeline | src/ansimon_ai/structuring/run.py:20-109 | the result, cache, archive and model calls are those of the pipeline specification |
| StructuringPipeline.RunStructuringPipelineWithTags | src/ansimon_ai/structuring/run.py:111-128 | the pipeline's result together with exactly its evidence tags |
| StructuringPipeline.RunStructuringPipelineWithTrialSignals | src/ansimon_ai/structuring/run.py:130-153 | the result, its tags and the evidence-mode trial signals built from both with the given maximum; a generation that raises makes the call raise |
| StructuringPipeline.RunStats | src/ansimon_ai/structuring/run.py:63-89 | total spans count the dicts holding "evidence_anchor", matched + unmatched == total, partial is 0; a run id exists iff a cache is given, and then the archive holds the records under it |
| StructuringPipeline.WithoutCache | src/ansimon_ai/structuring/run.py:29-54 | without a cache the model is always called, nothing is archived, cache_hit is false and the run id is `None` |
| StructuringPipeline.SegmentsRejectedWithCache | src/ansimon_ai/structuring/run.py:33-38 | with a cache, an input with segments raises TypeError before anything is called or written |
| StructuringPipeline.CacheHit | src/ansimon_ai/structuring/run.py:39-54 | a hit uses the stored output, does not call the model or write the cache, and reports cache_hit |
| StructuringPipeline.CacheMiss | src/ansimon_ai/structuring/run.py:45-52 | a miss calls the model once and stores its output under the key |
| StructuringPipeline.SecondRunHits | src/ansimon_ai/structuring/run.py:33-54 | a second run of the same input is a hit with the same result except cache_hit, calls nothing and changes nothing |
| StructuringPipeline.UncalledIgnoresModel | src/ansimon_ai/structuring/run.py:45-54 | a run that does not call the model (a hit, or an input that cannot be hashed) does not depend on the model |
| PipelineScenarios.V0Validator | src/ansimon_ai/eval/validator_adapter_v0.py:46-59 | the adapter's dict read back by the pipeline gives the adapter's own summary |
| PipelineScenarios.MatchedDictAnchor | src/ansimon_ai/structuring/anchor/apply.py:28-31 | a dict whose span the matcher finds keeps a string span and receives an anchor object without "modality" |
| PipelineScenarios.WalkedFirstDict | src/ansimon_ai/structuring/anchor/apply.py:18-34 | after the walk the pairs before the first dict field are still not dicts, and that field holds the anchor without "modality" |
| PipelineScenarios.MatchedFieldFailsV0 | src/ansimon_ai/structuring/anchor/apply.py:28-31 | a written anchor has no "modality", so a top-level field whose span matched makes the v0 validator FAIL |
| PipelineScenarios.MatchedFieldDeniesEvent | src/ansimon_ai/structuring/run.py:20-128 | end to end, a uniquely matched top-level span gives STRUCT_INVALID, an INVALID requirement state and a denied event |
| PipelineScenarios.MatchedFieldBreaksTrialSignals | src/ansimon_ai/trial/signals_v0/generate.py:156-240 | the trial generator raises on a run whose first dict field carries a uniquely matched span, since the written anchor lacks "modality" |
| TagValidation.FirstTagWith | src/ansimon_ai/validator/tag_validator_v0.py:28 | a tag with the value is found iff the value occurs, and it is one of the tags |
| TagValidation.TagValidationOf | src/ansimon_ai/validator/tag_validator_v0.py:11-90 | no tags: WARN with only W_NO_TAGS; FAIL iff STRUCT_INVALID is present, and then only E_STRUCT_INVALID; otherwise PASS iff there are no messages |
| TagValidation.CodesDependOnKinds | src/ansimon_ai/validator/tag_validator_v0.py:24-85 | status and codes depend only on the set of tag values, not on order, repeats or notes |
| TagValidation.WarningCodes | src/ansimon_ai/validator/tag_validator_v0.py:44-83 | off the FAIL path each warning appears iff its condition holds; W_ANCHOR_AMBIGUOUS wins over W_ANCHOR_NOT_FOUND; at most three codes |
| TagValidation.ValidateEvidenceTags | src/ansimon_ai/validator/tag_validator_v0.py:11-90 | the appending method returns exactly the validator's specification |
| TagValidation.CleanTagsPass | tests/validator/test_tag_validator_v0.py:47-56 | STRUCT_VALID, ANCHOR_OK and CONFIDENCE_PRESENT pass with no message |
| RequirementStates.StateFor | src/ansimon_ai/requirements/state_v0.py:30-36 | FAIL is INVALID, WARN is UNSTABLE, PASS is EVALUATABLE, and back |
| RequirementStates.EvaluateRequirementState | src/ansimon_ai/requirements/state_v0.py:20-36 | the state of the given or computed verdict, with its message codes in order |
| RequirementStates.OmittedVerdictIsComputed | src/ansimon_ai/requirements/state_v0.py:25-26 | omitting the verdict equals passing the verdict of the tags |
| RequirementStates.ComputedStateReasons | src/ansimon_ai/requirements/state_v0.py:25-36 | computed from the tags: EVALUATABLE has no codes; INVALID iff STRUCT_INVALID, then only E_STRUCT_INVALID; no tags is UNSTABLE with W_NO_TAGS |
| EventIo.EvaluateEventIo | src/ansimon_ai/requirements/event_io_v0.py:51-86 | INVALID denies with no caution, UNSTABLE allows with caution "UNSTABLE", EVALUATABLE allows; the codes are copied; the keys default to the eleven-key list |
| EventIo.RunRequirementService | src/ansimon_ai/requirements/event_io_v0.py:88-114 | a given verdict or state is used as it is, otherwise derived from the tags; the event output is evaluated from the state |
| EventIo.EvidenceIgnored | src/ansimon_ai/requirements/event_io_v0.py:88-114 | the evidence document never changes the service's result |
| EventIo.StructInvalidDenies | src/ansimon_ai/requirements/event_io_v0.py:96-108 | a STRUCT_INVALID tag gives FAIL, INVALID with E_STRUCT_INVALID and a denied event |
| TrialTypes.ReadStr | src/ansimon_ai/trial/signals_v0/types.py:19 | a required `str` field: its value if present and a string, else ValidationError |
| TrialTypes.ReadLiteral | src/ansimon_ai/trial/signals_v0/types.py:25-32 | a required `Literal` field: its value iff present, a string and one of the allowed values, else ValidationError |
| TrialTypes.DotFrom | src/ansimon_ai/validator/schema.py:8-9 | the index of the first `.` from a position on, or the length when there is none |
| TrialTypes.DropZeroFraction | src/ansimon_ai/validator/schema.py:8-9 | a text with a fraction of zeros loses it, never grows, and a text without `.` is unchanged |
| TrialTypes.LaxInt | src/ansimon_ai/validator/schema.py:8-9 | pydantic's lax `int`: an integer as itself, `true`/`false` as 1/0, a string through `ParseIntText`; `null`, lists and dicts are refused |
| TrialTypes.MultipleDivides | src/ansimon_ai/validator/schema.py:8-9 | a multiple of `p` leaves no remainder and divides back exactly |
| TrialTypes.LaxIntWholeFloat | src/ansimon_ai/validator/schema.py:8-9 | a float it accepts, such as `5.0`, is read as the integer of the same value |
| TrialTypes.LaxIntFractionFloat | src/ansimon_ai/validator/schema.py:8-9 | a float it refuses, such as `5.5`, has no integer of the same value |
| TrialTypes.DigitsValueOfNat | src/ansimon_ai/validator/schema.py:8-9 | the decimal digits of `n` read back as `n` |
| TrialTypes.StripUnspaced | src/ansimon_ai/validator/schema.py:8-9 | a text with no surrounding whitespace is left as it is by the strip |
| TrialTypes.ParseIntOfText | src/ansimon_ai/validator/schema.py:8-9 | the text `str(n)` of any integer reads back as `n` |
| TrialTypes.ParseIntSpaced | src/ansimon_ai/validator/schema.py:8-9 | `" 42 "` reads as 42 |
| TrialTypes.ParseIntSigned | src/ansimon_ai/validator/schema.py:8-9 | `"-7"` reads as -7 |
| TrialTypes.ParseIntZeroFraction | src/ansimon_ai/validator/schema.py:8-9 | `"5.00"` reads as 5 |
| TrialTypes.ParseIntFraction | src/ansimon_ai/validator/schema.py:8-9 | `"5.5"` is refused |
| TrialTypes.ParseIntSeven | src/ansimon_ai/validator/schema.py:8-9 | `"7"` reads as 7 |
| TrialTypes.LaxIntWholeFive | src/ansimon_ai/validator/schema.py:8-9 | `5.0` reads as 5 |
| TrialTypes.ReadInt | src/ansimon_ai/validator/schema.py:8-9 | an `int` field: its lax `int` value iff present and coercible, else ValidationError |
| TrialTypes.ReadAnchor | src/ansimon_ai/validator/schema.py:6-9 | `None` reads as no anchor; an anchor is read iff the dict has modality "text" and two bounds coercible to `int`, and holds their values |
| TrialTypes.CoercedAnchorBounds | src/ansimon_ai/validator/schema.py:6-9 | an anchor with bounds `5.0` and `"7"` reads as the anchor 5..7 |
| TrialTypes.FractionalAnchorBoundRefused | src/ansimon_ai/validator/schema.py:6-9 | an anchor with a bound `5.5` is a ValidationError |
| TrialTypes.ReadOrigin | src/ansimon_ai/trial/signals_v0/types.py:21 | a read origin is the value the `source` field holds; anything else is a ValidationError |
| TrialTypes.ReadOptionalStr | src/ansimon_ai/trial/signals_v0/types.py:22 | an absent or null field reads as `None`, a present string as itself; every failure is a ValidationError |
| TrialTypes.Validate | src/ansimon_ai/trial/signals_v0/types.py:30-34 | a validated record has version "v0" and mode "text" or "evidence"; every failure is a ValidationError |
| TrialTypes.AnchorRoundTrip | src/ansimon_ai/validator/schema.py:6-9 | a dumped anchor reads back as itself |
| TrialTypes.EvidenceRoundTrip | src/ansimon_ai/trial/signals_v0/types.py:18-22 | a dumped evidence item reads back as itself |
| TrialTypes.EvidenceListRoundTrip | src/ansimon_ai/trial/signals_v0/types.py:28 | a dumped evidence list reads back as itself |
| TrialTypes.StringsRoundTrip | src/ansimon_ai/trial/signals_v0/types.py:27 | a dumped code list reads back as itself |
| TrialTypes.SignalRoundTrip | src/ansimon_ai/trial/signals_v0/types.py:24-28 | a dumped signal with admissible name and level reads back as itself |
| TrialTypes.SignalsRoundTrip | src/ansimon_ai/trial/signals_v0/types.py:34 | a dumped list of admissible signals reads back as itself |
| TrialTypes.DumpValidateRoundTrip | src/ansimon_ai/trial/signals_v0/types.py:30-34 | validating the dump of a well-formed record gives the same record |
| TrialTokens.Tokens | src/ansimon_ai/trial/signals_v0/generate.py:49 | a text that ends in a non-space character has a token |
| TrialTokens.LastTokenEnds | src/ansimon_ai/trial/signals_v0/generate.py:49 | a text ending in a non-space character ends with its last token |
| TrialTokens.TokensShape | src/ansimon_ai/trial/signals_v0/generate.py:49 | every token is non-empty and has no whitespace |
| TrialTokens.TokensKeepText | src/ansimon_ai/trial/signals_v0/generate.py:49 | the tokens put together are the text without its whitespace |
| TrialTokens.TokenOccurs | src/ansimon_ai/trial/signals_v0/generate.py:49 | every token occurs in the text |
| TrialTokens.FreqFacts | src/ansimon_ai/trial/signals_v0/generate.py:50-55 | the dict's keys are exactly the tokens of four or more characters, once each, in first-occurrence order, each mapped to its number of occurrences |
| TrialTokens.TopToken | src/ansimon_ai/trial/signals_v0/generate.py:60 | the chosen key is one of the keys |
| TrialTokens.TopTokenIsFirstMaximum | src/ansimon_ai/trial/signals_v0/generate.py:60 | `max` picks a key with the largest count, and every key inserted before it has a smaller one |
| TrialTokens.NoKeysNoLongTokens | src/ansimon_ai/trial/signals_v0/generate.py:53-57 | the dict is empty iff no token has four or more characters |
| TrialTokens.TopIsFirstMostFrequent | src/ansimon_ai/trial/signals_v0/generate.py:50-60 | the reported token is a long token occurring at least as often as any other, and every long token seen before its first occurrence occurs strictly less often |
| TrialTokens.FreqStep | src/ansimon_ai/trial/signals_v0/generate.py:52-55 | one loop step: a long token's count goes up by one and a new key is appended |
| TrialTokens.CountTokens | src/ansimon_ai/trial/signals_v0/generate.py:50-55 | the counting loop returns the dict and its key order |
| TrialTextSignals.FirstChoice | src/ansimon_ai/trial/signals_v0/generate.py:74-81 | `(?:a\|b)`: the first alternative that fits, and none of the earlier ones fits; none fits when it reports none |
| TrialTextSignals.SkipSpaces | src/ansimon_ai/trial/signals_v0/generate.py:76 | `\s*` takes the whole run of whitespace at hand |
| TrialTextSignals.MatchFrom | src/ansimon_ai/trial/signals_v0/generate.py:25 | a match ends inside the text, no earlier than it starts |
| TrialTextSignals.SearchFrom | src/ansimon_ai/trial/signals_v0/generate.py:25 | `re.search`: the reported match starts at the leftmost position where the pattern matches; no match when it matches nowhere |
| TrialTextSignals.FirstMatch | src/ansimon_ai/trial/signals_v0/generate.py:23-34 | a found span is non-empty and is the text between its start and end |
| TrialTextSignals.FirstPatternWins | src/ansimon_ai/trial/signals_v0/generate.py:24-32 | a pattern is reported exactly when every earlier pattern has no match or an empty one, and its match is the leftmost one |
| TrialTextSignals.FindFirstMatch | src/ansimon_ai/trial/signals_v0/generate.py:23-34 | the pattern loop returns the first non-empty leftmost match |
| TrialTextSignals.LiteralMatch | src/ansimon_ai/trial/signals_v0/generate.py:58 | `re.escape(token)` matches at a position iff the token occurs there, ignoring case, and then matches all of it |
| TrialTextSignals.LiteralTokenFound | src/ansimon_ai/trial/signals_v0/generate.py:58-59 | the search for a token of the text always finds it, with a span as long as the token |
| TrialTextSignals.RepetitionLevels | src/ansimon_ai/trial/signals_v0/generate.py:48-72 | no long token gives 부족/NO_TOKENS; otherwise three or more occurrences of the top token give 충분/X3, two give 경고/X2, one gives 부족/X1 without evidence; at X2 and X3 the one evidence item quotes the token |
| TrialTextSignals.PatternsCommitted | src/ansimon_ai/trial/signals_v0/generate.py:74-97 | every threat and refusal pattern is one whose endings start with different letters and whose `\s*` is followed by a non-space |
| TrialTextSignals.CommittedSuffix | src/ansimon_ai/trial/signals_v0/generate.py:74-97 | what follows the first piece of such a pattern is such a pattern too |
| TrialTextSignals.FoldKeepsSpace | src/ansimon_ai/trial/signals_v0/generate.py:25 | under `re.IGNORECASE` whitespace only matches whitespace |
| TrialTextSignals.OnlyChoice | src/ansimon_ai/trial/signals_v0/generate.py:74-81 | when the endings start with different letters, the one that fits is the one the choice takes |
| TrialTextSignals.NoChoiceAtSpace | src/ansimon_ai/trial/signals_v0/generate.py:76 | no ending starting with a non-space character fits at whitespace |
| TrialTextSignals.CommittedMatchIsOnlyMatch | src/ansimon_ai/trial/signals_v0/generate.py:25 | for these patterns the backtracking engine matches from a position to an end iff `MatchFrom` reaches that end |
| TrialTextSignals.ChoiceOnlyMatch | src/ansimon_ai/trial/signals_v0/generate.py:74-81 | the same, for a pattern that starts with a choice |
| TrialTextSignals.SpacesOnlyMatch | src/ansimon_ai/trial/signals_v0/generate.py:76 | the same, for a pattern that starts with `\s*` |
| TrialTextSignals.SearchIsRegexSearch | src/ansimon_ai/trial/signals_v0/generate.py:25 | `Search` reports the leftmost position where the regex matches and the only end it can reach from there, and none when it matches nowhere |
| TrialTextSignals.FirstMatchPrefix | src/ansimon_ai/trial/signals_v0/generate.py:24-32 | patterns after the first one with a non-empty match play no part |
| TrialTextSignals.ContactRefusalShadowed | src/ansimon_ai/trial/signals_v0/generate.py:90-97 | wherever `연락\s*하지\s*마` matches, the refusal result comes from `그만` or `하지\s*마`, which is listed before it |
| TrialTextSignals.KeywordSpec | src/ansimon_ai/trial/signals_v0/generate.py:83-104 | 충분 with the matched code and one evidence item iff some pattern matches, else 부족 with the no-match code and no evidence; never 경고 |
| TrialTextSignals.RepetitionLevel | src/ansimon_ai/trial/signals_v0/generate.py:48-72 | the counting loop and the top-item choice give the repetition verdict |
| TrialTextSignals.KeywordLevel | src/ansimon_ai/trial/signals_v0/generate.py:83-104 | `_threat_level` and `_refusal_level` give the keyword verdict |
| TrialTextSignals.GenerateTrialSignalsFromText | src/ansimon_ai/trial/signals_v0/generate.py:106-120 | the text generator gives the three verdicts as one record |
| TrialTextSignals.EvidenceOfAnchored | src/ansimon_ai/trial/signals_v0/generate.py:36-46 | the evidence built from a match quotes exactly the characters its anchor points at |
| TrialTextSignals.RepetitionIsTextVerdict | src/ansimon_ai/trial/signals_v0/generate.py:48-72 | the repetition verdict has a text level, one code and at most one anchored evidence item |
| TrialTextSignals.KeywordIsTextVerdict | src/ansimon_ai/trial/signals_v0/generate.py:83-104 | the same for the threat and refusal verdicts |
| TrialTextSignals.TextSignalsShape | src/ansimon_ai/trial/signals_v0/generate.py:106-120 | text mode gives repetition, threat and refusal in that order; each has a text level, one code and at most one anchored evidence item; threat and refusal are never 경고 |
| TrialEvidenceSignals.Eligibles | src/ansimon_ai/trial/signals_v0/generate.py:132-140 | the fields the pool may take are dicts with a non-null span, in document order |
| TrialEvidenceSignals.PoolEntry | src/ansimon_ai/trial/signals_v0/generate.py:142-149 | an entry is built iff its span is a string and its anchor is None or a valid anchor; it then quotes the span and names the field; otherwise ValidationError |
| TrialEvidenceSignals.PoolFrom | src/ansimon_ai/trial/signals_v0/generate.py:132-152 | every failure of the loop is a ValidationError |
| TrialEvidenceSignals.PoolSeesOnlyEligible | src/ansimon_ai/trial/signals_v0/generate.py:133-140 | fields the loop skips make no difference to the pool |
| TrialEvidenceSignals.PoolOfEligibleOk | src/ansimon_ai/trial/signals_v0/generate.py:142-152 | on fields it takes, the loop raises iff one of the first `max(1, room)` entries is invalid |
| TrialEvidenceSignals.EntriesOkPoolOk | src/ansimon_ai/trial/signals_v0/generate.py:142-152 | when the first `max(1, room)` eligible entries are valid evidence items, the loop does not raise |
| TrialEvidenceSignals.PoolOfEligibleValue | src/ansimon_ai/trial/signals_v0/generate.py:142-152 | on fields it takes, a pool that does not raise is their first `max(1, room)` entries |
| TrialEvidenceSignals.PoolTakesFirstEligible | src/ansimon_ai/trial/signals_v0/generate.py:127-154 | the pool is the first `min(#eligible, max(1, max_evidence))` eligible fields in order, and raises iff one of them is invalid |
| TrialEvidenceSignals.PoolBound | src/ansimon_ai/trial/signals_v0/generate.py:129-152 | the pool holds at most `max(1, max_evidence)` items, is empty when the output is not a dict, and every item comes from the structuring output |
| TrialEvidenceSignals.ExtractEvidencePool | src/ansimon_ai/trial/signals_v0/generate.py:122-154 | the loop with its break after the append computes the pool |
| TrialEvidenceSignals.CollectPool | src/ansimon_ai/trial/signals_v0/generate.py:132-152 | the loop over the dict's fields, with its skip of non-dicts and None spans and its break after the append, computes the pool specification |
| TrialEvidenceSignals.ConfidencesArePooled | src/ansimon_ai/trial/signals_v0/generate.py:167-176 | a confidence is collected iff it is the string confidence of a pooled field |
| TrialEvidenceSignals.ConfidenceHasSource | src/ansimon_ai/trial/signals_v0/generate.py:167-176 | every collected confidence is the string confidence of some pooled field |
| TrialEvidenceSignals.ConfidenceCollected | src/ansimon_ai/trial/signals_v0/generate.py:167-176 | the string confidence of every pooled field is collected |
| TrialEvidenceSignals.StrengthOf | src/ansimon_ai/trial/signals_v0/generate.py:178-189 | evidence strength has an evidence level and a code |
| TrialEvidenceSignals.ClarityOf | src/ansimon_ai/trial/signals_v0/generate.py:191-205 | clarity has an evidence level and a code |
| TrialEvidenceSignals.SafetyOf | src/ansimon_ai/trial/signals_v0/generate.py:207-215 | safety has an evidence level and a headline code |
| TrialEvidenceSignals.CollectConfidences | src/ansimon_ai/trial/signals_v0/generate.py:167-176 | the confidence loop collects the pooled confidences in pool order |
| TrialEvidenceSignals.GenerateTrialSignalsFromStructuring | src/ansimon_ai/trial/signals_v0/generate.py:156-240 | the evidence generator gives the three grades over one pool |
| TrialEvidenceSignals.StrengthLevels | src/ansimon_ai/trial/signals_v0/generate.py:178-189 | 위험 for an empty pool or any pooled "low"; otherwise 경고 for a pooled "medium"; otherwise 안전 |
| TrialEvidenceSignals.ClarityAgreesWithSafety | src/ansimon_ai/trial/signals_v0/generate.py:191-215 | clarity is 위험 iff safety is, iff a STRUCT_INVALID tag is present; clarity is 안전 iff ANCHOR_OK is present without STRUCT_INVALID |
| TrialEvidenceSignals.SafetyMirrorsTagVerdict | src/ansimon_ai/trial/signals_v0/generate.py:207-215 | safety is 안전 iff the tags validate PASS (then without messages) and 위험 iff STRUCT_INVALID is present; at 경고 the tag messages' codes follow the headline code |
| TrialEvidenceSignals.EvidenceSignalsShape | src/ansimon_ai/trial/signals_v0/generate.py:217-240 | evidence mode gives evidence_strength, clarity and safety in that order, with evidence levels and codes, and all three quote the same pool |
| TrialEvidenceSignals.EvidenceOutputShape | src/ansimon_ai/trial/signals_v0/generate.py:217-240 | a record built from three evidence grades is well formed |
| TrialEvidenceSignals.AnchorWithoutModalityRaises | src/ansimon_ai/trial/signals_v0/generate.py:137-148 | an anchor without "modality" on the first field the pool takes makes the generator raise ValidationError |
| TrialEvidenceSignals.EligiblesSkip | src/ansimon_ai/trial/signals_v0/generate.py:132-140 | with nothing eligible before a field that is eligible, that field is the first one taken |
| TrialValidation.PartsOf | src/ansimon_ai/trial/signals_v0/validate.py:47-74 | one group of messages per signal |
| TrialValidation.PartsOfAt | src/ansimon_ai/trial/signals_v0/validate.py:47-74 | the group for signal `i` is the messages about signal `i` |
| TrialValidation.TrialValidationOf | src/ansimon_ai/trial/signals_v0/validate.py:24-135 | the validator never fails, and passes iff it has no message |
| TrialValidation.CheckReasonCodes | src/ansimon_ai/trial/signals_v0/validate.py:57-65 | the reason-code loop gives one format message per malformed code, in order, its text the pattern followed by `repr(code)` |
| TrialValidation.CheckSignal | src/ansimon_ai/trial/signals_v0/validate.py:87-123 | the signal-loop body gives the messages about one signal |
| TrialValidation.CheckSignals | src/ansimon_ai/trial/signals_v0/validate.py:87-123 | the signal loop gives the messages about every signal, signal by signal |
| TrialValidation.CollectNames | src/ansimon_ai/trial/signals_v0/validate.py:20-22 | the name generator yields the set of signal names |
| TrialValidation.ValidateTrialSignalsOutput | src/ansimon_ai/trial/signals_v0/validate.py:24-135 | the validator computes the result the specification function describes |
| TrialValidation.NamesOfMembers | src/ansimon_ai/trial/signals_v0/validate.py:37-38 | a name is in the name set iff some signal carries it |
| TrialValidation.FormatReports | src/ansimon_ai/trial/signals_v0/validate.py:57-65 | the format messages all carry W_REASON_CODE_FORMAT, and there are none iff every code matches `^[TEWP]_[A-Z0-9_]+$` |
| TrialValidation.FormatMessageQuotesCode | src/ansimon_ai/trial/signals_v0/validate.py:57-65 | a malformed code's message is the pattern followed by a literal that reads back as the code |
| TrialValidation.FormatMessageSingleQuotes | src/ansimon_ai/trial/signals_v0/validate.py:57-65 | the code `t_low` is reported as `'t_low'` |
| TrialValidation.ReportsConcat | src/ansimon_ai/trial/signals_v0/validate.py:25 | a code is reported in two lists put together iff one of them reports it |
| TrialValidation.SignalReports | src/ansimon_ai/trial/signals_v0/validate.py:87-123 | a signal gets E_REASON_CODES_EMPTY iff it has no codes, W_REASON_CODE_FORMAT iff one is malformed, E_LEVEL iff its level is not the mode's, E_MAX_EVIDENCE iff in evidence mode it has more than three items, and no message iff none of these holds |
| TrialValidation.FlattenReports | src/ansimon_ai/trial/signals_v0/validate.py:47-74 | a code is reported in the groups put together iff one group reports it |
| TrialValidation.FlattenEmpty | src/ansimon_ai/trial/signals_v0/validate.py:47-74 | the groups put together are empty iff every group is |
| TrialValidation.FlattenMembers | src/ansimon_ai/trial/signals_v0/validate.py:47-74 | every message of the groups put together comes from one group |
| TrialValidation.SignalsReports | src/ansimon_ai/trial/signals_v0/validate.py:87-123 | a code is reported about the signals iff it is reported about one of them |
| TrialValidation.SignalsSilent | src/ansimon_ai/trial/signals_v0/validate.py:87-123 | the signals give no message iff none of them does |
| TrialValidation.SignalsCodes | src/ansimon_ai/trial/signals_v0/validate.py:87-123 | the signal loop reports only the four signal codes |
| TrialValidation.MessagesSplit | src/ansimon_ai/trial/signals_v0/validate.py:27-132 | the messages are the version, mode and name-set messages followed, for a known mode, by the signal messages |
| TrialValidation.HeadCodeReported | src/ansimon_ai/trial/signals_v0/validate.py:27-45 | a code that is not a signal code is reported iff the head messages report it |
| TrialValidation.VersionReported | src/ansimon_ai/trial/signals_v0/validate.py:27-34 | E_VERSION is reported iff the version is not "v0" |
| TrialValidation.ModeReported | src/ansimon_ai/trial/signals_v0/validate.py:125-132 | E_MODE is reported iff the mode is neither "text" nor "evidence", and then the signals are not looked at |
| TrialValidation.SignalSetReported | src/ansimon_ai/trial/signals_v0/validate.py:36-45 | for a known mode, E_SIGNAL_SET is reported iff the set of names is not the mode's three names |
| TrialValidation.SignalCodeReported | src/ansimon_ai/trial/signals_v0/validate.py:76-123 | for a known mode, a signal code is reported iff some signal gets it |
| TrialValidation.HeadCodes | src/ansimon_ai/trial/signals_v0/validate.py:27-45 | the head messages carry only E_VERSION, E_SIGNAL_SET and E_MODE |
| TrialValidation.EmptyCodesReported | src/ansimon_ai/trial/signals_v0/validate.py:48-55 | for a known mode, E_REASON_CODES_EMPTY is reported iff some signal has no reason codes |
| TrialValidation.LevelReported | src/ansimon_ai/trial/signals_v0/validate.py:107-114 | for a known mode, E_LEVEL is reported iff some signal's level is not one of the mode's levels |
| TrialValidation.MaxEvidenceReported | src/ansimon_ai/trial/signals_v0/validate.py:116-123 | E_MAX_EVIDENCE is reported iff the mode is evidence and some signal has more than three evidence items |
| TrialValidation.FormatReported | src/ansimon_ai/trial/signals_v0/validate.py:57-65 | for a known mode, W_REASON_CODE_FORMAT is reported iff some signal has a malformed code |
| TrialValidation.PassExactly | src/ansimon_ai/trial/signals_v0/validate.py:24-135 | PASS iff the version is "v0", the mode is known, the names are exactly the mode's and every signal has well-formed, non-empty codes, a level of its mode and, in evidence mode, at most three evidence items |
| TrialSignalFacts.UpperCodeOk | src/ansimon_ai/trial/signals_v0/validate.py:18 | a prefix letter, an underscore and upper-case letters, digits or underscores match the reason-code pattern |
| TrialSignalFacts.RepetitionCodesOk | src/ansimon_ai/trial/signals_v0/generate.py:48-72 | the repetition codes match the reason-code pattern |
| TrialSignalFacts.KeywordCodesOk | src/ansimon_ai/trial/signals_v0/generate.py:83-104 | a keyword verdict's codes are the given well-formed codes |
| TrialSignalFacts.ThreatCodesOk | src/ansimon_ai/trial/signals_v0/generate.py:83-88 | the threat codes match the reason-code pattern |
| TrialSignalFacts.RefusalCodesOk | src/ansimon_ai/trial/signals_v0/generate.py:99-104 | the refusal codes match the reason-code pattern |
| TrialSignalFacts.StrengthCodesOk | src/ansimon_ai/trial/signals_v0/generate.py:178-189 | the evidence-strength codes match the reason-code pattern |
| TrialSignalFacts.ClarityCodesOk | src/ansimon_ai/trial/signals_v0/generate.py:191-205 | the clarity codes match the reason-code pattern |
| TrialSignalFacts.AnchorMessageCodesOk | src/ansimon_ai/validator/tag_validator_v0.py:44-64 | the tag validator's anchor messages carry well-formed codes |
| TrialSignalFacts.OtherMessageCodesOk | src/ansimon_ai/validator/tag_validator_v0.py:66-82 | the tag validator's confidence and completeness messages carry well-formed codes |
| TrialSignalFacts.TagCodesOk | src/ansimon_ai/validator/tag_validator_v0.py:12-89 | every message of the tag validator carries a well-formed code |
| TrialSignalFacts.SafetyCodesOk | src/ansimon_ai/trial/signals_v0/generate.py:207-215 | the safety codes match the reason-code pattern when the tag messages' codes do |
| TrialSignalFacts.NamesOfThree | src/ansimon_ai/trial/signals_v0/validate.py:37-38 | the name set of three signals is their three names |
| TrialSignalFacts.ThreeCleanSignalsPass | src/ansimon_ai/trial/signals_v0/validate.py:24-135 | a "v0" record of a known mode with the mode's three names and clean signals passes |
| TrialSignalFacts.TextRecordPasses | src/ansimon_ai/trial/signals_v0/generate.py:106-120 | a text record whose three verdicts have text levels and well-formed codes passes |
| TrialSignalFacts.TextOutputPasses | src/ansimon_ai/trial/signals_v0/generate.py:106-120 | the trial validator passes every output of the text generator |
| TrialSignalFacts.EvidenceRecordValidation | src/ansimon_ai/trial/signals_v0/generate.py:217-240 | an evidence record with three well-formed grades passes iff its pool has at most three items |
| TrialSignalFacts.EvidenceOutputValidation | src/ansimon_ai/trial/signals_v0/generate.py:156-240 | the trial validator passes an output of the evidence generator iff its pool has at most three items, so always with `max_evidence` at most 3 |
| TrialCache.FieldInjective | src/ansimon_ai/trial/signals_v0/cache_manager.py:24-28 | one `{prefix}{n}_{rest}` piece of the tag determines its number and what follows |
| TrialCache.LimitsTagInjective | src/ansimon_ai/trial/signals_v0/cache_manager.py:17-29 | two limit tuples give the same tag iff they are equal |
| TrialCache.FileNameInjective | src/ansimon_ai/trial/signals_v0/cache_manager.py:69 | the file name determines `max_evidence` and the limits tag |
| TrialCache.TrialPath | src/ansimon_ai/trial/signals_v0/cache_manager.py:14-15 | the file lies in `data/trial_signals/<trial_version>/` under the input hash |
| TrialCache.TrialPathSeparatesBudgets | src/ansimon_ai/trial/signals_v0/cache_manager.py:56-71 | two requests share a file iff they agree on the input hash, the trial version, `max_evidence` and all four limits |
| TrialCache.ParseTrialOutput | src/ansimon_ai/trial/signals_v0/cache_manager.py:31-39 | a non-dict payload raises AttributeError, a missing or non-dict "result" raises ValueError, and otherwise the output model validates "result" |
| TrialCache.PayloadRoundTrip | src/ansimon_ai/trial/signals_v0/cache_manager.py:86-103 | reading back a written payload gives the output that was written |
| TrialCache.MetadataKey | src/ansimon_ai/trial/signals_v0/cache_manager.py:92 | the metadata records the input hash |
| TrialCache.MetadataMaxEvidence | src/ansimon_ai/trial/signals_v0/cache_manager.py:93 | the metadata records `max_evidence` |
| TrialCache.PayloadFields | src/ansimon_ai/trial/signals_v0/cache_manager.py:86-103 | the payload keeps the dumped output under "result" and the metadata under "_metadata" |
| TrialCache.LookUp | src/ansimon_ai/trial/signals_v0/cache_manager.py:56-75 | a miss is reported for the path of the computed input hash, and only when no readable file is there |
| TrialCache.GetOrCreateTrialSignals | src/ansimon_ai/trial/signals_v0/cache_manager.py:41-106 | the request, as intended, returns what the specification function says and leaves the files as it says |
| TrialCache.HitIgnoresGeneratorInputs | src/ansimon_ai/trial/signals_v0/cache_manager.py:73-75 | a stored payload decides the answer whatever result and tags are passed, and nothing is written |
| TrialCache.BadPayloadRaises | src/ansimon_ai/trial/signals_v0/cache_manager.py:32-34 | a stored payload without a dict under "result" makes the request raise ValueError and write nothing |
| TrialCache.AsWrittenMissRaises | src/ansimon_ai/trial/signals_v0/cache_manager.py:77-84 | as written, a miss raises TypeError at the generator call, writes nothing, and so the same request misses again |
| TrialCache.MissSavesTrial | src/ansimon_ai/trial/signals_v0/cache_manager.py:77-106 | as intended, a miss returns the generator's output and writes only its file, holding that output under "result" and the key and `max_evidence` in "_metadata" |
| TrialCache.MissThenHitRoundTrip | src/ansimon_ai/trial/signals_v0/cache_manager.py:73-106 | after a request that generated signals, the same request is a hit that returns the same output and writes nothing, whatever result and tags it gets |
| InputAdapters.SttSegments | src/ansimon_ai/structuring/from_stt.py:10-17 | one segment per transcript segment, with its text, start and end, in order |
| InputAdapters.SttBuildCopies | src/ansimon_ai/structuring/from_stt.py:4-18 | the STT builder never raises: a text input from "stt" with the transcript's full text, language and segments |
| InputAdapters.PreprocessSpec | src/ansimon_ai/ocr/from_ocr.py:9-19 | preprocessing never adds segments |
| InputAdapters.PreprocessOcrSegments | src/ansimon_ai/ocr/from_ocr.py:9-19 | the loop with `continue` computes the preprocessed segments |
| InputAdapters.ReplaceCharPointwise | src/ansimon_ai/ocr/from_ocr.py:15 | replacing one character by another maps the text character by character |
| InputAdapters.ReplaceAllChars | src/ansimon_ai/ocr/from_ocr.py:15 | every character of a replacement's result comes from the text or the replacement |
| InputAdapters.ReplaceAllKeepsFirst | src/ansimon_ai/ocr/from_ocr.py:15 | a text that does not start with the pattern's first character keeps its first character |
| InputAdapters.ReplaceAllKeepsLast | src/ansimon_ai/ocr/from_ocr.py:15 | a text whose last character is not in the pattern keeps its last character |
| InputAdapters.CleanTextIsClean | src/ansimon_ai/ocr/from_ocr.py:12-15 | cleaning a stripped, non-empty text gives a non-empty line without line breaks or outer whitespace |
| InputAdapters.ProcessClean | src/ansimon_ai/ocr/from_ocr.py:12-18 | a kept segment's text is such a clean line |
| InputAdapters.PreprocessClean | src/ansimon_ai/ocr/from_ocr.py:9-19 | every text preprocessing returns is a clean line |
| InputAdapters.PreprocessConcat | src/ansimon_ai/ocr/from_ocr.py:11-18 | preprocessing works segment by segment and keeps the order |
| InputAdapters.PreprocessOne | src/ansimon_ai/ocr/from_ocr.py:12-14 | a segment is dropped iff its stripped text is empty or all punctuation and spaces |
| InputAdapters.SinglePassReplace | src/ansimon_ai/ocr/from_ocr.py:15 | `replace("  ", " ")` is one pass: three spaces become two |
| InputAdapters.OcrSegments | src/ansimon_ai/ocr/from_ocr.py:28-35 | one structuring segment per preprocessed segment, with its text and times |
| InputAdapters.OcrBuildAlwaysRaises | src/ansimon_ai/ocr/from_ocr.py:21-36 | the OCR builder always raises ValidationError, since the input model does not admit the source type "ocr" |
| InputAdapters.OcrArguments | src/ansimon_ai/ocr/from_ocr.py:21-36 | the builder passes the full text verbatim and one clean segment per surviving OCR segment, arguments the input model accepts with the source type "stt" |
| EvalRunner.SubsetContains | src/ansimon_ai/eval/runner_v0.py:56-58 | true iff every required code occurs among the actual ones |
| EvalRunner.Opt | src/ansimon_ai/eval/runner_v0.py:73-74 | a check contributes its code iff it fails, and no other code |
| EvalRunner.CompareCase | src/ansimon_ai/eval/runner_v0.py:60-104 | the comparison returns the mismatch codes, and reports success iff there are none |
| EvalRunner.SubsequenceSkip | src/ansimon_ai/eval/runner_v0.py:71 | a subsequence stays one when more is put in front of the sequence |
| EvalRunner.SubsequenceConcat | src/ansimon_ai/eval/runner_v0.py:71 | subsequences of two sequences put together form a subsequence of the two put together |
| EvalRunner.OptSubsequence | src/ansimon_ai/eval/runner_v0.py:73-74 | what one check contributes is a subsequence of its one code |
| EvalRunner.MismatchOrder | src/ansimon_ai/eval/runner_v0.py:60-104 | the mismatch codes come in the fixed order the checks run in |
| EvalRunner.MismatchesReport | src/ansimon_ai/eval/runner_v0.py:73-102 | each mismatch code is reported iff its check fails; the optional expectations are checked only when given, and the tag codes only when a tag expectation is given |
| EvalRunner.SubsequenceMembers | src/ansimon_ai/eval/runner_v0.py:71 | every element of a subsequence is an element of the sequence |
| EvalRunner.CaseStatus | src/ansimon_ai/eval/runner_v0.py:176-181 | "fail" iff there is a mismatch, "warn" iff there is none and the tag verdict is WARN, "pass" iff there is none and the tag verdict is not WARN |
| EvalRunner.Dedup | src/ansimon_ai/eval/runner_v0.py:183-186 | the deduplicated codes are the same codes, each once |
| EvalRunner.DedupCodes | src/ansimon_ai/eval/runner_v0.py:183-186 | the dedup loop keeps each code at its first occurrence |
| EvalRunner.DedupPrefix | src/ansimon_ai/eval/runner_v0.py:184-186 | deduplicating a longer list only appends, so the first codes keep their order |
| EvalRunner.DedupOfDistinct | src/ansimon_ai/eval/runner_v0.py:184-186 | a list without repeats is its own dedup |
| EvalRunner.MismatchesDistinct | src/ansimon_ai/eval/runner_v0.py:60-104 | the mismatch codes never repeat |
| EvalRunner.DistinctSubsequence | src/ansimon_ai/eval/runner_v0.py:71 | a subsequence of a list without repeats has none |
| EvalRunner.ReasonCodesLayout | src/ansimon_ai/eval/runner_v0.py:183-186 | the reason codes start with the mismatch codes in order, hold each code once, and hold exactly the mismatch, requirement and tag codes |
| EvalRunner.PrepareInput | src/ansimon_ai/eval/runner_v0.py:128-139 | a structuring-input case without a structuring input, or with an empty one, raises ValueError |
| EvalRunner.CaseLlm | src/ansimon_ai/eval/runner_v0.py:114-124 | a case with `mock_llm_output_json` gets a client that always answers with that document; a case without one gets the default mock client |
| EvalRunner.RunEvalCase | src/ansimon_ai/eval/runner_v0.py:106-242 | one case runs the pipeline with its own LLM client, the v0 validator and the given cache and archive; the result and the cache and archive it leaves are those of the case specification |
| EvalRunner.ExceptionFailsCase | src/ansimon_ai/eval/runner_v0.py:228-242 | a pipeline exception fails the case with E_EXCEPTION and the exception's class name, and no cache-hit figure |
| EvalRunner.EvaluatedCaseVerdict | src/ansimon_ai/eval/runner_v0.py:151-226 | a case that ran fails iff a check failed and warns iff none did and the tag verdict is WARN, and passes otherwise; its reason codes start with the mismatch codes, hold each code once and hold exactly the mismatch, requirement and tag codes |
| EvalRunner.ThreadResults | src/ansimon_ai/eval/runner_v0.py:249-257 | in a run that does not raise, the i-th result is case i run against the state the first i cases left |
| EvalRunner.ThreadRaiseSticks | src/ansimon_ai/eval/runner_v0.py:250-256 | once a case raises, the run raises that exception and no later case runs |
| EvalRunner.ThreadKeepsState | src/ansimon_ai/eval/runner_v0.py:250-256 | cases that each leave a state unchanged leave it unchanged together |
| EvalRunner.TwoCasesThread | src/ansimon_ai/eval/runner_v0.py:250-256 | the second of two cases runs against the state the first left |
| EvalRunner.RunEvalSet | src/ansimon_ai/eval/runner_v0.py:244-257 | the loop runs every case against one shared cache and archive; its results and the final cache and archive are those of the set specification |
| EvalRunner.EvalSetRaiseSticks | src/ansimon_ai/eval/runner_v0.py:250-256 | once a case raises, the whole run raises that exception |
| EvalRunner.EvalSetResults | src/ansimon_ai/eval/runner_v0.py:249-257 | a run that does not raise returns one result per case, the i-th being case i run against the cache and archive the earlier cases left |
| EvalRunner.EvalSetOnePerCase | src/ansimon_ai/eval/runner_v0.py:249-257 | a run that does not raise returns one result per case, in case order, each with its case's id and computed against the state the earlier cases left |
| EvalRunner.EvalCaseKeepsId | src/ansimon_ai/eval/runner_v0.py:220-221 | a case's result carries the case's id |
| EvalRunner.CaseWithoutCacheKeepsState | src/ansimon_ai/eval/runner_v0.py:143-149 | without a cache a case writes no cache entry and archives nothing |
| EvalRunner.CasesIndependentWithoutCache | src/ansimon_ai/eval/runner_v0.py:244-257 | without a cache each case's result is what that case gives on its own, whatever ran before it |
| EvalRunner.SecondCaseHits | src/ansimon_ai/structuring/run.py:33-54 | after a case whose LLM produced a non-null output, a case on the same input is a cache hit with the first case's result, whatever its own LLM would answer |
| EvalRunner.SharedCacheReusesFirstOutput | src/ansimon_ai/eval/runner_v0.py:244-257 | with a shared cache, a second case on the same input as the first is judged on the first case's output and reports `cache_hit` true |

## Left out

- SHA-256 and `json.dumps`: the cache key is the canonical payload the digest is computed from, not the digest. So two keys collide only when the payloads are equal.
- Unicode NFC normalisation is a parameter: any idempotent string function. Case folding in the keyword search covers ASCII letters only.
- The language model is a parameter, recorded by the `StructuringCall` log. Prompt building (`build_messages`, `call.py`), the default mock LLM and the mock STT are not part of this model; the eval runner's choice between a case's own mock output and the default client is (`EvalRunner.CaseLlm`). The eval runner takes the mock transcriber, the default mock LLM client and the input model's validation of a `structuring_input` dict as parameters. `run_eval_case_v0`'s optional `llm_client`, `anchor_matcher` and `validator` overrides are not modelled: `run_evalset_v0` never passes them, so each case uses its own mock client, the default anchor matcher and the v0 validator. A case's `mock_llm_output_json` is taken to come back from `json.dumps` and `json.loads` unchanged.
- Time is left out: `created_at` timestamps are parameters, and durations, `output_chars` and the `summary` dict of an eval case result are not modelled.
- Disk I/O is modelled as a map from structured paths to files that hold either a document or unparsable text. `save_anchors`' file format and a custom `storage_path_fn` are not modelled; only the default storage paths are.
- The regular-expression engine is not modelled in general. The threat and refusal patterns are literal alternatives joined by `\s*`, and `TrialTextSignals.SearchIsRegexSearch` proves that the committed matcher agrees with a backtracking reading of them.
- Pydantic validation is modelled only where the core relies on it: the trial output model, the evidence anchor (whose `int` bounds are read with pydantic's lax coercion, `TrialTypes.LaxInt`) and the structuring input's literals. Other models appear only as datatypes. Float start and end times are `real`s that are only copied or defaulted.
- PyFormat.FloatRepr: the float is printed from the decimal its JSON text writes. This agrees with Python's shortest round-trip `repr` for numbers of at most 15 significant digits in the normal double range. A number with more digits, or outside that range, is first rounded to a double by Python, and that rounding is not modelled; `-0.0` prints as `0.0`.
- PyStr: prints floats through `PyFormat.FloatRepr` and so has the same limits. `PyFormat.FloatReprOfValue` shows that the printed text depends only on the value.
- Repr: characters above U+00FF are written as they are. Python writes the ones it does not consider printable (for example U+2028, unassigned code points and surrogates) as `\x`, `\u` or `\U` escapes.
- CheckConfidence: its message prints the confidence through `PyStr`, with the float limits above.
- ConfidenceFieldMessages: its message prints the confidence through `PyStr`, with the float limits above.
- CheckReasonCodes: its message prints the code through `Repr`, with the limit above for characters beyond U+00FF.
- JsonValues: a JSON float is kept as the decimal its text writes, so `0.9` and `0.90` are different values of the model where Python holds one float. This matters only to equality of whole documents, for example two cache payloads that differ only in how a float is written.
- `ocr_image_to_result`, `load_evalset_v0` and the evaluation CLI are I/O and are not part of this model.
- No truncation budget (W_INPUT_TRUNCATED, W_EVIDENCE_TRUNCATED, W_OUTPUT_TRUNCATED, summary capping) is implemented by the generators. Only the trial cache's file naming by the four limits is modelled.
- Lemmas about cache hits, in the structuring pipeline, the structuring cache and the trial cache, require an input without segments, because `compute_input_hash` raises for any other input.
- TrialTypes.ReadInt / TrialTypes.ReadAnchor: the lax `int` coercion covers integers, booleans, floats with no fractional part and strings of an optional sign and digits with surrounding whitespace and an optional fraction of zeros. Not modelled: underscores between digits, the exact whitespace set Rust's `trim` removes, the 4300-digit limit on integer strings, and floats beyond double precision, which the JSON text keeps exactly here.
- TrialTypes.Validate: its own contract states only the version, the mode and the error kind. What it reads back is stated by `TrialTypes.DumpValidateRoundTrip`. Extra keys are ignored, as pydantic does by default.

## Findings

| source | as written | input that shows it | evidently intended | confidence | as-written member | corrected member |
|---|---|---|---|---|---|---|
| src/ansimon_ai/trial/signals_v0/cache_manager.py:77-84 | on a miss, the evidence-mode generator is called with `evidence_span_max_chars`, `summary_max_chars` and `reason_codes_max_items`, which its signature at generate.py:156-161 does not accept, so every miss raises `TypeError` and nothing is ever cached | any request whose file is not yet stored | a miss generates the signals, saves `{_metadata, result}` and returns them, so that the next identical request is a hit | not executed | TrialCache.AsWrittenMissRaises | TrialCache.MissThenHitRoundTrip |
