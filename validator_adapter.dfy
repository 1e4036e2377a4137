/**
 * `StructuringValidatorV0`: a rule runner fixed to three schema rules, and
 * the translation of its result into the structuring-level summary with
 * upper-case status, the list of codes and a one-line message.
 */
module ValidatorAdapter {
  import opened Outcomes
  import opened JsonValues
  import opened Text
  import opened ValidatorResult
  import opened RuleEngine
  import opened SchemaRules
  import opened StructuringTypes

  /** The rule list `__init__` hands to the runner, in this order. */
  const V0Rules: seq<Rule> := [SchemaExists, RequiredTopLevelKeysRule, ConfidenceAndEvidence]

  /** `_map_status` */
  function MapStatus(statusValue: string): (r: string)
    ensures r == "PASS" <==> statusValue == "pass"
    ensures r == "WARN" <==> statusValue == "warn"
    ensures r == "FAIL" <==> statusValue != "pass" && statusValue != "warn"
  {
    if statusValue == "pass" then "PASS"
    else if statusValue == "warn" then "WARN"
    else "FAIL"
  }

  /** The summary `validate` builds from the runner's result. */
  function Summarize(res: RunnerResult): (v: StructuringValidation)
    ensures v.status == MapStatus(res.status.Value())
    ensures v.errorCodes == Codes(res.messages)
    ensures v.message.None? <==> res.messages == []
    ensures v.message.Some? ==> v.message.value == res.messages[0].code + ": " + res.messages[0].text
  {
    StructuringValidation(
      MapStatus(res.status.Value()),
      Codes(res.messages),
      if res.messages == [] then None else Some(res.messages[0].code + ": " + res.messages[0].text))
  }

  /** What `validate(output_json)` returns, or the exception a rule raises. */
  function ValidateV0(data: Json): Outcome<StructuringValidation> {
    match RunSpec(V0Rules, data)
    case Raise(e) => Raise(e)
    case Ok(res) => Ok(Summarize(res))
  }

  /** A run of three rules: the first raise wins, otherwise the three outputs in order. */
  lemma OutputsOfThree(a: Rule, b: Rule, c: Rule, data: Json)
    ensures Outputs([a, b, c], data) ==
      if a(data).Raise? then Raise(a(data).exc)
      else if b(data).Raise? then Raise(b(data).exc)
      else if c(data).Raise? then Raise(c(data).exc)
      else Ok([a(data).value, b(data).value, c(data).value])
  {
    OutputsOfOne(a, data);
    assert [a, b][..1] == [a];
    assert [a, b][1] == b;
    if a(data).Ok? && b(data).Ok? {
      assert [a(data).value] + [b(data).value] == [a(data).value, b(data).value];
      assert Outputs([a, b], data) == Ok([a(data).value, b(data).value]);
      if c(data).Ok? {
        assert [a(data).value, b(data).value] + [c(data).value] == [a(data).value, b(data).value, c(data).value];
      }
    }
    assert [a, b, c][..2] == [a, b];
    assert [a, b, c][2] == c;
  }

  /** A run of one rule. */
  lemma OutputsOfOne(a: Rule, data: Json)
    ensures Outputs([a], data) == if a(data).Raise? then Raise(a(data).exc) else Ok([a(data).value])
  {
    assert [a][..0] == [];
    assert [a][0] == a;
    if a(data).Ok? {
      assert [] + [a(data).value] == [a(data).value];
    }
  }

  /** No explicit result is among outputs made only of single messages. */
  predicate Plain(o: RuleOutput) {
    o.NoOutput? || o.OneMessage?
  }

  lemma MessagesOfThree(o1: RuleOutput, o2: RuleOutput, o3: RuleOutput)
    requires Plain(o1) && Plain(o2) && Plain(o3)
    ensures MessagesOf([o1, o2, o3]) == o1.Messages() + o2.Messages() + o3.Messages()
    ensures ExplicitsOf([o1, o2, o3]) == []
  {
    assert [o1][..0] == [];
    assert MessagesOf([o1]) == o1.Messages();
    assert ExplicitsOf([o1]) == [];
    assert [o1, o2][..1] == [o1];
    assert MessagesOf([o1, o2]) == o1.Messages() + o2.Messages();
    assert ExplicitsOf([o1, o2]) == [];
    assert [o1, o2, o3][..2] == [o1, o2];
  }

  /** The output of a rule that reports nothing or one "E_" message. */
  predicate ErrorOnly(o: RuleOutput) {
    o.NoOutput? || (o.OneMessage? && StartsWith(o.msg.code, "E_"))
  }

  /** Each of the three rules reports nothing or one "E_" message. */
  lemma V0RulesErrorOnly(data: Json)
    ensures SchemaExists(data).Ok? && ErrorOnly(SchemaExists(data).value)
    ensures RequiredTopLevelKeysRule(data).Ok? ==> ErrorOnly(RequiredTopLevelKeysRule(data).value)
    ensures ConfidenceAndEvidence(data).Ok? ==> ErrorOnly(ConfidenceAndEvidence(data).value)
  {
    SchemaExistsErrorOnly(data);
    RequiredKeysErrorOnly(data);
    ConfidenceAndEvidenceErrorOnly(data);
  }

  lemma SchemaExistsErrorOnly(data: Json)
    ensures SchemaExists(data).Ok? && ErrorOnly(SchemaExists(data).value)
  {
  }

  lemma RequiredKeysErrorOnly(data: Json)
    ensures RequiredTopLevelKeysRule(data).Ok? ==> ErrorOnly(RequiredTopLevelKeysRule(data).value)
  {
  }

  lemma ConfidenceAndEvidenceErrorOnly(data: Json)
    ensures ConfidenceAndEvidence(data).Ok? ==> ErrorOnly(ConfidenceAndEvidence(data).value)
  {
    if ConfidenceAndEvidence(data).Ok? && ConfidenceAndEvidence(data).value.OneMessage? {
      ConfidenceAndEvidenceCodes(data);
    }
  }

  /** With only "E_" codes and no explicit result, the runner passes iff it has no message. */
  lemma ErrorOnlyStatus(o1: RuleOutput, o2: RuleOutput, o3: RuleOutput)
    requires ErrorOnly(o1) && ErrorOnly(o2) && ErrorOnly(o3)
    ensures var ms := MessagesOf([o1, o2, o3]);
      && |ms| <= 3
      && (forall i :: 0 <= i < |ms| ==> StartsWith(ms[i].code, "E_"))
      && DecideStatus(ms, ExplicitsOf([o1, o2, o3])) == (if ms == [] then Pass else Fail)
  {
    MessagesOfThree(o1, o2, o3);
    var ms := MessagesOf([o1, o2, o3]);
    forall i | 0 <= i < |ms|
      ensures StartsWith(ms[i].code, "E_")
    {
      if i < |o1.Messages()| {
        assert ms[i] == o1.msg;
      } else if i < |o1.Messages()| + |o2.Messages()| {
        assert ms[i] == o2.msg;
      } else {
        assert ms[i] == o3.msg;
      }
    }
    if ms != [] {
      assert StartsWith(ms[0].code, "E_");
    }
  }

  /**
   * The validator never says WARN: it is PASS exactly when there are no
   * codes, FAIL otherwise, with at most one code per rule, every code an
   * "E_" code, and a message exactly when there is a code.
   */
  lemma NeverWarn(data: Json)
    requires ValidateV0(data).Ok?
    ensures var v := ValidateV0(data).value;
      && v.status != "WARN"
      && (v.status == "PASS" <==> v.errorCodes == [])
      && (v.status == "FAIL" <==> v.errorCodes != [])
      && |v.errorCodes| <= 3
      && (forall i :: 0 <= i < |v.errorCodes| ==> StartsWith(v.errorCodes[i], "E_"))
      && (v.message.None? <==> v.errorCodes == [])
  {
    OutputsOfThree(SchemaExists, RequiredTopLevelKeysRule, ConfidenceAndEvidence, data);
    V0RulesErrorOnly(data);
    ErrorOnlyStatus(SchemaExists(data).value, RequiredTopLevelKeysRule(data).value, ConfidenceAndEvidence(data).value);
  }

  /** A field with a confidence or span/anchor problem makes a completed run FAIL. */
  lemma FieldProblemFails(data: Json, i: nat)
    requires data.Obj? && i < |data.fields|
    requires FieldProblem(data.fields[i].0, data.fields[i].1) != Ok(None)
    requires ValidateV0(data).Ok?
    ensures ValidateV0(data).value.status == "FAIL"
    ensures ValidateV0(data).value.errorCodes != []
  {
    NeverWarn(data);
    OutputsOfThree(SchemaExists, RequiredTopLevelKeysRule, ConfidenceAndEvidence, data);
    V0RulesErrorOnly(data);
    var o1, o2, o3 := SchemaExists(data).value, RequiredTopLevelKeysRule(data).value, ConfidenceAndEvidence(data).value;
    assert o3.OneMessage?;
    MessagesOfThree(o1, o2, o3);
    assert |MessagesOf([o1, o2, o3])| > 0;
  }

  /** Every non-dict document makes one of the rules raise. */
  lemma NonDictRaises(data: Json)
    requires !data.Obj?
    ensures !(data.Arr? || data.Str?) ==> ValidateV0(data) == Raise(TypeError)
    ensures data.Arr? || data.Str? ==> ValidateV0(data) == Raise(AttributeError)
  {
    OutputsOfThree(SchemaExists, RequiredTopLevelKeysRule, ConfidenceAndEvidence, data);
    if data.Arr? || data.Str? {
      assert RequiredTopLevelKeysRule(data).Ok?;
    }
  }

  /** One rule that reports nothing or one "E_" message: the runner passes iff it reports nothing. */
  lemma SingleRuleStatus(a: Rule, data: Json)
    requires a(data).Ok? && ErrorOnly(a(data).value)
    ensures RunSpec([a], data).Ok?
    ensures RunSpec([a], data).value.status == (if a(data).value.NoOutput? then Pass else Fail)
  {
    OutputsOfOne(a, data);
    var o := a(data).value;
    assert [o][..0] == [];
    assert ExplicitsOf([o]) == [];
    assert MessagesOf([o]) == [] + o.Messages();
    if o.OneMessage? {
      assert MessagesOf([o])[0] == o.msg;
      assert HasErrorCode(MessagesOf([o]));
    }
  }

  /** `validate_schema_exists` alone in a runner: a dict passes, anything else fails. */
  lemma SchemaExistsThroughRunner(data: Json)
    ensures RunSpec([SchemaExists], data).Ok?
    ensures RunSpec([SchemaExists], data).value.status == (if data.Obj? then Pass else Fail)
  {
    V0RulesErrorOnly(data);
    SingleRuleStatus(SchemaExists, data);
  }

  /** A rule that reports nothing on `data`, run first, leaves the run of the rule after it unchanged. */
  lemma SilentFirstRule(a: Rule, b: Rule, data: Json)
    requires a(data) == Ok(NoOutput)
    ensures RunSpec([a, b], data) == RunSpec([b], data)
  {
    OutputsOfOne(a, data);
    OutputsOfOne(b, data);
    assert [a, b][..1] == [a];
    assert [a, b][1] == b;
    if b(data).Ok? {
      var o := b(data).value;
      assert Outputs([a, b], data) == Ok([NoOutput] + [o]);
      assert [NoOutput] + [o] == [NoOutput, o];
      assert [NoOutput, o][..1] == [NoOutput];
      assert [NoOutput][..0] == [];
      assert [o][..0] == [];
      assert MessagesOf([NoOutput, o]) == MessagesOf([o]);
      assert ExplicitsOf([NoOutput, o]) == ExplicitsOf([o]);
    }
  }

  /**
   * `validate_schema_exists` followed by `validate_required_top_level_keys` in a
   * runner: a dict passes iff it has all eleven keys.
   */
  lemma RequiredKeysThroughRunner(fs: Fields)
    ensures RunSpec([SchemaExists, RequiredTopLevelKeysRule], Obj(fs)).Ok?
    ensures RunSpec([SchemaExists, RequiredTopLevelKeysRule], Obj(fs)).value.status
      == (if forall k :: k in RequiredTopLevelKeys ==> HasKey(fs, k) then Pass else Fail)
  {
    RequiredTopLevelKeysOnDict(fs);
    V0RulesErrorOnly(Obj(fs));
    SingleRuleStatus(RequiredTopLevelKeysRule, Obj(fs));
    SilentFirstRule(SchemaExists, RequiredTopLevelKeysRule, Obj(fs));
  }

  /** `StructuringValidatorV0`, holding its runner. */
  class StructuringValidatorV0 {
    const runner: ValidatorRunner

    /** The runner holds exactly the three rules, in order. */
    ghost predicate Valid()
      reads this, runner
    {
      SameRules(runner.validators, V0Rules)
    }

    constructor()
      ensures Valid()
      ensures fresh(runner)
    {
      runner := new ValidatorRunner(V0Rules);
    }

    /** `validate(output_json)` */
    method Validate(outputJson: Json) returns (r: Outcome<StructuringValidation>)
      requires Valid()
      ensures r == ValidateV0(outputJson)
    {
      var res := runner.Run(outputJson);
      RunSpecExtensional(runner.validators, V0Rules, outputJson);
      if res.Raise? {
        return Raise(res.exc);
      }
      var v := res.value;
      var codes := CollectCodes(v.messages);
      var message: Option<string> := None;
      if v.messages != [] {
        message := Some(v.messages[0].code + ": " + v.messages[0].text);
      }
      r := Ok(StructuringValidation(MapStatus(v.status.Value()), codes, message));
    }
  }

  /** `[m.code for m in result.messages]` */
  method CollectCodes(messages: seq<Message>) returns (codes: seq<string>)
    ensures codes == Codes(messages)
  {
    codes := [];
    var i := 0;
    while i < |messages|
      invariant 0 <= i <= |messages|
      invariant codes == Codes(messages[..i])
    {
      CodesAppend(messages[..i], messages[i]);
      assert messages[..i + 1] == messages[..i] + [messages[i]];
      codes := codes + [messages[i].code];
      i := i + 1;
    }
    assert messages[..i] == messages;
  }
}
