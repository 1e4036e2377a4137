/**
 * The three rules `StructuringValidatorV0` runs: the document is an
 * object, it has the eleven top-level keys, and each field object has a
 * valid confidence and a consistent evidence span/anchor pair.
 */
module SchemaRules {
  import opened Outcomes
  import opened JsonValues
  import opened PyFormat
  import opened Text
  import opened ValidatorResult

  /** `validate_schema_exists` */
  function SchemaExists(data: Json): (r: Outcome<RuleOutput>)
    ensures data.Obj? <==> r == Ok(NoOutput)
    ensures !data.Obj? ==>
      (r.Ok? && r.value.OneMessage? && r.value.msg.code == "E_NOT_OBJECT" && r.value.msg.field == None)
  {
    if !data.Obj? then
      Ok(OneMessage(Message("E_NOT_OBJECT", "출력 결과가 JSON 객체가 아닙니다.", None)))
    else
      Ok(NoOutput)
  }

  /** `REQUIRED_TOP_LEVEL_KEYS`, in declaration order. */
  const RequiredTopLevelKeys: seq<string> := [
    "evidence_metadata", "parties", "period", "frequency", "channel",
    "locations", "action_types", "refusal_signal", "threat_indicators",
    "impact_on_victim", "report_or_record"]

  /** `[key for key in keys if key not in data]` */
  function MissingKeys(data: Json, keys: seq<string>): (r: Outcome<seq<string>>)
    ensures r.Raise? <==> keys != [] && !(data.Obj? || data.Arr? || data.Str?)
    ensures data.Obj? ==>
      (r.Ok? && SubsequenceOf(r.value, keys) && forall k :: k in r.value <==> k in keys && !HasKey(data.fields, k))
  {
    if keys == [] then Ok([])
    else
      match Contains(data, keys[0])
      case Raise(e) => Raise(e)
      case Ok(present) =>
        match MissingKeys(data, keys[1..])
        case Raise(e) => Raise(e)
        case Ok(rest) =>
          if present then Ok(rest)
          else
            var r := [keys[0]] + rest;
            assert r[1..] == rest;
            Ok(r)
  }

  /** `validate_required_top_level_keys` */
  function RequiredTopLevelKeysRule(data: Json): Outcome<RuleOutput> {
    var missing :- MissingKeys(data, RequiredTopLevelKeys);
    if missing != [] then
      Ok(OneMessage(Message("E_REQUIRED_KEY_MISSING",
                            "필수 최상위 키가 누락되었습니다: " + Join(", ", missing),
                            Some("."))))
    else
      Ok(NoOutput)
  }

  /**
   * On a dict, the rule is silent iff all eleven keys are present (extra
   * keys do not matter); otherwise it gives one E_REQUIRED_KEY_MISSING
   * message at field "." that lists the missing keys in declaration order.
   */
  lemma RequiredTopLevelKeysOnDict(fs: Fields)
    ensures var r := RequiredTopLevelKeysRule(Obj(fs));
      && r.Ok?
      && (r.value == NoOutput <==> forall k :: k in RequiredTopLevelKeys ==> HasKey(fs, k))
      && (r.value != NoOutput ==>
            var missing := MissingKeys(Obj(fs), RequiredTopLevelKeys).value;
            && r.value.OneMessage?
            && r.value.msg.code == "E_REQUIRED_KEY_MISSING"
            && r.value.msg.field == Some(".")
            && r.value.msg.text == "필수 최상위 키가 누락되었습니다: " + Join(", ", missing)
            && SubsequenceOf(missing, RequiredTopLevelKeys)
            && forall k :: k in missing <==> k in RequiredTopLevelKeys && !HasKey(fs, k))
  {
    var missing := MissingKeys(Obj(fs), RequiredTopLevelKeys).value;
    if missing != [] {
      assert missing[0] in missing;
    }
  }

  /** `ALLOWED_CONFIDENCE` */
  predicate AllowedConfidence(v: Json) {
    v == Str("high") || v == Str("medium") || v == Str("low")
  }

  /**
   * `_validate_confidence`.  A list or dict confidence is unhashable, so the
   * test against the allowed set raises `TypeError`.
   */
  function CheckConfidence(obj: Fields, fieldPath: string): (r: Outcome<Option<Message>>)
    ensures r.Raise? <==> !Hashable(Get(obj, "confidence"))
    ensures r.Raise? ==> r.exc == TypeError
    ensures r.Ok? ==> (r.value.Some? <==> !AllowedConfidence(Get(obj, "confidence")))
    ensures r.Ok? && r.value.Some? ==>
      && r.value.value.code == "E_INVALID_CONFIDENCE"
      && r.value.value.text == "confidence 값이 유효하지 않습니다: " + PyStr(Get(obj, "confidence"))
      && r.value.value.field == Some(fieldPath + ".confidence")
  {
    var value := Get(obj, "confidence");
    if !Hashable(value) then Raise(TypeError)
    else if !AllowedConfidence(value) then
      Ok(Some(Message("E_INVALID_CONFIDENCE", "confidence 값이 유효하지 않습니다: " + PyStr(value),
                      Some(fieldPath + ".confidence"))))
    else Ok(None)
  }

  /** A float confidence is printed by its value: 0.90 in the JSON text prints as 0.9. */
  lemma FloatConfidenceMessage()
    ensures CheckConfidence([("confidence", Float(90, -2))], "fields.name")
      == Ok(Some(Message("E_INVALID_CONFIDENCE", "confidence 값이 유효하지 않습니다: 0.9", Some("fields.name.confidence"))))
  {
    var obj := [("confidence", Float(90, -2))];
    assert IndexOf(obj, "confidence") == 0;
    FloatReprOfValue(90, -2, 9, -1);
    FloatReprPositional();
    assert PyStr(Get(obj, "confidence")) == "0.9";
    assert "confidence 값이 유효하지 않습니다: " + "0.9" == "confidence 값이 유효하지 않습니다: 0.9";
    assert "fields.name" + ".confidence" == "fields.name.confidence";
  }

  /** A string confidence is printed without quotes, as `str` prints it. */
  lemma StringConfidenceMessage()
    ensures CheckConfidence([("confidence", Str("sure"))], "fields.name")
      == Ok(Some(Message("E_INVALID_CONFIDENCE", "confidence 값이 유효하지 않습니다: sure", Some("fields.name.confidence"))))
  {
    var obj := [("confidence", Str("sure"))];
    assert IndexOf(obj, "confidence") == 0;
    assert Get(obj, "confidence") == Str("sure");
    assert !AllowedConfidence(Str("sure"));
    assert "confidence 값이 유효하지 않습니다: " + "sure" == "confidence 값이 유효하지 않습니다: sure";
    assert "fields.name" + ".confidence" == "fields.name.confidence";
  }

  /** The anchor range is two integers (booleans included) with start < end. */
  predicate ValidRange(anchor: Fields) {
    var start := AsInt(Get(anchor, "start_char"));
    var end := AsInt(Get(anchor, "end_char"));
    start.Some? && end.Some? && start.value < end.value
  }

  /**
   * `_validate_evidence_pair`.  A non-null anchor that is not a dict has no
   * `.get`, so Python raises `AttributeError`.
   */
  function CheckEvidencePair(obj: Fields, fieldPath: string): (r: Outcome<Option<Message>>)
    ensures var span := Get(obj, "evidence_span");
      var anchor := Get(obj, "evidence_anchor");
      && (r.Raise? <==> span != Null && anchor != Null && !anchor.Obj?)
      && (r.Raise? ==> r.exc == AttributeError)
      && (span == Null ==>
            r == if anchor != Null
                 then Ok(Some(Message("E_ANCHOR_WITHOUT_SPAN",
                                      "evidence_span이 null인데 evidence_anchor가 존재합니다.",
                                      Some(fieldPath + ".evidence_anchor"))))
                 else Ok(None))
      && (span != Null && anchor == Null ==> r == Ok(None))
      && (span != Null && anchor.Obj? ==>
            && r.Ok?
            && (Get(anchor.fields, "modality") != Str("text") ==>
                  r.value.Some? && r.value.value.code == "E_INVALID_ANCHOR_MODALITY")
            && (Get(anchor.fields, "modality") == Str("text") ==>
                  (r.value.Some? <==> !ValidRange(anchor.fields))
                  && (r.value.Some? ==> r.value.value.code == "E_INVALID_ANCHOR_RANGE")))
  {
    var span := Get(obj, "evidence_span");
    var anchor := Get(obj, "evidence_anchor");
    if span == Null then
      if anchor != Null then
        Ok(Some(Message("E_ANCHOR_WITHOUT_SPAN",
                        "evidence_span이 null인데 evidence_anchor가 존재합니다.",
                        Some(fieldPath + ".evidence_anchor"))))
      else Ok(None)
    else if anchor == Null then Ok(None)
    else if !anchor.Obj? then Raise(AttributeError)
    else if Get(anchor.fields, "modality") != Str("text") then
      Ok(Some(Message("E_INVALID_ANCHOR_MODALITY",
                      "evidence_anchor.modality는 'text'여야 합니다.",
                      Some(fieldPath + ".evidence_anchor.modality"))))
    else if !ValidRange(anchor.fields) then
      Ok(Some(Message("E_INVALID_ANCHOR_RANGE",
                      "evidence_anchor의 start_char/end_char 범위가 유효하지 않습니다.",
                      Some(fieldPath + ".evidence_anchor"))))
    else Ok(None)
  }

  /** The problem one field has: confidence first, then the span/anchor pair. */
  function FieldProblem(key: string, obj: Json): Outcome<Option<Message>> {
    if !obj.Obj? then Ok(None)
    else
      var c :- CheckConfidence(obj.fields, key);
      if c.Some? then Ok(c) else CheckEvidencePair(obj.fields, key)
  }

  /** The first problem among the fields, in insertion order. */
  function FirstProblem(fs: Fields): (r: Outcome<Option<Message>>)
    ensures r.Ok? && r.value.None? <==> forall i :: 0 <= i < |fs| ==> FieldProblem(fs[i].0, fs[i].1) == Ok(None)
    ensures r.Ok? && r.value.Some? ==>
      exists i :: (0 <= i < |fs| && FieldProblem(fs[i].0, fs[i].1) == r
                   && forall j :: 0 <= j < i ==> FieldProblem(fs[j].0, fs[j].1) == Ok(None))
  {
    if fs == [] then Ok(None)
    else
      var p := FieldProblem(fs[0].0, fs[0].1);
      if p != Ok(None) then p
      else
        var r := FirstProblem(fs[1..]);
        if r.Ok? && r.value.Some? then
          var i :| (0 <= i < |fs[1..]| && FieldProblem(fs[1..][i].0, fs[1..][i].1) == r
                    && forall j :: 0 <= j < i ==> FieldProblem(fs[1..][j].0, fs[1..][j].1) == Ok(None));
          assert FieldProblem(fs[i + 1].0, fs[i + 1].1) == r;
          assert forall j :: 0 <= j < i + 1 ==> FieldProblem(fs[j].0, fs[j].1) == Ok(None) by {
            forall j | 0 < j < i + 1
              ensures FieldProblem(fs[j].0, fs[j].1) == Ok(None)
            {
              assert fs[j] == fs[1..][j - 1];
            }
          }
          r
        else r
  }

  /** `validate_confidence_and_evidence`; `.items()` on a non-dict raises. */
  function ConfidenceAndEvidence(data: Json): (r: Outcome<RuleOutput>)
    ensures !data.Obj? ==> r == Raise(AttributeError)
    ensures r.Ok? ==> r.value.NoOutput? || r.value.OneMessage?
  {
    if !data.Obj? then Raise(AttributeError)
    else
      var p :- FirstProblem(data.fields);
      Ok(if p.Some? then OneMessage(p.value) else NoOutput)
  }

  /** Every code this rule emits is an "E_" code, so the runner fails whenever it fires. */
  lemma ConfidenceAndEvidenceCodes(data: Json)
    requires ConfidenceAndEvidence(data).Ok? && ConfidenceAndEvidence(data).value.OneMessage?
    ensures StartsWith(ConfidenceAndEvidence(data).value.msg.code, "E_")
  {
    var p := FirstProblem(data.fields);
    var i :| 0 <= i < |data.fields| && FieldProblem(data.fields[i].0, data.fields[i].1) == p;
    FieldProblemCodes(data.fields[i].0, data.fields[i].1);
  }

  lemma FieldProblemCodes(key: string, obj: Json)
    requires FieldProblem(key, obj).Ok? && FieldProblem(key, obj).value.Some?
    ensures StartsWith(FieldProblem(key, obj).value.value.code, "E_")
  {
    ErrorCodesPrefixed();
    var c := CheckConfidence(obj.fields, key);
    if c.Ok? && c.value.Some? {
      assert FieldProblem(key, obj) == c;
    } else {
      assert FieldProblem(key, obj) == CheckEvidencePair(obj.fields, key);
    }
  }

  /** The four codes of this rule start with "E_". */
  lemma ErrorCodesPrefixed()
    ensures StartsWith("E_INVALID_CONFIDENCE", "E_") && StartsWith("E_ANCHOR_WITHOUT_SPAN", "E_")
    ensures StartsWith("E_INVALID_ANCHOR_MODALITY", "E_") && StartsWith("E_INVALID_ANCHOR_RANGE", "E_")
  {
    assert "E_INVALID_CONFIDENCE"[..2] == "E_";
    assert "E_ANCHOR_WITHOUT_SPAN"[..2] == "E_";
    assert "E_INVALID_ANCHOR_MODALITY"[..2] == "E_";
    assert "E_INVALID_ANCHOR_RANGE"[..2] == "E_";
  }
}
