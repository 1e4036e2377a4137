/**
 * Two per-field rules that report every problem rather than the first:
 * `validate_confidence_value` (an explicit PASS/FAIL result) and
 * `validate_anchor_consistency` (a list of messages).  Each looks at the
 * dict-valued fields in insertion order and adds at most one message per
 * field.
 */
module FieldRules {
  import opened Outcomes
  import opened JsonValues
  import opened PyFormat
  import opened ValidatorResult
  import opened SchemaRules

  /** The number of fields whose value is a dict. */
  function DictFields(fs: Fields): nat {
    if fs == [] then 0 else DictFields(fs[..|fs| - 1]) + (if fs[|fs| - 1].1.Obj? then 1 else 0)
  }

  // ----- validate_confidence_value -----

  /** The message `validate_confidence_value` adds for one field. */
  function ConfidenceFieldMessages(name: string, obj: Json): (r: Outcome<seq<Message>>)
    ensures !obj.Obj? ==> r == Ok([])
    ensures r.Ok? ==> |r.value| <= 1
    ensures obj.Obj? ==>
      var confidence := Get(obj.fields, "confidence");
      && (r.Raise? <==> confidence != Null && !Hashable(confidence))
      && (r.Ok? && r.value != [] ==> r.value[0].field == Some(name))
      && (confidence == Null ==> r.Ok? && r.value != [] && r.value[0].code == "confidence_missing")
      && (confidence != Null && Hashable(confidence) && !AllowedConfidence(confidence) ==>
            && r.Ok? && r.value != [] && r.value[0].code == "confidence_invalid_value"
            && r.value[0].text == "invalid confidence value: " + PyStr(confidence))
      && (AllowedConfidence(confidence) ==>
            && r.Ok?
            && (r.value != [] <==> confidence == Str("high") && Get(obj.fields, "evidence_span") == Null)
            && (r.value != [] ==> r.value[0].code == "confidence_high_requires_evidence"))
  {
    if !obj.Obj? then Ok([])
    else
      var confidence := Get(obj.fields, "confidence");
      var span := Get(obj.fields, "evidence_span");
      if confidence == Null then
        Ok([Message("confidence_missing", "confidence field is missing", Some(name))])
      else if !Hashable(confidence) then Raise(TypeError)
      else if !AllowedConfidence(confidence) then
        Ok([Message("confidence_invalid_value", "invalid confidence value: " + PyStr(confidence), Some(name))])
      else if confidence == Str("high") && span == Null then
        Ok([Message("confidence_high_requires_evidence", "confidence=high requires evidence_span", Some(name))])
      else Ok([])
  }

  /** A float confidence is printed as Python prints the float: 0.9 as 0.9. */
  lemma FloatConfidenceFieldMessages()
    ensures ConfidenceFieldMessages("risk", Obj([("confidence", Float(9, -1))]))
      == Ok([Message("confidence_invalid_value", "invalid confidence value: 0.9", Some("risk"))])
  {
    assert IndexOf([("confidence", Float(9, -1))], "confidence") == 0;
    FloatReprPositional();
    assert "invalid confidence value: " + "0.9" == "invalid confidence value: 0.9";
  }

  /** A small float confidence is printed in scientific notation: 1e-05. */
  lemma SmallFloatConfidenceFieldMessages()
    ensures ConfidenceFieldMessages("risk", Obj([("confidence", Float(1, -5))]))
      == Ok([Message("confidence_invalid_value", "invalid confidence value: 1e-05", Some("risk"))])
  {
    assert IndexOf([("confidence", Float(1, -5))], "confidence") == 0;
    FloatReprSmall();
    assert "invalid confidence value: " + "1e-05" == "invalid confidence value: 1e-05";
  }

  /** The messages for the fields `fs`, in field order. */
  function ConfidenceMessages(fs: Fields): (r: Outcome<seq<Message>>)
    ensures r.Ok? ==> |r.value| <= DictFields(fs)
  {
    if fs == [] then Ok([])
    else
      var n := |fs| - 1;
      match ConfidenceMessages(fs[..n])
      case Raise(e) => Raise(e)
      case Ok(earlier) =>
        match ConfidenceFieldMessages(fs[n].0, fs[n].1)
        case Raise(e) => Raise(e)
        case Ok(here) => Ok(earlier + here)
  }

  /** `validate_confidence_value`: always an explicit result. */
  function ConfidenceValue(data: Json): (r: Outcome<RuleOutput>)
    ensures !data.Obj? ==> r == Raise(AttributeError)
    ensures r.Ok? ==> (
      && r.value.Explicit?
      && (r.value.result.status == Fail <==> r.value.result.messages != [])
      && (r.value.result.status == Pass || r.value.result.status == Fail))
  {
    if !data.Obj? then Raise(AttributeError)
    else
      match ConfidenceMessages(data.fields)
      case Raise(e) => Raise(e)
      case Ok(messages) =>
        if messages != [] then Ok(Explicit(RunnerResult(Fail, messages)))
        else Ok(Explicit(RunnerResult(Pass, [])))
  }

  /** `validate_confidence_value` as the loop the source runs. */
  method ValidateConfidenceValue(payload: Json) returns (r: Outcome<RuleOutput>)
    ensures r == ConfidenceValue(payload)
  {
    if !payload.Obj? {
      return Raise(AttributeError);
    }
    var fs := payload.fields;
    var messages: seq<Message> := [];
    var i := 0;
    while i < |fs|
      invariant 0 <= i <= |fs|
      invariant ConfidenceMessages(fs[..i]) == Ok(messages)
    {
      assert fs[..i + 1][..i] == fs[..i];
      var here := ConfidenceFieldMessages(fs[i].0, fs[i].1);
      if here.Raise? {
        ConfidenceRaiseEarly(fs, i + 1);
        return Raise(here.exc);
      }
      messages := messages + here.value;
      i := i + 1;
    }
    assert fs[..i] == fs;
    if messages != [] {
      r := Ok(Explicit(RunnerResult(Fail, messages)));
    } else {
      r := Ok(Explicit(RunnerResult(Pass, [])));
    }
  }

  lemma {:induction false} ConfidenceRaiseEarly(fs: Fields, k: nat)
    requires k <= |fs| && ConfidenceMessages(fs[..k]).Raise?
    ensures ConfidenceMessages(fs) == ConfidenceMessages(fs[..k])
    decreases |fs|
  {
    if k < |fs| {
      var init := fs[..|fs| - 1];
      assert init[..k] == fs[..k];
      ConfidenceRaiseEarly(init, k);
    } else {
      assert fs[..k] == fs;
    }
  }

  // ----- validate_anchor_consistency -----

  /** The message `validate_anchor_consistency` adds for one field. */
  function AnchorFieldMessages(name: string, obj: Json): (r: Outcome<seq<Message>>)
    ensures !obj.Obj? ==> r == Ok([])
    ensures r.Ok? ==> |r.value| <= 1
    ensures r.Ok? && r.value != [] ==> r.value[0].field == Some(name)
    ensures obj.Obj? ==>
      var span := Get(obj.fields, "evidence_span");
      var anchor := Get(obj.fields, "evidence_anchor");
      && (anchor == Null ==> r == Ok([]))
      && (span == Null && anchor != Null ==> r.Ok? && r.value != [] && r.value[0].code == "E_ANCHOR_WITHOUT_SPAN")
      && (span != Null && anchor != Null ==>
            && (r.Raise? <==> !anchor.Obj?)
            && (anchor.Obj? ==>
                  (r.value != [] <==> !ValidRange(anchor.fields))
                  && (r.value != [] ==> r.value[0].code == "E_ANCHOR_INVALID_RANGE")))
  {
    if !obj.Obj? then Ok([])
    else
      var span := Get(obj.fields, "evidence_span");
      var anchor := Get(obj.fields, "evidence_anchor");
      if span == Null && anchor != Null then
        Ok([Message("E_ANCHOR_WITHOUT_SPAN", "evidence_anchor must be null when evidence_span is null", Some(name))])
      else if anchor == Null then Ok([])
      else if !anchor.Obj? then Raise(AttributeError)
      else
        var start := AsInt(Get(anchor.fields, "start_char"));
        var end := AsInt(Get(anchor.fields, "end_char"));
        if start.None? || end.None? then
          Ok([Message("E_ANCHOR_INVALID_RANGE", "evidence_anchor.start_char and end_char must be integers", Some(name))])
        else if start.value >= end.value then
          Ok([Message("E_ANCHOR_INVALID_RANGE", "evidence_anchor.start_char must be less than end_char", Some(name))])
        else Ok([])
  }

  /** The messages for the fields `fs`, in field order. */
  function AnchorMessages(fs: Fields): (r: Outcome<seq<Message>>)
    ensures r.Ok? ==> |r.value| <= DictFields(fs)
  {
    if fs == [] then Ok([])
    else
      var n := |fs| - 1;
      match AnchorMessages(fs[..n])
      case Raise(e) => Raise(e)
      case Ok(earlier) =>
        match AnchorFieldMessages(fs[n].0, fs[n].1)
        case Raise(e) => Raise(e)
        case Ok(here) => Ok(earlier + here)
  }

  /** `validate_anchor_consistency` */
  function AnchorConsistency(data: Json): (r: Outcome<RuleOutput>)
    ensures !data.Obj? ==> r == Raise(AttributeError)
    ensures r.Ok? ==> r.value.ManyMessages? && |r.value.msgs| <= DictFields(data.fields)
  {
    if !data.Obj? then Raise(AttributeError)
    else
      match AnchorMessages(data.fields)
      case Raise(e) => Raise(e)
      case Ok(messages) => Ok(ManyMessages(messages))
  }

  /** `validate_anchor_consistency` as the loop the source runs. */
  method ValidateAnchorConsistency(data: Json) returns (r: Outcome<RuleOutput>)
    ensures r == AnchorConsistency(data)
  {
    if !data.Obj? {
      return Raise(AttributeError);
    }
    var fs := data.fields;
    var messages: seq<Message> := [];
    var i := 0;
    while i < |fs|
      invariant 0 <= i <= |fs|
      invariant AnchorMessages(fs[..i]) == Ok(messages)
    {
      assert fs[..i + 1][..i] == fs[..i];
      var here := AnchorFieldMessages(fs[i].0, fs[i].1);
      if here.Raise? {
        AnchorRaiseEarly(fs, i + 1);
        return Raise(here.exc);
      }
      messages := messages + here.value;
      i := i + 1;
    }
    assert fs[..i] == fs;
    r := Ok(ManyMessages(messages));
  }

  lemma {:induction false} AnchorRaiseEarly(fs: Fields, k: nat)
    requires k <= |fs| && AnchorMessages(fs[..k]).Raise?
    ensures AnchorMessages(fs) == AnchorMessages(fs[..k])
    decreases |fs|
  {
    if k < |fs| {
      var init := fs[..|fs| - 1];
      assert init[..k] == fs[..k];
      AnchorRaiseEarly(init, k);
    } else {
      assert fs[..k] == fs;
    }
  }
}
