/**
 * Evidence-mode trial signals, computed from a structuring result and its
 * evidence tags: the evidence pool (the first few fields of `output_json`
 * that carry a span), evidence strength from the pooled confidences,
 * clarity from the anchor tags and safety from the tag verdict.
 */
module TrialEvidenceSignals {
  import opened Outcomes
  import opened JsonValues
  import opened StructuringTypes
  import opened EvidenceTags
  import opened ValidatorResult
  import opened TagValidation
  import opened TrialTypes

  // ----- the evidence pool -----

  /** A field the pool takes: its value is a dict whose span is not None. */
  predicate Eligible(entry: (string, Json)) {
    entry.1.Obj? && Get(entry.1.fields, "evidence_span") != Null
  }

  /** The eligible fields, in document order. */
  function Eligibles(fields: Fields): (r: Fields)
    ensures |r| <= |fields|
    ensures forall k :: 0 <= k < |r| ==> Eligible(r[k]) && r[k] in fields
  {
    if fields == [] then []
    else (if Eligible(fields[0]) then [fields[0]] else []) + Eligibles(fields[1..])
  }

  /**
   * `TrialSignalEvidenceV0(evidence_span=span, evidence_anchor=anchor,
   * source="structuring", source_field=field)`: the span must be a string and
   * the anchor None or a valid `EvidenceAnchor`, else the model raises.
   */
  function PoolEntry(entry: (string, Json)): (r: Outcome<TrialEvidence>)
    requires entry.1.Obj?
    ensures r.Raise? ==> r.exc == ValidationError
    ensures r.Ok? <==> Get(entry.1.fields, "evidence_span").Str? && ReadAnchor(Get(entry.1.fields, "evidence_anchor")).Ok?
    ensures r.Ok? ==>
      && r.value.source == FromStructuring && r.value.sourceField == Some(entry.0)
      && Str(r.value.span) == Get(entry.1.fields, "evidence_span")
      && r.value.anchor == ReadAnchor(Get(entry.1.fields, "evidence_anchor")).value
  {
    var span := Get(entry.1.fields, "evidence_span");
    if !span.Str? then Raise(ValidationError)
    else
      var anchor :- ReadAnchor(Get(entry.1.fields, "evidence_anchor"));
      Ok(TrialEvidence(span.s, anchor, FromStructuring, Some(entry.0)))
  }

  /**
   * The loop of `_extract_structured_evidence_pool` from some field on, with
   * `room` more entries to take before the `len(pool) >= max_evidence` break
   * (the break comes after an append, so at least one is always taken).
   */
  function PoolFrom(fields: Fields, room: int): (r: Outcome<seq<TrialEvidence>>)
    ensures r.Raise? ==> r.exc == ValidationError
    decreases |fields|
  {
    if fields == [] then Ok([])
    else if !Eligible(fields[0]) then PoolFrom(fields[1..], room)
    else
      match PoolEntry(fields[0])
      case Raise(e) => Raise(e)
      case Ok(e) =>
        if room <= 1 then Ok([e])
        else
          match PoolFrom(fields[1..], room - 1)
          case Raise(x) => Raise(x)
          case Ok(rest) => Ok([e] + rest)
  }

  /** `_extract_structured_evidence_pool(result=result, max_evidence=max_evidence)` */
  function PoolSpec(output: Json, maxEvidence: int): Outcome<seq<TrialEvidence>> {
    if !output.Obj? then Ok([]) else PoolFrom(output.fields, maxEvidence)
  }

  function Min(a: int, b: int): int { if a < b then a else b }
  function Max(a: int, b: int): int { if a < b then b else a }

  /** Fields the pool does not take make no difference to it. */
  lemma {:induction false} PoolSeesOnlyEligible(fields: Fields, room: int)
    ensures PoolFrom(fields, room) == PoolFrom(Eligibles(fields), room)
    decreases |fields|
  {
    if fields != [] {
      var rest := fields[1..];
      PoolSeesOnlyEligible(rest, room);
      PoolSeesOnlyEligible(rest, room - 1);
      var es := Eligibles(fields);
      if Eligible(fields[0]) {
        assert es[0] == fields[0] && es[1..] == Eligibles(rest);
      } else {
        assert es == Eligibles(rest);
      }
    }
  }

  /** Every field of `es` is one the pool takes. */
  predicate AllEligible(es: Fields) {
    forall k :: 0 <= k < |es| ==> es[k].1.Obj? && Eligible(es[k])
  }

  /** On eligible fields the pool raises exactly when one of its first `max(1, room)` entries does. */
  lemma PoolOfEligibleOk(es: Fields, room: int)
    requires AllEligible(es)
    ensures PoolFrom(es, room).Ok? <==> forall k :: 0 <= k < Min(|es|, Max(1, room)) ==> PoolEntry(es[k]).Ok?
  {
    if PoolFrom(es, room).Ok? {
      PoolOfEligibleValue(es, room);
    } else if forall k :: 0 <= k < Min(|es|, Max(1, room)) ==> PoolEntry(es[k]).Ok? {
      EntriesOkPoolOk(es, room);
    }
  }

  /** A pool whose first `max(1, room)` entries are all valid does not raise. */
  lemma {:induction false} EntriesOkPoolOk(es: Fields, room: int)
    requires AllEligible(es)
    requires forall k :: 0 <= k < Min(|es|, Max(1, room)) ==> PoolEntry(es[k]).Ok?
    ensures PoolFrom(es, room).Ok?
    decreases |es|
  {
    if es != [] {
      assert PoolEntry(es[0]).Ok?;
      if room > 1 {
        var rest := es[1..];
        assert AllEligible(rest);
        forall k | 0 <= k < Min(|rest|, Max(1, room - 1))
          ensures PoolEntry(rest[k]).Ok?
        {
          assert rest[k] == es[k + 1];
        }
        EntriesOkPoolOk(rest, room - 1);
      }
    }
  }

  /** On eligible fields a pool that does not raise is the first `max(1, room)` entries. */
  lemma {:induction false} PoolOfEligibleValue(es: Fields, room: int)
    requires AllEligible(es) && PoolFrom(es, room).Ok?
    ensures var p := PoolFrom(es, room).value;
      var n := Min(|es|, Max(1, room));
      |p| == n && forall k :: 0 <= k < n ==> PoolEntry(es[k]).Ok? && p[k] == PoolEntry(es[k]).value
    decreases |es|
  {
    if es != [] && room > 1 {
      var rest := es[1..];
      assert AllEligible(rest);
      PoolOfEligibleValue(rest, room - 1);
      var p := PoolFrom(es, room).value;
      var q := PoolFrom(rest, room - 1).value;
      assert p == [PoolEntry(es[0]).value] + q;
      forall k | 0 < k < |p|
        ensures PoolEntry(es[k]).Ok? && p[k] == PoolEntry(es[k]).value
      {
        assert p[k] == q[k - 1] && es[k] == rest[k - 1];
      }
    }
  }

  /**
   * The pool is the first `min(#eligible, max(1, room))` eligible fields, in
   * order, each turned into an evidence item quoting its span; it raises
   * exactly when one of those fields has a span that is not a string or an
   * anchor that is not a valid `EvidenceAnchor`.
   */
  lemma PoolTakesFirstEligible(fields: Fields, room: int)
    ensures var es := Eligibles(fields);
      var n := Min(|es|, Max(1, room));
      && (PoolFrom(fields, room).Ok? <==> forall k :: 0 <= k < n ==> PoolEntry(es[k]).Ok?)
      && (PoolFrom(fields, room).Ok? ==>
            var p := PoolFrom(fields, room).value;
            |p| == n && forall k :: 0 <= k < n ==> p[k] == PoolEntry(es[k]).value)
  {
    PoolSeesOnlyEligible(fields, room);
    PoolOfEligibleOk(Eligibles(fields), room);
    if PoolFrom(fields, room).Ok? {
      PoolOfEligibleValue(Eligibles(fields), room);
    }
  }

  /** The pool never holds more than `max(1, max_evidence)` items, and is empty without a dict. */
  lemma PoolBound(output: Json, maxEvidence: int)
    requires PoolSpec(output, maxEvidence).Ok?
    ensures |PoolSpec(output, maxEvidence).value| <= Max(1, maxEvidence)
    ensures !output.Obj? ==> PoolSpec(output, maxEvidence).value == []
    ensures forall k :: 0 <= k < |PoolSpec(output, maxEvidence).value| ==>
      PoolSpec(output, maxEvidence).value[k].source == FromStructuring
      && PoolSpec(output, maxEvidence).value[k].sourceField.Some?
  {
    if output.Obj? {
      PoolTakesFirstEligible(output.fields, maxEvidence);
    }
  }

  /** `_extract_structured_evidence_pool`: walk the fields, append, break once the pool is full. */
  method ExtractEvidencePool(output: Json, maxEvidence: int) returns (r: Outcome<seq<TrialEvidence>>)
    ensures r == PoolSpec(output, maxEvidence)
  {
    if !output.Obj? {
      return Ok([]);
    }
    r := CollectPool(output.fields, maxEvidence);
  }

  /** The loop of `_extract_structured_evidence_pool` over the fields of a dict. */
  method CollectPool(fields: Fields, maxEvidence: int) returns (r: Outcome<seq<TrialEvidence>>)
    ensures r == PoolFrom(fields, maxEvidence)
  {
    var pool: seq<TrialEvidence> := [];
    var i := 0;
    assert fields[0..] == fields;
    match PoolFrom(fields, maxEvidence) {
      case Ok(more) => assert [] + more == more;
      case Raise(_) =>
    }
    while i < |fields|
      invariant 0 <= i <= |fields|
      invariant pool == [] || |pool| < maxEvidence
      invariant PoolFrom(fields, maxEvidence) == Prepend(pool, PoolFrom(fields[i..], maxEvidence - |pool|))
    {
      var room := maxEvidence - |pool|;
      PoolFromStep(fields, i, room);
      var entry := fields[i];
      if Eligible(entry) {
        var e := PoolEntry(entry);
        if e.Raise? {
          return Raise(e.exc);
        }
        if |pool| + 1 >= maxEvidence {
          assert PoolFrom(fields[i..], room) == Ok([e.value]);
          return Ok(pool + [e.value]);
        }
        PrependAssoc(pool, e.value, PoolFrom(fields[i + 1..], room - 1));
        pool := pool + [e.value];
      }
      i := i + 1;
    }
    assert pool + [] == pool;
    return Ok(pool);
  }

  /** One step of the loop over the fields from index `i` on. */
  lemma PoolFromStep(fields: Fields, i: nat, room: int)
    requires i < |fields|
    ensures !Eligible(fields[i]) ==> PoolFrom(fields[i..], room) == PoolFrom(fields[i + 1..], room)
    ensures Eligible(fields[i]) && PoolEntry(fields[i]).Raise? ==>
      PoolFrom(fields[i..], room) == Raise(PoolEntry(fields[i]).exc)
    ensures Eligible(fields[i]) && PoolEntry(fields[i]).Ok? && room <= 1 ==>
      PoolFrom(fields[i..], room) == Ok([PoolEntry(fields[i]).value])
    ensures Eligible(fields[i]) && PoolEntry(fields[i]).Ok? && room > 1 ==>
      PoolFrom(fields[i..], room) == Prepend([PoolEntry(fields[i]).value], PoolFrom(fields[i + 1..], room - 1))
  {
    assert fields[i..][0] == fields[i] && fields[i..][1..] == fields[i + 1..];
  }

  lemma PrependAssoc(pool: seq<TrialEvidence>, e: TrialEvidence, rest: Outcome<seq<TrialEvidence>>)
    ensures Prepend(pool, Prepend([e], rest)) == Prepend(pool + [e], rest)
  {
    if rest.Ok? {
      assert pool + ([e] + rest.value) == (pool + [e]) + rest.value;
    }
  }

  /** `pool` followed by what the rest of the loop collects. */
  function Prepend(pool: seq<TrialEvidence>, rest: Outcome<seq<TrialEvidence>>): Outcome<seq<TrialEvidence>> {
    match rest
    case Raise(e) => Raise(e)
    case Ok(more) => Ok(pool + more)
  }

  // ----- the three evidence signals -----

  /** Level and reason codes of one evidence signal. */
  datatype Grade = Grade(level: string, codes: seq<string>)

  /** The confidence string of one pooled field, when its field is a dict holding a string "confidence". */
  function ConfidenceOf(output: Json, ev: TrialEvidence): Option<string>
    requires output.Obj?
  {
    if ev.sourceField.None? || ev.sourceField.value == "" then None
    else
      var obj := Get(output.fields, ev.sourceField.value);
      if obj.Obj? && Get(obj.fields, "confidence").Str? then Some(Get(obj.fields, "confidence").s)
      else None
  }

  /** The confidence strings of the pooled fields, in pool order (lines 167-176). */
  function ConfidencesOf(output: Json, pool: seq<TrialEvidence>): seq<string>
    decreases |pool|
  {
    if pool == [] || !output.Obj? then []
    else
      var init := ConfidencesOf(output, pool[..|pool| - 1]);
      match ConfidenceOf(output, pool[|pool| - 1])
      case None => init
      case Some(c) => init + [c]
  }

  /** A confidence string read from one of the pooled fields. */
  predicate PooledConfidence(output: Json, pool: seq<TrialEvidence>, c: string) {
    output.Obj? && exists k :: 0 <= k < |pool| && ConfidenceOf(output, pool[k]) == Some(c)
  }

  /** Exactly the pooled fields' string confidences are collected; other confidences are ignored. */
  lemma ConfidencesArePooled(output: Json, pool: seq<TrialEvidence>, c: string)
    ensures c in ConfidencesOf(output, pool) <==> PooledConfidence(output, pool, c)
  {
    if c in ConfidencesOf(output, pool) {
      ConfidenceHasSource(output, pool, c);
    }
    if PooledConfidence(output, pool, c) {
      var k :| 0 <= k < |pool| && ConfidenceOf(output, pool[k]) == Some(c);
      ConfidenceCollected(output, pool, k, c);
    }
  }

  /** A collected confidence comes from one of the pooled fields. */
  lemma {:induction false} ConfidenceHasSource(output: Json, pool: seq<TrialEvidence>, c: string)
    requires c in ConfidencesOf(output, pool)
    ensures PooledConfidence(output, pool, c)
    decreases |pool|
  {
    var init := pool[..|pool| - 1];
    var last := ConfidenceOf(output, pool[|pool| - 1]);
    if last == Some(c) {
      assert ConfidenceOf(output, pool[|pool| - 1]) == Some(c);
    } else {
      assert c in ConfidencesOf(output, init);
      ConfidenceHasSource(output, init, c);
      var k :| 0 <= k < |init| && ConfidenceOf(output, init[k]) == Some(c);
      assert pool[k] == init[k];
    }
  }

  /** The confidence of every pooled field that has one is collected. */
  lemma {:induction false} ConfidenceCollected(output: Json, pool: seq<TrialEvidence>, k: nat, c: string)
    requires output.Obj? && k < |pool| && ConfidenceOf(output, pool[k]) == Some(c)
    ensures c in ConfidencesOf(output, pool)
    decreases |pool|
  {
    var init := pool[..|pool| - 1];
    if k < |pool| - 1 {
      assert pool[k] == init[k];
      ConfidenceCollected(output, init, k, c);
      assert ConfidencesOf(output, init) <= ConfidencesOf(output, pool);
    }
  }

  /** Evidence strength (lines 178-189). */
  function StrengthOf(pool: seq<TrialEvidence>, confidences: seq<string>): (r: Grade)
    ensures r.level in EvidenceLevels && r.codes != []
  {
    if pool == [] then Grade(Danger, ["E_NO_EVIDENCE_POOL"])
    else if "low" in confidences then Grade(Danger, ["E_CONFIDENCE_LOW_PRESENT"])
    else if "medium" in confidences then Grade(Warning, ["E_CONFIDENCE_MEDIUM_PRESENT"])
    else Grade(Safe, ["E_CONFIDENCE_HIGH_ONLY"])
  }

  /** Clarity (lines 191-205): the anchor and structure tags, in priority order. */
  function ClarityOf(kinds: set<TagKind>): (r: Grade)
    ensures r.level in EvidenceLevels && r.codes != []
  {
    if StructInvalid in kinds then Grade(Danger, ["E_STRUCT_INVALID"])
    else if AnchorOk in kinds then Grade(Safe, ["E_ANCHOR_OK"])
    else if AnchorAmbiguous in kinds then Grade(Warning, ["W_ANCHOR_AMBIGUOUS"])
    else if AnchorNotFound in kinds then Grade(Warning, ["W_ANCHOR_NOT_FOUND"])
    else Grade(Warning, ["W_ANCHOR_STATE_UNKNOWN"])
  }

  /** Safety (lines 207-215): the tag verdict, with its message codes after the headline code. */
  function SafetyOf(verdict: RunnerResult): (r: Grade)
    ensures r.level in EvidenceLevels && r.codes != []
  {
    match verdict.status
    case Fail => Grade(Danger, ["E_TAG_VALIDATION_FAIL"] + Codes(verdict.messages))
    case Warn => Grade(Warning, ["W_TAG_VALIDATION_WARN"] + Codes(verdict.messages))
    case Pass => Grade(Safe, ["P_TAG_VALIDATION_PASS"])
  }

  /** `generate_trial_signals_v0_from_structuring(result=result, tags=tags, max_evidence=max_evidence)` */
  function EvidenceSignalsSpec(result: StructuringResult, tags: seq<EvidenceTag>, maxEvidence: int)
    : Outcome<TrialOutput>
  {
    match PoolSpec(result.outputJson, maxEvidence)
    case Raise(e) => Raise(e)
    case Ok(pool) =>
      var strength := StrengthOf(pool, ConfidencesOf(result.outputJson, pool));
      var clarity := ClarityOf(KindsOf(tags));
      var safety := SafetyOf(TagValidationOf(tags));
      Ok(EvidenceOutput(pool, strength, clarity, safety))
  }

  /** The evidence-mode output record for the three grades, each signal quoting the whole pool. */
  function EvidenceOutput(pool: seq<TrialEvidence>, strength: Grade, clarity: Grade, safety: Grade): TrialOutput {
    TrialOutput("evidence", "v0", "TRIAL signals v0 (evidence)", [
      TrialSignal("evidence_strength", strength.level, strength.codes, pool),
      TrialSignal("clarity", clarity.level, clarity.codes, pool),
      TrialSignal("safety", safety.level, safety.codes, pool)])
  }

  /** The confidence loop of the generator. */
  method CollectConfidences(output: Json, pool: seq<TrialEvidence>) returns (confidences: seq<string>)
    ensures confidences == ConfidencesOf(output, pool)
  {
    confidences := [];
    if !output.Obj? {
      return;
    }
    var i := 0;
    while i < |pool|
      invariant 0 <= i <= |pool|
      invariant confidences == ConfidencesOf(output, pool[..i])
    {
      assert pool[..i + 1][..i] == pool[..i];
      var ev := pool[i];
      if ev.sourceField.Some? && ev.sourceField.value != "" {
        var obj := Get(output.fields, ev.sourceField.value);
        if obj.Obj? && Get(obj.fields, "confidence").Str? {
          confidences := confidences + [Get(obj.fields, "confidence").s];
        }
      }
      assert pool[..i + 1][i] == ev;
      i := i + 1;
    }
    assert pool[..i] == pool;
  }

  method GenerateTrialSignalsFromStructuring(result: StructuringResult, tags: seq<EvidenceTag>, maxEvidence: int)
    returns (r: Outcome<TrialOutput>)
    ensures r == EvidenceSignalsSpec(result, tags, maxEvidence)
  {
    var verdict := ValidateEvidenceTags(tags);
    var kinds := KindsOf(tags);
    var pool :- ExtractEvidencePool(result.outputJson, maxEvidence);
    var confidences := CollectConfidences(result.outputJson, pool);
    var strength := StrengthOf(pool, confidences);
    var clarity := ClarityOf(kinds);
    var safety := SafetyOf(verdict);
    r := Ok(EvidenceOutput(pool, strength, clarity, safety));
  }

  // ----- what the levels mean -----

  /**
   * Evidence strength: 위험 for an empty pool or any pooled "low", else 경고
   * for any pooled "medium", else 안전; confidences that are not strings, or
   * belong to fields outside the pool, play no part.
   */
  lemma StrengthLevels(output: Json, pool: seq<TrialEvidence>)
    ensures var g := StrengthOf(pool, ConfidencesOf(output, pool));
      && (pool == [] ==> g == Grade(Danger, ["E_NO_EVIDENCE_POOL"]))
      && (pool != [] && PooledConfidence(output, pool, "low") ==> g == Grade(Danger, ["E_CONFIDENCE_LOW_PRESENT"]))
      && (pool != [] && !PooledConfidence(output, pool, "low") && PooledConfidence(output, pool, "medium") ==>
            g == Grade(Warning, ["E_CONFIDENCE_MEDIUM_PRESENT"]))
      && (pool != [] && !PooledConfidence(output, pool, "low") && !PooledConfidence(output, pool, "medium") ==>
            g == Grade(Safe, ["E_CONFIDENCE_HIGH_ONLY"]))
  {
    ConfidencesArePooled(output, pool, "low");
    ConfidencesArePooled(output, pool, "medium");
  }

  /**
   * Clarity and safety agree on danger, since both come from STRUCT_INVALID;
   * clarity is 안전 only with an ANCHOR_OK tag and no STRUCT_INVALID tag.
   */
  lemma ClarityAgreesWithSafety(tags: seq<EvidenceTag>)
    ensures var clarity := ClarityOf(KindsOf(tags));
      var safety := SafetyOf(TagValidationOf(tags));
      && (clarity.level == Danger <==> safety.level == Danger)
      && (clarity.level == Danger <==> StructInvalid in KindsOf(tags))
      && (clarity.level == Safe <==> AnchorOk in KindsOf(tags) && StructInvalid !in KindsOf(tags))
  {
  }

  /**
   * Safety is 안전 exactly when the tags validate cleanly, and otherwise
   * names the tag verdict's message codes after its headline code.
   */
  lemma SafetyMirrorsTagVerdict(tags: seq<EvidenceTag>)
    ensures var v := TagValidationOf(tags);
      var safety := SafetyOf(v);
      && (safety.level == Safe <==> v.status == Pass)
      && (safety.level == Safe ==> v.messages == [])
      && (safety.level == Danger <==> StructInvalid in KindsOf(tags))
      && (safety.level == Danger ==> safety.codes == ["E_TAG_VALIDATION_FAIL", "E_STRUCT_INVALID"])
      && (safety.level == Warning ==> safety.codes[0] == "W_TAG_VALIDATION_WARN" && safety.codes[1..] == Codes(v.messages))
      && safety.codes != []
  {
  }

  /**
   * Evidence mode gives the signals evidence_strength, clarity and safety in
   * that order, with evidence levels, non-empty reason codes and the same
   * pool as evidence for all three.
   */
  lemma EvidenceSignalsShape(result: StructuringResult, tags: seq<EvidenceTag>, maxEvidence: int)
    requires EvidenceSignalsSpec(result, tags, maxEvidence).Ok?
    ensures var o := EvidenceSignalsSpec(result, tags, maxEvidence).value;
      var pool := PoolSpec(result.outputJson, maxEvidence).value;
      && WellFormed(o) && o.mode == "evidence"
      && |o.signals| == 3
      && o.signals[0].name == "evidence_strength" && o.signals[1].name == "clarity" && o.signals[2].name == "safety"
      && (forall i :: 0 <= i < 3 ==>
            o.signals[i].level in EvidenceLevels && o.signals[i].reasonCodes != [] && o.signals[i].evidence == pool)
      && |pool| <= Max(1, maxEvidence)
  {
    PoolBound(result.outputJson, maxEvidence);
    var pool := PoolSpec(result.outputJson, maxEvidence).value;
    var strength := StrengthOf(pool, ConfidencesOf(result.outputJson, pool));
    var clarity := ClarityOf(KindsOf(tags));
    var safety := SafetyOf(TagValidationOf(tags));
    assert EvidenceSignalsSpec(result, tags, maxEvidence).value == EvidenceOutput(pool, strength, clarity, safety);
    EvidenceOutputShape(pool, strength, clarity, safety);
  }

  /** An output built from three evidence grades is well formed. */
  lemma EvidenceOutputShape(pool: seq<TrialEvidence>, strength: Grade, clarity: Grade, safety: Grade)
    requires strength.level in EvidenceLevels && clarity.level in EvidenceLevels && safety.level in EvidenceLevels
    ensures WellFormed(EvidenceOutput(pool, strength, clarity, safety))
  {
    var o := EvidenceOutput(pool, strength, clarity, safety);
    assert WellFormedSignal(o.signals[0]) && WellFormedSignal(o.signals[1]) && WellFormedSignal(o.signals[2]);
  }

  /**
   * An anchor without "modality", as `apply_anchors` writes them, on the
   * first field the pool takes makes the evidence-mode generator raise.
   */
  lemma AnchorWithoutModalityRaises(result: StructuringResult, tags: seq<EvidenceTag>, maxEvidence: int, i: nat)
    requires result.outputJson.Obj? && i < |result.outputJson.fields|
    requires forall j :: 0 <= j < i ==> !Eligible(result.outputJson.fields[j])
    requires var f := result.outputJson.fields[i].1;
      && f.Obj? && Get(f.fields, "evidence_span").Str?
      && Get(f.fields, "evidence_anchor").Obj? && !HasKey(Get(f.fields, "evidence_anchor").fields, "modality")
    ensures EvidenceSignalsSpec(result, tags, maxEvidence) == Raise(ValidationError)
  {
    var fields := result.outputJson.fields;
    var anchor := Get(fields[i].1.fields, "evidence_anchor");
    assert Get(anchor.fields, "modality") == Null;
    assert ReadAnchor(anchor).Raise?;
    EligiblesSkip(fields, i);
    PoolTakesFirstEligible(fields, maxEvidence);
  }

  /** With nothing eligible before field `i`, field `i` is the first eligible one. */
  lemma {:induction false} EligiblesSkip(fields: Fields, i: nat)
    requires i < |fields| && Eligible(fields[i])
    requires forall j :: 0 <= j < i ==> !Eligible(fields[j])
    ensures Eligibles(fields) != [] && Eligibles(fields)[0] == fields[i]
    decreases i
  {
    if i > 0 {
      EligiblesSkip(fields[1..], i - 1);
    }
  }
}
