/**
 * `validate_required_keys`, the older checker: it returns a list of
 * (code, field) errors instead of validator messages.  A first loop reports
 * every missing top-level key; a second loop checks each present dict field
 * for the common sub-keys, its confidence and its span/anchor pairing.
 */
module LegacyRules {
  import opened Outcomes
  import opened JsonValues
  import opened SchemaRules

  /** One reported error: a code and the field it concerns. */
  datatype KeyProblem = KeyProblem(code: string, field: string)

  /** `REQUIRED_TOP_KEYS`: the same eleven keys, in the same order, as `RequiredTopLevelKeys`. */
  const RequiredTopKeys: seq<string> := RequiredTopLevelKeys

  /** `COMMON_FIELDS` */
  const CommonFields: seq<string> := ["value", "confidence", "evidence_span", "evidence_anchor"]

  /** The first loop: `k not in doc` for each key of `keys`, in order. */
  function MissingTopKeys(doc: Json, keys: seq<string>): (r: Outcome<seq<KeyProblem>>)
    ensures r.Raise? <==> keys != [] && !(doc.Obj? || doc.Arr? || doc.Str?)
    ensures r.Raise? ==> r.exc == TypeError
    ensures r.Ok? ==> forall e :: e in r.value ==> e.code == "MISSING_REQUIRED_KEY"
    ensures r.Ok? && doc.Obj? ==>
      forall k :: KeyProblem("MISSING_REQUIRED_KEY", k) in r.value <==> k in keys && !HasKey(doc.fields, k)
  {
    if keys == [] then Ok([])
    else
      var n := |keys| - 1;
      match MissingTopKeys(doc, keys[..n])
      case Raise(e) => Raise(e)
      case Ok(earlier) =>
        match Contains(doc, keys[n])
        case Raise(e) => Raise(e)
        case Ok(present) =>
          assert keys == keys[..n] + [keys[n]];
          Ok(earlier + if present then [] else [KeyProblem("MISSING_REQUIRED_KEY", keys[n])])
  }

  /** The inner loop: `cf not in field` for each common field name. */
  function MissingCommon(k: string, field: Fields, names: seq<string>): (r: seq<KeyProblem>)
    ensures forall e :: e in r ==> e.code == "MISSING_COMMON_FIELD"
    ensures forall cf :: cf in names && !HasKey(field, cf) ==> KeyProblem("MISSING_COMMON_FIELD", k + "." + cf) in r
    ensures forall e :: e in r ==>
      |e.field| > |k| && e.field[|k| + 1..] in names && !HasKey(field, e.field[|k| + 1..])
  {
    if names == [] then []
    else
      var n := |names| - 1;
      assert names == names[..n] + [names[n]];
      assert (k + "." + names[n])[|k| + 1..] == names[n];
      MissingCommon(k, field, names[..n])
        + if HasKey(field, names[n]) then [] else [KeyProblem("MISSING_COMMON_FIELD", k + "." + names[n])]
  }

  /** A per-field check that finds nothing to report. */
  predicate CleanField(field: Json) {
    field.Obj? ==>
      var conf := Get(field.fields, "confidence");
      && (forall cf :: cf in CommonFields ==> HasKey(field.fields, cf))
      && (conf == Null || AllowedConfidence(conf))
      && ((Get(field.fields, "evidence_span") == Null) == (Get(field.fields, "evidence_anchor") == Null))
  }

  /** `INVALID_CONFIDENCE` for a non-null confidence outside the allowed set. */
  function ConfidenceProblems(k: string, conf: Json): (r: seq<KeyProblem>)
    ensures r == [] <==> conf == Null || AllowedConfidence(conf)
    ensures forall e :: e in r ==> e == KeyProblem("INVALID_CONFIDENCE", k + ".confidence")
  {
    if conf != Null && !AllowedConfidence(conf) then [KeyProblem("INVALID_CONFIDENCE", k + ".confidence")] else []
  }

  /** `SPAN_ANCHOR_INCONSISTENT` when exactly one of span and anchor is null. */
  function PairingProblems(k: string, span: Json, anchor: Json): (r: seq<KeyProblem>)
    ensures r == [] <==> (span == Null) == (anchor == Null)
    ensures forall e :: e in r ==> e == KeyProblem("SPAN_ANCHOR_INCONSISTENT", k)
  {
    if (span == Null) != (anchor == Null) then [KeyProblem("SPAN_ANCHOR_INCONSISTENT", k)] else []
  }

  /** The body of the second loop for the field `k`, whose value is `field`. */
  function FieldProblems(k: string, field: Json): (r: Outcome<seq<KeyProblem>>)
    ensures !field.Obj? ==> r == Ok([])
    ensures field.Obj? ==>
      var conf := Get(field.fields, "confidence");
      && (r.Raise? <==> conf != Null && !Hashable(conf))
      && (r.Raise? ==> r.exc == TypeError)
    ensures r.Ok? ==> (r.value == [] <==> CleanField(field))
    ensures r.Ok? ==> forall e :: e in r.value ==> e.code != "MISSING_REQUIRED_KEY"
  {
    if !field.Obj? then Ok([])
    else
      var conf := Get(field.fields, "confidence");
      if conf != Null && !Hashable(conf) then Raise(TypeError)
      else
        MissingCommonField(k, field.fields);
        Ok(MissingCommon(k, field.fields, CommonFields)
           + ConfidenceProblems(k, conf)
           + PairingProblems(k, Get(field.fields, "evidence_span"), Get(field.fields, "evidence_anchor")))
  }

  /** Which errors one dict field gets: each condition has its own code. */
  lemma FieldProblemsOnDict(k: string, fs: Fields)
    requires FieldProblems(k, Obj(fs)).Ok?
    ensures var r := FieldProblems(k, Obj(fs)).value;
      var conf := Get(fs, "confidence");
      && (forall cf :: cf in CommonFields ==>
            (KeyProblem("MISSING_COMMON_FIELD", k + "." + cf) in r <==> !HasKey(fs, cf)))
      && (KeyProblem("INVALID_CONFIDENCE", k + ".confidence") in r <==> conf != Null && !AllowedConfidence(conf))
      && (KeyProblem("SPAN_ANCHOR_INCONSISTENT", k) in r <==>
            (Get(fs, "evidence_span") == Null) != (Get(fs, "evidence_anchor") == Null))
  {
    var m := MissingCommon(k, fs, CommonFields);
    var c := ConfidenceProblems(k, Get(fs, "confidence"));
    var p := PairingProblems(k, Get(fs, "evidence_span"), Get(fs, "evidence_anchor"));
    MissingCommonField(k, fs);
    assert FieldProblems(k, Obj(fs)).value == m + c + p;
    if c != [] {
      assert c[0] in c;
    }
    if p != [] {
      assert p[0] in p;
    }
  }

  /** A missing common field always shows up, since the names are distinct from each other's suffix. */
  lemma MissingCommonField(k: string, field: Fields)
    ensures forall cf :: cf in CommonFields ==>
      (KeyProblem("MISSING_COMMON_FIELD", k + "." + cf) in MissingCommon(k, field, CommonFields) <==> !HasKey(field, cf))
    ensures MissingCommon(k, field, CommonFields) == [] <==> forall cf :: cf in CommonFields ==> HasKey(field, cf)
  {
    var r := MissingCommon(k, field, CommonFields);
    forall cf | cf in CommonFields && KeyProblem("MISSING_COMMON_FIELD", k + "." + cf) in r
      ensures !HasKey(field, cf)
    {
      assert (k + "." + cf)[|k| + 1..] == cf;
    }
    if r != [] {
      assert r[0] in r;
    }
  }

  /** The second loop over the keys `keys`, in order. */
  function PerFieldProblems(doc: Fields, keys: seq<string>): (r: Outcome<seq<KeyProblem>>)
    ensures r.Ok? ==> forall e :: e in r.value ==> e.code != "MISSING_REQUIRED_KEY"
    ensures r.Ok? ==> (r.value == [] <==> forall i :: 0 <= i < |keys| ==> CleanField(Get(doc, keys[i])))
  {
    if keys == [] then Ok([])
    else
      var n := |keys| - 1;
      match PerFieldProblems(doc, keys[..n])
      case Raise(e) => Raise(e)
      case Ok(earlier) =>
        match FieldProblems(keys[n], Get(doc, keys[n]))
        case Raise(e) => Raise(e)
        case Ok(here) =>
          assert forall i :: 0 <= i < n ==> keys[..n][i] == keys[i];
          Ok(earlier + here)
  }

  /** `validate_required_keys(doc)` */
  function RequiredKeysCheck(doc: Json): (r: Outcome<seq<KeyProblem>>)
    ensures !(doc.Obj? || doc.Arr? || doc.Str?) ==> r == Raise(TypeError)
    ensures doc.Arr? || doc.Str? ==> r == Raise(AttributeError)
  {
    match MissingTopKeys(doc, RequiredTopKeys)
    case Raise(e) => Raise(e)
    case Ok(missing) =>
      if !doc.Obj? then Raise(AttributeError)
      else
        match PerFieldProblems(doc.fields, RequiredTopKeys)
        case Raise(e) => Raise(e)
        case Ok(perField) => Ok(missing + perField)
  }

  /**
   * On a dict the missing-key errors come first, one per absent key, and no
   * per-field error carries that code; the list is empty exactly when every
   * key is present and every field is clean.
   */
  lemma {:induction false} RequiredKeysOnDict(fs: Fields)
    requires RequiredKeysCheck(Obj(fs)).Ok?
    ensures var r := RequiredKeysCheck(Obj(fs)).value;
      var m := MissingTopKeys(Obj(fs), RequiredTopKeys).value;
      && r[..|m|] == m
      && (forall k :: KeyProblem("MISSING_REQUIRED_KEY", k) in r <==> k in RequiredTopKeys && !HasKey(fs, k))
      && (forall i :: |m| <= i < |r| ==> r[i].code != "MISSING_REQUIRED_KEY")
      && (r == [] <==>
            (forall k :: k in RequiredTopKeys ==> HasKey(fs, k))
            && forall i :: 0 <= i < |RequiredTopKeys| ==> CleanField(Get(fs, RequiredTopKeys[i])))
  {
    var r := RequiredKeysCheck(Obj(fs)).value;
    var m := MissingTopKeys(Obj(fs), RequiredTopKeys).value;
    var p := PerFieldProblems(fs, RequiredTopKeys).value;
    assert r == m + p;
    assert r[..|m|] == m;
    forall i | |m| <= i < |r|
      ensures r[i].code != "MISSING_REQUIRED_KEY"
    {
      assert r[i] == p[i - |m|];
      assert p[i - |m|] in p;
    }
    forall k
      ensures KeyProblem("MISSING_REQUIRED_KEY", k) in r <==> k in RequiredTopKeys && !HasKey(fs, k)
    {
      if KeyProblem("MISSING_REQUIRED_KEY", k) in p {
        assert false;
      }
    }
    if m != [] {
      assert m[0] in m;
      assert m[0].code == "MISSING_REQUIRED_KEY";
      assert KeyProblem("MISSING_REQUIRED_KEY", m[0].field) in m;
    }
  }

  /** `validate_required_keys` as the loops the source runs. */
  method ValidateRequiredKeys(doc: Json) returns (r: Outcome<seq<KeyProblem>>)
    ensures r == RequiredKeysCheck(doc)
  {
    var missing := ReportMissingKeys(doc, RequiredTopKeys);
    if missing.Raise? {
      return Raise(missing.exc);
    }
    if !doc.Obj? {
      return Raise(AttributeError);
    }
    var perField := CheckFields(doc.fields, RequiredTopKeys);
    if perField.Raise? {
      return Raise(perField.exc);
    }
    r := Ok(missing.value + perField.value);
  }

  /** The first loop. */
  method ReportMissingKeys(doc: Json, keys: seq<string>) returns (r: Outcome<seq<KeyProblem>>)
    ensures r == MissingTopKeys(doc, keys)
  {
    var errors: seq<KeyProblem> := [];
    var i := 0;
    while i < |keys|
      invariant 0 <= i <= |keys|
      invariant MissingTopKeys(doc, keys[..i]) == Ok(errors)
    {
      assert keys[..i + 1][..i] == keys[..i];
      var present := Contains(doc, keys[i]);
      if present.Raise? {
        MissingRaiseEarly(doc, keys, i + 1);
        return Raise(present.exc);
      }
      if !present.value {
        errors := errors + [KeyProblem("MISSING_REQUIRED_KEY", keys[i])];
      } else {
        assert errors + [] == errors;
      }
      i := i + 1;
    }
    assert keys[..i] == keys;
    r := Ok(errors);
  }

  /** The second loop. */
  method CheckFields(doc: Fields, keys: seq<string>) returns (r: Outcome<seq<KeyProblem>>)
    ensures r == PerFieldProblems(doc, keys)
  {
    var errors: seq<KeyProblem> := [];
    var i := 0;
    while i < |keys|
      invariant 0 <= i <= |keys|
      invariant PerFieldProblems(doc, keys[..i]) == Ok(errors)
    {
      assert keys[..i + 1][..i] == keys[..i];
      var here := CheckField(keys[i], Get(doc, keys[i]));
      if here.Raise? {
        PerFieldRaiseEarly(doc, keys, i + 1);
        return Raise(here.exc);
      }
      errors := errors + here.value;
      i := i + 1;
    }
    assert keys[..i] == keys;
    r := Ok(errors);
  }

  lemma {:induction false} MissingRaiseEarly(doc: Json, keys: seq<string>, k: nat)
    requires k <= |keys| && MissingTopKeys(doc, keys[..k]).Raise?
    ensures MissingTopKeys(doc, keys) == MissingTopKeys(doc, keys[..k])
    decreases |keys|
  {
    if k < |keys| {
      var init := keys[..|keys| - 1];
      assert init[..k] == keys[..k];
      MissingRaiseEarly(doc, init, k);
    } else {
      assert keys[..k] == keys;
    }
  }

  /** One pass of the second loop: the checks on the field `k`. */
  method CheckField(k: string, field: Json) returns (r: Outcome<seq<KeyProblem>>)
    ensures r == FieldProblems(k, field)
  {
    if !field.Obj? {
      return Ok([]);
    }
    var here := CheckCommonFields(k, field.fields);
    var conf := Get(field.fields, "confidence");
    if conf != Null && !Hashable(conf) {
      return Raise(TypeError);
    }
    ghost var missing := here;
    if conf != Null && !AllowedConfidence(conf) {
      here := here + [KeyProblem("INVALID_CONFIDENCE", k + ".confidence")];
    }
    assert here == missing + ConfidenceProblems(k, conf);
    ghost var checked := here;
    var span := Get(field.fields, "evidence_span");
    var anchor := Get(field.fields, "evidence_anchor");
    if (span == Null) != (anchor == Null) {
      here := here + [KeyProblem("SPAN_ANCHOR_INCONSISTENT", k)];
    }
    assert here == checked + PairingProblems(k, span, anchor);
    r := Ok(here);
  }

  /** The loop over the four common fields of one field. */
  method CheckCommonFields(k: string, fields: Fields) returns (here: seq<KeyProblem>)
    ensures here == MissingCommon(k, fields, CommonFields)
  {
    here := [];
    assert CommonFields[..0] == [];
    var j := 0;
    while j < |CommonFields|
      invariant 0 <= j <= |CommonFields|
      invariant here == MissingCommon(k, fields, CommonFields[..j])
    {
      assert CommonFields[..j + 1][..j] == CommonFields[..j];
      if !HasKey(fields, CommonFields[j]) {
        here := here + [KeyProblem("MISSING_COMMON_FIELD", k + "." + CommonFields[j])];
      } else {
        assert here + [] == here;
      }
      j := j + 1;
    }
    assert CommonFields[..j] == CommonFields;
  }

  lemma {:induction false} PerFieldRaiseEarly(doc: Fields, keys: seq<string>, k: nat)
    requires k <= |keys| && PerFieldProblems(doc, keys[..k]).Raise?
    ensures PerFieldProblems(doc, keys) == PerFieldProblems(doc, keys[..k])
    decreases |keys|
  {
    if k < |keys| {
      var init := keys[..|keys| - 1];
      assert init[..k] == keys[..k];
      PerFieldRaiseEarly(doc, init, k);
    } else {
      assert keys[..k] == keys;
    }
  }
}
