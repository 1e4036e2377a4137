/**
 * `get_or_create_trial_signals_v0_from_structuring`: a disk cache in front
 * of the evidence-mode trial generator.  The file for a request is named by
 * the structuring cache key, the trial version, `max_evidence` and the four
 * truncation limits; a stored payload's "result" is read back through the
 * output model, otherwise the signals are generated and
 * `{_metadata, result}` is written.
 *
 * As written, the miss path passes `evidence_span_max_chars`,
 * `summary_max_chars` and `reason_codes_max_items` to a generator that does
 * not take them, so every miss raises `TypeError` before anything is
 * saved.  `GetOrCreateAsWritten` models that; `GetOrCreate` and the method
 * `GetOrCreateTrialSignals` model the evidently intended behaviour, which
 * the rest of the model uses.
 */
module TrialCache {
  import opened Outcomes
  import opened JsonValues
  import opened Text
  import opened StructuringTypes
  import opened EvidenceTags
  import opened CacheHash
  import opened FileStorage
  import StructuringCache
  import opened TrialTypes
  import opened TrialEvidenceSignals

  /** The four truncation budgets that name the cache file. */
  datatype TrialLimits = TrialLimits(
    fullTextMaxChars: int, evidenceSpanMaxChars: int, summaryMaxChars: int, reasonCodesMaxItems: int)

  /** The keyword arguments of one request, besides the input, result and tags. */
  datatype TrialRequest = TrialRequest(
    schemaVersion: string, promptVersion: string, trialVersion: string, maxEvidence: int, limits: TrialLimits)

  /** The defaults of the keyword arguments. */
  const DefaultRequest := TrialRequest("v1.3", "v1.0", "v0", 3, TrialLimits(1000, 240, 80, 8))

  /** `f"{prefix}{n}_{rest}"` */
  function Field(prefix: string, n: int, rest: string): string {
    prefix + IntToString(n) + "_" + rest
  }

  /** A field is read back from its text: the number and the rest are determined. */
  lemma FieldInjective(prefix: string, n1: int, rest1: string, n2: int, rest2: string)
    ensures Field(prefix, n1, rest1) == Field(prefix, n2, rest2) <==> n1 == n2 && rest1 == rest2
  {
    if Field(prefix, n1, rest1) == Field(prefix, n2, rest2) {
      var k := |prefix|;
      assert Field(prefix, n1, rest1)[k..] == IntToString(n1) + "_" + rest1;
      assert Field(prefix, n2, rest2)[k..] == IntToString(n2) + "_" + rest2;
      SplitAtMark('_', IntToString(n1), rest1, IntToString(n2), rest2);
      IntToStringInjective(n1, n2);
    }
  }

  /** `_trial_limits_tag`: "ft{a}_es{b}_s{c}_rc{d}" */
  function LimitsTag(l: TrialLimits): string {
    Field("ft", l.fullTextMaxChars,
      Field("es", l.evidenceSpanMaxChars,
        Field("s", l.summaryMaxChars, "rc" + IntToString(l.reasonCodesMaxItems))))
  }

  /** Distinct limit tuples give distinct tags. */
  lemma LimitsTagInjective(a: TrialLimits, b: TrialLimits)
    ensures LimitsTag(a) == LimitsTag(b) <==> a == b
  {
    var lastA, lastB := "rc" + IntToString(a.reasonCodesMaxItems), "rc" + IntToString(b.reasonCodesMaxItems);
    var sA, sB := Field("s", a.summaryMaxChars, lastA), Field("s", b.summaryMaxChars, lastB);
    var esA, esB := Field("es", a.evidenceSpanMaxChars, sA), Field("es", b.evidenceSpanMaxChars, sB);
    FieldInjective("ft", a.fullTextMaxChars, esA, b.fullTextMaxChars, esB);
    FieldInjective("es", a.evidenceSpanMaxChars, sA, b.evidenceSpanMaxChars, sB);
    FieldInjective("s", a.summaryMaxChars, lastA, b.summaryMaxChars, lastB);
    if lastA == lastB {
      assert lastA[2..] == IntToString(a.reasonCodesMaxItems);
      IntToStringInjective(a.reasonCodesMaxItems, b.reasonCodesMaxItems);
    }
  }

  /** "signals__mode_evidence__m{max_evidence}__{limits_tag}.json" */
  function FileName(maxEvidence: int, limitsTag: string): string {
    Field("signals__mode_evidence__m", maxEvidence, "_" + limitsTag + ".json")
  }

  /** The file name determines `max_evidence` and the limits tag. */
  lemma FileNameInjective(m1: int, tag1: string, m2: int, tag2: string)
    ensures FileName(m1, tag1) == FileName(m2, tag2) <==> m1 == m2 && tag1 == tag2
  {
    var rest1, rest2 := "_" + tag1 + ".json", "_" + tag2 + ".json";
    FieldInjective("signals__mode_evidence__m", m1, rest1, m2, rest2);
    if rest1 == rest2 {
      assert tag1 == rest1[1..|rest1| - 5];
    }
  }

  /** `_default_storage_path`: `data/trial_signals/<trial_version>/<digest>/<filename>` */
  function TrialPath(inputHash: Json, req: TrialRequest): (p: StoragePath)
    ensures p.dir == ["data", "trial_signals", req.trialVersion] && p.inputHash == inputHash
  {
    StoragePath(["data", "trial_signals", req.trialVersion], inputHash,
                FileName(req.maxEvidence, LimitsTag(req.limits)))
  }

  /**
   * Two requests share a file exactly when they agree on the cache key, the
   * trial version, `max_evidence` and all four limits: different budgets
   * never share a file.
   */
  lemma TrialPathSeparatesBudgets(k1: Json, r1: TrialRequest, k2: Json, r2: TrialRequest)
    ensures TrialPath(k1, r1) == TrialPath(k2, r2)
        <==> k1 == k2 && r1.trialVersion == r2.trialVersion && r1.maxEvidence == r2.maxEvidence && r1.limits == r2.limits
  {
    FileNameInjective(r1.maxEvidence, LimitsTag(r1.limits), r2.maxEvidence, LimitsTag(r2.limits));
    LimitsTagInjective(r1.limits, r2.limits);
    if TrialPath(k1, r1) == TrialPath(k2, r2) {
      assert TrialPath(k1, r1).dir[2] == r1.trialVersion;
    }
  }

  /**
   * `_parse_trial_output`: `payload.get("result")` on a non-dict raises
   * `AttributeError`; a missing or non-dict "result" raises `ValueError`;
   * otherwise the output model validates it.
   */
  function ParseTrialOutput(payload: Json): (r: Outcome<TrialOutput>)
    ensures !payload.Obj? ==> r == Raise(AttributeError)
    ensures payload.Obj? && !Get(payload.fields, "result").Obj? ==> r == Raise(ValueError)
    ensures r.Ok? ==> r == Validate(Get(payload.fields, "result"))
  {
    if !payload.Obj? then Raise(AttributeError)
    else
      var result := Get(payload.fields, "result");
      if !result.Obj? then Raise(ValueError)
      else Validate(result)
  }

  function LimitsJson(l: TrialLimits): Json {
    Obj([("full_text_max_chars", Int(l.fullTextMaxChars)),
         ("evidence_span_max_chars", Int(l.evidenceSpanMaxChars)),
         ("summary_max_chars", Int(l.summaryMaxChars)),
         ("reason_codes_max_items", Int(l.reasonCodesMaxItems))])
  }

  function Metadata(req: TrialRequest, inputHash: Json, createdAt: string): Json {
    Obj([("schema_version", Str(req.schemaVersion)),
         ("prompt_version", Str(req.promptVersion)),
         ("trial_version", Str(req.trialVersion)),
         ("mode", Str("evidence")),
         ("input_hash", inputHash),
         ("max_evidence", Int(req.maxEvidence)),
         ("limits", LimitsJson(req.limits)),
         ("created_at", Str(createdAt))])
  }

  /** The payload written on a miss. */
  function TrialPayload(req: TrialRequest, inputHash: Json, createdAt: string, trial: TrialOutput): Json {
    Obj([("_metadata", Metadata(req, inputHash, createdAt)), ("result", Dump(trial))])
  }

  /** Reading back a written payload gives the output that was written. */
  lemma PayloadRoundTrip(req: TrialRequest, inputHash: Json, createdAt: string, trial: TrialOutput)
    requires WellFormed(trial)
    ensures ParseTrialOutput(TrialPayload(req, inputHash, createdAt, trial)) == Ok(trial)
  {
    var fs := TrialPayload(req, inputHash, createdAt, trial).fields;
    assert fs[0].0[0] == '_';
    assert IndexOf(fs, "result") == 1;
    DumpValidateRoundTrip(trial);
  }

  /** The metadata records the key it was written under. */
  lemma MetadataKey(req: TrialRequest, inputHash: Json, createdAt: string)
    ensures Get(Metadata(req, inputHash, createdAt).fields, "input_hash") == inputHash
  {
    var meta := Metadata(req, inputHash, createdAt).fields;
    assert meta[0].0[0] == 's' && meta[1].0[0] == 'p' && meta[2].0[0] == 't' && meta[3].0[0] == 'm' && "input_hash"[0] == 'i';
    assert meta[4].0 == "input_hash";
    assert IndexOf(meta, "input_hash") == 4;
  }

  /** The metadata records `max_evidence`. */
  lemma MetadataMaxEvidence(req: TrialRequest, inputHash: Json, createdAt: string)
    ensures Get(Metadata(req, inputHash, createdAt).fields, "max_evidence") == Int(req.maxEvidence)
  {
    var meta := Metadata(req, inputHash, createdAt).fields;
    assert meta[0].0[0] == 's' && meta[1].0[0] == 'p' && meta[2].0[0] == 't' && meta[3].0[1] == 'o';
    assert meta[4].0[0] == 'i' && "max_evidence"[0] == 'm' && "max_evidence"[1] == 'a';
    assert meta[5].0 == "max_evidence";
    assert IndexOf(meta, "max_evidence") == 5;
  }

  /** Where a written payload keeps the output, the key and `max_evidence`. */
  lemma PayloadFields(req: TrialRequest, inputHash: Json, createdAt: string, trial: TrialOutput)
    ensures var fs := TrialPayload(req, inputHash, createdAt, trial).fields;
      && Get(fs, "result") == Dump(trial)
      && Get(fs, "_metadata") == Metadata(req, inputHash, createdAt)
  {
    var fs := TrialPayload(req, inputHash, createdAt, trial).fields;
    assert fs[0].0[0] == '_';
    assert IndexOf(fs, "result") == 1;
  }

  /** What the lookup part of a request finds. */
  datatype Lookup =
    | Failed(exc: Exc)
    | Found(result: Outcome<TrialOutput>)
    | Missing(inputHash: Json, path: StoragePath)

  /** Key computation, path and `load_json`, up to the generator call. */
  function LookUp(nfc: Normalizer, files: map<StoragePath, StoredFile>, input: StructuringInput, req: TrialRequest)
    : (l: Lookup)
    ensures l.Missing? ==> l.path == TrialPath(l.inputHash, req) && !StructuringCache.IsHit(files, l.path)
    ensures l.Missing? ==> Ok(l.inputHash) == ComputeInputHash(nfc, input, req.schemaVersion, req.promptVersion)
  {
    match ComputeInputHash(nfc, input, req.schemaVersion, req.promptVersion)
    case Raise(e) => Failed(e)
    case Ok(inputHash) =>
      var path := TrialPath(inputHash, req);
      if path in files && files[path].Unparsable? then Failed(JSONDecodeError)
      else if StructuringCache.IsHit(files, path) then Found(ParseTrialOutput(files[path].doc))
      else Missing(inputHash, path)
  }

  /** What one call returns and the files afterwards. */
  datatype TrialStep = TrialStep(result: Outcome<TrialOutput>, files: map<StoragePath, StoredFile>)

  /** The request as written: every miss raises `TypeError` at the generator call. */
  function GetOrCreateAsWritten(
    nfc: Normalizer, files: map<StoragePath, StoredFile>, input: StructuringInput,
    result: StructuringResult, tags: seq<EvidenceTag>, req: TrialRequest): TrialStep
  {
    match LookUp(nfc, files, input, req)
    case Failed(e) => TrialStep(Raise(e), files)
    case Found(r) => TrialStep(r, files)
    case Missing(_, _) => TrialStep(Raise(TypeError), files)
  }

  /** The request as intended: a miss generates, writes the payload and returns the output. */
  function GetOrCreate(
    nfc: Normalizer, files: map<StoragePath, StoredFile>, input: StructuringInput,
    result: StructuringResult, tags: seq<EvidenceTag>, req: TrialRequest, createdAt: string): TrialStep
  {
    match LookUp(nfc, files, input, req)
    case Failed(e) => TrialStep(Raise(e), files)
    case Found(r) => TrialStep(r, files)
    case Missing(inputHash, path) =>
      match EvidenceSignalsSpec(result, tags, req.maxEvidence)
      case Raise(e) => TrialStep(Raise(e), files)
      case Ok(trial) => TrialStep(Ok(trial), files[path := Parsed(TrialPayload(req, inputHash, createdAt, trial))])
  }

  /** `get_or_create_trial_signals_v0_from_structuring` with the default storage path, as intended. */
  method GetOrCreateTrialSignals(
    nfc: Normalizer, store: FileStore, input: StructuringInput,
    result: StructuringResult, tags: seq<EvidenceTag>, req: TrialRequest, createdAt: string)
    returns (r: Outcome<TrialOutput>)
    modifies store
    ensures var s := GetOrCreate(nfc, old(store.files), input, result, tags, req, createdAt);
      r == s.result && store.files == s.files
  {
    var inputHash :- ComputeInputHash(nfc, input, req.schemaVersion, req.promptVersion);
    var path := TrialPath(inputHash, req);
    var cached :- store.Load(path);
    if cached != Null {
      return ParseTrialOutput(cached);
    }
    var trial :- GenerateTrialSignalsFromStructuring(result, tags, req.maxEvidence);
    store.Save(path, TrialPayload(req, inputHash, createdAt, trial));
    r := Ok(trial);
  }

  /**
   * A stored payload decides the answer: the result and tags passed in are
   * ignored and nothing is written.
   */
  lemma HitIgnoresGeneratorInputs(
    nfc: Normalizer, files: map<StoragePath, StoredFile>, input: StructuringInput,
    result1: StructuringResult, tags1: seq<EvidenceTag>, result2: StructuringResult, tags2: seq<EvidenceTag>,
    req: TrialRequest, createdAt: string)
    requires input.segments == []
    requires StructuringCache.IsHit(files,
      TrialPath(ComputeInputHash(nfc, input, req.schemaVersion, req.promptVersion).value, req))
    ensures var path := TrialPath(ComputeInputHash(nfc, input, req.schemaVersion, req.promptVersion).value, req);
      && GetOrCreate(nfc, files, input, result1, tags1, req, createdAt)
         == TrialStep(ParseTrialOutput(files[path].doc), files)
      && GetOrCreate(nfc, files, input, result1, tags1, req, createdAt)
         == GetOrCreate(nfc, files, input, result2, tags2, req, createdAt)
  {
  }

  /** A stored payload without a dict under "result" makes the request raise `ValueError`. */
  lemma BadPayloadRaises(
    nfc: Normalizer, files: map<StoragePath, StoredFile>, input: StructuringInput,
    result: StructuringResult, tags: seq<EvidenceTag>, req: TrialRequest, createdAt: string)
    requires input.segments == []
    requires var path := TrialPath(ComputeInputHash(nfc, input, req.schemaVersion, req.promptVersion).value, req);
      && path in files && files[path].Parsed? && files[path].doc.Obj?
      && !Get(files[path].doc.fields, "result").Obj?
    ensures GetOrCreate(nfc, files, input, result, tags, req, createdAt) == TrialStep(Raise(ValueError), files)
  {
  }

  /**
   * As written, a miss never reaches the generator: it raises `TypeError`,
   * writes nothing, and so the same request misses again.
   */
  lemma AsWrittenMissRaises(
    nfc: Normalizer, files: map<StoragePath, StoredFile>, input: StructuringInput,
    result: StructuringResult, tags: seq<EvidenceTag>, req: TrialRequest)
    requires input.segments == []
    requires TrialPath(ComputeInputHash(nfc, input, req.schemaVersion, req.promptVersion).value, req) !in files
    ensures var s := GetOrCreateAsWritten(nfc, files, input, result, tags, req);
      && s == TrialStep(Raise(TypeError), files)
      && GetOrCreateAsWritten(nfc, s.files, input, result, tags, req) == s
  {
  }

  /**
   * As intended, a miss returns exactly the generator's output and writes
   * it under "result", with the key and `max_evidence` in "_metadata".
   */
  lemma MissSavesTrial(
    nfc: Normalizer, files: map<StoragePath, StoredFile>, input: StructuringInput,
    result: StructuringResult, tags: seq<EvidenceTag>, req: TrialRequest, createdAt: string)
    requires input.segments == []
    requires TrialPath(ComputeInputHash(nfc, input, req.schemaVersion, req.promptVersion).value, req) !in files
    requires EvidenceSignalsSpec(result, tags, req.maxEvidence).Ok?
    ensures var s := GetOrCreate(nfc, files, input, result, tags, req, createdAt);
      var key := ComputeInputHash(nfc, input, req.schemaVersion, req.promptVersion).value;
      var path := TrialPath(key, req);
      var trial := EvidenceSignalsSpec(result, tags, req.maxEvidence).value;
      && s.result == Ok(trial)
      && path in s.files && s.files[path].Parsed? && s.files[path].doc.Obj?
      && s.files == files[path := s.files[path]]
      && Get(s.files[path].doc.fields, "result") == Dump(trial)
      && Get(s.files[path].doc.fields, "_metadata").Obj?
      && var meta := Get(s.files[path].doc.fields, "_metadata").fields;
         Get(meta, "input_hash") == key && Get(meta, "max_evidence") == Int(req.maxEvidence)
  {
    var key := ComputeInputHash(nfc, input, req.schemaVersion, req.promptVersion).value;
    PayloadFields(req, key, createdAt, EvidenceSignalsSpec(result, tags, req.maxEvidence).value);
    MetadataKey(req, key, createdAt);
    MetadataMaxEvidence(req, key, createdAt);
  }

  /**
   * After a request that generated signals, the same request is a hit that
   * returns the same output and writes nothing, whatever result and tags
   * it is given.
   */
  lemma MissThenHitRoundTrip(
    nfc: Normalizer, files: map<StoragePath, StoredFile>, input: StructuringInput,
    result: StructuringResult, tags: seq<EvidenceTag>, result2: StructuringResult, tags2: seq<EvidenceTag>,
    req: TrialRequest, createdAt: string, createdAt2: string)
    requires input.segments == []
    requires TrialPath(ComputeInputHash(nfc, input, req.schemaVersion, req.promptVersion).value, req) !in files
    requires GetOrCreate(nfc, files, input, result, tags, req, createdAt).result.Ok?
    ensures var s1 := GetOrCreate(nfc, files, input, result, tags, req, createdAt);
      GetOrCreate(nfc, s1.files, input, result2, tags2, req, createdAt2) == s1
  {
    var key := ComputeInputHash(nfc, input, req.schemaVersion, req.promptVersion).value;
    var trial := EvidenceSignalsSpec(result, tags, req.maxEvidence).value;
    EvidenceSignalsShape(result, tags, req.maxEvidence);
    PayloadRoundTrip(req, key, createdAt, trial);
  }
}
