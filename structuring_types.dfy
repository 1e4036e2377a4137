/**
 * The records the structuring stage consumes and produces.
 *
 * `StructuringInput` keeps `modality` and `source_type` as strings: the
 * pydantic model admits only "text" and "stt", and `NewStructuringInput`
 * rejects anything else with `ValidationError`, as the model's
 * constructor does.
 */
module StructuringTypes {
  import opened Outcomes
  import opened JsonValues

  /** A transcript segment; `start`/`end` are seconds. */
  datatype StructuringSegment = StructuringSegment(text: string, start: real, end: real)

  datatype StructuringInput = StructuringInput(
    modality: string,
    sourceType: string,
    language: Option<string>,
    fullText: string,
    segments: seq<StructuringSegment>)

  /** The values the pydantic model accepts: `Literal["text"]` and `Literal["stt"]`. */
  predicate ValidInput(input: StructuringInput) {
    input.modality == "text" && input.sourceType == "stt"
  }

  /** `StructuringInput(modality=…, source_type=…, …)` */
  function NewStructuringInput(
    modality: string, sourceType: string, language: Option<string>,
    fullText: string, segments: seq<StructuringSegment>): (r: Outcome<StructuringInput>)
    ensures r.Ok? <==> modality == "text" && sourceType == "stt"
    ensures r.Ok? ==> r.value == StructuringInput(modality, sourceType, language, fullText, segments)
    ensures r.Raise? ==> r.exc == ValidationError
  {
    if modality == "text" && sourceType == "stt" then
      Ok(StructuringInput(modality, sourceType, language, fullText, segments))
    else
      Raise(ValidationError)
  }

  /** Anchor counts reported by the pipeline; `partial_matched_spans` is always 0. */
  datatype AnchorStats = AnchorStats(
    totalSpans: nat,
    matchedSpans: nat,
    partialMatchedSpans: nat,
    unmatchedSpans: nat,
    notes: Option<string>)

  /** The structuring-level validation summary (`status`, `error_codes`, `message`). */
  datatype StructuringValidation = StructuringValidation(
    status: string,
    errorCodes: seq<string>,
    message: Option<string>)

  /**
   * The dict a validator's `validate` returns, by key: a missing key is
   * `None` here.
   */
  datatype RawValidation = RawValidation(
    status: Option<string>,
    errorCodes: Option<seq<string>>,
    message: Option<string>)

  /**
   * `ValidationResult(status=raw.get("status", "FAIL"),
   * error_codes=raw.get("error_codes", []), message=raw.get("message"))`
   */
  function SummaryOf(raw: RawValidation): (v: StructuringValidation)
    ensures raw.status.None? ==> v.status == "FAIL"
    ensures raw.status.Some? ==> v.status == raw.status.value
    ensures raw.errorCodes.None? ==> v.errorCodes == []
    ensures raw.errorCodes.Some? ==> v.errorCodes == raw.errorCodes.value
    ensures v.message == raw.message
  {
    StructuringValidation(
      if raw.status.Some? then raw.status.value else "FAIL",
      if raw.errorCodes.Some? then raw.errorCodes.value else [],
      raw.message)
  }

  /** What `run_structuring_pipeline` returns; `runId` is the cache key, if any. */
  datatype StructuringResult = StructuringResult(
    outputJson: Json,
    cacheHit: bool,
    anchorStats: AnchorStats,
    validation: StructuringValidation,
    runId: Option<Json>)
}
