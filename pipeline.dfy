/**
 * `run_structuring_pipeline`: the cache lookup, the structuring call on a
 * miss, anchor matching, anchor collection and counting, the anchor
 * archive, and validation; and `run_structuring_pipeline_with_tags`, which
 * adds the evidence tags of the result.
 *
 * The cache is any object with `get`/`set` (a map here), the language model
 * is the `StructuringCall` log of the structuring call, and the validator is
 * a function from the anchored document to the dict its `validate` returns.
 * `run_structuring_pipeline_with_tags_and_trial_signals_v0` further adds
 * the evidence-mode trial signals of the result and its tags.
 */
module StructuringPipeline {
  import opened Outcomes
  import opened JsonValues
  import opened Text
  import opened AnchorMatcher
  import opened AnchorApply
  import opened AnchorApplyFacts
  import opened AnchorStore
  import opened StructuringTypes
  import opened CacheHash
  import opened StructuringCache
  import opened EvidenceTags
  import TrialTypes
  import TrialEvidenceSignals

  const SchemaVersion := "v1.3"
  const PromptVersion := "v1.0"
  /** The default `max_trial_evidence` of the trial wrapper. */
  const DefaultMaxTrialEvidence := 3

  /** `cache.get(key)`: a missing key reads as `None`. */
  function Lookup(entries: map<Json, Json>, key: Json): Json {
    if key in entries then entries[key] else Null
  }

  /** An in-memory cache, keyed by the input hash. */
  class MemoryCache {
    var entries: map<Json, Json>

    constructor()
      ensures entries == map[]
    {
      entries := map[];
    }

    method Get(key: Json) returns (v: Json)
      ensures v == Lookup(entries, key)
    {
      v := if key in entries then entries[key] else Null;
    }

    method Set(key: Json, value: Json)
      modifies this
      ensures entries == old(entries)[key := value]
    {
      entries := entries[key := value];
    }
  }

  /**
   * The files `save_anchors` writes: one per schema version and input hash,
   * holding the anchor records (the file is replaced when it exists).
   */
  class AnchorArchive {
    var saved: map<(string, Json), seq<AnchorRecord>>

    constructor()
      ensures saved == map[]
    {
      saved := map[];
    }

    method Save(anchors: seq<AnchorRecord>, schemaVersion: string, inputHash: Json)
      modifies this
      ensures saved == old(saved)[(schemaVersion, inputHash) := anchors]
    {
      saved := saved[(schemaVersion, inputHash) := anchors];
    }
  }

  /** Records whose anchor is set. */
  function Matched(anchors: seq<AnchorRecord>): nat
    decreases |anchors|
  {
    if anchors == [] then 0
    else Matched(anchors[..|anchors| - 1]) + (if anchors[|anchors| - 1].evidenceAnchor.Some? then 1 else 0)
  }

  /** Records whose anchor is `None`. */
  function Unmatched(anchors: seq<AnchorRecord>): nat
    decreases |anchors|
  {
    if anchors == [] then 0
    else Unmatched(anchors[..|anchors| - 1]) + (if anchors[|anchors| - 1].evidenceAnchor.None? then 1 else 0)
  }

  /** Every record is counted once, as matched or as unmatched. */
  lemma {:induction false} CountsPartition(anchors: seq<AnchorRecord>)
    ensures Matched(anchors) + Unmatched(anchors) == |anchors|
    ensures Matched(anchors) == 0 <==> forall i :: 0 <= i < |anchors| ==> anchors[i].evidenceAnchor.None?
    ensures Unmatched(anchors) == 0 <==> forall i :: 0 <= i < |anchors| ==> anchors[i].evidenceAnchor.Some?
    decreases |anchors|
  {
    if anchors != [] {
      var init := anchors[..|anchors| - 1];
      CountsPartition(init);
      assert forall i :: 0 <= i < |init| ==> init[i] == anchors[i];
    }
  }

  /** The counting loop over the collected records. */
  method CountAnchors(anchors: seq<AnchorRecord>) returns (matched: nat, unmatched: nat)
    ensures matched == Matched(anchors) && unmatched == Unmatched(anchors)
  {
    matched, unmatched := 0, 0;
    var i := 0;
    while i < |anchors|
      invariant 0 <= i <= |anchors|
      invariant matched == Matched(anchors[..i]) && unmatched == Unmatched(anchors[..i])
    {
      assert anchors[..i + 1][..i] == anchors[..i];
      if anchors[i].evidenceAnchor.None? {
        unmatched := unmatched + 1;
      } else {
        matched := matched + 1;
      }
      i := i + 1;
    }
    assert anchors[..i] == anchors;
  }

  /** `AnchorStats(total_spans=len(anchors), …, partial_matched_spans=0, notes=None)` */
  function StatsFor(anchors: seq<AnchorRecord>): AnchorStats {
    AnchorStats(|anchors|, Matched(anchors), 0, Unmatched(anchors), None)
  }

  /** The result of one run, the cache and the archive afterwards, and whether the model was called. */
  datatype PipelineRun = PipelineRun(
    result: Outcome<StructuringResult>,
    entries: Option<map<Json, Json>>,
    called: bool,
    saved: map<(string, Json), seq<AnchorRecord>>)

  /**
   * One run of `run_structuring_pipeline` against the cache `cache` (`None`
   * when no cache is given) and the archive `saved`.
   */
  ghost function PipelineSpec(
    nfc: Normalizer, input: StructuringInput, llm: StructuringInput -> Outcome<Json>,
    validator: Json -> Outcome<RawValidation>, cache: Option<map<Json, Json>>,
    saved: map<(string, Json), seq<AnchorRecord>>): PipelineRun
  {
    var keyed := if cache.Some? then ComputeInputHash(nfc, input, SchemaVersion, PromptVersion) else Ok(Null);
    if keyed.Raise? then PipelineRun(Raise(keyed.exc), cache, false, saved)
    else
      var key := if cache.Some? then Some(keyed.value) else None;
      var cached := if cache.Some? then Lookup(cache.value, keyed.value) else Null;
      var hit := cached != Null;
      var produced := if hit then Ok(cached) else llm(input);
      if produced.Raise? then PipelineRun(Raise(produced.exc), cache, !hit, saved)
      else
        var entries := if cache.Some? && !hit then Some(cache.value[keyed.value := produced.value]) else cache;
        FinishSpec(nfc, input, validator, produced.value, key, hit, entries, saved)
  }

  /** Steps 3 to 6, from the structured output on. */
  ghost function FinishSpec(
    nfc: Normalizer, input: StructuringInput, validator: Json -> Outcome<RawValidation>,
    output: Json, key: Option<Json>, hit: bool, entries: Option<map<Json, Json>>,
    saved: map<(string, Json), seq<AnchorRecord>>): PipelineRun
  {
    var anchored := Walk(nfc, nfc(input.fullText), output);
    if anchored.Raise? then PipelineRun(Raise(anchored.exc), entries, !hit, saved)
    else
      var anchors := Collect(anchored.value, "$");
      if anchors.Raise? then PipelineRun(Raise(anchors.exc), entries, !hit, saved)
      else
        var saved' := if key.Some? then saved[(SchemaVersion, key.value) := anchors.value] else saved;
        var raw := validator(anchored.value);
        if raw.Raise? then PipelineRun(Raise(raw.exc), entries, !hit, saved')
        else
          var result := StructuringResult(anchored.value, hit, StatsFor(anchors.value), SummaryOf(raw.value), key);
          PipelineRun(Ok(result), entries, !hit, saved')
  }

  /** `run_structuring_pipeline(input, llm_client, anchor_matcher, validator, cache)` */
  method RunStructuringPipeline(
    nfc: Normalizer, input: StructuringInput, llm: StructuringCall,
    validator: Json -> Outcome<RawValidation>, cache: MemoryCache?, archive: AnchorArchive)
    returns (r: Outcome<StructuringResult>)
    modifies llm, archive, cache
    ensures var s := PipelineSpec(nfc, input, llm.fn, validator,
                                  if cache == null then None else Some(old(cache.entries)), old(archive.saved));
      && r == s.result
      && (cache != null ==> s.entries == Some(cache.entries))
      && archive.saved == s.saved
      && llm.calls == old(llm.calls) + (if s.called then [input] else [])
  {
    var key: Option<Json> := None;
    var cached := Null;
    if cache != null {
      var k := ComputeInputHash(nfc, input, SchemaVersion, PromptVersion);
      if k.Raise? {
        return Raise(k.exc);
      }
      key := Some(k.value);
      cached := cache.Get(k.value);
    }
    var hit := cached != Null;
    var output: Json;
    if !hit {
      var produced := llm.Call(input);
      if produced.Raise? {
        return Raise(produced.exc);
      }
      output := produced.value;
      if cache != null && key.Some? {
        cache.Set(key.value, output);
      }
    } else {
      output := cached;
    }
    var anchored := ApplyAnchors(nfc, output, input.fullText);
    if anchored.Raise? {
      return Raise(anchored.exc);
    }
    var anchors := CollectAnchors(anchored.value);
    if anchors.Raise? {
      return Raise(anchors.exc);
    }
    var matched, unmatched := CountAnchors(anchors.value);
    var stats := AnchorStats(|anchors.value|, matched, 0, unmatched, None);
    if key.Some? {
      archive.Save(anchors.value, SchemaVersion, key.value);
    }
    var raw := validator(anchored.value);
    if raw.Raise? {
      return Raise(raw.exc);
    }
    r := Ok(StructuringResult(anchored.value, hit, stats, SummaryOf(raw.value), key));
  }

  /** `run_structuring_pipeline_with_tags`: the result and `generate_evidence_tags(result)`. */
  method RunStructuringPipelineWithTags(
    nfc: Normalizer, input: StructuringInput, llm: StructuringCall,
    validator: Json -> Outcome<RawValidation>, cache: MemoryCache?, archive: AnchorArchive)
    returns (r: Outcome<(StructuringResult, seq<EvidenceTag>)>)
    modifies llm, archive, cache
    ensures var s := PipelineSpec(nfc, input, llm.fn, validator,
                                  if cache == null then None else Some(old(cache.entries)), old(archive.saved));
      && (r.Raise? <==> s.result.Raise?)
      && (r.Raise? ==> r.exc == s.result.exc)
      && (r.Ok? ==> r.value == (s.result.value, EvidenceTagsFor(s.result.value)))
      && (cache != null ==> s.entries == Some(cache.entries))
      && archive.saved == s.saved
      && llm.calls == old(llm.calls) + (if s.called then [input] else [])
  {
    var result := RunStructuringPipeline(nfc, input, llm, validator, cache, archive);
    if result.Raise? {
      return Raise(result.exc);
    }
    var tags := GenerateEvidenceTags(result.value);
    r := Ok((result.value, tags));
  }

  /**
   * `run_structuring_pipeline_with_tags_and_trial_signals_v0`: the result,
   * its evidence tags and the evidence-mode trial signals generated from
   * both; a trial generation that raises makes the whole call raise, after
   * the cache and the archive have been written.
   */
  method RunStructuringPipelineWithTrialSignals(
    nfc: Normalizer, input: StructuringInput, llm: StructuringCall,
    validator: Json -> Outcome<RawValidation>, cache: MemoryCache?, archive: AnchorArchive,
    maxTrialEvidence: int)
    returns (r: Outcome<(StructuringResult, seq<EvidenceTag>, TrialTypes.TrialOutput)>)
    modifies llm, archive, cache
    ensures var s := PipelineSpec(nfc, input, llm.fn, validator,
                                  if cache == null then None else Some(old(cache.entries)), old(archive.saved));
      && (s.result.Raise? ==> r == Raise(s.result.exc))
      && (s.result.Ok? ==>
            var tags := EvidenceTagsFor(s.result.value);
            var trial := TrialEvidenceSignals.EvidenceSignalsSpec(s.result.value, tags, maxTrialEvidence);
            && (trial.Raise? ==> r == Raise(trial.exc))
            && (trial.Ok? ==> r == Ok((s.result.value, tags, trial.value))))
      && (cache != null ==> s.entries == Some(cache.entries))
      && archive.saved == s.saved
      && llm.calls == old(llm.calls) + (if s.called then [input] else [])
  {
    var run := RunStructuringPipelineWithTags(nfc, input, llm, validator, cache, archive);
    if run.Raise? {
      return Raise(run.exc);
    }
    var (result, tags) := run.value;
    var trial := TrialEvidenceSignals.GenerateTrialSignalsFromStructuring(result, tags, maxTrialEvidence);
    if trial.Raise? {
      return Raise(trial.exc);
    }
    r := Ok((result, tags, trial.value));
  }

  /**
   * The statistics of a finished run count the dicts of the returned
   * document that hold "evidence_anchor"; each is matched or unmatched,
   * never partial; and with a cache the archive holds the records collected
   * from the returned document under the run id.
   */
  lemma RunStats(
    nfc: Normalizer, input: StructuringInput, llm: StructuringInput -> Outcome<Json>,
    validator: Json -> Outcome<RawValidation>, cache: Option<map<Json, Json>>,
    saved: map<(string, Json), seq<AnchorRecord>>)
    requires PipelineSpec(nfc, input, llm, validator, cache, saved).result.Ok?
    ensures var s := PipelineSpec(nfc, input, llm, validator, cache, saved);
      var res := s.result.value;
      var stats := res.anchorStats;
      && Collect(res.outputJson, "$").Ok?
      && stats.totalSpans == AnchorDicts(res.outputJson)
      && stats.matchedSpans + stats.unmatchedSpans == stats.totalSpans
      && stats.partialMatchedSpans == 0 && stats.notes.None?
      && (res.runId.Some? <==> cache.Some?)
      && (res.runId.Some? ==> s.saved == saved[(SchemaVersion, res.runId.value) := Collect(res.outputJson, "$").value])
      && (res.runId.None? ==> s.saved == saved)
  {
    var res := PipelineSpec(nfc, input, llm, validator, cache, saved).result.value;
    var anchors := Collect(res.outputJson, "$").value;
    CollectCountsAnchorDicts(res.outputJson, "$");
    CountsPartition(anchors);
  }

  /** Without a cache the model is always called, nothing is archived and there is no run id. */
  lemma WithoutCache(
    nfc: Normalizer, input: StructuringInput, llm: StructuringInput -> Outcome<Json>,
    validator: Json -> Outcome<RawValidation>, saved: map<(string, Json), seq<AnchorRecord>>)
    ensures var s := PipelineSpec(nfc, input, llm, validator, None, saved);
      && s.called && s.entries.None? && s.saved == saved
      && (llm(input).Raise? ==> s.result == Raise(llm(input).exc))
      && (s.result.Ok? ==> !s.result.value.cacheHit && s.result.value.runId.None?
                           && Walk(nfc, nfc(input.fullText), llm(input).value) == Ok(s.result.value.outputJson))
  {
  }

  /** With a cache, an input with segments cannot be hashed: nothing is called or changed. */
  lemma SegmentsRejectedWithCache(
    nfc: Normalizer, input: StructuringInput, llm: StructuringInput -> Outcome<Json>,
    validator: Json -> Outcome<RawValidation>, entries: map<Json, Json>,
    saved: map<(string, Json), seq<AnchorRecord>>)
    requires input.segments != []
    ensures PipelineSpec(nfc, input, llm, validator, Some(entries), saved)
         == PipelineRun(Raise(TypeError), Some(entries), false, saved)
  {
  }

  /**
   * A cache hit: the stored output is used, the model is not called, the
   * cache is not written, and the run id is the key.
   */
  lemma CacheHit(
    nfc: Normalizer, input: StructuringInput, llm: StructuringInput -> Outcome<Json>,
    validator: Json -> Outcome<RawValidation>, entries: map<Json, Json>,
    saved: map<(string, Json), seq<AnchorRecord>>)
    requires input.segments == []
    requires var key := ComputeInputHash(nfc, input, SchemaVersion, PromptVersion).value;
      Lookup(entries, key) != Null
    ensures var key := ComputeInputHash(nfc, input, SchemaVersion, PromptVersion).value;
      var s := PipelineSpec(nfc, input, llm, validator, Some(entries), saved);
      && !s.called && s.entries == Some(entries)
      && (s.result.Ok? ==>
            && s.result.value.cacheHit && s.result.value.runId == Some(key)
            && Walk(nfc, nfc(input.fullText), entries[key]) == Ok(s.result.value.outputJson))
  {
  }

  /**
   * A cache miss: the model is called once and its output is stored under
   * the key before anything else can fail.
   */
  lemma CacheMiss(
    nfc: Normalizer, input: StructuringInput, llm: StructuringInput -> Outcome<Json>,
    validator: Json -> Outcome<RawValidation>, entries: map<Json, Json>,
    saved: map<(string, Json), seq<AnchorRecord>>)
    requires input.segments == []
    requires var key := ComputeInputHash(nfc, input, SchemaVersion, PromptVersion).value;
      Lookup(entries, key) == Null
    ensures var key := ComputeInputHash(nfc, input, SchemaVersion, PromptVersion).value;
      var s := PipelineSpec(nfc, input, llm, validator, Some(entries), saved);
      && s.called
      && (llm(input).Raise? ==> s.result == Raise(llm(input).exc) && s.entries == Some(entries))
      && (llm(input).Ok? ==> s.entries == Some(entries[key := llm(input).value]))
      && (s.result.Ok? ==> !s.result.value.cacheHit && s.result.value.runId == Some(key))
  {
  }

  /** A run that does not call the model (a hit, or an input that cannot be hashed) does not depend on it. */
  lemma UncalledIgnoresModel(
    nfc: Normalizer, input: StructuringInput, llm: StructuringInput -> Outcome<Json>,
    other: StructuringInput -> Outcome<Json>, validator: Json -> Outcome<RawValidation>,
    cache: Option<map<Json, Json>>, saved: map<(string, Json), seq<AnchorRecord>>)
    requires !PipelineSpec(nfc, input, llm, validator, cache, saved).called
    ensures PipelineSpec(nfc, input, other, validator, cache, saved) == PipelineSpec(nfc, input, llm, validator, cache, saved)
  {
  }

  /**
   * Running the same input twice against the same cache: when the model's
   * output is not `null`, the second run is a hit, does not call the model,
   * leaves the cache as the first run left it, and returns the first run's
   * result with `cache_hit` set.
   */
  lemma SecondRunHits(
    nfc: Normalizer, input: StructuringInput, llm: StructuringInput -> Outcome<Json>,
    validator: Json -> Outcome<RawValidation>, entries: map<Json, Json>,
    saved: map<(string, Json), seq<AnchorRecord>>)
    requires input.segments == []
    requires llm(input).Ok? && llm(input).value != Null
    ensures var first := PipelineSpec(nfc, input, llm, validator, Some(entries), saved);
      var second := PipelineSpec(nfc, input, llm, validator, first.entries, first.saved);
      && !second.called
      && second.entries == first.entries
      && second.saved == first.saved
      && (first.result.Ok? ==> second.result == Ok(first.result.value.(cacheHit := true)))
      && (first.result.Raise? ==> second.result == first.result)
  {
    var key := ComputeInputHash(nfc, input, SchemaVersion, PromptVersion).value;
    var first := PipelineSpec(nfc, input, llm, validator, Some(entries), saved);
    var cached := Lookup(entries, key);
    var out := if cached != Null then cached else llm(input).value;
    assert first.entries.Some? && Lookup(first.entries.value, key) == out;
  }
}
