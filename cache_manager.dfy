/**
 * `get_or_create_structured_result`: a disk cache in front of the
 * structuring call.  The file for an input is found by its cache key; a
 * file that holds a document is returned as it is, otherwise `call_fn`
 * runs once and `{_metadata, result}` is written and returned.
 */
module StructuringCache {
  import opened Outcomes
  import opened JsonValues
  import opened Text
  import opened StructuringTypes
  import opened CacheHash
  import opened FileStorage

  const DefaultSchemaVersion: string := "v1.3"
  const DefaultPromptVersion: string := "system_prompt_v0"

  /** `_default_storage_path`: `data/structuring/<schema_version>/<digest>.json` */
  function DefaultStoragePath(schemaVersion: string, inputHash: Json): (p: StoragePath)
    ensures p.inputHash == inputHash && p.fileName == ""
    ensures p.dir == ["data", "structuring", schemaVersion]
  {
    StoragePath(["data", "structuring", schemaVersion], inputHash, "")
  }

  /** The payload written on a miss. */
  function CachePayload(schemaVersion: string, promptVersion: string, inputHash: Json, createdAt: string, result: Json): Json {
    Obj([("_metadata", Obj([("schema_version", Str(schemaVersion)),
                            ("prompt_version", Str(promptVersion)),
                            ("input_hash", inputHash),
                            ("created_at", Str(createdAt))])),
         ("result", result)])
  }

  /** `load_structured_result(path)` returned something other than `None`. */
  predicate IsHit(files: map<StoragePath, StoredFile>, path: StoragePath) {
    path in files && files[path].Parsed? && files[path].doc != Null
  }

  /** What one call returns, the files afterwards, and whether `call_fn` ran. */
  datatype CacheStep = CacheStep(result: Outcome<Json>, files: map<StoragePath, StoredFile>, called: bool)

  /** One call of `get_or_create_structured_result` against the files `files`. */
  function GetOrCreate(
    nfc: Normalizer, files: map<StoragePath, StoredFile>, input: StructuringInput,
    callFn: StructuringInput -> Outcome<Json>,
    schemaVersion: string, promptVersion: string, createdAt: string): CacheStep
  {
    match ComputeInputHash(nfc, input, schemaVersion, promptVersion)
    case Raise(e) => CacheStep(Raise(e), files, false)
    case Ok(inputHash) =>
      var path := DefaultStoragePath(schemaVersion, inputHash);
      if path in files && files[path].Unparsable? then CacheStep(Raise(JSONDecodeError), files, false)
      else if IsHit(files, path) then CacheStep(Ok(files[path].doc), files, false)
      else
        match callFn(input)
        case Raise(e) => CacheStep(Raise(e), files, true)
        case Ok(result) =>
          var payload := CachePayload(schemaVersion, promptVersion, inputHash, createdAt, result);
          CacheStep(Ok(payload), files[path := Parsed(payload)], true)
  }

  /** `call_fn` together with a log of the inputs it was called with. */
  class StructuringCall {
    const fn: StructuringInput -> Outcome<Json>
    var calls: seq<StructuringInput>

    constructor(fn: StructuringInput -> Outcome<Json>)
      ensures this.fn == fn && calls == []
    {
      this.fn := fn;
      calls := [];
    }

    method Call(input: StructuringInput) returns (r: Outcome<Json>)
      modifies this
      ensures r == fn(input)
      ensures calls == old(calls) + [input]
    {
      r := fn(input);
      calls := calls + [input];
    }
  }

  /** `get_or_create_structured_result` with the default storage path. */
  method GetOrCreateStructuredResult(
    nfc: Normalizer, store: FileStore, callFn: StructuringCall, input: StructuringInput,
    schemaVersion: string, promptVersion: string, createdAt: string)
    returns (r: Outcome<Json>)
    modifies store, callFn
    ensures var s := GetOrCreate(nfc, old(store.files), input, callFn.fn, schemaVersion, promptVersion, createdAt);
      && r == s.result
      && store.files == s.files
      && callFn.calls == old(callFn.calls) + (if s.called then [input] else [])
  {
    var inputHash :- ComputeInputHash(nfc, input, schemaVersion, promptVersion);
    var path := DefaultStoragePath(schemaVersion, inputHash);
    var cached :- store.Load(path);
    if cached != Null {
      return Ok(cached);
    }
    var result :- callFn.Call(input);
    var payload := CachePayload(schemaVersion, promptVersion, inputHash, createdAt, result);
    store.Save(path, payload);
    r := Ok(payload);
  }

  /** A stored document is returned unchanged, and `call_fn` does not run. */
  lemma HitSkipsCall(
    nfc: Normalizer, files: map<StoragePath, StoredFile>, input: StructuringInput,
    callFn: StructuringInput -> Outcome<Json>, schemaVersion: string, promptVersion: string, createdAt: string)
    requires input.segments == []
    requires IsHit(files, DefaultStoragePath(schemaVersion, ComputeInputHash(nfc, input, schemaVersion, promptVersion).value))
    ensures var s := GetOrCreate(nfc, files, input, callFn, schemaVersion, promptVersion, createdAt);
      && s.result == Ok(files[DefaultStoragePath(schemaVersion, ComputeInputHash(nfc, input, schemaVersion, promptVersion).value)].doc)
      && s.files == files && !s.called
  {
  }

  /**
   * On a miss, `call_fn` runs once; its result is saved under "result" with
   * the versions and the key under "_metadata", and the saved payload is
   * what the call returns.
   */
  lemma MissSavesPayload(
    nfc: Normalizer, files: map<StoragePath, StoredFile>, input: StructuringInput,
    callFn: StructuringInput -> Outcome<Json>, schemaVersion: string, promptVersion: string, createdAt: string)
    requires input.segments == []
    requires DefaultStoragePath(schemaVersion, ComputeInputHash(nfc, input, schemaVersion, promptVersion).value) !in files
    requires callFn(input).Ok?
    ensures var s := GetOrCreate(nfc, files, input, callFn, schemaVersion, promptVersion, createdAt);
      var key := ComputeInputHash(nfc, input, schemaVersion, promptVersion).value;
      var path := DefaultStoragePath(schemaVersion, key);
      && s.called && s.result.Ok? && s.result.value.Obj?
      && s.files == files[path := Parsed(s.result.value)]
      && Get(s.result.value.fields, "result") == callFn(input).value
      && Get(s.result.value.fields, "_metadata").Obj?
      && var meta := Get(s.result.value.fields, "_metadata").fields;
         Get(meta, "schema_version") == Str(schemaVersion)
         && Get(meta, "prompt_version") == Str(promptVersion)
         && Get(meta, "input_hash") == key
  {
    var s := GetOrCreate(nfc, files, input, callFn, schemaVersion, promptVersion, createdAt);
    var fs := s.result.value.fields;
    assert fs[0].0 == "_metadata" && fs[1].0 == "result";
    assert IndexOf(fs, "result") == 1;
    var meta := fs[0].1.fields;
    assert IndexOf(meta, "prompt_version") == 1;
    assert meta[2].0 == "input_hash" && meta[0].0[0] != 'i' && meta[1].0[0] != 'i';
    assert IndexOf(meta, "input_hash") == 2;
  }

  /** A file that does not parse makes the call raise `JSONDecodeError`. */
  lemma BrokenFileRaises(
    nfc: Normalizer, files: map<StoragePath, StoredFile>, input: StructuringInput,
    callFn: StructuringInput -> Outcome<Json>, schemaVersion: string, promptVersion: string, createdAt: string)
    requires input.segments == []
    requires var path := DefaultStoragePath(schemaVersion, ComputeInputHash(nfc, input, schemaVersion, promptVersion).value);
      path in files && files[path] == Unparsable
    ensures var s := GetOrCreate(nfc, files, input, callFn, schemaVersion, promptVersion, createdAt);
      s == CacheStep(Raise(JSONDecodeError), files, false)
  {
  }

  /** After a successful call, the same request is a hit that returns the same document. */
  lemma SecondRequestHits(
    nfc: Normalizer, files: map<StoragePath, StoredFile>, input: StructuringInput,
    callFn: StructuringInput -> Outcome<Json>, callFn2: StructuringInput -> Outcome<Json>,
    schemaVersion: string, promptVersion: string, createdAt: string, createdAt2: string)
    requires GetOrCreate(nfc, files, input, callFn, schemaVersion, promptVersion, createdAt).result.Ok?
    ensures var s1 := GetOrCreate(nfc, files, input, callFn, schemaVersion, promptVersion, createdAt);
      GetOrCreate(nfc, s1.files, input, callFn2, schemaVersion, promptVersion, createdAt2)
        == CacheStep(s1.result, s1.files, false)
  {
  }

  /**
   * Requests that differ in the NFC form of the prompt version use
   * different files: after the first, the second still misses and calls.
   */
  lemma PromptVersionChangeMisses(
    nfc: Normalizer, files: map<StoragePath, StoredFile>, input: StructuringInput,
    callFn: StructuringInput -> Outcome<Json>, schemaVersion: string,
    promptVersion1: string, promptVersion2: string, createdAt1: string, createdAt2: string)
    requires input.segments == [] && nfc(promptVersion1) != nfc(promptVersion2)
    requires DefaultStoragePath(schemaVersion, ComputeInputHash(nfc, input, schemaVersion, promptVersion2).value) !in files
    ensures var s1 := GetOrCreate(nfc, files, input, callFn, schemaVersion, promptVersion1, createdAt1);
      GetOrCreate(nfc, s1.files, input, callFn, schemaVersion, promptVersion2, createdAt2).called
  {
    SameKeyIffNfcEqual(nfc, input, input, schemaVersion, promptVersion1, schemaVersion, promptVersion2);
  }
}
