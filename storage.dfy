/**
 * JSON files on disk, as the cache managers use them.
 *
 * A file holds either a JSON document or text that `json.load` rejects.
 * File paths are kept structured: a directory, the cache key the digest is
 * taken of, and a file name below the digest (empty when the file itself
 * is named after the digest, as in `<dir>/<digest>.json`).
 */
module FileStorage {
  import opened Outcomes
  import opened JsonValues

  datatype StoragePath = StoragePath(dir: seq<string>, inputHash: Json, fileName: string)

  datatype StoredFile = Parsed(doc: Json) | Unparsable

  class FileStore {
    var files: map<StoragePath, StoredFile>

    constructor()
      ensures files == map[]
    {
      files := map[];
    }

    /**
     * `load_structured_result` / `load_json`: a missing file reads as
     * `None`, a file `json.load` cannot parse raises `JSONDecodeError`.
     */
    method Load(path: StoragePath) returns (r: Outcome<Json>)
      ensures path !in files ==> r == Ok(Null)
      ensures path in files && files[path].Unparsable? ==> r == Raise(JSONDecodeError)
      ensures path in files && files[path].Parsed? ==> r == Ok(files[path].doc)
    {
      if path !in files {
        r := Ok(Null);
      } else if files[path].Unparsable? {
        r := Raise(JSONDecodeError);
      } else {
        r := Ok(files[path].doc);
      }
    }

    /** `save_structured_result` / `save_json`: writes (or overwrites) one file. */
    method Save(path: StoragePath, payload: Json)
      modifies this
      ensures files == old(files)[path := Parsed(payload)]
    {
      files := files[path := Parsed(payload)];
    }
  }
}
