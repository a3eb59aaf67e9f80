/** The two-tier response cache: an optional similarity index (tier 1), kept as an
    oracle, in front of an exact-key store of JSON files (tier 2). Every store
    failure is swallowed and shows up as a miss or as a dropped write. */
module Cache {
  import opened Text
  import opened Llm

  /** What the tier-1 query does: raise, answer without `metadatas`, or answer
      with the best match's `response` metadata (Null when the match has none).
      The match may belong to a different key. */
  datatype QueryOutcome = QueryRaised | NoMetadatas | Metadata(response: Value)

  /** What the tier-1 `add` does. */
  datatype AddOutcome = Added | AddRaised

  /** A cache file: parsed JSON, or content `json.loads` rejects. */
  datatype FileContent = Json(doc: Value) | Unparsable

  function OrEmpty(s: Option<string>): string
  {
    if s.Some? then s.value else ""
  }

  /** The text `_key` hashes: `(image_hash or "") + "|" + (prompt or "")`. */
  function KeyText(imageHash: Option<string>, prompt: Option<string>): string
  {
    OrEmpty(imageHash) + "|" + OrEmpty(prompt)
  }

  function OptionalStr(s: Option<string>): Value
  {
    if s.Some? then Str(s.value) else Null
  }

  /** The JSON object `set` writes to the file tier. */
  function Payload(imageHash: Option<string>, prompt: Option<string>, response: string): Value
  {
    Dict([("response", Str(response)), ("prompt", OptionalStr(prompt)), ("image_hash", OptionalStr(imageHash))])
  }

  /** The exact-key file lookup: the file's `response`, Null when the file is
      missing, does not parse, or is not a JSON object (its `.get` raises). */
  function FileLookup(files: map<string, FileContent>, key: string): (r: Value)
    ensures key !in files ==> r == Null
    ensures key in files && files[key].Unparsable? ==> r == Null
  {
    if key !in files then Null
    else match files[key]
      case Unparsable => Null
      case Json(doc) =>
        if doc.Dict? then (var v := Get(doc.entries, "response"); if v.Some? then v.value else Null)
        else Null
  }

  /** Whether a tier-1 query answer ends the lookup. */
  predicate AnswersLookup(useChroma: bool, q: QueryOutcome)
  {
    useChroma && q.Metadata?
  }

  /** The files after `set`: written under the key unless tier 1 took the entry
      or the file write failed. */
  function StoredFiles(files: map<string, FileContent>, key: string, useChroma: bool,
                       imageHash: Option<string>, prompt: Option<string>, response: string,
                       add: AddOutcome, writeOk: bool): (r: map<string, FileContent>)
    ensures (useChroma && add.Added?) || !writeOk ==> r == files
    ensures !(useChroma && add.Added?) && writeOk ==>
      r.Keys == files.Keys + {key} && FileLookup(r, key) == Str(response)
    ensures forall k :: k in files && k != key ==> k in r && r[k] == files[k]
  {
    if (useChroma && add.Added?) || !writeOk then files
    else files[key := Json(Payload(imageHash, prompt, response))]
  }

  class SimpleCache {
    /** Fixed at construction: tier 1 is on only if the library imported and
        the client and collection were created. */
    const useChroma: bool
    /** The digest `_key` applies to the key text (SHA-256 in hex). */
    const digest: string -> string
    /** Tier 2: file name (the key) to file content. */
    var files: map<string, FileContent>

    constructor (chromaImported: bool, chromaInitSucceeded: bool, digest: string -> string,
                 files: map<string, FileContent>)
      ensures useChroma == (chromaImported && chromaInitSucceeded)
      ensures this.digest == digest && this.files == files
    {
      useChroma := chromaImported && chromaInitSucceeded;
      this.digest := digest;
      this.files := files;
    }

    /** `_key(image_hash, prompt)`. */
    function Key(imageHash: Option<string>, prompt: Option<string>): string
    {
      digest(KeyText(imageHash, prompt))
    }

    /** `get(image_hash, prompt)`: a tier-1 answer when there is one, otherwise
        the exact-key file lookup. Never raises. */
    method Get(imageHash: Option<string>, prompt: Option<string>, q: QueryOutcome) returns (r: Value)
      ensures AnswersLookup(useChroma, q) ==> r == q.response
      ensures !AnswersLookup(useChroma, q) ==> r == FileLookup(files, Key(imageHash, prompt))
    {
      var key := Key(imageHash, prompt);
      if useChroma {
        match q
        case Metadata(response) =>
          return response;
        case QueryRaised =>
        case NoMetadatas =>
      }
      r := Null;
      if key in files {
        match files[key]
        case Unparsable =>
        case Json(doc) =>
          if doc.Dict? {
            var v := Llm.Get(doc.entries, "response");
            r := if v.Some? then v.value else Null;
          }
      }
    }

    /** `set(image_hash, prompt, response)`: tier 1 first when it is on, the file
        tier when it is off or its `add` failed. Never raises. */
    method Set(imageHash: Option<string>, prompt: Option<string>, response: string,
               add: AddOutcome, writeOk: bool)
      modifies this
      ensures files == StoredFiles(old(files), Key(imageHash, prompt), useChroma,
                                   imageHash, prompt, response, add, writeOk)
    {
      var key := Key(imageHash, prompt);
      if useChroma && add.Added? {
        return;
      }
      if writeOk {
        files := files[key := Json(Payload(imageHash, prompt, response))];
      }
    }
  }

  /** `None` and `""` are the same key component. */
  lemma KeyTreatsNoneAsEmpty(imageHash: Option<string>, prompt: Option<string>)
    ensures KeyText(None, prompt) == KeyText(Some(""), prompt)
    ensures KeyText(imageHash, None) == KeyText(imageHash, Some(""))
  {
  }

  /** On the file tier, a write followed by a lookup of the same key gives the
      written response back, and a second write replaces it. */
  lemma FileTierRoundTrip(files: map<string, FileContent>, key: string,
                          imageHash: Option<string>, prompt: Option<string>, r1: string, r2: string)
    ensures var once := StoredFiles(files, key, false, imageHash, prompt, r1, AddRaised, true);
      && FileLookup(once, key) == Str(r1)
      && FileLookup(StoredFiles(once, key, false, imageHash, prompt, r2, AddRaised, true), key) == Str(r2)
  {
  }
}
