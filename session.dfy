/** The session recorder: one durable JSON object per run id, updated by a shallow
    merge on every write. */
module Session {
  import opened Memory

  /** A field of the session record: a memory snapshot, or a plain string such as
      the final status. */
  datatype Field = Snapshot(items: seq<MemoryItem>) | Scalar(text: string)

  /** A session file: a JSON object, or content that does not parse. */
  datatype SessionFile = Record(fields: map<string, Field>) | Unparsable

  /** The object a write starts from: the stored record, or `{}` when the file is
      missing or does not parse. */
  function Existing(records: map<string, SessionFile>, sid: string): map<string, Field>
  {
    if sid in records && records[sid].Record? then records[sid].fields else map[]
  }

  /** `obj.update(partial)`: keys of `partial` overwrite, every other key is kept. */
  function Merged(base: map<string, Field>, partial: map<string, Field>): (r: map<string, Field>)
    ensures r.Keys == base.Keys + partial.Keys
    ensures forall k :: k in partial ==> r[k] == partial[k]
    ensures forall k :: k in base && k !in partial ==> r[k] == base[k]
  {
    base + partial
  }

  /** The directory of session files, shared by every run of the process. */
  class SessionStore {
    var records: map<string, SessionFile>

    constructor (records: map<string, SessionFile>)
      ensures this.records == records
    {
      this.records := records;
    }

    /** `_write_session(sid, partial)`: read, merge, write back; other sessions
        are untouched. */
    method Write(sid: string, partial: map<string, Field>)
      modifies this
      ensures records == old(records)[sid := Record(Merged(Existing(old(records), sid), partial))]
    {
      var obj := Existing(records, sid);
      obj := Merged(obj, partial);
      records := records[sid := Record(obj)];
    }
  }
}
