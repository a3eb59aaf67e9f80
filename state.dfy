/** The pipeline state every stage reads, the messages the stages produce, the
    environment a run depends on, and the two loops the stages share: the
    reverse scan for a stage's last output and the accumulation of a stream. */
module PipelineState {
  import opened Text
  import opened Llm
  import opened Cache

  /** A message of the state as the graph runtime hands it to the stages: its
      type (`human`, `ai`, ... or the role it was created with), its optional
      name, and its text content. */
  datatype Message = Message(kind: string, name: Option<string>, content: string)

  /** A stage's `{"role": "assistant", "name": name, "content": content}` as the
      graph runtime stores it: a message of type `ai`. */
  function Assistant(name: string, content: string): Message
  {
    Message("ai", Some(name), content)
  }

  /** The graph state: messages, the optional base64 image, and the metadata
      mapping; `metadata == None` stands for a state whose `metadata` is None
      (an absent key reads as the empty mapping). */
  datatype State = State(
    messages: seq<Message>,
    imageB64: Option<string>,
    metadata: Option<map<string, string>>)

  /** `metadata.get(key, default)`. */
  function MetaGet(meta: map<string, string>, key: string, default: string): string
  {
    if key in meta then meta[key] else default
  }

  /** The AttributeError `state.get("metadata", {}).get(...)` raises when the
      metadata is None. */
  const NoneGetError := "'NoneType' object has no attribute 'get'"

  /** The model identifier of each stage. */
  datatype Models = Models(vision: string, coder: string, explain: string)

  /** What the cache's tier 1 and the file system do during the one lookup and
      the one write of a run. */
  datatype CacheEnv = CacheEnv(query: QueryOutcome, add: AddOutcome, writeOk: bool)

  /** Everything outside the pipeline that a run depends on. */
  datatype World = World(backend: Backend, codecs: Codecs, models: Models, cacheEnv: CacheEnv)

  /** The content of the last message called `name`, or "" when there is none. */
  function LastContentNamed(ms: seq<Message>, name: string): string
  {
    if ms == [] then ""
    else if ms[|ms| - 1].name == Some(name) then ms[|ms| - 1].content
    else LastContentNamed(ms[..|ms| - 1], name)
  }

  /** The scan's answer: "" when no message has the name, otherwise the content
      of a message with that name that no later message shares. */
  lemma {:induction false} LastContentFound(ms: seq<Message>, name: string)
    ensures (forall j :: 0 <= j < |ms| ==> ms[j].name != Some(name)) ==> LastContentNamed(ms, name) == ""
    ensures (exists j :: 0 <= j < |ms| && ms[j].name == Some(name)) ==>
      exists j :: 0 <= j < |ms| && ms[j].name == Some(name) && LastContentNamed(ms, name) == ms[j].content
        && forall k :: j < k < |ms| ==> ms[k].name != Some(name)
    decreases |ms|
  {
    if ms != [] && ms[|ms| - 1].name != Some(name) {
      var front := ms[..|ms| - 1];
      LastContentFound(front, name);
      assert forall j :: 0 <= j < |front| ==> front[j] == ms[j];
    }
  }

  /** The reverse scan with `break` that coder and explain use to find the
      previous stage's output. */
  method FindLastContent(ms: seq<Message>, name: string) returns (text: string)
    ensures text == LastContentNamed(ms, name)
  {
    text := "";
    var i := |ms|;
    assert ms[..i] == ms;
    while i > 0
      invariant 0 <= i <= |ms|
      invariant LastContentNamed(ms, name) == LastContentNamed(ms[..i], name)
    {
      i := i - 1;
      assert ms[..i + 1] == ms[..i] + [ms[i]];
      LastContentOfAppended(ms[..i], ms[i], name);
      if ms[i].name == Some(name) {
        text := ms[i].content;
        return;
      }
    }
    assert ms[..0] == [];
  }

  /** The scan sees the last message first: a matching one ends it, any other
      leaves the answer of the earlier messages. */
  lemma LastContentOfAppended(ms: seq<Message>, m: Message, name: string)
    ensures LastContentNamed(ms + [m], name) == if m.name == Some(name) then m.content else LastContentNamed(ms, name)
  {
    assert (ms + [m])[..|ms|] == ms;
  }

  /** A message named `name` with no later one of that name is the one found. */
  lemma {:induction false} LastContentUnique(ms: seq<Message>, name: string, j: int)
    requires 0 <= j < |ms| && ms[j].name == Some(name)
    requires forall k :: j < k < |ms| ==> ms[k].name != Some(name)
    ensures LastContentNamed(ms, name) == ms[j].content
    decreases |ms|
  {
    if j < |ms| - 1 {
      var front := ms[..|ms| - 1];
      assert front[j] == ms[j];
      LastContentUnique(front, name, j);
    }
  }

  /** `acc = ""; for chunk in fragments: acc += chunk`. */
  method Accumulate(fragments: seq<string>) returns (acc: string)
    ensures acc == Concat(fragments)
  {
    acc := "";
    var i := 0;
    while i < |fragments|
      invariant 0 <= i <= |fragments|
      invariant acc == Concat(fragments[..i])
    {
      assert fragments[..i + 1] == fragments[..i] + [fragments[i]];
      ConcatAppend(fragments[..i], [fragments[i]]);
      acc := acc + fragments[i];
      i := i + 1;
    }
    assert fragments[..i] == fragments;
  }

  /** What one stage returns: its two messages, or the error it raised. */
  type StageResult = Result<seq<Message>, string>

  /** Each stage's thinking message is named after the stage with `_think` appended. */
  lemma ThinkNames()
    ensures "vision" + "_think" == "vision_think"
    ensures "coder" + "_think" == "coder_think"
    ensures "explain" + "_think" == "explain_think"
  {
  }

  /** The two messages every stage returns: `<stage>_think`, then `<stage>`. */
  predicate IsStageOutput(r: seq<Message>, stage: string, thinking: string, final: string)
  {
    r == [Assistant(stage + "_think", thinking), Assistant(stage, final)]
  }
}
