/** The explain stage: plans an explanation of the last coder output, then
    streams the explanation from that plan. It reads no metadata and cannot
    fail. */
module Explain {
  import opened Text
  import opened Llm
  import opened PipelineState

  const ThinkSystem := "You are a technical writer. Produce an internal explanation plan describing what you will explain and sections to include (assumptions, how to run, edge cases)."
  const GenSystem := "You are a technical writer. Now produce the full explanation, including how to run the code and assumptions."

  /** The planning prompt carries the code. */
  function ThinkPrompt(coderText: string): (r: Prompt)
    ensures |r| == 2 && r[0] == ChatMessage("system", ThinkSystem) && r[1].role == "user"
    ensures IsInfix(coderText, r[1].content)
  {
    InfixOfConcat("Code:\n", coderText, "");
    assert "Code:\n" + coderText + "" == "Code:\n" + coderText;
    [ChatMessage("system", ThinkSystem), ChatMessage("user", "Code:\n" + coderText)]
  }

  /** The generation prompt carries the plan. */
  function GenPrompt(thinking: string): (r: Prompt)
    ensures |r| == 2 && r[0] == ChatMessage("system", GenSystem) && r[1].role == "user"
    ensures IsInfix(thinking, r[1].content)
  {
    var tail := "\n\nNow produce the explanation.";
    InfixOfConcat("Plan:\n", thinking, tail);
    [ChatMessage("system", GenSystem), ChatMessage("user", "Plan:\n" + thinking + tail)]
  }

  /** The plan: the synchronous call on the last coder output. */
  function ExplainThinking(ms: seq<Message>, w: World): string
  {
    RunOllama(w.backend, ThinkPrompt(LastContentNamed(ms, "coder")), w.models.explain, w.codecs)
  }

  /** The explanation: the stream on the plan, accumulated. */
  function ExplainFinal(thinking: string, w: World): string
  {
    Concat(StreamFragments(w.backend, GenPrompt(thinking), w.models.explain, w.codecs))
  }

  /** What `explain_node` returns. */
  function ExplainRun(st: State, w: World): (r: seq<Message>)
  {
    var thinking := ExplainThinking(st.messages, w);
    [Assistant("explain_think", thinking), Assistant("explain", ExplainFinal(thinking, w))]
  }

  /** `explain_node(state)`. */
  method ExplainNode(st: State, w: World) returns (r: seq<Message>)
    ensures r == ExplainRun(st, w)
  {
    var coderText := FindLastContent(st.messages, "coder");
    var thinking := RunOllama(w.backend, ThinkPrompt(coderText), w.models.explain, w.codecs);
    var fragments := StreamOllama(w.backend, GenPrompt(thinking), w.models.explain, w.codecs);
    var acc := Accumulate(fragments);
    r := [Assistant("explain_think", thinking), Assistant("explain", acc)];
  }

  /** Whatever the state, the stage returns its plan and its explanation, and
      does not look at the metadata or the image. */
  lemma ExplainOutcome(st: State, w: World, image: Option<string>, meta: Option<map<string, string>>)
    ensures var thinking := ExplainThinking(st.messages, w);
      IsStageOutput(ExplainRun(st, w), "explain", thinking, ExplainFinal(thinking, w))
    ensures ExplainRun(st.(imageB64 := image, metadata := meta), w) == ExplainRun(st, w)
  {
    ThinkNames();
  }

  /** Only the last coder message matters: messages appended after it that are
      not named `coder` do not change the plan. */
  lemma ExplainReadsLastCoder(ms: seq<Message>, coderText: string, later: seq<Message>, w: World)
    requires forall k :: 0 <= k < |later| ==> later[k].name != Some("coder")
    ensures ExplainThinking(ms + [Assistant("coder", coderText)] + later, w)
         == RunOllama(w.backend, ThinkPrompt(coderText), w.models.explain, w.codecs)
  {
    var all := ms + [Assistant("coder", coderText)] + later;
    var j := |ms|;
    assert all[j].name == Some("coder") && all[j].content == coderText;
    forall k | j < k < |all|
      ensures all[k].name != Some("coder")
    {
      assert all[k] == later[k - j - 1];
    }
    LastContentUnique(all, "coder", j);
  }
}
