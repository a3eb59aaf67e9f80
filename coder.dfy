/** The coder stage: plans from the last vision output and the metadata prompt,
    then streams the code from that plan. */
module Coder {
  import opened Text
  import opened Llm
  import opened PipelineState

  const ThinkSystem := "You are a senior test automation engineer. Provide a full plan for generating production-ready Selenium + PyTest code in Python using POM. This is your internal thinking \U{2014} produce file list, folder layout, major functions, and edge-case notes."
  const GenSystem := "You are a senior test automation engineer. Now generate runnable code (conftest, POM classes, tests). Include comments and instructions to run."

  /** The planning prompt carries both the vision analysis and the user's
      instructions. */
  function ThinkPrompt(visionText: string, userText: string): (r: Prompt)
    ensures |r| == 2 && r[0] == ChatMessage("system", ThinkSystem) && r[1].role == "user"
    ensures IsInfix(visionText, r[1].content) && IsInfix(userText, r[1].content)
  {
    InfixOfTemplate("Vision analysis:\n", visionText, "\n\nUser instructions:\n", userText);
    [ChatMessage("system", ThinkSystem), ChatMessage("user", "Vision analysis:\n" + visionText + "\n\nUser instructions:\n" + userText)]
  }

  /** The generation prompt carries the plan. */
  function GenPrompt(thinking: string): (r: Prompt)
    ensures |r| == 2 && r[0] == ChatMessage("system", GenSystem) && r[1].role == "user"
    ensures IsInfix(thinking, r[1].content)
  {
    var tail := "\n\nNow produce the code output.";
    InfixOfConcat("Plan:\n", thinking, tail);
    [ChatMessage("system", GenSystem), ChatMessage("user", "Plan:\n" + thinking + tail)]
  }

  /** The plan: the synchronous call on the last vision output and the metadata
      prompt. */
  function CoderThinking(ms: seq<Message>, meta: map<string, string>, w: World): string
  {
    RunOllama(w.backend, ThinkPrompt(LastContentNamed(ms, "vision"), MetaGet(meta, "prompt", "")), w.models.coder, w.codecs)
  }

  /** The code: the stream on the plan, accumulated. */
  function CoderFinal(thinking: string, w: World): string
  {
    Concat(StreamFragments(w.backend, GenPrompt(thinking), w.models.coder, w.codecs))
  }

  /** What `coder_node` returns. */
  function CoderRun(st: State, w: World): (r: StageResult)
  {
    if st.metadata.None? then Err(NoneGetError)
    else
      var thinking := CoderThinking(st.messages, st.metadata.value, w);
      Ok([Assistant("coder_think", thinking), Assistant("coder", CoderFinal(thinking, w))])
  }

  /** `coder_node(state)`. */
  method CoderNode(st: State, w: World) returns (r: StageResult)
    ensures r == CoderRun(st, w)
  {
    var visionText := FindLastContent(st.messages, "vision");
    if st.metadata.None? {
      return Err(NoneGetError);
    }
    var userText := MetaGet(st.metadata.value, "prompt", "");
    var thinking := RunOllama(w.backend, ThinkPrompt(visionText, userText), w.models.coder, w.codecs);
    var fragments := StreamOllama(w.backend, GenPrompt(thinking), w.models.coder, w.codecs);
    var acc := Accumulate(fragments);
    r := Ok([Assistant("coder_think", thinking), Assistant("coder", acc)]);
  }

  /** The stage fails exactly when the metadata is None; otherwise it returns its
      plan and its code, and the generation prompt contains the plan. */
  lemma CoderOutcome(st: State, w: World)
    ensures CoderRun(st, w).Err? <==> st.metadata.None?
    ensures CoderRun(st, w).Err? ==> CoderRun(st, w).error == NoneGetError
    ensures st.metadata.Some? ==>
      var thinking := CoderThinking(st.messages, st.metadata.value, w);
      && IsStageOutput(CoderRun(st, w).value, "coder", thinking, CoderFinal(thinking, w))
      && IsInfix(thinking, GenPrompt(thinking)[1].content)
  {
    ThinkNames();
  }

  /** Only the last vision message matters: messages appended after it that are
      not named `vision` do not change the plan. */
  lemma CoderReadsLastVision(ms: seq<Message>, visionText: string, later: seq<Message>,
                             meta: map<string, string>, w: World)
    requires forall k :: 0 <= k < |later| ==> later[k].name != Some("vision")
    ensures CoderThinking(ms + [Assistant("vision", visionText)] + later, meta, w)
         == RunOllama(w.backend, ThinkPrompt(visionText, MetaGet(meta, "prompt", "")), w.models.coder, w.codecs)
  {
    var all := ms + [Assistant("vision", visionText)] + later;
    var j := |ms|;
    assert all[j].name == Some("vision") && all[j].content == visionText;
    forall k | j < k < |all|
      ensures all[k].name != Some("vision")
    {
      assert all[k] == later[k - j - 1];
    }
    LastContentUnique(all, "vision", j);
  }
}
