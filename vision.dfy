/** The vision stage: builds the user prompt from the incoming messages, answers
    from the cache when it holds a truthy response, and otherwise asks the
    backend for its thinking (synchronously) and its analysis (streamed), then
    caches the analysis. */
module Vision {
  import opened Text
  import opened Llm
  import opened Cache
  import opened PipelineState

  const CachedThinking := "[cached analysis \U{2014} showing full analysis]"

  const ThinkSystem := "You are a senior UI/UX analyst. Produce a complete internal analysis. Do NOT include final code; this is your private thinking summary."
  const GenSystem := "You are a senior UI/UX analyst. Now produce the final analysis output (short, actionable items, components, labels, structure)."

  /** A message that contributes to the user prompt: its type is `user` or
      `human`, or it is named `user`. */
  predicate IsUserMessage(m: Message)
  {
    m.kind == "user" || m.kind == "human" || m.name == Some("user")
  }

  /** The contents of the user messages, in order. */
  function UserContents(ms: seq<Message>): (r: seq<string>)
    ensures |r| <= |ms|
    ensures forall x :: x in r ==> exists m :: m in ms && IsUserMessage(m) && m.content == x
  {
    if ms == [] then []
    else
      var front := ms[..|ms| - 1];
      var last := ms[|ms| - 1];
      assert forall m :: m in front ==> m in ms;
      if IsUserMessage(last) then UserContents(front) + [last.content] else UserContents(front)
  }

  /** Every user message's content is collected. */
  lemma {:induction false} UserContentsComplete(ms: seq<Message>)
    ensures forall m :: m in ms && IsUserMessage(m) ==> m.content in UserContents(ms)
    decreases |ms|
  {
    if ms != [] {
      var front := ms[..|ms| - 1];
      UserContentsComplete(front);
      assert forall m :: m in ms ==> m in front || m == ms[|ms| - 1];
    }
  }

  /** Collection follows message order. */
  lemma {:induction false} UserContentsAppend(a: seq<Message>, b: seq<Message>)
    ensures UserContents(a + b) == UserContents(a) + UserContents(b)
    decreases |b|
  {
    if b == [] {
      assert a + b == a;
    } else {
      var c := a + b;
      var front := b[..|b| - 1];
      assert c[..|c| - 1] == a + front;
      UserContentsAppend(a, front);
      if IsUserMessage(b[|b| - 1]) {
        assert UserContents(b) == UserContents(front) + [b[|b| - 1].content];
      } else {
        assert UserContents(b) == UserContents(front);
      }
    }
  }

  /** One message contributes its content exactly when it is a user message. */
  lemma UserContentsSingle(m: Message)
    ensures UserContents([m]) == if IsUserMessage(m) then [m.content] else []
  {
    assert [m][..0] == [];
  }

  /** The loop that collects `user_text_parts`. */
  method CollectUserParts(ms: seq<Message>) returns (parts: seq<string>)
    ensures parts == UserContents(ms)
  {
    parts := [];
    var i := 0;
    while i < |ms|
      invariant 0 <= i <= |ms|
      invariant parts == UserContents(ms[..i])
    {
      assert ms[..i + 1][..i] == ms[..i];
      if IsUserMessage(ms[i]) {
        parts := parts + [ms[i].content];
      }
      i := i + 1;
    }
    assert ms[..i] == ms;
  }

  /** `"\n".join([p for p in parts if p]).strip()`. */
  function JoinedPrompt(parts: seq<string>): string
  {
    Strip(Join(NonEmpty(parts), "\n"))
  }

  /** The user prompt: the joined user text, or the metadata prompt when that
      text is empty. */
  function UserPrompt(ms: seq<Message>, meta: map<string, string>): (r: string)
    ensures JoinedPrompt(UserContents(ms)) != "" ==> r == JoinedPrompt(UserContents(ms))
    ensures JoinedPrompt(UserContents(ms)) == "" ==> r == MetaGet(meta, "prompt", "")
  {
    var joined := JoinedPrompt(UserContents(ms));
    if joined != "" then joined else MetaGet(meta, "prompt", "")
  }

  function ImageHash(meta: map<string, string>): Option<string>
  {
    if "image_hash" in meta then Some(meta["image_hash"]) else None
  }

  /** `user_image_b64` is truthy. */
  predicate ImagePresent(imageB64: Option<string>)
  {
    imageB64.Some? && imageB64.value != ""
  }

  function ThinkPrompt(userPrompt: string, imagePresent: bool): (r: Prompt)
    ensures |r| == 2 && r[0].role == "system" && r[1].role == "user"
    ensures IsInfix(userPrompt, r[1].content)
    ensures EndsWith(r[1].content, "Image present: yes") <==> imagePresent
  {
    var head := "Instructions / Context:\n" + userPrompt;
    var tail := "\n\nImage present: " + (if imagePresent then "yes" else "no");
    InfixOfConcat("Instructions / Context:\n", userPrompt, tail);
    ImageFlagSuffix(head, imagePresent);
    [ChatMessage("system", ThinkSystem), ChatMessage("user", head + tail)]
  }

  /** The closing line of the thinking prompt says "yes" exactly when an image
      is present. */
  lemma ImageFlagSuffix(head: string, imagePresent: bool)
    ensures EndsWith(head + ("\n\nImage present: " + (if imagePresent then "yes" else "no")), "Image present: yes")
        <==> imagePresent
  {
    var line := "\n\nImage present: " + (if imagePresent then "yes" else "no");
    var w := head + line;
    var yes := "Image present: yes";
    if imagePresent {
      assert line[2..] == yes;
      assert w[|w| - |yes|..] == line[2..];
    } else {
      assert w[|w| - 1] == 'o';
      assert yes[|yes| - 1] == 's';
      EndsWithLast(w, yes);
    }
  }

  function GenPrompt(userPrompt: string): (r: Prompt)
    ensures |r| == 2 && r[0].role == "system" && r[1].role == "user"
    ensures IsInfix(userPrompt, r[1].content)
  {
    var tail := "\n\nPlease produce final structured output based on your analysis.";
    InfixOfConcat("Context:\n", userPrompt, tail);
    [ChatMessage("system", GenSystem), ChatMessage("user", "Context:\n" + userPrompt + tail)]
  }

  /** What the cache lookup returns for this stage. */
  function CachedValue(useChroma: bool, files: map<string, FileContent>, key: string, q: QueryOutcome): Value
  {
    if AnswersLookup(useChroma, q) then q.response else FileLookup(files, key)
  }

  /** The prompt the stage works on, once the metadata is known. */
  function VisionPrompt(st: State): string
    requires st.metadata.Some?
  {
    UserPrompt(st.messages, st.metadata.value)
  }

  /** The cache key of the stage's lookup and write. */
  function VisionKey(st: State, digest: string -> string): string
    requires st.metadata.Some?
  {
    digest(KeyText(ImageHash(st.metadata.value), Some(VisionPrompt(st))))
  }

  /** The synchronous thinking call's text. */
  function VisionThinking(st: State, w: World): string
    requires st.metadata.Some?
  {
    RunOllama(w.backend, ThinkPrompt(VisionPrompt(st), ImagePresent(st.imageB64)), w.models.vision, w.codecs)
  }

  /** The streamed analysis, accumulated. */
  function VisionFinal(st: State, w: World): string
    requires st.metadata.Some?
  {
    Concat(StreamFragments(w.backend, GenPrompt(VisionPrompt(st)), w.models.vision, w.codecs))
  }

  /** The stage's messages and the file tier afterwards. */
  function VisionRun(st: State, useChroma: bool, digest: string -> string,
                     files: map<string, FileContent>, w: World): (StageResult, map<string, FileContent>)
  {
    if st.metadata.None? then (Err(NoneGetError), files)
    else
      var cached := CachedValue(useChroma, files, VisionKey(st, digest), w.cacheEnv.query);
      if Truthy(cached) then
        (Ok([Assistant("vision_think", CachedThinking), Assistant("vision", PyStr(cached, w.codecs))]), files)
      else
        (Ok([Assistant("vision_think", VisionThinking(st, w)), Assistant("vision", VisionFinal(st, w))]),
         StoredFiles(files, VisionKey(st, digest), useChroma, ImageHash(st.metadata.value), Some(VisionPrompt(st)),
                     VisionFinal(st, w), w.cacheEnv.add, w.cacheEnv.writeOk))
  }

  /** `vision_node(state)`. */
  method VisionNode(st: State, cache: SimpleCache, w: World) returns (r: StageResult)
    modifies cache
    ensures (r, cache.files) == VisionRun(st, cache.useChroma, cache.digest, old(cache.files), w)
  {
    var parts := CollectUserParts(st.messages);
    var joined := JoinedPrompt(parts);
    if st.metadata.None? {
      return Err(NoneGetError);
    }
    var meta := st.metadata.value;
    var userPrompt := if joined != "" then joined else MetaGet(meta, "prompt", "");
    assert userPrompt == VisionPrompt(st);
    var imageHash := ImageHash(meta);
    ghost var key := VisionKey(st, cache.digest);
    assert cache.Key(imageHash, Some(userPrompt)) == key;
    var cached := cache.Get(imageHash, Some(userPrompt), w.cacheEnv.query);
    assert cached == CachedValue(cache.useChroma, cache.files, key, w.cacheEnv.query);
    if Truthy(cached) {
      return Ok([Assistant("vision_think", CachedThinking), Assistant("vision", PyStr(cached, w.codecs))]);
    }
    r := AnalyseAndStore(st, userPrompt, imageHash, cache, w);
  }

  /** The miss path of `vision_node`: think, stream the analysis, cache it. */
  method AnalyseAndStore(st: State, userPrompt: string, imageHash: Option<string>, cache: SimpleCache, w: World)
    returns (r: StageResult)
    requires st.metadata.Some? && userPrompt == VisionPrompt(st) && imageHash == ImageHash(st.metadata.value)
    modifies cache
    ensures r == Ok([Assistant("vision_think", VisionThinking(st, w)), Assistant("vision", VisionFinal(st, w))])
    ensures cache.files == StoredFiles(old(cache.files), VisionKey(st, cache.digest), cache.useChroma, imageHash,
                                       Some(userPrompt), VisionFinal(st, w), w.cacheEnv.add, w.cacheEnv.writeOk)
  {
    var thinking := RunOllama(w.backend, ThinkPrompt(userPrompt, ImagePresent(st.imageB64)), w.models.vision, w.codecs);
    var fragments := StreamOllama(w.backend, GenPrompt(userPrompt), w.models.vision, w.codecs);
    var acc := Accumulate(fragments);
    cache.Set(imageHash, Some(userPrompt), acc, w.cacheEnv.add, w.cacheEnv.writeOk);
    r := Ok([Assistant("vision_think", thinking), Assistant("vision", acc)]);
  }

  /** The stage fails exactly when the metadata is None, and then leaves the
      cache alone. */
  lemma VisionFailsOnlyWithoutMetadata(st: State, useChroma: bool, digest: string -> string,
                                       files: map<string, FileContent>, w: World)
    ensures var (r, files') := VisionRun(st, useChroma, digest, files, w);
      (r.Err? <==> st.metadata.None?) && (r.Err? ==> r.error == NoneGetError && files' == files)
  {
  }

  /** A truthy cached value short-circuits: the cached pair comes back, no file is
      written, and the backend is not consulted (any backend gives the same run). */
  lemma VisionCacheHit(st: State, useChroma: bool, digest: string -> string,
                       files: map<string, FileContent>, w: World, other: Backend)
    requires st.metadata.Some?
    requires Truthy(CachedValue(useChroma, files, VisionKey(st, digest), w.cacheEnv.query))
    ensures var cached := CachedValue(useChroma, files, VisionKey(st, digest), w.cacheEnv.query);
      && VisionRun(st, useChroma, digest, files, w)
         == (Ok([Assistant("vision_think", CachedThinking), Assistant("vision", PyStr(cached, w.codecs))]), files)
      && VisionRun(st, useChroma, digest, files, w.(backend := other)) == VisionRun(st, useChroma, digest, files, w)
  {
  }

  /** On a miss (including a cached empty string) the stage returns its thinking
      and the concatenated stream, and writes that text under the same key it
      looked up. */
  lemma VisionCacheMiss(st: State, useChroma: bool, digest: string -> string,
                        files: map<string, FileContent>, w: World)
    requires st.metadata.Some?
    requires !Truthy(CachedValue(useChroma, files, VisionKey(st, digest), w.cacheEnv.query))
    ensures VisionRun(st, useChroma, digest, files, w).0.Ok?
    ensures IsStageOutput(VisionRun(st, useChroma, digest, files, w).0.value, "vision",
                          VisionThinking(st, w), VisionFinal(st, w))
    ensures VisionRun(st, useChroma, digest, files, w).1
      == StoredFiles(files, VisionKey(st, digest), useChroma, ImageHash(st.metadata.value), Some(VisionPrompt(st)),
                     VisionFinal(st, w), w.cacheEnv.add, w.cacheEnv.writeOk)
  {
    ThinkNames();
  }

  /** With metadata the stage returns `vision_think`, then `vision`. */
  lemma VisionReturnsPair(st: State, useChroma: bool, digest: string -> string,
                          files: map<string, FileContent>, w: World)
    requires st.metadata.Some?
    ensures var r := VisionRun(st, useChroma, digest, files, w).0;
      && r.Ok? && |r.value| == 2
      && r.value == [Assistant("vision_think", r.value[0].content), Assistant("vision", r.value[1].content)]
  {
    if Truthy(CachedValue(useChroma, files, VisionKey(st, digest), w.cacheEnv.query)) {
      VisionCacheHit(st, useChroma, digest, files, w, w.backend);
    } else {
      VisionCacheMiss(st, useChroma, digest, files, w);
    }
  }

  /** The joined user text is stripped and never empty-joined: it has no
      surrounding whitespace. */
  lemma JoinedPromptIsStripped(parts: seq<string>)
    ensures var p := JoinedPrompt(parts);
      p == [] || (!IsSpace(p[0]) && !IsSpace(p[|p| - 1]))
  {
    StripShape(Join(NonEmpty(parts), "\n"));
  }
}
