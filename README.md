# Design-to-pytest pipeline: a Dafny model

This project models the core of a three-stage LLM pipeline that turns a UI
design (an image plus instructions) into Selenium/PyTest code and an
explanation of it. The three stages are:

- **vision** analyses the design;
- **coder** writes the code from the analysis;
- **explain** documents the code.

Unless the vision stage finds a truthy cached analysis, each stage first asks
the backend for a "thinking" text with a synchronous call. It then streams its
final text and accumulates it. On a truthy cache hit the vision stage makes no
backend call: it returns a fixed thinking text and `str()` of the cached value. It returns two
messages: `<stage>_think`, then `<stage>`.

The graph runs the stages in the fixed order vision → coder → explain.
`invoke_stream` turns the final message list into a stream of
`(phase, chunk, session_id)` events:

- a thinking message becomes one event;
- a stage output is cut into 512-character chunks (1024 for `coder`);
- a message with no name or another name is skipped.

Before every phase event (a thinking message or a chunk), the run's fresh conversation memory gets one item; the `error` and `done` events add nothing to it. The
run's session record then receives the memory's last ten items, by a shallow
merge. The stream ends with a `done` event after `{"status": "done"}` is
written. If execution raised, the stream is a single `error` event and writes
nothing.

Modules:

- **Text** (`text.dfy`): Python's string helpers as the source uses them.
  - `str.strip` and `str.split` over Python's whitespace code points.
  - `"\n".join`, `endswith`, concatenation.
- **Llm** (`llm.dfy`): the LLM adapter.
  - `Value` is the dynamic shape of a backend response. `ExtractText` normalises it to text.
  - An `Err` result stands for the AttributeError raised when `message` is not a dict holding `content` and `choices` is a non-empty list whose first element is not a dict.
  - The backend is an oracle `Backend`: absent, or a synchronous and a streaming call whose answers are parameters.
  - `RunOllama` and `StreamOllama` are the never-raising wrappers with their sentinels and their one fallback.
- **Cache** (`cache.dfy`): `SimpleCache`.
  - Tier 1, the similarity index, is an oracle (`QueryOutcome`, `AddOutcome`).
  - The exact-key file tier is a map from key to file content.
  - SHA-256 is the cache's abstract `digest`.
- **Memory** (`memory.dfy`): `ConversationMemory`, with Python's negative-slice semantics written out.
- **Session** (`session.dfy`): the per-run session files of `_write_session`.
- **PipelineState** (`state.dfy`): the shared pieces.
  - Messages, the graph state, and the `World` a run depends on (backend, codecs, model names, cache environment).
  - The reverse scan for the previous stage's output, and the `acc += chunk` loop.
- **Vision**, **Coder**, **Explain** (`vision.dfy`, `coder.dfy`, `explain.dfy`): the three stage nodes.
  - Each is an imperative method proved equal to a functional specification.
  - The specification's properties are proved as lemmas.
- **Graph** (`graph.dfy`): the execution order and `invoke_stream`.
  - It is a method over the memory and session objects that keeps an `InSync` invariant.
  - The invariant ties the objects and the steps taken so far to the functional `Trace`.

## Model

| member | source | states |
|---|---|---|
| `Text.NonEmpty` | vision_agent.py:27 | The filter `[p for p in parts if p]` keeps only non-empty parts, each taken from the input, and never more parts than given |
| `Text.NonEmptyKeeps` | vision_agent.py:27 | Every non-empty part survives the filter `[p for p in parts if p]` |
| `Text.NonEmptyAppend` | vision_agent.py:27 | The filter keeps order: filtering a concatenation is filtering each side and concatenating |
| `Text.NonEmptyConcat` | vision_agent.py:27 | Only empty parts are dropped: the kept parts concatenate to the same text as all parts |
| `Text.Concat` | coder_agent.py:43-45 | Definition of `"".join(parts)`, the text `acc += chunk` builds; `Text.ConcatAppend` proves it distributes over concatenation |
| `Text.Join` | vision_agent.py:27 | Definition of `"\n".join(parts)`: the parts with one separator between neighbours |
| `Text.Strip` | vision_agent.py:27 | Definition of `str.strip()` as `TrimEnd(TrimStart(s))`; its properties are the `TrimStart`, `TrimEnd`, `StripShape` and `StripIdempotent` rows |
| `Text.TrimStart` | vision_agent.py:27 | Leading strip: the result is a suffix of the text that does not start with whitespace, and everything removed is whitespace |
| `Text.TrimEnd` | vision_agent.py:27 | Trailing strip: the result is a prefix of the text that does not end with whitespace, and everything removed is whitespace |
| `Text.StripShape` | vision_agent.py:27 | `strip()` yields a contiguous part of the text that is empty or has no whitespace at either end |
| `Text.StripIdempotent` | vision_agent.py:27 | Stripping a stripped text changes nothing |
| `Text.WordLength` | llm.py:97 | The first whitespace-free run of a text ends at the first whitespace or the end, and is non-empty when the text starts with a non-space |
| `Text.SplitTokens` | llm.py:97 | Every token of `str.split()` is non-empty and contains no whitespace |
| `Text.SplitKeepsNonSpace` | llm.py:97 | The tokens of `str.split()`, concatenated, are the text with all its whitespace removed: no non-space character is lost, added or reordered |
| `Text.Split` | llm.py:97 | Definition of `str.split()`: skip whitespace, take the longest whitespace-free run, repeat; its properties are the `SplitTokens` and `SplitKeepsNonSpace` rows |
| `Text.IsSpace` | llm.py:97 | Definition of the characters Python's `str.isspace()` accepts: the separators of `str.split()` and what `str.strip()` removes; `SplitTokens`, `StripShape` and `TrimStart`/`TrimEnd` use it |
| `Text.EndsWith` | graph.py:94 | Definition of `str.endswith`; `EndsWithLast` and `Graph.EmissionPhases` use it |
| `Llm.Get` | llm.py:37-41 | `dict.get(key)` is present exactly when some entry has that key |
| `Llm.GetFirst` | llm.py:37-41 | A present `dict.get(key)` is the value of the first entry with that key |
| `Llm.ExtractText` | llm.py:16-62 | The normaliser raises exactly when `message` is not a dict holding `content` and `choices` is a non-empty list whose first element is not a dict, with that element's missing-`get` AttributeError. `None` gives `""`. A `str` is returned unchanged |
| `Llm.FirstChoiceNotDict` | llm.py:41-45 | Definition of the shape that makes the normaliser raise: no `message.content`, a non-empty `choices` list, a first choice that is not a dict; `ExtractText` raises exactly on it |
| `Llm.NoGetError` | llm.py:45 | Definition of the AttributeError text of `first.get` on a non-dict; `ExtractText` and `ExtractNonDictChoiceExample` state when it is raised |
| `Llm.MessageContentFirst` | llm.py:36-39 | A dict whose `message` is a dict holding `content` yields `str(message["content"])`, whatever its `choices` or top-level keys |
| `Llm.FirstChoice` | llm.py:41-44 | Definition of `choices[0]`, present when `choices` is a non-empty list |
| `Llm.MessageContent` | llm.py:37-38 | Definition of `message.content`, present when `message` is a dict holding `content`; `MessageContentFirst` and `ExtractText` state what it decides |
| `Llm.Truthy` | llm.py:45 | Definition of Python truthiness, behind `or` and `if cached`: None, `False`, `0` and empty strings, bytes, lists and dicts are falsy; `DeltaOrFirst`, `ChoiceTextWins` and `VisionCacheHit` use it |
| `Llm.PyStr` | llm.py:39 | Definition of `str()`: `None`, `True`/`False`, decimal integers, strings unchanged, an abstract repr otherwise; `NonDictValues` and `MessageContentFirst` use it |
| `Llm.DeltaOrFirst` | llm.py:45 | Definition of `first.get("delta") or first` |
| `Llm.ContentOrText` | llm.py:47-50 | Definition of a dict's text field: `content` when present, otherwise `text` |
| `Llm.ChoiceTextWins` | llm.py:41-50 | Without `message.content`, when the first choice is a dict and its source (a truthy `delta`, else the choice itself) is a dict with `content` or `text`, that field is the result (`content` before `text`), whatever the top-level keys |
| `Llm.TopLevelFallback` | llm.py:51-60 | Without `message.content` and without a text from the first choice, the result is top-level `content`, else `text`, else the JSON dump, else `str()` of the dict |
| `Llm.NonDictValues` | llm.py:30-34 | A value that is not a dict never makes the normaliser raise: bytes are decoded with invalid bytes dropped, and anything other than None and str goes through `str()` (llm.py:62) |
| `Llm.ExtractFromDict` | llm.py:35-60 | Definition of the dict branch: `message.content`, then the first choice, then the top level; its properties are the `MessageContentFirst`, `ChoiceTextWins` and `TopLevelFallback` rows |
| `Llm.TopLevelText` | llm.py:51-60 | Definition of the top-level fallback: `content`, `text`, JSON dump, `str()` |
| `Llm.ExtractMessageContentExample` | llm.py:37-39 | `{"message": {"content": "hello"}}` normalises to `"hello"` |
| `Llm.ExtractDeltaExample` | llm.py:41-48 | `{"choices": [{"delta": {"content": "x"}}]}` normalises to `"x"` |
| `Llm.ExtractChoiceTextExample` | llm.py:41-50 | With no truthy `delta`, the first choice itself is used and its `text` is taken |
| `Llm.ExtractDumpExample` | llm.py:52-58 | A dict with none of the recognised keys normalises to its JSON serialisation |
| `Llm.ExtractNonDictChoiceExample` | llm.py:44-45 | `{"choices": ["oops"]}` raises `'str' object has no attribute 'get'` |
| `Llm.RunOllama` | llm.py:103-116 | The synchronous call never raises. No backend gives `[SIMULATED SYNC RESPONSE]`. A backend failure, or a normaliser failure on the response, gives `[LLM SYNC ERROR]`. Otherwise the result is the normalised response |
| `Llm.FallbackFragment` | llm.py:83-93 | Definition of the one fragment after a broken stream: the sync retry's normalised dict, the `str()` of another response, or `[LLM ERROR]` when the retry raises or the normaliser rejects its dict |
| `Llm.Delivered` | llm.py:75-80 | Definition of the texts yielded before the loop stops, and whether it stopped on a chunk the normaliser rejected; `DeliveredIsNormalisedPrefix` states what they are |
| `Llm.StreamFragments` | llm.py:64-101 | Definition of everything `stream_ollama` yields: the simulated tokens without a backend; with one, the delivered texts plus one fallback fragment when the stream or the normaliser raised |
| `Llm.SpaceAfterEach` | llm.py:97-98 | One fragment per token, in order, each the token followed by one space |
| `Llm.StreamOllama` | llm.py:64-101 | The fragments the generator yields are those of the specification `StreamFragments` for the backend |
| `Llm.StreamOnline` | llm.py:72-93 | With a backend, the loop yields the normalised chunks until the stream ends. If the stream or the normaliser raised, it adds exactly one fragment: the sync retry's normalised dict, its `str()`, or `[LLM ERROR]` |
| `Llm.StreamSimulated` | llm.py:94-99 | With no backend, the yielded fragments are the placeholder text's whitespace tokens, each followed by a space |
| `Llm.SimulatedStreamText` | llm.py:96 | Definition of the offline placeholder text, naming the model; `StreamSimulated` and `OfflineFragments` state how it is streamed |
| `Llm.SpaceTokens` | llm.py:97-98 | The token loop yields `SpaceAfterEach` of the tokens |
| `Llm.DeliveredIsNormalisedPrefix` | llm.py:75-80 | The texts yielded before a break are the normalised forms of a prefix of the chunks, in order. The stream broke exactly when fewer texts than chunks came out, and then the next chunk is one the normaliser rejects |
| `Llm.StreamWithoutFailure` | llm.py:73-80 | A stream that neither raises nor carries a rejected chunk yields exactly one fragment per chunk, its normalised text |
| `Llm.StreamFailureAddsOneFragment` | llm.py:81-93 | When the stream breaks, the fragments already yielded stay, and exactly one fallback fragment follows |
| `Llm.OfflineFragments` | llm.py:94-98 | The simulated stream yields one fragment per token, each the token plus a space, and together they keep every non-space character of the text in order |
| `Llm.SpacedTokensKeepNonSpace` | llm.py:97-98 | Appending a space to whitespace-free tokens and concatenating them loses no non-space character |
| `Memory.SliceFrom` | memory.py:18 | Definition of Python's `s[start:]` for any integer start; `SliceFromShape` states its properties |
| `Memory.SliceFromShape` | memory.py:18 | `s[start:]` is a suffix of `s`: `len(s) - start` items for a start within `s`, none past the end; `-start` items for a negative start within `s`, all of `s` beyond it |
| `Memory.Recent` | memory.py:20-21 | `recent(n)`, for n ≥ 1, is the last `min(n, len)` items in order. `recent(0)` is all items. A negative n drops the first `-n` items |
| `Memory.AddedShape` | memory.py:13-18 | One `add` results in the old items plus the new one, with a prefix dropped. With capacity ≥ 0 the new item is last. With capacity ≥ 2 the size bound holds, and an eviction leaves exactly `max_items // 2` items. With capacity 0 or 1 nothing is dropped |
| `Memory.Added` | memory.py:13-18 | Definition of the list after `add`: append, then keep `items[-(max_items // 2):]` when the length exceeds `max_items`; `AddedShape` states its properties |
| `Memory.Evicts` | memory.py:15 | Definition of the eviction test `len(items) > max_items` after the append; `AddedShape` states its effect |
| `Memory.FillWithoutEviction` | memory.py:13-18 | Adds that stay within the capacity append in order and drop nothing |
| `Memory.FillPastCapacity` | memory.py:13-18 | `C + 1` adds to an empty memory of capacity C ≥ 2 leave exactly the last `C // 2` items, in order |
| `Memory.ConversationMemory.constructor` | memory.py:8-11 | A new memory has the given capacity, no items and an empty summary |
| `Memory.ConversationMemory.Add` | memory.py:13-18 | `add` appends and truncates as `Added` says. The summary becomes `[older messages summarized]` on an eviction and is otherwise kept. The size bound and the summary's two possible values are preserved |
| `Memory.ConversationMemory.RecentItems` | memory.py:20-21 | For n ≥ 1, the last `min(n, len)` items. For n = 0, all items |
| `Session.Merged` | graph.py:42 | `obj.update(partial)`: the keys of both records; `partial`'s values win; other keys keep their old values |
| `Session.Existing` | graph.py:36-41 | Definition of the object a write starts from: the stored record, or `{}` when the file is missing or does not parse; `SessionStore.Write` and `Graph.RecordedStep` state its use |
| `Session.SessionStore.Write` | graph.py:34-43 | `_write_session` replaces the run's file with the merge of its existing record (`{}` when the file is missing or unparsable) and the partial record. Other files are untouched |
| `Cache.FileLookup` | cache.py:46-52 | A file-tier lookup gives no response when the file is missing or does not parse |
| `Cache.Payload` | cache.py:75 | Definition of the JSON object the file tier stores: `response`, `prompt`, `image_hash`; `FileTierRoundTrip` shows `get` reads its `response` back |
| `Cache.StoredFiles` | cache.py:54-77 | After `set`, the file tier is unchanged when tier 1 took the entry or the write failed. Otherwise the key is added, and its lookup gives back the response. Every other file is kept |
| `Cache.SimpleCache.constructor` | cache.py:20-30 | Tier 1 is enabled exactly when the library imported and the client and collection were created |
| `Cache.SimpleCache.Get` | cache.py:36-52 | An enabled tier 1 that answers with `metadatas` decides the result. If the query raised or returned none, the exact-key file lookup does |
| `Cache.SimpleCache.Set` | cache.py:54-77 | The file tier after `set` is `StoredFiles`: skipped when tier 1's add succeeded, written otherwise, a failed write dropped |
| `Cache.KeyTreatsNoneAsEmpty` | cache.py:32-34 | `None` and `""` give the same key text, for the image hash and for the prompt |
| `Cache.KeyText` | cache.py:33 | Definition of `(image_hash or "") + "|" + (prompt or "")` |
| `Cache.SimpleCache.Key` | cache.py:32-34 | Definition of `_key`: the cache's digest of `KeyText` |
| `Cache.FileTierRoundTrip` | cache.py:46-75 | On the file tier, `set` then `get` of the same key returns the response, and a second `set` replaces it |
| `PipelineState.LastContentFound` | coder_agent.py:14-21 | The scan's answer is `""` when no message has the name. Otherwise it is the content of a message with that name that no later message shares |
| `PipelineState.LastContentNamed` | coder_agent.py:14-21 | Definition of the reverse scan's answer: the content of the last message with the name, `""` when there is none; `LastContentFound` and `LastContentUnique` state it |
| `PipelineState.LastContentUnique` | explain_agent.py:13-20 | A named message followed by no message of that name is the one the reverse scan finds |
| `PipelineState.FindLastContent` | coder_agent.py:14-21 | The reverse scan with `break` returns the content of the last message with the name, or `""` |
| `PipelineState.Accumulate` | coder_agent.py:43-45 | `acc += chunk` over the fragments gives their in-order concatenation |
| `PipelineState.MetaGet` | coder_agent.py:23 | Definition of `metadata.get(key, default)`; `Vision.UserPrompt` and `Coder.CoderOutcome` use it |
| `PipelineState.Assistant` | vision_agent.py:39-40 | Definition of a stage's named message as the graph runtime stores it (type `ai`); `IsStageOutput` and the stage lemmas use it |
| `PipelineState.ThinkNames` | vision_agent.py:39 | Each stage's thinking message is named after the stage with `_think` appended |
| `Vision.UserContents` | vision_agent.py:19-23 | The collected user parts are at most one per message, each the content of a user or human message, or of one named `user` |
| `Vision.IsUserMessage` | vision_agent.py:22 | Definition of a message that feeds the prompt: type `user` or `human`, or named `user`; `UserContentsSingle` and `UserContentsComplete` state its use |
| `Vision.UserContentsComplete` | vision_agent.py:19-23 | Every user or human message's content, and that of every message named `user`, is collected |
| `Vision.UserContentsAppend` | vision_agent.py:19-23 | Collection follows message order: the parts of two message lists are the parts of each, concatenated |
| `Vision.UserContentsSingle` | vision_agent.py:22-23 | One message contributes its content exactly when it is a user or human message or is named `user`, and nothing otherwise |
| `Vision.CollectUserParts` | vision_agent.py:19-23 | The collecting loop returns `UserContents` of the messages |
| `Vision.UserPrompt` | vision_agent.py:27-28 | The prompt is the joined, stripped user text when that is non-empty, else `metadata["prompt"]` (default `""`) |
| `Vision.JoinedPrompt` | vision_agent.py:27 | Definition of `"\n".join([p for p in parts if p]).strip()`; `JoinedPromptIsStripped` states its shape |
| `Vision.VisionPrompt` | vision_agent.py:17-28 | Definition of the stage's prompt once the metadata is known: `UserPrompt` of the state's messages |
| `Vision.ImageHash` | vision_agent.py:31 | Definition of `metadata.get("image_hash")`; `VisionKey` keys the cache with it |
| `Vision.ImagePresent` | vision_agent.py:47 | Definition of the truthiness of `user_image_b64`; `ImageFlagSuffix` states its effect on the prompt |
| `Vision.VisionKey` | vision_agent.py:34 | Definition of the cache key the stage's lookup and write share; `VisionCacheMiss` and `AnalyseAndStore` state that both use it |
| `Vision.CachedValue` | vision_agent.py:34 | Definition of what `cache.get` returns for the stage: tier 1's answer when it decides, else the file lookup; `VisionCacheHit` and `VisionCacheMiss` branch on its truthiness |
| `Vision.VisionThinking` | vision_agent.py:44-57 | Definition of the synchronous thinking call's text; `VisionCacheMiss` states that it is the `vision_think` content |
| `Vision.VisionFinal` | vision_agent.py:59-67 | Definition of the streamed analysis, accumulated; `VisionCacheMiss` states that it is the `vision` content and what is stored |
| `Vision.VisionRun` | vision_agent.py:11-80 | Definition of the stage: the AttributeError on None metadata, the cached pair on a truthy hit, otherwise the thinking and the accumulated stream with the cache write; `VisionFailsOnlyWithoutMetadata`, `VisionCacheHit` and `VisionCacheMiss` state it |
| `Vision.JoinedPromptIsStripped` | vision_agent.py:27 | The joined user text is empty or has no whitespace at either end |
| `Vision.ThinkPrompt` | vision_agent.py:45-48 | The thinking prompt is a system and a user message. The user message contains the user prompt and ends with `Image present: yes` exactly when an image is present |
| `Vision.ImageFlagSuffix` | vision_agent.py:47 | The image line ends with `yes` if and only if the flag is set |
| `Vision.GenPrompt` | vision_agent.py:60-63 | The generation prompt is a system and a user message, and the user message contains the user prompt |
| `Vision.VisionNode` | vision_agent.py:11-80 | The stage's result and the file tier afterwards are those of the specification `VisionRun` |
| `Vision.AnalyseAndStore` | vision_agent.py:44-80 | On a miss: the two messages are the thinking call's text and the accumulated stream. The file tier receives that text under the lookup's key, with the same image hash and prompt |
| `Vision.VisionFailsOnlyWithoutMetadata` | vision_agent.py:28-31 | The stage raises exactly when the metadata is None, with the AttributeError, and then writes nothing |
| `Vision.VisionCacheHit` | vision_agent.py:34-42 | A truthy cached value returns the fixed cached-thinking text and `str(cached)`. Nothing is written, and the backend is never consulted |
| `Vision.VisionCacheMiss` | vision_agent.py:44-80 | A falsy cached value (including `""`) gives `vision_think` with the sync thinking and `vision` with the accumulated stream. The analysis is then stored under the same image hash and prompt |
| `Vision.VisionReturnsPair` | vision_agent.py:37-80 | With metadata, the stage returns exactly two messages, `vision_think` then `vision` |
| `Coder.ThinkPrompt` | coder_agent.py:26-29 | The planning prompt is the fixed system message and a user message containing both the vision text and the user text |
| `Coder.GenPrompt` | coder_agent.py:38-41 | The generation prompt's user message contains the plan |
| `Coder.CoderNode` | coder_agent.py:10-52 | The node's result is that of the specification `CoderRun` |
| `Coder.CoderRun` | coder_agent.py:10-52 | Definition of the stage: the AttributeError on None metadata, otherwise the plan and the accumulated code; `CoderOutcome` and `CoderReadsLastVision` state it |
| `Coder.CoderThinking` | coder_agent.py:26-35 | Definition of the plan: the synchronous call on the last vision output and the metadata prompt; `CoderReadsLastVision` states what it reads |
| `Coder.CoderFinal` | coder_agent.py:37-45 | Definition of the code: the stream on the plan, accumulated; `CoderOutcome` states that it is the `coder` content |
| `Coder.CoderOutcome` | coder_agent.py:23-52 | The stage raises exactly when the metadata is None. Otherwise it returns `coder_think` with the plan, then `coder` with the accumulated stream on a prompt containing the plan |
| `Coder.CoderReadsLastVision` | coder_agent.py:14-31 | The plan is asked for on the content of the last `vision` message and the metadata prompt, whatever non-`vision` messages follow it |
| `Explain.ThinkPrompt` | explain_agent.py:23-26 | The planning prompt is the fixed system message and a user message containing the code |
| `Explain.GenPrompt` | explain_agent.py:35-38 | The generation prompt's user message contains the plan |
| `Explain.ExplainNode` | explain_agent.py:10-49 | The node's result is that of the specification `ExplainRun` |
| `Explain.ExplainRun` | explain_agent.py:10-49 | Definition of the stage: the plan on the last coder output and the accumulated explanation; `ExplainOutcome` and `ExplainReadsLastCoder` state it |
| `Explain.ExplainThinking` | explain_agent.py:22-32 | Definition of the plan: the synchronous call on the last coder output; `ExplainReadsLastCoder` states what it reads |
| `Explain.ExplainFinal` | explain_agent.py:34-42 | Definition of the explanation: the stream on the plan, accumulated; `ExplainOutcome` states that it is the `explain` content |
| `Explain.ExplainOutcome` | explain_agent.py:10-49 | The stage returns `explain_think` with the plan, then `explain` with the accumulated stream. The result does not depend on the image or the metadata |
| `Explain.ExplainReadsLastCoder` | explain_agent.py:13-28 | The plan is asked for on the content of the last `coder` message, whatever non-`coder` messages follow it |
| `Graph.ChunksFromJoin` | graph.py:104-105 | The chunks from position i concatenate to the content from i on |
| `Graph.ChunksFromShape` | graph.py:104-105 | The chunks from position i: each has 1 to K characters, and every chunk but the last has exactly K. There are `ceil((len - i) / K)` of them, and none when i is the end |
| `Graph.ChunksJoin` | graph.py:102-108 | A stage output's chunks concatenate back to the content |
| `Graph.ChunksShape` | graph.py:102-108 | There are `ceil(len / K)` chunks, every chunk but the last has exactly K characters, and empty content gives no chunk |
| `Graph.Chunks` | graph.py:103-105 | Definition of `[content[i:i + K] for i in range(0, len, K)]`; `ChunksJoin` and `ChunksShape` state its properties |
| `Graph.ChunksFrom` | graph.py:104-105 | Definition of the chunks from offset `i`; `ChunksFromJoin` and `ChunksFromShape` state their join and sizes |
| `Graph.ChunkSizeFor` | graph.py:103 | The chunk size is positive: 1024 for `coder`, 512 for any other phase |
| `Graph.IsFinalPhase` | graph.py:102 | Definition of the stage names whose messages are chunked; `EmissionPhases` and `SkippedMessagesLeaveNoTrace` use it |
| `Graph.MessageEmissions` | graph.py:87-108 | Definition of one message's events: none without a (non-empty) name, the whole content for a `_think` name, the chunks for a stage name, none otherwise |
| `Graph.Emissions` | graph.py:86 | Definition of the events of a message list, message by message; `EmissionsAppend` states that they follow message order |
| `Graph.MemoryAfter` | graph.py:96-106 | Definition of the run's memory after one `add` per event; `MemoryAfterShape` states its bound and its last item |
| `Graph.StepFor` | graph.py:96-98 | Definition of one event's step: the `<phase>_partial` write of `recent(10)`, then the yield; `StepWritesSnapshot` states its shape |
| `Graph.StepsOf` | graph.py:96-108 | Definition of the steps of a list of events; `StepsOfShape` and `EmissionStep` state that step i carries event i and the memory after i + 1 adds |
| `Graph.ApplyWrites` | graph.py:42 | Definition of a record after the shallow merges of a run's writes; `ApplyWritesGrows` states that no key is lost |
| `Graph.Recorded` | graph.py:42-43 | Definition of the session files after a run's writes: the run's record becomes the merged writes over its existing record; `RecordedStep` states one step of it |
| `Graph.Trace` | graph.py:79-111 | Definition of the steps for an execution outcome: one `error` step, or one step per emission then `done`; `TraceShape` states its shape |
| `Graph.DoneStep` | graph.py:110-111 | Definition of the closing step: the `status: done` write, then the `done` event; `CompletedRunMarksDone` states its effect |
| `Graph.ErrorStep` | graph.py:83 | Definition of the failure step: no write, one `error` event with the message; `TraceShape` states that it is the whole trace on failure |
| `Graph.EmissionStep` | graph.py:106-107 | Each event adds one `(phase, chunk)` item to the memory, and its step writes the memory as it is after that add |
| `Graph.RecordedStep` | graph.py:97 | A step's write merges into the run's record and leaves the other files untouched |
| `Graph.Emit` | graph.py:96-98 | Before one event, one memory add and one session write happen, and the step joins the trace. Memory, trace and session files stay in sync with the emissions |
| `Graph.EmitChunks` | graph.py:102-108 | The chunk loop emits exactly the content's K-chunks, in order, each with its memory add and session write |
| `Graph.EmitMessage` | graph.py:87-108 | One message contributes exactly its `MessageEmissions`: nothing without a name, one whole event for a `_think` name, its chunks for a stage name, nothing otherwise |
| `Graph.Stream` | graph.py:79-111 | The steps taken are `Trace(outcome)`. The session files are the writes of those steps, and are untouched after an execution error |
| `Graph.Execute` | graph.py:63-80 | Execution is vision, then coder, then explain, each fed the state with the previous stages' messages appended. The first failure ends it; otherwise the final messages are returned |
| `Graph.Executed` | graph.py:63-80 | Definition of `app.invoke`: the vision stage, then `AfterVision`, with the file tier the vision stage leaves |
| `Graph.AfterVision` | graph.py:68-70 | Definition of the rest of the run: a vision failure is the execution error; otherwise coder then explain on the accumulated messages, the coder's failure ending it |
| `Graph.InvokeStream` | graph.py:75-111 | A run's events, file tier and session files are those of the executed stages followed by the stream over their outcome |
| `Graph.EmissionsAppend` | graph.py:86 | Events follow message order: the emissions of two message lists are the emissions of each, concatenated |
| `Graph.SkippedMessagesLeaveNoTrace` | graph.py:87-102 | Messages with no name, or a name neither `_think` nor a stage, change nothing: no event, no memory add, no write |
| `Graph.EmissionPhases` | graph.py:94-102 | Every event phase is a `_think` name or a stage name |
| `Graph.StepsOfShape` | graph.py:86-108 | One step per emission; step i carries emission i and writes the memory after the first i + 1 adds |
| `Graph.MemoryAfterShape` | graph.py:77-107 | The run's memory never holds more than 12 items, and after each add its last item is that event's `(phase, chunk)` |
| `Graph.StepEvents` | graph.py:94-108 | Each emission's step yields its `(phase, chunk, sid)` with a phase other than `done`/`error`, after a `<phase>_partial` write |
| `Graph.TraceShape` | graph.py:79-111 | On an execution error the stream is exactly one `error` event with the message, and writes nothing. Otherwise it has one step per emission then `done` after the `{"status": "done"}` write. Every event carries the run's one id, no earlier event is `done` or `error`, and each earlier write is a 1-to-10-item snapshot ending with that event's item |
| `Graph.StepWritesSnapshot` | graph.py:96-97 | Each partial write is `{phase + "_partial": recent(10)}`, holding 1 to 10 items and ending with the event's own item |
| `Graph.CompletedRunMarksDone` | graph.py:110-111 | After a completed run the run's record exists and has `status` = `done`. It keeps every key it had before, and the other sessions are untouched |
| `Graph.ApplyWritesGrows` | graph.py:42 | Shallow merges never remove a key from the record |
| `Graph.StageEmissions` | graph.py:94-108 | A stage's two messages emit the whole thinking as one event, then the output's chunks |
| `Graph.ThinkEmission` | graph.py:94-99 | A `_think` message is one event holding its full content, even when that is empty |
| `Graph.FinalEmission` | graph.py:102-108 | A stage output emits its K-chunks under the stage's name |
| `Graph.StageOutputsStream` | graph.py:86-108 | After silent initial messages, the six stage messages emit in stage order |
| `Graph.StagePhaseChunks` | graph.py:102-103 | Per phase, the events of a run are its thinking text, or its output's chunks: 512 characters for `vision` and `explain`, 1024 for `coder` |
| `Graph.StageOutputsReassemble` | graph.py:102-108 | Concatenating the chunks of each stage's phase gives back that stage's output; each thinking phase has its one full text |
| `Graph.ExecutionOrder` | graph.py:67-70 | With metadata None, execution raises the AttributeError and writes nothing. Otherwise the final messages are the initial ones, then the vision pair, then the coder pair on the vision text, then the explain pair on the code |
| `Graph.AfterVisionPair` | graph.py:68-70 | After a successful vision stage, coder and explain run on the accumulated state and append their pairs |
| `Graph.CoderAfterVision` | graph.py:68 | The coder stage run after vision plans on vision's output |
| `Graph.ExplainAfterCoder` | graph.py:69 | The explain stage run after coder plans on coder's output |
| `Graph.RunStreamsStagesInOrder` | graph.py:67-111 | A completed run streams the vision, coder and explain phases in that order, then `done` |

## Left out

- The Streamlit front end (`app.py`) is not part of this model. Nor are image preprocessing (`preprocess.py`), audio transcription (`transcription.py`, `audio_agent.py`) and configuration loading (`config.py`). The model names are parameters (`Models`).
- LangGraph's `StateGraph`, `compile` and `invoke` are modelled as sequential composition that appends each stage's messages. The LangSmith tracing decorator (`maybe_trace`) adds no behaviour and is left out.
- The Ollama client is an oracle (`Backend`): what a synchronous or streaming call answers is a parameter. Network timeouts, `time.sleep`, `time.time` timestamps on memory items, logging and the `uuid4` session id are left out; the session id is a parameter.
- The similarity index (Chroma) is an oracle. What a query returns, including a match for a different key, and whether `add` succeeds are parameters. The payload `set` builds for it is not modelled, because the oracle decides what a later query returns.
- SHA-256, UTF-8 decoding with `errors="ignore"`, `json.dumps` and `str()` of containers, bytes and objects are abstract functions (`digest`, `Codecs`).
- Messages are modelled as the graph runtime delivers them: objects with a type, a name and a string content. The branches for plain dict messages in the stages and in `invoke_stream` are not modelled, because those branches are not reached once the runtime has converted the messages. A message content of `None`, which the `or ""` guards turn into `""`, is not modelled either; contents are always strings.
- Metadata values are strings. A `prompt` or `image_hash` that is present but not a string is not modelled. A state without a `metadata` key reads as the empty mapping (`Some(map[])`). A metadata of `None` is modelled, and makes the stages raise.
- File-system failures in `_write_session` propagate in the source. The model assumes session writes succeed. A session file that parses to a JSON value other than an object makes `obj.update` raise in the source; the model does not represent such a file, because run ids are fresh and a run's file does not exist before its first write. Cache file reads and writes that fail are modelled, as a miss or a dropped write.
- `Graph.Execute`: the final message list is the initial messages followed by the six stage messages, because each node's messages are appended to the state's list (graph.py:63-70); it is not only the six stage messages.
- `Graph.Execute`: the only stage failure the code can produce is the AttributeError raised by a `None` metadata. A backend failure never aborts a run, because `run_ollama` and `stream_ollama` never raise. The `try`/`except` blocks around them and around `cache.set` are therefore not modelled as separate paths.
- `Memory.ConversationMemory.Add`: the size bound `len(items) <= max_items` is kept only for capacities of at least 2. With capacity 0 or 1, `items[-0:]` keeps the whole list.
- `Graph.EmitMessage`: a name of `""` is treated like no name, as the `or` on the name makes it `None`.
- `Llm.Truthy`: the value model has no floats, and every opaque object is truthy. A `0.0` or an object with a falsy `__bool__`/`__len__` as a choice's `delta` or as a cached value cannot be represented.
- `Cache.StoredFiles`: a failed file write leaves the file tier as it was. A `write_text` that fails part-way can leave a truncated file in the source, which the next lookup reads as a miss; that partial write is not modelled.
