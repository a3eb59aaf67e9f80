/** The LLM adapter: normalisation of the backend's loosely shaped responses into
    text, the synchronous call and the streaming call with their fallbacks.
    The backend itself is an oracle: what it answers to a prompt is a parameter. */
module Llm {
  import opened Text

  /** The dynamic values a backend may hand back (JSON-like, plus bytes and opaque objects). */
  datatype Value =
    | Null
    | Bool(b: bool)
    | Int(i: int)
    | Str(s: string)
    | Bytes(data: seq<bv8>)
    | List(items: seq<Value>)
    | Dict(entries: seq<(string, Value)>)
    | Object(typeName: string)

  /** The text encodings the adapter leans on, kept abstract: UTF-8 decoding with
      invalid bytes dropped, `json.dumps` (None when it raises, as it does on bytes
      and opaque objects) and the generic `str()` of containers, bytes and objects. */
  datatype Codecs = Codecs(
    decodeUtf8Ignoring: seq<bv8> -> string,
    jsonDumps: Value -> Option<string>,
    reprOf: Value -> string)

  /** A prompt: the list of `{"role", "content"}` messages sent to the backend. */
  datatype ChatMessage = ChatMessage(role: string, content: string)
  type Prompt = seq<ChatMessage>

  /** What one synchronous `chat` call does: return a value or raise. */
  datatype CallOutcome = Returned(value: Value) | Raised(message: string)

  /** What one streaming `chat` call does: the chunks it delivers, and whether it
      raises after them (a stream that raises at once has no chunks). */
  datatype StreamRun = StreamRun(chunks: seq<Value>, raisesAtEnd: bool)

  /** The backend: absent (the client library did not import) or an oracle. */
  datatype Backend =
    | Offline
    | Online(chat: (Prompt, string) -> CallOutcome, chatStream: (Prompt, string) -> StreamRun)

  const SyncError := "[LLM SYNC ERROR]"
  const SimulatedSync := "[SIMULATED SYNC RESPONSE]"
  const StreamError := "[LLM ERROR]"

  /** The value for `key` in a dict's entries (`d.get(key)`), None when absent. */
  function Get(entries: seq<(string, Value)>, key: string): (r: Option<Value>)
    ensures r.Some? <==> exists i :: 0 <= i < |entries| && entries[i].0 == key
  {
    if entries == [] then None
    else if entries[0].0 == key then Some(entries[0].1)
    else
      var r := Get(entries[1..], key);
      assert forall i :: 1 <= i < |entries| ==> entries[i] == entries[1..][i - 1];
      r
  }

  /** `d.get(key)` is the value of the first entry with that key. */
  lemma {:induction false} GetFirst(entries: seq<(string, Value)>, key: string)
    ensures var r := Get(entries, key);
      r.Some? ==> exists i :: 0 <= i < |entries| && entries[i].0 == key && r.value == entries[i].1
                    && forall j :: 0 <= j < i ==> entries[j].0 != key
    decreases |entries|
  {
    if entries != [] && entries[0].0 == key {
      assert entries[0].0 == key && Get(entries, key).value == entries[0].1;
    } else if entries != [] {
      var rest := entries[1..];
      GetFirst(rest, key);
      var r := Get(entries, key);
      if r.Some? {
        var i :| 0 <= i < |rest| && rest[i].0 == key && r.value == rest[i].1 && forall j :: 0 <= j < i ==> rest[j].0 != key;
        assert entries[i + 1] == rest[i];
        forall j | 0 <= j < i + 1
          ensures entries[j].0 != key
        {
          if j > 0 {
            assert entries[j] == rest[j - 1];
          }
        }
      }
    }
  }

  predicate HasKey(entries: seq<(string, Value)>, key: string)
  {
    Get(entries, key).Some?
  }

  /** Python truthiness. */
  predicate Truthy(v: Value)
  {
    match v
    case Null => false
    case Bool(b) => b
    case Int(i) => i != 0
    case Str(s) => s != ""
    case Bytes(data) => data != []
    case List(items) => items != []
    case Dict(entries) => entries != []
    case Object(_) => true
  }

  function DigitChar(d: nat): char
    requires d < 10
  {
    "0123456789"[d]
  }

  function NatToString(n: nat): (r: string)
    ensures r != []
  {
    if n < 10 then [DigitChar(n)] else NatToString(n / 10) + [DigitChar(n % 10)]
  }

  /** `str(v)`: concrete for None, booleans, integers and strings, abstract otherwise. */
  function PyStr(v: Value, c: Codecs): string
  {
    match v
    case Null => "None"
    case Bool(b) => if b then "True" else "False"
    case Int(i) => if i < 0 then "-" + NatToString(-i) else NatToString(i)
    case Str(s) => s
    case _ => c.reprOf(v)
  }

  function TypeName(v: Value): string
  {
    match v
    case Null => "NoneType"
    case Bool(_) => "bool"
    case Int(_) => "int"
    case Str(_) => "str"
    case Bytes(_) => "bytes"
    case List(_) => "list"
    case Dict(_) => "dict"
    case Object(t) => t
  }

  /** The AttributeError raised by `first.get(...)` on a value that is not a dict. */
  function NoGetError(v: Value): string
  {
    "'" + TypeName(v) + "' object has no attribute 'get'"
  }

  /** The dict shape that makes the normaliser raise: no `message.content`, a
      non-empty `choices` list, and a first choice that is not a dict. */
  predicate FirstChoiceNotDict(v: Value)
  {
    && v.Dict?
    && !MessageContent(v.entries).Some?
    && var choices := Get(v.entries, "choices");
    && choices.Some? && choices.value.List? && choices.value.items != []
    && !choices.value.items[0].Dict?
  }

  /** `message.content` when `message` is a dict holding `content`. */
  function MessageContent(entries: seq<(string, Value)>): Option<Value>
  {
    var msg := Get(entries, "message");
    if msg.Some? && msg.value.Dict? && HasKey(msg.value.entries, "content")
    then Get(msg.value.entries, "content")
    else None
  }

  /** `_extract_text_from_chunk`: a value normalised to text, or the error it raises. */
  function ExtractText(v: Value, c: Codecs): (r: Result<string, string>)
    ensures r.Err? <==> FirstChoiceNotDict(v)
    ensures r.Err? ==> r.error == NoGetError(Get(v.entries, "choices").value.items[0])
    ensures v.Null? ==> r == Ok("")
    ensures v.Str? ==> r == Ok(v.s)
  {
    match v
    case Null => Ok("")
    case Str(s) => Ok(s)
    case Bytes(data) => Ok(c.decodeUtf8Ignoring(data))
    case Dict(entries) => ExtractFromDict(v, c)
    case _ => Ok(PyStr(v, c))
  }

  function ExtractFromDict(v: Value, c: Codecs): Result<string, string>
    requires v.Dict?
  {
    var content := MessageContent(v.entries);
    if content.Some? then Ok(PyStr(content.value, c))
    else
      var choices := Get(v.entries, "choices");
      if choices.Some? && choices.value.List? && choices.value.items != [] then
        var first := choices.value.items[0];
        if !first.Dict? then Err(NoGetError(first))
        else
          var d := Get(first.entries, "delta");
          var delta := if d.Some? && Truthy(d.value) then d.value else first;
          if delta.Dict? && HasKey(delta.entries, "content") then Ok(PyStr(Get(delta.entries, "content").value, c))
          else if delta.Dict? && HasKey(delta.entries, "text") then Ok(PyStr(Get(delta.entries, "text").value, c))
          else Ok(TopLevelText(v, c))
      else Ok(TopLevelText(v, c))
  }

  /** Top-level `content`, then `text`, then the JSON dump, then `str()`. */
  function TopLevelText(v: Value, c: Codecs): string
    requires v.Dict?
  {
    if HasKey(v.entries, "content") then PyStr(Get(v.entries, "content").value, c)
    else if HasKey(v.entries, "text") then PyStr(Get(v.entries, "text").value, c)
    else match c.jsonDumps(v)
      case Some(t) => t
      case None => c.reprOf(v)
  }

  /** `run_ollama`: never raises; a failing call or a response the normaliser
      cannot handle gives the sync sentinel. */
  function RunOllama(b: Backend, prompt: Prompt, model: string, c: Codecs): (r: string)
    ensures b.Offline? ==> r == SimulatedSync
    ensures b.Online? && b.chat(prompt, model).Raised? ==> r == SyncError
    ensures b.Online? && b.chat(prompt, model).Returned? ==>
      match ExtractText(b.chat(prompt, model).value, c)
      case Ok(t) => r == t
      case Err(_) => r == SyncError
  {
    match b
    case Offline => SimulatedSync
    case Online(chat, _) =>
      match chat(prompt, model)
      case Raised(_) => SyncError
      case Returned(v) =>
        match ExtractText(v, c)
        case Ok(t) => t
        case Err(_) => SyncError
  }

  /** The one fragment yielded after the stream broke: the synchronous retry's text
      (normalised when the response is a dict, `str()` otherwise), or the sentinel. */
  function FallbackFragment(o: CallOutcome, c: Codecs): string
  {
    match o
    case Raised(_) => StreamError
    case Returned(v) =>
      if v.Dict? then
        match ExtractText(v, c)
        case Ok(t) => t
        case Err(_) => StreamError
      else PyStr(v, c)
  }

  function SimulatedStreamText(model: string): string
  {
    "[SIMULATED STREAM: model=" + model + "] "
    + "This is a simulated streaming response for local development."
  }

  /** Each token followed by one space. */
  function SpaceAfterEach(tokens: seq<string>): (r: seq<string>)
    ensures |r| == |tokens|
    ensures forall i :: 0 <= i < |r| ==> r[i] == tokens[i] + " "
  {
    if tokens == [] then [] else [tokens[0] + " "] + SpaceAfterEach(tokens[1..])
  }

  /** The texts of the chunks delivered before the stream broke, and whether it
      broke on a chunk the normaliser rejected. */
  function Delivered(chunks: seq<Value>, c: Codecs): (seq<string>, bool)
  {
    if chunks == [] then ([], false)
    else match ExtractText(chunks[0], c)
      case Err(_) => ([], true)
      case Ok(t) =>
        var rest := Delivered(chunks[1..], c);
        ([t] + rest.0, rest.1)
  }

  /** Everything `stream_ollama` yields for one call. */
  function StreamFragments(b: Backend, prompt: Prompt, model: string, c: Codecs): seq<string>
  {
    match b
    case Offline => SpaceAfterEach(Split(SimulatedStreamText(model)))
    case Online(chat, chatStream) =>
      var run := chatStream(prompt, model);
      var (texts, broke) := Delivered(run.chunks, c);
      if broke || run.raisesAtEnd then texts + [FallbackFragment(chat(prompt, model), c)]
      else texts
  }

  /** `stream_ollama`: the generator, with everything it yields collected in order. */
  method StreamOllama(b: Backend, prompt: Prompt, model: string, c: Codecs) returns (frags: seq<string>)
    ensures frags == StreamFragments(b, prompt, model, c)
  {
    match b
    case Offline =>
      frags := StreamSimulated(model);
    case Online(chat, chatStream) =>
      frags := StreamOnline(chat, chatStream, prompt, model, c);
  }

  /** The offline branch: one fragment per token of the placeholder text. */
  method StreamSimulated(model: string) returns (frags: seq<string>)
    ensures frags == SpaceAfterEach(Split(SimulatedStreamText(model)))
  {
    var tokens := Split(SimulatedStreamText(model));
    frags := SpaceTokens(tokens);
  }

  /** `for tok in tokens: yield tok + " "`. */
  method SpaceTokens(tokens: seq<string>) returns (frags: seq<string>)
    ensures frags == SpaceAfterEach(tokens)
  {
    frags := [];
    var i := 0;
    while i < |tokens|
      invariant 0 <= i <= |tokens|
      invariant frags == SpaceAfterEach(tokens[..i])
    {
      assert tokens[..i + 1] == tokens[..i] + [tokens[i]];
      SpaceAfterEachAppend(tokens[..i], [tokens[i]]);
      frags := frags + [tokens[i] + " "];
      i := i + 1;
    }
    assert tokens[..i] == tokens;
  }

  /** The streaming branch: the chunks' texts until one is rejected, then the
      fallback fragment when the stream broke or raised at its end. */
  method StreamOnline(chat: (Prompt, string) -> CallOutcome, chatStream: (Prompt, string) -> StreamRun,
                      prompt: Prompt, model: string, c: Codecs) returns (frags: seq<string>)
    ensures frags == StreamFragments(Online(chat, chatStream), prompt, model, c)
  {
    var run := chatStream(prompt, model);
    frags := [];
    var broke := false;
    var i := 0;
    while i < |run.chunks|
      invariant 0 <= i <= |run.chunks|
      invariant frags + Delivered(run.chunks[i..], c).0 == Delivered(run.chunks, c).0
      invariant Delivered(run.chunks[i..], c).1 == Delivered(run.chunks, c).1
    {
      match ExtractText(run.chunks[i], c)
      case Err(_) =>
        broke := true;
        break;
      case Ok(t) =>
        assert run.chunks[i..][1..] == run.chunks[i + 1..];
        frags := frags + [t];
        i := i + 1;
    }
    assert broke ==> Delivered(run.chunks[i..], c) == ([], true);
    assert !broke ==> run.chunks[i..] == [];
    if broke || run.raisesAtEnd {
      frags := frags + [FallbackFragment(chat(prompt, model), c)];
    }
  }

  lemma {:induction false} SpaceAfterEachAppend(a: seq<string>, b: seq<string>)
    ensures SpaceAfterEach(a + b) == SpaceAfterEach(a) + SpaceAfterEach(b)
  {
    if a == [] {
      assert a + b == b;
    } else {
      assert (a + b)[1..] == a[1..] + b;
      SpaceAfterEachAppend(a[1..], b);
    }
  }

  /** What was delivered is a prefix of the chunks, each normalised. */
  lemma {:induction false} DeliveredIsNormalisedPrefix(chunks: seq<Value>, c: Codecs)
    ensures var (texts, broke) := Delivered(chunks, c);
      && |texts| <= |chunks|
      && (forall i :: 0 <= i < |texts| ==> ExtractText(chunks[i], c) == Ok(texts[i]))
      && (broke <==> |texts| < |chunks|)
      && (broke ==> ExtractText(chunks[|texts|], c).Err?)
  {
    if chunks != [] {
      DeliveredIsNormalisedPrefix(chunks[1..], c);
    }
  }

  /** A stream that delivers every chunk and ends cleanly yields exactly the
      normalised chunks, one fragment per chunk. */
  lemma StreamWithoutFailure(chat: (Prompt, string) -> CallOutcome, chatStream: (Prompt, string) -> StreamRun,
                             prompt: Prompt, model: string, c: Codecs)
    requires !chatStream(prompt, model).raisesAtEnd
    requires forall v :: v in chatStream(prompt, model).chunks ==> !FirstChoiceNotDict(v)
    ensures var chunks := chatStream(prompt, model).chunks;
      var frags := StreamFragments(Online(chat, chatStream), prompt, model, c);
      |frags| == |chunks| && forall i :: 0 <= i < |chunks| ==> ExtractText(chunks[i], c) == Ok(frags[i])
  {
    var chunks := chatStream(prompt, model).chunks;
    DeliveredIsNormalisedPrefix(chunks, c);
    forall i | 0 <= i < |chunks|
      ensures !FirstChoiceNotDict(chunks[i])
    {
      assert chunks[i] in chunks;
    }
  }

  /** When the stream breaks, whatever was yielded stays yielded and exactly one
      more fragment follows: the fallback. */
  lemma StreamFailureAddsOneFragment(chat: (Prompt, string) -> CallOutcome, chatStream: (Prompt, string) -> StreamRun,
                                     prompt: Prompt, model: string, c: Codecs)
    requires chatStream(prompt, model).raisesAtEnd || Delivered(chatStream(prompt, model).chunks, c).1
    ensures var frags := StreamFragments(Online(chat, chatStream), prompt, model, c);
      var texts := Delivered(chatStream(prompt, model).chunks, c).0;
      && frags == texts + [FallbackFragment(chat(prompt, model), c)]
      && |texts| <= |chatStream(prompt, model).chunks|
  {
    DeliveredIsNormalisedPrefix(chatStream(prompt, model).chunks, c);
  }

  /** Without a backend, one fragment per whitespace-separated token of the
      placeholder text, each followed by a space; nothing but spacing is lost. */
  lemma OfflineFragments(text: string)
    ensures var frags := SpaceAfterEach(Split(text));
      && |frags| == |Split(text)|
      && (forall i :: 0 <= i < |frags| ==> frags[i] == Split(text)[i] + " ")
      && NonSpace(Concat(frags)) == NonSpace(text)
  {
    SplitKeepsNonSpace(text);
    SplitTokens(text);
    SpacedTokensKeepNonSpace(Split(text));
  }

  lemma {:induction false} SpacedTokensKeepNonSpace(tokens: seq<string>)
    requires forall i :: 0 <= i < |tokens| ==> NoSpace(tokens[i])
    ensures NonSpace(Concat(SpaceAfterEach(tokens))) == Concat(tokens)
  {
    if tokens != [] {
      var t, rest := tokens[0], SpaceAfterEach(tokens[1..]);
      var spaced := [t + " "] + rest;
      assert spaced[1..] == rest;
      assert Concat(SpaceAfterEach(tokens)) == (t + " ") + Concat(rest);
      assert NonSpace(" ") == [] by {
        assert IsSpace(" "[0]);
      }
      assert NonSpace(t + " ") == t by {
        NonSpaceAppend(t, " ");
        NonSpaceOfWord(t);
      }
      NonSpaceAppend(t + " ", Concat(rest));
      SpacedTokensKeepNonSpace(tokens[1..]);
    }
  }

  /** The worked examples of the normaliser. */
  lemma ExtractMessageContentExample(c: Codecs)
    ensures ExtractText(Dict([("message", Dict([("content", Str("hello"))]))]), c) == Ok("hello")
  {
  }

  lemma ExtractDeltaExample(c: Codecs)
    ensures ExtractText(Dict([("choices", List([Dict([("delta", Dict([("content", Str("x"))]))])]))]), c) == Ok("x")
  {
  }

  lemma ExtractChoiceTextExample(c: Codecs)
    ensures ExtractText(Dict([("choices", List([Dict([("text", Str("y"))])]))]), c) == Ok("y")
  {
  }

  lemma ExtractDumpExample(c: Codecs)
    ensures c.jsonDumps(Dict([("foo", Int(1))])).Some? ==>
      ExtractText(Dict([("foo", Int(1))]), c) == Ok(c.jsonDumps(Dict([("foo", Int(1))])).value)
  {
  }

  lemma ExtractNonDictChoiceExample(c: Codecs)
    ensures ExtractText(Dict([("choices", List([Str("oops")]))]), c) == Err("'str' object has no attribute 'get'")
  {
    var entries := [("choices", List([Str("oops")]))];
    assert Get(entries, "message") == None;
    assert Get(entries, "choices") == Some(List([Str("oops")]));
    assert ExtractFromDict(Dict(entries), c) == Err(NoGetError(Str("oops")));
    StrHasNoGet("oops");
  }

  lemma StrHasNoGet(s: string)
    ensures NoGetError(Str(s)) == "'str' object has no attribute 'get'"
  {
  }

  /** `message.content` wins over `choices` and over top-level keys. */
  lemma MessageContentFirst(v: Value, c: Codecs)
    requires v.Dict? && MessageContent(v.entries).Some?
    ensures ExtractText(v, c) == Ok(PyStr(MessageContent(v.entries).value, c))
  {
  }

  /** `choices[0]` when `choices` is a non-empty list. */
  function FirstChoice(entries: seq<(string, Value)>): Option<Value>
  {
    var choices := Get(entries, "choices");
    if choices.Some? && choices.value.List? && choices.value.items != [] then Some(choices.value.items[0]) else None
  }

  /** `first.get("delta") or first`. */
  function DeltaOrFirst(first: Value): Value
    requires first.Dict?
  {
    var d := Get(first.entries, "delta");
    if d.Some? && Truthy(d.value) then d.value else first
  }

  /** The text field of a dict: `content` when present, `text` otherwise. */
  function ContentOrText(entries: seq<(string, Value)>): Option<Value>
  {
    if HasKey(entries, "content") then Get(entries, "content") else Get(entries, "text")
  }

  /** Without `message.content`, a first choice that is a dict decides whenever its
      source (the truthy `delta`, else the choice itself) is a dict with `content`
      or `text`: `content` before `text`, and no top-level key is looked at. */
  lemma ChoiceTextWins(v: Value, c: Codecs)
    requires v.Dict? && MessageContent(v.entries).None?
    requires FirstChoice(v.entries).Some? && FirstChoice(v.entries).value.Dict?
    requires var src := DeltaOrFirst(FirstChoice(v.entries).value);
      src.Dict? && ContentOrText(src.entries).Some?
    ensures var src := DeltaOrFirst(FirstChoice(v.entries).value);
      ExtractText(v, c) == Ok(PyStr(ContentOrText(src.entries).value, c))
  {
  }

  /** When neither `message.content` nor the first choice gives a text (no
      non-empty `choices` list, or a source without `content` and `text`), the
      top level decides: `content`, then `text`, then the JSON dump, then `str()`. */
  lemma TopLevelFallback(v: Value, c: Codecs)
    requires v.Dict? && MessageContent(v.entries).None?
    requires FirstChoice(v.entries).None?
      || (FirstChoice(v.entries).value.Dict?
          && var src := DeltaOrFirst(FirstChoice(v.entries).value);
             !(src.Dict? && ContentOrText(src.entries).Some?))
    ensures ExtractText(v, c) == Ok(
      if ContentOrText(v.entries).Some? then PyStr(ContentOrText(v.entries).value, c)
      else if c.jsonDumps(v).Some? then c.jsonDumps(v).value
      else c.reprOf(v))
  {
  }

  /** Values that are not dicts never make the normaliser raise: bytes are
      decoded, and anything other than None and str goes through `str()`. */
  lemma NonDictValues(v: Value, c: Codecs)
    requires !v.Dict?
    ensures ExtractText(v, c).Ok?
    ensures v.Bytes? ==> ExtractText(v, c) == Ok(c.decodeUtf8Ignoring(v.data))
    ensures !v.Null? && !v.Str? && !v.Bytes? ==> ExtractText(v, c) == Ok(PyStr(v, c))
  {
  }
}
