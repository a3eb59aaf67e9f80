/** The graph: the fixed stage order vision, coder, explain, and the event
    stream a run yields. The stream walks the final messages, re-chunks each
    stage output, records every event in a fresh conversation memory and in the
    run's session record, and ends with one `done` event, or yields a single
    `error` event when execution raised. */
module Graph {
  import opened Text
  import opened Llm
  import Cache
  import opened Memory
  import opened Session
  import opened PipelineState
  import Vision
  import Coder
  import Explain

  /** How many memory items each partial session write snapshots. */
  const SnapshotSize := 10

  /** A yielded `(phase, chunk, session_id)` triple. */
  datatype Event = Event(phase: string, chunk: string, sessionId: string)

  /** An event before the run id is attached to it. */
  datatype Emission = Emission(phase: string, chunk: string)

  /** One step of the stream: the session write that precedes the event (if
      any), then the event. */
  datatype Step = Step(write: Option<map<string, Field>>, event: Event)

  /** What `app.invoke` does: raise with a message, or return the final
      messages. */
  datatype ExecOutcome = Failed(message: string) | Completed(messages: seq<Message>)

  /** The names whose messages are re-chunked. */
  predicate IsFinalPhase(name: string)
  {
    name == "vision" || name == "coder" || name == "explain"
  }

  function ChunkSizeFor(phase: string): (k: nat)
    ensures k > 0
  {
    if phase == "coder" then 1024 else 512
  }

  /** `[s[j:j + k] for j in range(i, len(s), k)]`. */
  function ChunksFrom(s: string, k: nat, i: nat): seq<string>
    requires k > 0
    decreases if i >= |s| then 0 else |s| - i
  {
    if i >= |s| then [] else [s[i..Min(i + k, |s|)]] + ChunksFrom(s, k, i + k)
  }

  function Chunks(s: string, k: nat): seq<string>
    requires k > 0
  {
    ChunksFrom(s, k, 0)
  }

  /** The chunks put back together give the text from `i` on. */
  lemma {:induction false} ChunksFromJoin(s: string, k: nat, i: nat)
    requires k > 0 && i <= |s|
    ensures Concat(ChunksFrom(s, k, i)) == s[i..]
    decreases |s| - i
  {
    if i < |s| {
      var c := s[i..Min(i + k, |s|)];
      var rest := ChunksFrom(s, k, i + k);
      assert ([c] + rest)[1..] == rest;
      if i + k <= |s| {
        ChunksFromJoin(s, k, i + k);
        assert c + s[i + k..] == s[i..];
      } else {
        assert c == s[i..];
      }
    }
  }

  /** Every chunk is non-empty and at most `k` long, all but the last are
      exactly `k` long, and their number `n` is the ceiling of `len / k`:
      `(n - 1) * k < len <= n * k` (and `n == 0` only for the empty text). */
  lemma {:induction false} ChunksFromShape(s: string, k: nat, i: nat)
    requires k > 0 && i <= |s|
    ensures var r := ChunksFrom(s, k, i);
      && (forall j :: 0 <= j < |r| ==> 0 < |r[j]| <= k)
      && (forall j :: 0 <= j < |r| - 1 ==> |r[j]| == k)
      && |s| - i <= |r| * k
      && (|r| > 0 ==> (|r| - 1) * k < |s| - i)
      && (|r| == 0 <==> i == |s|)
    decreases |s| - i
  {
    if i < |s| {
      var c := s[i..Min(i + k, |s|)];
      var r := ChunksFrom(s, k, i + k);
      assert ChunksFrom(s, k, i) == [c] + r;
      if i + k <= |s| {
        ChunksFromShape(s, k, i + k);
        assert (|r| + 1) * k == |r| * k + k;
        assert |r| > 0 ==> (|r| - 1) * k + k == |r| * k;
      } else {
        assert r == [];
      }
    }
  }

  lemma ChunksJoin(s: string, k: nat)
    requires k > 0
    ensures Concat(Chunks(s, k)) == s
  {
    ChunksFromJoin(s, k, 0);
  }

  lemma ChunksShape(s: string, k: nat)
    requires k > 0
    ensures var r := Chunks(s, k);
      && (forall j :: 0 <= j < |r| ==> 0 < |r[j]| <= k)
      && (forall j :: 0 <= j < |r| - 1 ==> |r[j]| == k)
      && |s| <= |r| * k
      && (|r| > 0 ==> (|r| - 1) * k < |s|)
      && (|r| == 0 <==> s == "")
  {
    ChunksFromShape(s, k, 0);
  }

  /** The chunks of one phase, as emissions. */
  function Tag(phase: string, chunks: seq<string>): (r: seq<Emission>)
    ensures |r| == |chunks|
    ensures forall j :: 0 <= j < |r| ==> r[j] == Emission(phase, chunks[j])
  {
    seq(|chunks|, j requires 0 <= j < |chunks| => Emission(phase, chunks[j]))
  }

  /** What one message of the final state contributes: nothing when it has no
      (or an empty) name, its whole content when the name ends in `_think`, its
      chunks when it is a stage output, and nothing otherwise. */
  function MessageEmissions(m: Message): seq<Emission>
  {
    if m.name.None? || m.name.value == "" then []
    else if EndsWith(m.name.value, "_think") then [Emission(m.name.value, m.content)]
    else if IsFinalPhase(m.name.value) then Tag(m.name.value, Chunks(m.content, ChunkSizeFor(m.name.value)))
    else []
  }

  /** The emissions of the final messages, in message order. */
  function Emissions(ms: seq<Message>): seq<Emission>
  {
    if ms == [] then [] else Emissions(ms[..|ms| - 1]) + MessageEmissions(ms[|ms| - 1])
  }

  /** The run's memory after one `add` per emission. */
  function MemoryAfter(ems: seq<Emission>): seq<MemoryItem>
  {
    if ems == [] then []
    else
      var last := ems[|ems| - 1];
      Added(MemoryAfter(ems[..|ems| - 1]), MemoryItem(last.phase, last.chunk), DefaultCapacity)
  }

  /** The step of one emission, given the memory just after its `add`. */
  function StepFor(e: Emission, items: seq<MemoryItem>, sid: string): Step
  {
    Step(Some(map[e.phase + "_partial" := Snapshot(Recent(items, SnapshotSize))]), Event(e.phase, e.chunk, sid))
  }

  function StepsOf(ems: seq<Emission>, sid: string): seq<Step>
  {
    if ems == [] then []
    else StepsOf(ems[..|ems| - 1], sid) + [StepFor(ems[|ems| - 1], MemoryAfter(ems), sid)]
  }

  function DoneStep(sid: string): Step
  {
    Step(Some(map["status" := Scalar("done")]), Event("done", "completed", sid))
  }

  function ErrorStep(message: string, sid: string): Step
  {
    Step(None, Event("error", message, sid))
  }

  /** The steps `invoke_stream` takes for an execution outcome. */
  function Trace(outcome: ExecOutcome, sid: string): seq<Step>
  {
    match outcome
    case Failed(e) => [ErrorStep(e, sid)]
    case Completed(ms) => StepsOf(Emissions(ms), sid) + [DoneStep(sid)]
  }

  /** The record after the writes of the given steps, from `base`. */
  function ApplyWrites(base: map<string, Field>, steps: seq<Step>): map<string, Field>
  {
    if steps == [] then base
    else
      var before := ApplyWrites(base, steps[..|steps| - 1]);
      var last := steps[|steps| - 1];
      if last.write.Some? then Merged(before, last.write.value) else before
  }

  /** The session files after the steps: untouched when there are none, the run's
      record replaced by the merged writes otherwise. */
  function Recorded(records: map<string, SessionFile>, sid: string, steps: seq<Step>): map<string, SessionFile>
  {
    if steps == [] then records else records[sid := Record(ApplyWrites(Existing(records, sid), steps))]
  }

  lemma EmissionStep(ems: seq<Emission>, e: Emission, sid: string)
    ensures MemoryAfter(ems + [e]) == Added(MemoryAfter(ems), MemoryItem(e.phase, e.chunk), DefaultCapacity)
    ensures StepsOf(ems + [e], sid) == StepsOf(ems, sid) + [StepFor(e, MemoryAfter(ems + [e]), sid)]
  {
    assert (ems + [e])[..|ems|] == ems;
  }

  lemma RecordedStep(records: map<string, SessionFile>, sid: string, steps: seq<Step>, step: Step)
    requires step.write.Some?
    ensures Recorded(records, sid, steps + [step])
         == Recorded(records, sid, steps)[sid := Record(Merged(Existing(Recorded(records, sid, steps), sid), step.write.value))]
  {
    assert (steps + [step])[..|steps|] == steps;
  }

  /** The run's memory, trace and session files agree with the emissions made so
      far, starting from the session files `base`. */
  ghost predicate InSync(ems: seq<Emission>, trace: seq<Step>, sid: string, memory: ConversationMemory,
                         sessions: SessionStore, base: map<string, SessionFile>)
    reads memory, sessions
  {
    && memory.Valid() && memory.maxItems == DefaultCapacity
    && memory.items == MemoryAfter(ems)
    && trace == StepsOf(ems, sid)
    && sessions.records == Recorded(base, sid, trace)
  }

  /** Before each event: one `add(phase, chunk)` to the memory, then the write of
      `{phase + "_partial": memory.recent(10)}`; the step joins the trace. */
  method Emit(e: Emission, sid: string, memory: ConversationMemory, sessions: SessionStore,
              ghost ems: seq<Emission>, ghost base: map<string, SessionFile>, trace: seq<Step>)
    returns (trace': seq<Step>)
    requires InSync(ems, trace, sid, memory, sessions, base)
    modifies memory, sessions
    ensures InSync(ems + [e], trace', sid, memory, sessions, base)
  {
    EmissionStep(ems, e, sid);
    RecordedStep(base, sid, trace, StepFor(e, MemoryAfter(ems + [e]), sid));
    memory.Add(e.phase, e.chunk);
    var snapshot := memory.RecentItems(SnapshotSize);
    sessions.Write(sid, map[e.phase + "_partial" := Snapshot(snapshot)]);
    trace' := trace + [Step(Some(map[e.phase + "_partial" := Snapshot(snapshot)]), Event(e.phase, e.chunk, sid))];
  }

  /** `for i in range(0, len(content), chunk_size)`: one step per chunk. */
  method EmitChunks(name: string, content: string, sid: string, memory: ConversationMemory, sessions: SessionStore,
                    ghost ems: seq<Emission>, ghost base: map<string, SessionFile>, trace: seq<Step>)
    returns (trace': seq<Step>)
    requires InSync(ems, trace, sid, memory, sessions, base)
    modifies memory, sessions
    ensures InSync(ems + Tag(name, Chunks(content, ChunkSizeFor(name))), trace', sid, memory, sessions, base)
  {
    var k := ChunkSizeFor(name);
    ghost var done: seq<string> := [];
    ghost var cur := ems;
    trace' := trace;
    assert ems + Tag(name, done) == ems;
    var i := 0;
    while i < |content|
      invariant done + ChunksFrom(content, k, i) == Chunks(content, k)
      invariant cur == ems + Tag(name, done)
      invariant InSync(cur, trace', sid, memory, sessions, base)
      decreases |content| - i
    {
      var chunk := content[i..Min(i + k, |content|)];
      ChunksStep(content, k, i, done);
      trace' := Emit(Emission(name, chunk), sid, memory, sessions, cur, base, trace');
      TagAppend(ems, name, done, chunk);
      cur := cur + [Emission(name, chunk)];
      done := done + [chunk];
      i := i + k;
    }
    ChunksDone(content, k, i, done);
  }

  lemma ChunksStep(content: string, k: nat, i: nat, done: seq<string>)
    requires k > 0 && i < |content|
    requires done + ChunksFrom(content, k, i) == Chunks(content, k)
    ensures (done + [content[i..Min(i + k, |content|)]]) + ChunksFrom(content, k, i + k) == Chunks(content, k)
  {
    var chunk, rest := content[i..Min(i + k, |content|)], ChunksFrom(content, k, i + k);
    assert ChunksFrom(content, k, i) == [chunk] + rest;
    assert (done + [chunk]) + rest == done + ([chunk] + rest);
  }

  lemma ChunksDone(content: string, k: nat, i: nat, done: seq<string>)
    requires k > 0 && i >= |content|
    requires done + ChunksFrom(content, k, i) == Chunks(content, k)
    ensures done == Chunks(content, k)
  {
    assert done + [] == done;
  }

  lemma TagAppend(ems: seq<Emission>, name: string, done: seq<string>, chunk: string)
    ensures ems + Tag(name, done + [chunk]) == ems + Tag(name, done) + [Emission(name, chunk)]
  {
    assert Tag(name, done + [chunk]) == Tag(name, done) + [Emission(name, chunk)];
  }

  /** The handling of one message of the final state. */
  method EmitMessage(m: Message, sid: string, memory: ConversationMemory, sessions: SessionStore,
                     ghost ems: seq<Emission>, ghost base: map<string, SessionFile>, trace: seq<Step>)
    returns (trace': seq<Step>)
    requires InSync(ems, trace, sid, memory, sessions, base)
    modifies memory, sessions
    ensures InSync(ems + MessageEmissions(m), trace', sid, memory, sessions, base)
  {
    if m.name.None? || m.name.value == "" {
      trace' := trace;
      assert ems + MessageEmissions(m) == ems;
    } else if EndsWith(m.name.value, "_think") {
      trace' := Emit(Emission(m.name.value, m.content), sid, memory, sessions, ems, base, trace);
    } else if IsFinalPhase(m.name.value) {
      trace' := EmitChunks(m.name.value, m.content, sid, memory, sessions, ems, base, trace);
    } else {
      trace' := trace;
      assert ems + MessageEmissions(m) == ems;
    }
  }

  /** The loop of `invoke_stream` after `app.invoke`, with a fresh memory. */
  method Stream(outcome: ExecOutcome, sid: string, sessions: SessionStore) returns (trace: seq<Step>)
    modifies sessions
    ensures trace == Trace(outcome, sid)
    ensures sessions.records == Recorded(old(sessions.records), sid, if outcome.Failed? then [] else trace)
  {
    if outcome.Failed? {
      return [ErrorStep(outcome.message, sid)];
    }
    var ms := outcome.messages;
    var memory := new ConversationMemory(DefaultCapacity);
    ghost var base := sessions.records;
    trace := [];
    var j := 0;
    while j < |ms|
      invariant 0 <= j <= |ms|
      invariant InSync(Emissions(ms[..j]), trace, sid, memory, sessions, base)
    {
      assert ms[..j + 1][..j] == ms[..j];
      trace := EmitMessage(ms[j], sid, memory, sessions, Emissions(ms[..j]), base, trace);
      j := j + 1;
    }
    assert ms[..j] == ms;
    RecordedStep(base, sid, trace, DoneStep(sid));
    sessions.Write(sid, map["status" := Scalar("done")]);
    trace := trace + [DoneStep(sid)];
  }

  /** `app.invoke(initial_state)`: vision, then coder, then explain, each
      appending its two messages to the state; the first stage that raises ends
      the run with its error. */
  function Executed(st: State, useChroma: bool, digest: string -> string,
                    files: map<string, Cache.FileContent>, w: World): (ExecOutcome, map<string, Cache.FileContent>)
  {
    var vision := Vision.VisionRun(st, useChroma, digest, files, w);
    (AfterVision(st, vision.0, w), vision.1)
  }

  /** The rest of the run once the vision stage has returned: the coder on the
      state with the vision messages appended, then the explainer. */
  function AfterVision(st: State, vision: StageResult, w: World): ExecOutcome
  {
    if vision.Err? then Failed(vision.error)
    else
      var st1 := st.(messages := st.messages + vision.value);
      var coder := Coder.CoderRun(st1, w);
      if coder.Err? then Failed(coder.error)
      else
        var st2 := st1.(messages := st1.messages + coder.value);
        Completed(st2.messages + Explain.ExplainRun(st2, w))
  }

  /** The compiled graph's `invoke`. */
  method Execute(st: State, cache: Cache.SimpleCache, w: World) returns (outcome: ExecOutcome)
    modifies cache
    ensures (outcome, cache.files) == Executed(st, cache.useChroma, cache.digest, old(cache.files), w)
  {
    var vision := Vision.VisionNode(st, cache, w);
    if vision.Err? {
      return Failed(vision.error);
    }
    var st1 := st.(messages := st.messages + vision.value);
    var coder := Coder.CoderNode(st1, w);
    if coder.Err? {
      return Failed(coder.error);
    }
    var st2 := st1.(messages := st1.messages + coder.value);
    var explain := Explain.ExplainNode(st2, w);
    outcome := Completed(st2.messages + explain);
  }

  /** `invoke_stream(initial_state)` for the run id `sid`: execute, then stream. */
  method InvokeStream(st: State, cache: Cache.SimpleCache, sessions: SessionStore, w: World, sid: string)
    returns (trace: seq<Step>)
    modifies cache, sessions
    ensures var run := Executed(st, cache.useChroma, cache.digest, old(cache.files), w);
      && trace == Trace(run.0, sid)
      && cache.files == run.1
      && sessions.records == Recorded(old(sessions.records), sid, if run.0.Failed? then [] else trace)
  {
    ghost var run := Executed(st, cache.useChroma, cache.digest, cache.files, w);
    var outcome := Execute(st, cache, w);
    assert outcome == run.0 && cache.files == run.1;
    trace := Stream(outcome, sid, sessions);
  }

  lemma {:induction false} EmissionsAppend(a: seq<Message>, b: seq<Message>)
    ensures Emissions(a + b) == Emissions(a) + Emissions(b)
    decreases |b|
  {
    if b == [] {
      assert a + b == a;
    } else {
      var front, last := b[..|b| - 1], b[|b| - 1];
      var ab := a + b;
      assert ab[..|ab| - 1] == a + front && ab[|ab| - 1] == last;
      EmissionsAppend(a, front);
      AppendAssoc(Emissions(a), Emissions(front), MessageEmissions(last));
    }
  }

  /** Concatenation of event lists is associative. */
  lemma AppendAssoc(x: seq<Emission>, y: seq<Emission>, z: seq<Emission>)
    ensures x + y + z == x + (y + z)
  {
  }

  /** Messages that contribute nothing, one after another, contribute nothing. */
  lemma {:induction false} SilentMessages(ms: seq<Message>)
    requires forall k :: 0 <= k < |ms| ==> MessageEmissions(ms[k]) == []
    ensures Emissions(ms) == []
    decreases |ms|
  {
    if ms != [] {
      SilentMessages(ms[..|ms| - 1]);
    }
  }

  /** Messages without a name, and messages whose name neither ends in `_think`
      nor is a stage name, cause no event, no memory `add` and no session write:
      removing them leaves the run's steps unchanged. */
  lemma SkippedMessagesLeaveNoTrace(pre: seq<Message>, skipped: seq<Message>, post: seq<Message>, sid: string)
    requires forall k :: 0 <= k < |skipped| ==>
      skipped[k].name.None? || (!EndsWith(skipped[k].name.value, "_think") && !IsFinalPhase(skipped[k].name.value))
    ensures Trace(Completed(pre + skipped + post), sid) == Trace(Completed(pre + post), sid)
  {
    forall k | 0 <= k < |skipped|
      ensures MessageEmissions(skipped[k]) == []
    {
    }
    SilentMessages(skipped);
    EmissionsAppend(pre + skipped, post);
    EmissionsAppend(pre, skipped);
    EmissionsAppend(pre, post);
    assert Emissions(pre + skipped) == Emissions(pre);
    assert Emissions(pre + skipped + post) == Emissions(pre + post);
  }

  /** Every emitted phase is a `_think` name or a stage name. */
  lemma {:induction false} EmissionPhases(ms: seq<Message>)
    ensures forall e :: e in Emissions(ms) ==> EndsWith(e.phase, "_think") || IsFinalPhase(e.phase)
    decreases |ms|
  {
    if ms != [] {
      EmissionPhases(ms[..|ms| - 1]);
    }
  }

  /** Step `i` is the step of emission `i`, taken with the memory as it is right
      after that emission's `add`. */
  lemma {:induction false} StepsOfShape(ems: seq<Emission>, sid: string)
    ensures |StepsOf(ems, sid)| == |ems|
    ensures forall i {:trigger StepsOf(ems, sid)[i]} :: 0 <= i < |ems| ==>
      StepsOf(ems, sid)[i] == StepFor(ems[i], MemoryAfter(ems[..i + 1]), sid)
    decreases |ems|
  {
    if ems != [] {
      var front := ems[..|ems| - 1];
      var steps, prev := StepsOf(ems, sid), StepsOf(front, sid);
      StepsOfShape(front, sid);
      assert steps == prev + [StepFor(ems[|ems| - 1], MemoryAfter(ems), sid)];
      forall i | 0 <= i < |ems|
        ensures steps[i] == StepFor(ems[i], MemoryAfter(ems[..i + 1]), sid)
      {
        if i < |front| {
          assert steps[i] == prev[i];
          assert front[i] == ems[i] && front[..i + 1] == ems[..i + 1];
        } else {
          assert i + 1 == |ems| && ems[..i + 1] == ems;
          assert steps[i] == StepFor(ems[|ems| - 1], MemoryAfter(ems), sid);
        }
      }
    }
  }

  /** The run's memory never holds more than its capacity of 12, and its last
      item is the latest emission. */
  lemma {:induction false} MemoryAfterShape(ems: seq<Emission>)
    ensures |MemoryAfter(ems)| <= DefaultCapacity
    ensures ems != [] ==>
      |MemoryAfter(ems)| >= 1 && MemoryAfter(ems)[|MemoryAfter(ems)| - 1] == MemoryItem(ems[|ems| - 1].phase, ems[|ems| - 1].chunk)
    decreases |ems|
  {
    if ems != [] {
      var last := ems[|ems| - 1];
      MemoryAfterShape(ems[..|ems| - 1]);
      AddedShape(MemoryAfter(ems[..|ems| - 1]), MemoryItem(last.phase, last.chunk), DefaultCapacity);
    }
  }

  /** The shape of a run's steps. A failed execution yields exactly one `error`
      event carrying the message and writes nothing. A completed one yields one
      step per emission and then the `done` step, which writes
      `{"status": "done"}`; no earlier event is `done` or `error`; every event
      carries the run id; and every earlier step first writes its partial
      snapshot. */
  lemma TraceShape(outcome: ExecOutcome, sid: string)
    ensures outcome.Failed? ==> Trace(outcome, sid) == [Step(None, Event("error", outcome.message, sid))]
    ensures outcome.Completed? ==>
      var trace := Trace(outcome, sid);
      var ems := Emissions(outcome.messages);
      && |trace| == |ems| + 1
      && trace[|trace| - 1] == Step(Some(map["status" := Scalar("done")]), Event("done", "completed", sid))
      && (forall i :: 0 <= i < |trace| ==> trace[i].event.sessionId == sid)
      && (forall i :: 0 <= i < |trace| - 1 ==> trace[i].event == Event(ems[i].phase, ems[i].chunk, sid))
      && (forall i :: 0 <= i < |trace| - 1 ==> trace[i].event.phase != "done" && trace[i].event.phase != "error")
      && (forall i :: 0 <= i < |trace| - 1 ==> PartialWrite(trace[i], ems[i]))
  {
    if outcome.Completed? {
      var ems := Emissions(outcome.messages);
      var steps := StepsOf(ems, sid);
      var trace := Trace(outcome, sid);
      StepsOfShape(ems, sid);
      EmissionPhases(outcome.messages);
      StepEvents(ems, sid);
      assert trace == steps + [DoneStep(sid)];
      forall i | 0 <= i < |trace|
        ensures trace[i].event.sessionId == sid
      {
        if i < |steps| {
          assert trace[i] == steps[i];
        } else {
          assert trace[i] == DoneStep(sid);
        }
      }
      forall i | 0 <= i < |trace| - 1
        ensures trace[i].event == Event(ems[i].phase, ems[i].chunk, sid)
        ensures trace[i].event.phase != "done" && trace[i].event.phase != "error"
        ensures PartialWrite(trace[i], ems[i])
      {
        assert trace[i] == steps[i];
      }
    }
  }

  /** Each emission's step carries its event and first writes its snapshot. */
  lemma StepEvents(ems: seq<Emission>, sid: string)
    requires forall e :: e in ems ==> EndsWith(e.phase, "_think") || IsFinalPhase(e.phase)
    ensures |StepsOf(ems, sid)| == |ems|
    ensures forall i :: 0 <= i < |ems| ==>
      && StepsOf(ems, sid)[i].event == Event(ems[i].phase, ems[i].chunk, sid)
      && StepsOf(ems, sid)[i].event.phase != "done" && StepsOf(ems, sid)[i].event.phase != "error"
      && PartialWrite(StepsOf(ems, sid)[i], ems[i])
  {
    var steps := StepsOf(ems, sid);
    StepsOfShape(ems, sid);
    forall i | 0 <= i < |ems|
      ensures steps[i].event == Event(ems[i].phase, ems[i].chunk, sid)
      ensures steps[i].event.phase != "done" && steps[i].event.phase != "error"
      ensures PartialWrite(steps[i], ems[i])
    {
      assert steps[i] == StepFor(ems[i], MemoryAfter(ems[..i + 1]), sid);
      assert ems[i] in ems;
      NotTerminalPhase(ems[i].phase);
      StepWritesSnapshot(ems, sid, i);
    }
  }

  /** After a completed run the run's record says `"status": "done"`, keeps
      every field it had before the run, and no other session file changed. */
  lemma CompletedRunMarksDone(records: map<string, SessionFile>, ms: seq<Message>, sid: string)
    ensures var after := Recorded(records, sid, Trace(Completed(ms), sid));
      && sid in after && after[sid].Record?
      && "status" in after[sid].fields && after[sid].fields["status"] == Scalar("done")
      && Existing(records, sid).Keys <= after[sid].fields.Keys
      && (forall k :: k in records && k != sid ==> k in after && after[k] == records[k])
  {
    var steps := StepsOf(Emissions(ms), sid);
    var trace := steps + [DoneStep(sid)];
    assert trace[..|trace| - 1] == steps;
    ApplyWritesGrows(Existing(records, sid), steps);
  }

  /** Session writes only merge: no field of the record is ever dropped. */
  lemma {:induction false} ApplyWritesGrows(base: map<string, Field>, steps: seq<Step>)
    ensures base.Keys <= ApplyWrites(base, steps).Keys
    decreases |steps|
  {
    if steps != [] {
      ApplyWritesGrows(base, steps[..|steps| - 1]);
    }
  }

  /** The write before an emission's event: `{phase + "_partial": snapshot}`
      where the snapshot holds 1 to 10 items and ends with `(phase, chunk)`. */
  ghost predicate PartialWrite(step: Step, e: Emission)
  {
    && step.write.Some?
    && step.write.value.Keys == {e.phase + "_partial"}
    && step.write.value[e.phase + "_partial"].Snapshot?
    && var snap := step.write.value[e.phase + "_partial"].items;
       1 <= |snap| <= SnapshotSize && snap[|snap| - 1] == MemoryItem(e.phase, e.chunk)
  }

  /** No emitted phase can be taken for the terminal `done` or `error`. */
  lemma NotTerminalPhase(phase: string)
    requires EndsWith(phase, "_think") || IsFinalPhase(phase)
    ensures phase != "done" && phase != "error"
  {
  }

  lemma StepWritesSnapshot(ems: seq<Emission>, sid: string, i: int)
    requires 0 <= i < |ems|
    ensures PartialWrite(StepFor(ems[i], MemoryAfter(ems[..i + 1]), sid), ems[i])
  {
    MemoryAfterShape(ems[..i + 1]);
    assert ems[..i + 1][i] == ems[i];
  }

  /** The chunks of one phase, in order: what a consumer accumulates for it. */
  function ChunksOfPhase(ems: seq<Emission>, phase: string): seq<string>
  {
    if ems == [] then []
    else
      var rest := ChunksOfPhase(ems[..|ems| - 1], phase);
      if ems[|ems| - 1].phase == phase then rest + [ems[|ems| - 1].chunk] else rest
  }

  lemma {:induction false} ChunksOfPhaseAppend(a: seq<Emission>, b: seq<Emission>, phase: string)
    ensures ChunksOfPhase(a + b, phase) == ChunksOfPhase(a, phase) + ChunksOfPhase(b, phase)
    decreases |b|
  {
    if b == [] {
      assert a + b == a;
    } else {
      var front := b[..|b| - 1];
      assert (a + b)[..|a + b| - 1] == a + front;
      assert (a + b)[|a + b| - 1] == b[|b| - 1];
      ChunksOfPhaseAppend(a, front, phase);
    }
  }

  lemma {:induction false} ChunksOfTag(name: string, chunks: seq<string>, phase: string)
    ensures ChunksOfPhase(Tag(name, chunks), phase) == if name == phase then chunks else []
    decreases |chunks|
  {
    if chunks != [] {
      var front := chunks[..|chunks| - 1];
      assert Tag(name, chunks)[..|chunks| - 1] == Tag(name, front);
      ChunksOfTag(name, front, phase);
      assert front + [chunks[|chunks| - 1]] == chunks;
    }
  }

  lemma ChunksOfSingle(e: Emission, phase: string)
    ensures ChunksOfPhase([e], phase) == if e.phase == phase then [e.chunk] else []
  {
    assert [e][..0] == [];
  }

  /** The events of a completed run whose state holds the initial messages
      (which emit nothing) followed by the six stage messages: one `_think`
      event per stage and then that stage's chunks, stage by stage in the fixed
      order. */
  lemma StageOutputsStream(init: seq<Message>, vt: string, v: string, ct: string, c: string, et: string, e: string)
    requires Emissions(init) == []
    ensures Emissions(init + [Assistant("vision_think", vt), Assistant("vision", v)]
                           + [Assistant("coder_think", ct), Assistant("coder", c)]
                           + [Assistant("explain_think", et), Assistant("explain", e)])
         == StageEmissionsOf(vt, v, ct, c, et, e)
  {
    ThinkNames();
    var m1, m2 := Assistant("vision_think", vt), Assistant("vision", v);
    var m3, m4 := Assistant("coder_think", ct), Assistant("coder", c);
    var m5, m6 := Assistant("explain_think", et), Assistant("explain", e);
    var ms1 := init + [m1, m2];
    var ms2 := ms1 + [m3, m4];
    StageEmissions(init, "vision", vt, v);
    assert [] + [Emission("vision_think", vt)] == [Emission("vision_think", vt)];
    StageEmissions(ms1, "coder", ct, c);
    StageEmissions(ms2, "explain", et, e);
  }

  /** A stage's two messages add its `_think` emission and then its chunks. */
  lemma StageEmissions(ms: seq<Message>, stage: string, thinking: string, final: string)
    requires IsFinalPhase(stage)
    ensures Emissions(ms + [Assistant(stage + "_think", thinking), Assistant(stage, final)])
         == Emissions(ms) + [Emission(stage + "_think", thinking)] + Tag(stage, Chunks(final, ChunkSizeFor(stage)))
  {
    var think, out := Assistant(stage + "_think", thinking), Assistant(stage, final);
    var all := ms + [think, out];
    assert all[..|all| - 1] == ms + [think] && all[|all| - 1] == out;
    assert (ms + [think])[..|ms|] == ms && (ms + [think])[|ms|] == think;
    ThinkEmission(stage, thinking);
    FinalEmission(stage, final);
  }

  lemma ThinkEmission(stage: string, thinking: string)
    ensures MessageEmissions(Assistant(stage + "_think", thinking)) == [Emission(stage + "_think", thinking)]
  {
    assert (stage + "_think")[|stage|..] == "_think";
  }

  lemma FinalEmission(stage: string, final: string)
    requires IsFinalPhase(stage)
    ensures MessageEmissions(Assistant(stage, final)) == Tag(stage, Chunks(final, ChunkSizeFor(stage)))
  {
    assert !EndsWith(stage, "_think");
  }

  /** The stage outputs' emissions, as `StageOutputsStream` gives them. */
  function StageEmissionsOf(vt: string, v: string, ct: string, c: string, et: string, e: string): seq<Emission>
  {
    [Emission("vision_think", vt)] + Tag("vision", Chunks(v, 512))
    + [Emission("coder_think", ct)] + Tag("coder", Chunks(c, 1024))
    + [Emission("explain_think", et)] + Tag("explain", Chunks(e, 512))
  }

  lemma StagePhaseChunks(vt: string, v: string, ct: string, c: string, et: string, e: string, phase: string)
    ensures ChunksOfPhase(StageEmissionsOf(vt, v, ct, c, et, e), phase)
         == (if phase == "vision_think" then [vt] else []) + (if phase == "vision" then Chunks(v, 512) else [])
          + (if phase == "coder_think" then [ct] else []) + (if phase == "coder" then Chunks(c, 1024) else [])
          + (if phase == "explain_think" then [et] else []) + (if phase == "explain" then Chunks(e, 512) else [])
  {
    var s1, s2, s3 := [Emission("vision_think", vt)], Tag("vision", Chunks(v, 512)), [Emission("coder_think", ct)];
    var s4, s5, s6 := Tag("coder", Chunks(c, 1024)), [Emission("explain_think", et)], Tag("explain", Chunks(e, 512));
    ChunksOfPhaseAppend(s1 + s2 + s3 + s4 + s5, s6, phase);
    ChunksOfPhaseAppend(s1 + s2 + s3 + s4, s5, phase);
    ChunksOfPhaseAppend(s1 + s2 + s3, s4, phase);
    ChunksOfPhaseAppend(s1 + s2, s3, phase);
    ChunksOfPhaseAppend(s1, s2, phase);
    ChunksOfSingle(Emission("vision_think", vt), phase);
    ChunksOfSingle(Emission("coder_think", ct), phase);
    ChunksOfSingle(Emission("explain_think", et), phase);
    ChunksOfTag("vision", Chunks(v, 512), phase);
    ChunksOfTag("coder", Chunks(c, 1024), phase);
    ChunksOfTag("explain", Chunks(e, 512), phase);
  }

  /** A consumer that accumulates the chunks of each stage phase gets the stage's
      full output back, and each `_think` phase carries exactly its one text. */
  lemma StageOutputsReassemble(vt: string, v: string, ct: string, c: string, et: string, e: string)
    ensures var ems := StageEmissionsOf(vt, v, ct, c, et, e);
      && Concat(ChunksOfPhase(ems, "vision")) == v
      && Concat(ChunksOfPhase(ems, "coder")) == c
      && Concat(ChunksOfPhase(ems, "explain")) == e
      && ChunksOfPhase(ems, "vision_think") == [vt]
      && ChunksOfPhase(ems, "coder_think") == [ct]
      && ChunksOfPhase(ems, "explain_think") == [et]
  {
    VisionPhaseReassembles(vt, v, ct, c, et, e);
    CoderPhaseReassembles(vt, v, ct, c, et, e);
    ExplainPhaseReassembles(vt, v, ct, c, et, e);
    ThinkPhasesReassemble(vt, v, ct, c, et, e);
  }

  lemma VisionPhaseReassembles(vt: string, v: string, ct: string, c: string, et: string, e: string)
    ensures Concat(ChunksOfPhase(StageEmissionsOf(vt, v, ct, c, et, e), "vision")) == v
  {
    DistinctPhases();
    StagePhaseChunks(vt, v, ct, c, et, e, "vision");
    var none: seq<string> := [];
    assert none + Chunks(v, 512) + none + none + none + none == Chunks(v, 512);
    ChunksJoin(v, 512);
  }

  lemma CoderPhaseReassembles(vt: string, v: string, ct: string, c: string, et: string, e: string)
    ensures Concat(ChunksOfPhase(StageEmissionsOf(vt, v, ct, c, et, e), "coder")) == c
  {
    DistinctPhases();
    StagePhaseChunks(vt, v, ct, c, et, e, "coder");
    var none: seq<string> := [];
    assert none + none + none + Chunks(c, 1024) + none + none == Chunks(c, 1024);
    ChunksJoin(c, 1024);
  }

  lemma ExplainPhaseReassembles(vt: string, v: string, ct: string, c: string, et: string, e: string)
    ensures Concat(ChunksOfPhase(StageEmissionsOf(vt, v, ct, c, et, e), "explain")) == e
  {
    DistinctPhases();
    StagePhaseChunks(vt, v, ct, c, et, e, "explain");
    var none: seq<string> := [];
    assert none + none + none + none + none + Chunks(e, 512) == Chunks(e, 512);
    ChunksJoin(e, 512);
  }

  lemma ThinkPhasesReassemble(vt: string, v: string, ct: string, c: string, et: string, e: string)
    ensures var ems := StageEmissionsOf(vt, v, ct, c, et, e);
      && ChunksOfPhase(ems, "vision_think") == [vt]
      && ChunksOfPhase(ems, "coder_think") == [ct]
      && ChunksOfPhase(ems, "explain_think") == [et]
  {
    DistinctPhases();
    StagePhaseChunks(vt, v, ct, c, et, e, "vision_think");
    StagePhaseChunks(vt, v, ct, c, et, e, "coder_think");
    StagePhaseChunks(vt, v, ct, c, et, e, "explain_think");
  }

  lemma DistinctPhases()
    ensures "vision" != "coder" && "vision" != "explain" && "coder" != "explain"
    ensures "vision_think" != "vision" && "vision_think" != "coder" && "vision_think" != "explain"
    ensures "coder_think" != "vision" && "coder_think" != "coder" && "coder_think" != "explain"
    ensures "explain_think" != "vision" && "explain_think" != "coder" && "explain_think" != "explain"
    ensures "vision_think" != "coder_think" && "vision_think" != "explain_think" && "coder_think" != "explain_think"
  {
  }

  /** The fixed edge order. Without metadata the vision stage raises, the run
      fails with that error and the cache is untouched. Otherwise vision returns
      its two messages, the coder plans from the vision output and the metadata
      prompt, the explainer plans from the coder output, and the final state is
      the initial messages followed by the six stage messages in stage order. */
  lemma ExecutionOrder(st: State, useChroma: bool, digest: string -> string,
                       files: map<string, Cache.FileContent>, w: World)
    ensures st.metadata.None? ==> Executed(st, useChroma, digest, files, w) == (Failed(NoneGetError), files)
    ensures st.metadata.Some? ==>
      var vision := Vision.VisionRun(st, useChroma, digest, files, w);
      && vision.0.Ok? && |vision.0.value| == 2
      && vision.0.value == [Assistant("vision_think", vision.0.value[0].content), Assistant("vision", vision.0.value[1].content)]
      && var coderThinking := RunOllama(w.backend, Coder.ThinkPrompt(vision.0.value[1].content, MetaGet(st.metadata.value, "prompt", "")),
                                        w.models.coder, w.codecs);
         var coderText := Coder.CoderFinal(coderThinking, w);
         var explainThinking := RunOllama(w.backend, Explain.ThinkPrompt(coderText), w.models.explain, w.codecs);
         Executed(st, useChroma, digest, files, w)
           == (Completed(st.messages + vision.0.value
                         + [Assistant("coder_think", coderThinking), Assistant("coder", coderText)]
                         + [Assistant("explain_think", explainThinking), Assistant("explain", Explain.ExplainFinal(explainThinking, w))]),
               vision.1)
  {
    if st.metadata.Some? {
      var vision := Vision.VisionRun(st, useChroma, digest, files, w);
      Vision.VisionReturnsPair(st, useChroma, digest, files, w);
      var vr := vision.0.value;
      AfterVisionPair(st, vr[0].content, vr[1].content, w);
    }
  }

  /** Once vision has returned its pair, the coder and the explainer each add
      theirs, each planning from the previous stage's output. */
  lemma AfterVisionPair(st: State, visionThinking: string, visionText: string, w: World)
    requires st.metadata.Some?
    ensures var coderThinking := RunOllama(w.backend, Coder.ThinkPrompt(visionText, MetaGet(st.metadata.value, "prompt", "")),
                                           w.models.coder, w.codecs);
      var coderText := Coder.CoderFinal(coderThinking, w);
      var explainThinking := RunOllama(w.backend, Explain.ThinkPrompt(coderText), w.models.explain, w.codecs);
      var pair := [Assistant("vision_think", visionThinking), Assistant("vision", visionText)];
      AfterVision(st, Ok(pair), w)
        == Completed(st.messages + pair
                     + [Assistant("coder_think", coderThinking), Assistant("coder", coderText)]
                     + [Assistant("explain_think", explainThinking), Assistant("explain", Explain.ExplainFinal(explainThinking, w))])
  {
    var pair := [Assistant("vision_think", visionThinking), Assistant("vision", visionText)];
    var st1 := st.(messages := st.messages + pair);
    CoderAfterVision(st, visionThinking, visionText, w);
    var coder := Coder.CoderRun(st1, w);
    ExplainAfterCoder(st1, coder.value[0].content, coder.value[1].content, w);
  }

  /** The coder, run on a state ending with the vision pair, plans from the
      vision output. */
  lemma CoderAfterVision(st: State, visionThinking: string, visionText: string, w: World)
    requires st.metadata.Some?
    ensures var thinking := RunOllama(w.backend, Coder.ThinkPrompt(visionText, MetaGet(st.metadata.value, "prompt", "")),
                                      w.models.coder, w.codecs);
      Coder.CoderRun(st.(messages := st.messages + [Assistant("vision_think", visionThinking), Assistant("vision", visionText)]), w)
        == Ok([Assistant("coder_think", thinking), Assistant("coder", Coder.CoderFinal(thinking, w))])
  {
    var pair := [Assistant("vision_think", visionThinking), Assistant("vision", visionText)];
    Coder.CoderReadsLastVision(st.messages + [pair[0]], visionText, [], st.metadata.value, w);
    assert st.messages + [pair[0]] + [Assistant("vision", visionText)] + [] == st.messages + pair;
  }

  /** The explainer, run on a state ending with the coder pair, plans from the
      coder output. */
  lemma ExplainAfterCoder(st: State, coderThinking: string, coderText: string, w: World)
    ensures var thinking := RunOllama(w.backend, Explain.ThinkPrompt(coderText), w.models.explain, w.codecs);
      Explain.ExplainRun(st.(messages := st.messages + [Assistant("coder_think", coderThinking), Assistant("coder", coderText)]), w)
        == [Assistant("explain_think", thinking), Assistant("explain", Explain.ExplainFinal(thinking, w))]
  {
    var pair := [Assistant("coder_think", coderThinking), Assistant("coder", coderText)];
    Explain.ExplainReadsLastCoder(st.messages + [pair[0]], coderText, [], w);
    assert st.messages + [pair[0]] + [Assistant("coder", coderText)] + [] == st.messages + pair;
  }

  /** End to end: when the initial messages emit nothing and the metadata is
      present, the run yields the vision thinking, the vision chunks, the coder
      thinking, the coder chunks, the explain thinking, the explain chunks, and
      `done`, in that order. */
  lemma RunStreamsStagesInOrder(init: seq<Message>, vt: string, v: string, ct: string, c: string,
                                et: string, e: string, sid: string)
    requires Emissions(init) == []
    ensures Trace(Completed(init + [Assistant("vision_think", vt), Assistant("vision", v)]
                                 + [Assistant("coder_think", ct), Assistant("coder", c)]
                                 + [Assistant("explain_think", et), Assistant("explain", e)]), sid)
         == StepsOf(StageEmissionsOf(vt, v, ct, c, et, e), sid) + [DoneStep(sid)]
  {
    StageOutputsStream(init, vt, v, ct, c, et, e);
  }
}
