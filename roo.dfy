/** The Roo Code Cloud handler (src/api/providers/roo.ts): translation of the
    OpenAI-style chunk stream into text, reasoning and usage events, the task-id
    request header, and model resolution with its fallback record. */
module RooProvider {
  import opened Wrappers
  import opened ModelInfo

  /** The `reasoning_content` slot of a delta: absent, a string (possibly empty),
      or present with some other value. */
  datatype ReasoningContent = NoReasoning | ReasoningText(text: string) | NotAString

  /** `chunk.choices[0].delta`. */
  datatype Delta = Delta(content: Option<string>, reasoningContent: ReasoningContent)

  /** `chunk.usage`, whose counters may be missing. */
  datatype Usage = Usage(promptTokens: Option<int>, completionTokens: Option<int>)

  /** One streamed chunk; `delta` is `None` when there is no first choice or it has no delta. */
  datatype Chunk = Chunk(delta: Option<Delta>, usage: Option<Usage>)

  /** The events `createMessage` yields. */
  datatype Event =
    | Text(text: string)
    | Reasoning(text: string)
    | UsageEvent(inputTokens: int, outputTokens: int)

  /** `counter || 0` for a possibly missing token counter. */
  function CountOrZero(counter: Option<int>): int {
    match counter
    case None => 0
    case Some(n) => n
  }

  /** Position of an event kind inside one chunk's output. */
  function Rank(e: Event): nat {
    match e
    case Text(_) => 0
    case Reasoning(_) => 1
    case UsageEvent(_, _) => 2
  }

  /** The text event of a chunk: present when it has a delta whose content is truthy. */
  function TextPart(c: Chunk): seq<Event> {
    if c.delta.Some? && TruthyString(c.delta.value.content) then [Text(c.delta.value.content.value)] else []
  }

  /** The reasoning event of a chunk: present when `reasoning_content` is a string. */
  function ReasoningPart(c: Chunk): seq<Event> {
    if c.delta.Some? && c.delta.value.reasoningContent.ReasoningText?
    then [Reasoning(c.delta.value.reasoningContent.text)] else []
  }

  /** The usage event of a chunk: present when it carries usage. */
  function UsagePart(c: Chunk): seq<Event> {
    if c.usage.Some?
    then [UsageEvent(CountOrZero(c.usage.value.promptTokens), CountOrZero(c.usage.value.completionTokens))]
    else []
  }

  /** The events one chunk yields. */
  function ChunkEvents(c: Chunk): seq<Event> {
    TextPart(c) + ReasoningPart(c) + UsagePart(c)
  }

  /** Within one chunk: at most one event of each kind, text before reasoning
      before usage; each present exactly when the chunk has its field, carrying
      that field's value, and usage counters default to 0. */
  lemma ChunkEventsShape(c: Chunk)
    ensures c.delta.Some? && TruthyString(c.delta.value.content) ==> Text(c.delta.value.content.value) in ChunkEvents(c)
    ensures forall e :: e in ChunkEvents(c) && e.Text? ==>
      c.delta.Some? && TruthyString(c.delta.value.content) && e.text == c.delta.value.content.value
    ensures c.delta.Some? && c.delta.value.reasoningContent.ReasoningText? ==>
      Reasoning(c.delta.value.reasoningContent.text) in ChunkEvents(c)
    ensures forall e :: e in ChunkEvents(c) && e.Reasoning? ==>
      c.delta.Some? && c.delta.value.reasoningContent.ReasoningText?
      && e.text == c.delta.value.reasoningContent.text
    ensures c.usage.Some? ==>
      UsageEvent(CountOrZero(c.usage.value.promptTokens), CountOrZero(c.usage.value.completionTokens)) in ChunkEvents(c)
    ensures forall e :: e in ChunkEvents(c) && e.UsageEvent? ==>
      c.usage.Some?
      && e.inputTokens == CountOrZero(c.usage.value.promptTokens)
      && e.outputTokens == CountOrZero(c.usage.value.completionTokens)
    ensures forall i, j :: 0 <= i < j < |ChunkEvents(c)| ==> Rank(ChunkEvents(c)[i]) < Rank(ChunkEvents(c)[j])
  {
  }

  /** The events of a whole stream: each chunk's events, in chunk order. */
  function Translate(chunks: seq<Chunk>): seq<Event> {
    if chunks == [] then [] else ChunkEvents(chunks[0]) + Translate(chunks[1..])
  }

  /** Translation distributes over concatenation of chunk streams. */
  lemma {:induction false} TranslateAppend(a: seq<Chunk>, b: seq<Chunk>)
    ensures Translate(a + b) == Translate(a) + Translate(b)
  {
    if a == [] {
      assert a + b == b;
    } else {
      assert (a + b)[1..] == a[1..] + b;
      TranslateAppend(a[1..], b);
    }
  }

  /** Appending one chunk to a stream appends that chunk's events. */
  lemma SingleChunkStep(prefix: seq<Chunk>, c: Chunk)
    ensures Translate(prefix + [c]) == Translate(prefix) + ChunkEvents(c)
  {
    TranslateAppend(prefix, [c]);
    assert Translate([c]) == ChunkEvents(c) + Translate([]);
  }

  /** A chunk with neither a delta nor usage contributes no event. */
  lemma EmptyChunkYieldsNothing(before: seq<Chunk>, after: seq<Chunk>)
    ensures Translate(before + [Chunk(None, None)] + after) == Translate(before + after)
  {
    TranslateAppend(before + [Chunk(None, None)], after);
    TranslateAppend(before, [Chunk(None, None)]);
    TranslateAppend(before, after);
  }

  /** The texts of the text events, in order. */
  function TextsOf(events: seq<Event>): seq<string> {
    if events == [] then []
    else (if events[0].Text? then [events[0].text] else []) + TextsOf(events[1..])
  }

  /** The truthy `content` strings of a chunk stream, in order. */
  function ContentsOf(chunks: seq<Chunk>): seq<string> {
    if chunks == [] then []
    else (if chunks[0].delta.Some? && TruthyString(chunks[0].delta.value.content)
          then [chunks[0].delta.value.content.value] else []) + ContentsOf(chunks[1..])
  }

  lemma {:induction false} TextsOfAppend(a: seq<Event>, b: seq<Event>)
    ensures TextsOf(a + b) == TextsOf(a) + TextsOf(b)
  {
    if a == [] {
      assert a + b == b;
    } else {
      assert (a + b)[1..] == a[1..] + b;
      TextsOfAppend(a[1..], b);
    }
  }

  /** The text events carry exactly the non-empty contents, verbatim and in
      stream order. */
  lemma {:induction false} TextEventsAreContents(chunks: seq<Chunk>)
    ensures TextsOf(Translate(chunks)) == ContentsOf(chunks)
  {
    if chunks != [] {
      var c := chunks[0];
      TextsOfAppend(TextPart(c) + ReasoningPart(c) + UsagePart(c), Translate(chunks[1..]));
      TextsOfAppend(TextPart(c) + ReasoningPart(c), UsagePart(c));
      TextsOfAppend(TextPart(c), ReasoningPart(c));
      TextEventsAreContents(chunks[1..]);
    }
  }

  /** The number of usage events. */
  function UsageEventCount(events: seq<Event>): nat {
    if events == [] then 0
    else (if events[0].UsageEvent? then 1 else 0) + UsageEventCount(events[1..])
  }

  /** The number of chunks that carry usage. */
  function UsageChunkCount(chunks: seq<Chunk>): nat {
    if chunks == [] then 0
    else (if chunks[0].usage.Some? then 1 else 0) + UsageChunkCount(chunks[1..])
  }

  lemma {:induction false} UsageEventCountAppend(a: seq<Event>, b: seq<Event>)
    ensures UsageEventCount(a + b) == UsageEventCount(a) + UsageEventCount(b)
  {
    if a == [] {
      assert a + b == b;
    } else {
      assert (a + b)[1..] == a[1..] + b;
      UsageEventCountAppend(a[1..], b);
    }
  }

  /** One usage event per chunk that carries usage, and no other. */
  lemma {:induction false} OneUsageEventPerUsageChunk(chunks: seq<Chunk>)
    ensures UsageEventCount(Translate(chunks)) == UsageChunkCount(chunks)
  {
    if chunks != [] {
      var c := chunks[0];
      UsageEventCountAppend(TextPart(c) + ReasoningPart(c) + UsagePart(c), Translate(chunks[1..]));
      UsageEventCountAppend(TextPart(c) + ReasoningPart(c), UsagePart(c));
      UsageEventCountAppend(TextPart(c), ReasoningPart(c));
      OneUsageEventPerUsageChunk(chunks[1..]);
    }
  }

  /** Chunks carrying content only, usage only, both, and nothing yield
      text, usage, text, usage. */
  lemma FourChunkStream(a: string, b: string, u1: Usage, u2: Usage)
    requires a != "" && b != ""
    ensures Translate([Chunk(Some(Delta(Some(a), NoReasoning)), None),
                       Chunk(None, Some(u1)),
                       Chunk(Some(Delta(Some(b), NoReasoning)), Some(u2)),
                       Chunk(None, None)])
         == [Text(a), UsageEvent(CountOrZero(u1.promptTokens), CountOrZero(u1.completionTokens)),
             Text(b), UsageEvent(CountOrZero(u2.promptTokens), CountOrZero(u2.completionTokens))]
  {
    var c1 := Chunk(Some(Delta(Some(a), NoReasoning)), None);
    var c2 := Chunk(None, Some(u1));
    var c3 := Chunk(Some(Delta(Some(b), NoReasoning)), Some(u2));
    var c4 := Chunk(None, None);
    assert ChunkEvents(c1) == [Text(a)];
    assert ChunkEvents(c3) == [Text(b), UsageEvent(CountOrZero(u2.promptTokens), CountOrZero(u2.completionTokens))];
    assert ChunkEvents(c2) == [UsageEvent(CountOrZero(u1.promptTokens), CountOrZero(u1.completionTokens))];
    assert ChunkEvents(c4) == [];
    assert Translate([c4]) == [] by { assert [c4][1..] == []; }
    assert Translate([c3, c4]) == ChunkEvents(c3) by { assert [c3, c4][1..] == [c4]; }
    assert Translate([c2, c3, c4]) == ChunkEvents(c2) + ChunkEvents(c3) by { assert [c2, c3, c4][1..] == [c3, c4]; }
    assert [c1, c2, c3, c4][1..] == [c2, c3, c4];
  }

  /** The header that carries the task id. */
  const TaskIdHeader: string := "X-Roo-Task-ID"

  /** The request options passed to the transport: a header map, or none at all. */
  function RequestOptions(taskId: Option<string>): (r: Option<map<string, string>>)
    ensures r.Some? <==> TruthyString(taskId)
    ensures r.Some? ==> r.value.Keys == {TaskIdHeader} && r.value[TaskIdHeader] == taskId.value
  {
    if TruthyString(taskId) then Some(map[TaskIdHeader := taskId.value]) else None
  }

  /** `createMessage`: the request options it hands to the transport, and the
      events it yields, appended chunk by chunk as the stream delivers them. */
  method CreateMessage(taskId: Option<string>, chunks: seq<Chunk>)
    returns (options: Option<map<string, string>>, events: seq<Event>)
    ensures options == RequestOptions(taskId)
    ensures events == Translate(chunks)
  {
    options := RequestOptions(taskId);
    events := [];
    var i := 0;
    while i < |chunks|
      invariant 0 <= i <= |chunks|
      invariant events == Translate(chunks[..i])
    {
      var chunk := chunks[i];
      var produced: seq<Event> := [];
      if chunk.delta.Some? && TruthyString(chunk.delta.value.content) {
        produced := produced + [Text(chunk.delta.value.content.value)];
      }
      assert produced == TextPart(chunk);
      if chunk.delta.Some? && chunk.delta.value.reasoningContent.ReasoningText? {
        produced := produced + [Reasoning(chunk.delta.value.reasoningContent.text)];
      }
      assert produced == TextPart(chunk) + ReasoningPart(chunk);
      if chunk.usage.Some? {
        produced := produced + [UsageEvent(CountOrZero(chunk.usage.value.promptTokens),
                                           CountOrZero(chunk.usage.value.completionTokens))];
      }
      assert produced == ChunkEvents(chunk);
      SingleChunkStep(chunks[..i], chunk);
      assert chunks[..i + 1] == chunks[..i] + [chunk];
      events := events + produced;
      i := i + 1;
    }
    assert chunks[..i] == chunks;
  }

  /** The id and the effective capability record `getModel` returns. */
  datatype ResolvedModel = ResolvedModel(id: string, info: Record)

  /** The record used when neither the requested nor the default id is known. */
  const FallbackInfo: Record := map[
    MaxTokens := Num(16384.0),
    ContextWindow := Num(262144.0),
    SupportsImages := Bool(false),
    SupportsPromptCache := Bool(true),
    InputPrice := Num(0.0),
    OutputPrice := Num(0.0)]

  /** `getModel`: the requested id (or the default id when none is set) is
      returned verbatim; its record comes from the registry under that id, else
      under the default id, else from `FallbackInfo`, and is merged with the
      custom info in every case. */
  function GetModel(registry: map<string, Record>, defaultId: string,
                    apiModelId: Option<string>, customInfo: Option<Record>): (r: ResolvedModel)
    ensures r.id == if TruthyString(apiModelId) then apiModelId.value else defaultId
    ensures r.id in registry ==> r.info == SpreadMerge(registry[r.id], customInfo)
    ensures r.id !in registry && defaultId in registry ==>
      r.info == SpreadMerge(registry[defaultId], customInfo)
    ensures r.id !in registry && defaultId !in registry ==>
      r.info == SpreadMerge(FallbackInfo, customInfo)
  {
    var modelId := if TruthyString(apiModelId) then apiModelId.value else defaultId;
    var baseline :=
      if modelId in registry then Some(registry[modelId])
      else if defaultId in registry then Some(registry[defaultId])
      else None;
    match baseline
    case Some(info) => ResolvedModel(modelId, SpreadMerge(info, customInfo))
    case None => ResolvedModel(modelId, SpreadMerge(FallbackInfo, customInfo))
  }

  /** With no custom info, an unknown id resolves to the fallback record itself,
      under the id that was asked for. */
  lemma UnknownModelGetsFallback(registry: map<string, Record>, defaultId: string, apiModelId: string)
    requires apiModelId != "" && apiModelId !in registry && defaultId !in registry
    ensures GetModel(registry, defaultId, Some(apiModelId), None) == ResolvedModel(apiModelId, FallbackInfo)
  {
  }
}
