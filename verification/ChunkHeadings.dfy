/** What the chunks of an Anthropic stream say besides content: id, model, token counts and finish reason. */
module ChunkHeadings {
  import opened Wrappers
  import opened StreamTypes
  import opened AnthropicMessage
  import A = AnthropicToOpenAI
  import O = OpenAIToAnthropic

  function PromptTokens(chunks: seq<Chunk>): int {
    if chunks == [] then 0
    else
      var u := chunks[|chunks| - 1].usage;
      PromptTokens(chunks[..|chunks| - 1]) + if u.Some? then u.value.promptTokens else 0
  }

  function CompletionTokens(chunks: seq<Chunk>): int {
    if chunks == [] then 0
    else
      var u := chunks[|chunks| - 1].usage;
      CompletionTokens(chunks[..|chunks| - 1]) + if u.Some? then u.value.completionTokens else 0
  }

  /** The chunk speaks of the message under its model and, if it has one, its id. */
  predicate Names(c: Chunk, m: Message) {
    c.model == m.model && (m.id != "" ==> c.id == m.id) && (m.id == "" ==> "chatcmpl-" <= c.id)
  }

  /** The finish reason the chunks gave, if any, for a message that stopped for `stop`. */
  predicate TellsStop(finish: Option<FinishReason>, stop: Option<StopReason>) {
    && (finish == None <==> stop == None)
    && (finish == Some(FinishLength) <==> stop == Some(MaxTokens))
    && (finish == Some(FinishToolCalls) <==> stop == Some(ToolUseStop))
    && (finish == Some(FinishContentFilter) <==> stop == Some(Refusal))
    && finish != Some(FinishFunctionCall)
  }

  /** A chunk as OpenAI clients expect it: one choice; a tool is opened with id, name and empty arguments, and goes on
      with arguments alone. */
  predicate Shaped(c: Chunk) {
    && |c.choices| == 1
    && forall td :: td in c.choices[0].delta.toolCalls ==>
         && td.call.Some? && td.call.value.arguments.Some?
         && (td.id.Some? <==> td.call.value.name.Some?)
         && (td.id.Some? ==> td.call.value.arguments.value == "")
  }

  /** The first chunk: an empty text that carries usage exactly if there is a count to carry. */
  predicate Opens(c: Chunk, m: Message) {
    && c.choices == [Choice(Delta(Some(""), []), None)]
    && (c.usage == None <==> m.inputTokens == 0 && m.cacheCreation == None && m.cacheRead == None)
  }

  lemma SumsSnoc(chunks: seq<Chunk>, c: Chunk)
    ensures PromptTokens(chunks + [c]) == PromptTokens(chunks) + if c.usage.Some? then c.usage.value.promptTokens else 0
    ensures CompletionTokens(chunks + [c])
            == CompletionTokens(chunks) + if c.usage.Some? then c.usage.value.completionTokens else 0
    ensures O.LastFinish(chunks + [c]) ==
            if c.choices != [] && c.choices[0].finishReason.Some? then c.choices[0].finishReason
            else O.LastFinish(chunks)
  {
    assert (chunks + [c])[..|chunks|] == chunks;
  }

  /** The translator and its chunks, as far as they describe the message. */
  ghost predicate Described(s: A.State, chunks: seq<Chunk>, p: Phase, m: Message) {
    && s.id == m.id && s.model == m.model
    && (p.Fresh? ==> chunks == [] && m == EMPTY_MESSAGE)
    && (forall c :: c in chunks ==> Names(c, m))
    && PromptTokens(chunks) == m.inputTokens
    && CompletionTokens(chunks) == m.outputTokens.GetOr(0)
    && TellsStop(O.LastFinish(chunks), m.stop)
    && (!p.Closing? && !p.Done? ==> m.stop == None && m.outputTokens == None)
  }

  lemma StepDescribes(s: A.State, chunks: seq<Chunk>, p: Phase, m: Message, e: Event, uuid: string)
    requires Described(s, chunks, p, m) && Advance(p, e) != Broken
    ensures var (t, c) := A.EventStep(s, e, uuid);
            Described(t, if c.Some? then chunks + [c.value] else chunks, Advance(p, e), Absorb(m, e))
  {
    var (t, c) := A.EventStep(s, e, uuid);
    if c.Some? {
      SumsSnoc(chunks, c.value);
      assert Names(c.value, Absorb(m, e));
    }
  }

  /** The chunks, as far as their own shape goes. */
  ghost predicate WellShaped(chunks: seq<Chunk>, p: Phase, m: Message) {
    && (p.Fresh? <==> chunks == [])
    && (!p.Fresh? ==> Opens(chunks[0], m))
    && forall c :: c in chunks ==> Shaped(c)
  }

  lemma ChunkIsShaped(s: A.State, e: Event, uuid: string)
    ensures var c := A.EventStep(s, e, uuid).1;
            && (c.Some? ==> Shaped(c.value))
            && (e.MessageStart? ==> c.Some? && Opens(c.value, Absorb(EMPTY_MESSAGE, e)))
  {
  }

  lemma StepShapes(s: A.State, chunks: seq<Chunk>, p: Phase, m: Message, e: Event, uuid: string)
    requires WellShaped(chunks, p, m) && Advance(p, e) != Broken && (p.Fresh? ==> m == EMPTY_MESSAGE)
    ensures var c := A.EventStep(s, e, uuid).1;
            WellShaped(if c.Some? then chunks + [c.value] else chunks, Advance(p, e), Absorb(m, e))
  {
    ChunkIsShaped(s, e, uuid);
    var c := A.EventStep(s, e, uuid).1;
    if p.Fresh? {
      assert c.Some? <==> e.MessageStart?;
    } else {
      StartIsOnlyFirst(p, m, e);
      if c.Some? { assert (chunks + [c.value])[0] == chunks[0]; }
    }
  }

  lemma StartIsOnlyFirst(p: Phase, m: Message, e: Event)
    requires !p.Fresh? && Advance(p, e) != Broken
    ensures var n := Absorb(m, e);
            && n.inputTokens == m.inputTokens && n.cacheCreation == m.cacheCreation && n.cacheRead == m.cacheRead
            && !Advance(p, e).Fresh?
  {
  }

  lemma {:induction false} RunDescribes(events: seq<Event>, uuids: nat -> string)
    requires Scan(events) != Broken
    ensures var (s, chunks) := A.Run(events, uuids);
            Described(s, chunks, Scan(events), View(events)) && WellShaped(chunks, Scan(events), View(events))
  {
    if events != [] {
      var n := |events| - 1;
      var (s, chunks) := A.Run(events[..n], uuids);
      RunDescribes(events[..n], uuids);
      StepDescribes(s, chunks, Scan(events[..n]), View(events[..n]), events[n], uuids(n));
      StepShapes(s, chunks, Scan(events[..n]), View(events[..n]), events[n], uuids(n));
    }
  }

  /** After every grammatical prefix: each chunk sent has the shape clients expect and carries the message's model and
      id, the chunks' prompt and completion counts add up to the message's, and their finish reason tells its stop
      reason. */
  lemma ChunksDescribe(events: seq<Event>, uuids: nat -> string)
    requires Scan(events) != Broken
    ensures var chunks, m := A.Run(events, uuids).1, View(events);
            && (Scan(events) != Fresh ==> chunks != [] && Opens(chunks[0], m))
            && (forall c :: c in chunks ==> Names(c, m) && Shaped(c))
            && PromptTokens(chunks) == m.inputTokens
            && CompletionTokens(chunks) == m.outputTokens.GetOr(0)
            && TellsStop(O.LastFinish(chunks), m.stop)
  {
    RunDescribes(events, uuids);
  }
}
