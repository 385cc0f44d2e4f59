/** The event-to-chunk translator: its step function and the class that holds its state in fields. */
module AnthropicToOpenAI {
  import opened Wrappers
  import opened StreamTypes

  /** `blockTool` maps an Anthropic block index to the OpenAI tool_call index it was given. */
  datatype State = State(id: string, model: string, blockTool: map<int, nat>, nextTool: nat)

  const INITIAL := State("", "", map[], 0)

  const NO_DELTA := Delta(None, [])

  function StartUsageOf(usage: Option<StartUsage>): Option<Usage> {
    if usage.None? then None
    else
      var u := usage.value;
      var details := if u.cacheCreation.Some? || u.cacheRead.Some?
                     then Some(CacheDetails(u.cacheCreation, u.cacheRead)) else None;
      if details.None? && u.inputTokens == 0 then None
      else Some(Usage(u.inputTokens, 0, details))
  }

  /** `uuid` stands for the id drawn when the stream never announced one. */
  function MakeChunk(s: State, uuid: string, delta: Delta, finish: Option<FinishReason>, usage: Option<Usage>): Chunk {
    Chunk(if s.id != "" then s.id else "chatcmpl-" + uuid, s.model, [Choice(delta, finish)], usage)
  }

  function ToolChunk(s: State, uuid: string, td: ToolDelta): Chunk {
    MakeChunk(s, uuid, Delta(None, [td]), None, None)
  }

  /** One event yields at most one chunk. */
  function EventStep(s: State, e: Event, uuid: string): (State, Option<Chunk>) {
    match e
    case MessageStart(id, model, usage) =>
      var t := s.(id := id, model := model);
      (t, Some(MakeChunk(t, uuid, Delta(Some(""), []), None, StartUsageOf(usage))))
    case ContentBlockStart(i, ToolUseBlock(id, name)) =>
      (s.(nextTool := s.nextTool + 1, blockTool := s.blockTool[i := s.nextTool]),
       Some(ToolChunk(s, uuid, ToolDelta(s.nextTool, Some(id), Some(FunctionDelta(Some(name), Some("")))))))
    case ContentBlockDelta(_, TextDelta(t)) =>
      (s, Some(MakeChunk(s, uuid, Delta(Some(t), []), None, None)))
    case ContentBlockDelta(i, InputJsonDelta(j)) =>
      (s, if i !in s.blockTool then None
          else Some(ToolChunk(s, uuid, ToolDelta(s.blockTool[i], None, Some(FunctionDelta(None, Some(j)))))))
    case MessageDelta(stop, tokens) =>
      (s, Some(MakeChunk(s, uuid, NO_DELTA,
                         if stop.Some? then Some(FinishOf(stop.value)) else None,
                         if tokens.Some? then Some(Usage(0, tokens.value, None)) else None)))
    case _ => (s, None)
  }

  /** `uuids(n)` stands for the id drawn at event n. */
  function Run(events: seq<Event>, uuids: nat -> string): (State, seq<Chunk>) {
    if events == [] then (INITIAL, [])
    else
      var (s, chunks) := Run(events[..|events| - 1], uuids);
      var (t, c) := EventStep(s, events[|events| - 1], uuids(|events| - 1));
      (t, if c.Some? then chunks + [c.value] else chunks)
  }

  class AnthropicStreamTranslator {
    var id: string
    var model: string
    var blockToToolIndex: map<int, nat>
    var nextToolIndex: nat

    function Current(): State
      reads this
    {
      State(id, model, blockToToolIndex, nextToolIndex)
    }

    constructor ()
      ensures Current() == INITIAL
    {
      id, model, blockToToolIndex, nextToolIndex := "", "", map[], 0;
    }

    method TranslateEvent(e: Event, uuid: string) returns (chunk: Option<Chunk>)
      modifies this
      ensures (Current(), chunk) == EventStep(old(Current()), e, uuid)
    {
      chunk := None;
      match e {
        case MessageStart(newId, newModel, usage) =>
          id, model := newId, newModel;
          chunk := Some(MakeChunk(Current(), uuid, Delta(Some(""), []), None, StartUsageOf(usage)));
        case ContentBlockStart(i, ToolUseBlock(toolId, name)) =>
          var toolIndex := nextToolIndex;
          nextToolIndex := nextToolIndex + 1;
          blockToToolIndex := blockToToolIndex[i := toolIndex];
          chunk := Some(ToolChunk(Current(), uuid, ToolDelta(toolIndex, Some(toolId),
                                                             Some(FunctionDelta(Some(name), Some(""))))));
        case ContentBlockDelta(_, TextDelta(t)) =>
          chunk := Some(MakeChunk(Current(), uuid, Delta(Some(t), []), None, None));
        case ContentBlockDelta(i, InputJsonDelta(j)) =>
          if i in blockToToolIndex {
            chunk := Some(ToolChunk(Current(), uuid, ToolDelta(blockToToolIndex[i], None,
                                                               Some(FunctionDelta(None, Some(j))))));
          }
        case MessageDelta(stop, tokens) =>
          var finish := if stop.Some? then Some(FinishOf(stop.value)) else None;
          var usage := if tokens.Some? then Some(Usage(0, tokens.value, None)) else None;
          chunk := Some(MakeChunk(Current(), uuid, NO_DELTA, finish, usage));
        case _ =>
      }
    }
  }
}
