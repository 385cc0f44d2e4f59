/** The two wire vocabularies: OpenAI chunks and Anthropic Messages stream events. */
module StreamTypes {
  import opened Wrappers

  // ----- OpenAI side ----------------------------------------------------

  datatype FinishReason = FinishStop | FinishLength | FinishToolCalls | FinishContentFilter | FinishFunctionCall

  datatype FunctionDelta = FunctionDelta(name: Option<string>, arguments: Option<string>)

  datatype ToolDelta = ToolDelta(index: int, id: Option<string>, call: Option<FunctionDelta>)

  datatype Delta = Delta(content: Option<string>, toolCalls: seq<ToolDelta>)

  datatype Choice = Choice(delta: Delta, finishReason: Option<FinishReason>)

  datatype CacheDetails = CacheDetails(creation: Option<int>, read: Option<int>)

  datatype Usage = Usage(promptTokens: int, completionTokens: int, details: Option<CacheDetails>)

  datatype Chunk = Chunk(id: string, model: string, choices: seq<Choice>, usage: Option<Usage>)

  // ----- Anthropic side -------------------------------------------------

  datatype StopReason = EndTurn | MaxTokens | StopSequence | ToolUseStop | Refusal | UnknownStop(name: string)

  /** `OtherBlock` is any block type the gateway does not translate, such as thinking. */
  datatype Block = TextBlock | ToolUseBlock(id: string, name: string) | OtherBlock

  datatype BlockDelta = TextDelta(text: string) | InputJsonDelta(json: string) | OtherDelta

  datatype StartUsage = StartUsage(inputTokens: int, cacheCreation: Option<int>, cacheRead: Option<int>)

  datatype Event =
    | MessageStart(id: string, model: string, startUsage: Option<StartUsage>)
    | ContentBlockStart(index: int, block: Block)
    | ContentBlockDelta(index: int, delta: BlockDelta)
    | ContentBlockStop(index: int)
    | MessageDelta(stop: Option<StopReason>, outputTokens: Option<int>)
    | MessageStop
    | OtherEvent

  /** Anthropic stop_reason to OpenAI finish_reason; an unlisted reason becomes "stop". */
  function FinishOf(stop: StopReason): FinishReason {
    match stop
    case EndTurn | StopSequence => FinishStop
    case MaxTokens => FinishLength
    case ToolUseStop => FinishToolCalls
    case Refusal => FinishContentFilter
    case UnknownStop(_) => FinishStop
  }

  /** OpenAI finish_reason to Anthropic stop_reason. */
  function StopOf(finish: FinishReason): StopReason {
    match finish
    case FinishStop => EndTurn
    case FinishLength => MaxTokens
    case FinishToolCalls | FinishFunctionCall => ToolUseStop
    case FinishContentFilter => Refusal
  }
}
