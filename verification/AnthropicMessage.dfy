/** What an Anthropic event stream means to a client: the grammar it enforces and the message it accumulates. */
module AnthropicMessage {
  import opened Wrappers
  import opened StreamTypes

  // ----- Grammar --------------------------------------------------------

  datatype Kind = TextKind | ToolKind | OtherKind

  function KindOf(block: Block): Kind {
    match block
    case TextBlock => TextKind
    case ToolUseBlock(_, _) => ToolKind
    case OtherBlock => OtherKind
  }

  predicate DeltaFits(kind: Kind, delta: BlockDelta) {
    match kind
    case TextKind => delta.TextDelta?
    case ToolKind => delta.InputJsonDelta?
    case OtherKind => delta.OtherDelta?
  }

  /** `Idle(k)`: blocks 0..k-1 are closed and none is open; `Open(k, _)`: block k is open as well. */
  datatype Phase = Fresh | Idle(closed: nat) | Open(index: nat, kind: Kind) | Closing | Done | Broken

  function Advance(p: Phase, e: Event): Phase {
    if e.OtherEvent? then p
    else match p
      case Fresh => if e.MessageStart? then Idle(0) else Broken
      case Idle(k) =>
        if e.ContentBlockStart? && e.index == k then Open(k, KindOf(e.block))
        else if e.MessageDelta? && k >= 1 then Closing
        else Broken
      case Open(k, kind) =>
        if e.ContentBlockDelta? && e.index == k && DeltaFits(kind, e.delta) then p
        else if e.ContentBlockStop? && e.index == k then Idle(k + 1)
        else Broken
      case Closing => if e.MessageStop? then Done else Broken
      case Done | Broken => Broken
  }

  function Scan(events: seq<Event>): Phase {
    if events == [] then Fresh
    else Advance(Scan(events[..|events| - 1]), events[|events| - 1])
  }

  /** message_start, blocks 0..k-1 (k >= 1) each as start, deltas, stop without overlap,
      message_delta, message_stop; events of unknown type may appear anywhere. */
  predicate WellFormed(events: seq<Event>) {
    Scan(events) == Done
  }

  // ----- Accumulated message --------------------------------------------

  datatype MBlock = MText(text: string) | MTool(id: string, name: string, json: string) | MOther

  datatype Message = Message(
    id: string,
    model: string,
    inputTokens: int,
    blocks: seq<MBlock>,
    stop: Option<StopReason>,
    outputTokens: Option<int>,
    cacheCreation: Option<int>,
    cacheRead: Option<int>)

  const EMPTY_MESSAGE := Message("", "", 0, [], None, None, None, None)

  function Opened(block: Block): MBlock {
    match block
    case TextBlock => MText("")
    case ToolUseBlock(id, name) => MTool(id, name, "")
    case OtherBlock => MOther
  }

  function Grow(block: MBlock, delta: BlockDelta): MBlock {
    match (block, delta)
    case (MText(t), TextDelta(more)) => MText(t + more)
    case (MTool(id, name, j), InputJsonDelta(more)) => MTool(id, name, j + more)
    case _ => block
  }

  function Absorb(m: Message, e: Event): Message {
    match e
    case MessageStart(id, model, usage) =>
      m.(id := id,
         model := model,
         inputTokens := if usage.Some? then usage.value.inputTokens else 0,
         cacheCreation := if usage.Some? then usage.value.cacheCreation else None,
         cacheRead := if usage.Some? then usage.value.cacheRead else None)
    case ContentBlockStart(_, block) => m.(blocks := m.blocks + [Opened(block)])
    case ContentBlockDelta(i, delta) =>
      if 0 <= i < |m.blocks| then m.(blocks := m.blocks[i := Grow(m.blocks[i], delta)]) else m
    case MessageDelta(stop, tokens) => m.(stop := stop, outputTokens := tokens)
    case ContentBlockStop(_) | MessageStop | OtherEvent => m
  }

  /** The message a client holds after reading `events`. */
  function View(events: seq<Event>): Message {
    if events == [] then EMPTY_MESSAGE
    else Absorb(View(events[..|events| - 1]), events[|events| - 1])
  }

  lemma ScanViewSnoc(events: seq<Event>, e: Event)
    ensures Scan(events + [e]) == Advance(Scan(events), e)
    ensures View(events + [e]) == Absorb(View(events), e)
  {
    assert (events + [e])[..|events|] == events;
  }

  /** A stream that is still well formed has as many blocks as its phase says. */
  lemma {:induction false} PhaseCountsBlocks(events: seq<Event>)
    ensures Scan(events) == Fresh ==> View(events).blocks == []
    ensures Scan(events).Idle? ==> |View(events).blocks| == Scan(events).closed
    ensures Scan(events).Open? ==>
              var bs, k := View(events).blocks, Scan(events).index;
              |bs| == k + 1 &&
              (Scan(events).kind == TextKind <==> bs[k].MText?) &&
              (Scan(events).kind == ToolKind <==> bs[k].MTool?)
  {
    if events != [] {
      PhaseCountsBlocks(events[..|events| - 1]);
    }
  }
}
