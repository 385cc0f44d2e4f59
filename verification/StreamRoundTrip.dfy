/** Events to chunks and back: the message a client accumulates is kept up to a normal form,
    and a message already in that form is kept exactly. */
module StreamRoundTrip {
  import opened Wrappers
  import opened StreamTypes
  import opened AnthropicMessage
  import opened ChunkPieces
  import A = AnthropicToOpenAI
  import O = OpenAIToAnthropic

  // ----- Normal form ----------------------------------------------------

  /** Adds a block: text joins preceding text, empty text and untranslated blocks leave no trace. */
  function Join(bs: seq<MBlock>, b: MBlock): seq<MBlock> {
    match b
    case MText(t) =>
      if t == "" then bs
      else if bs != [] && bs[|bs| - 1].MText? then bs[|bs| - 1 := MText(bs[|bs| - 1].text + t)]
      else bs + [b]
    case MTool(_, _, _) => bs + [b]
    case MOther => bs
  }

  function Normal(bs: seq<MBlock>): seq<MBlock> {
    if bs == [] then [] else Join(Normal(bs[..|bs| - 1]), bs[|bs| - 1])
  }

  ghost predicate IsNormal(bs: seq<MBlock>) {
    && (forall i :: 0 <= i < |bs| ==> bs[i] != MText("") && bs[i] != MOther)
    && (forall i, j :: 0 <= i < j < |bs| && j == i + 1 ==> !(bs[i].MText? && bs[j].MText?))
  }

  lemma JoinKeepsNormal(bs: seq<MBlock>, b: MBlock)
    requires IsNormal(bs)
    ensures IsNormal(Join(bs, b))
  {
  }

  lemma NormalFront(front: seq<MBlock>, b: MBlock)
    requires IsNormal(front + [b])
    ensures IsNormal(front) && Join(front, b) == front + [b]
  {
    var bs, n := front + [b], |front|;
    assert bs[n] == b && forall i :: 0 <= i < n ==> bs[i] == front[i];
    if n > 0 { assert !(bs[n - 1].MText? && bs[n].MText?); }
  }

  /** `Normal` always reaches a normal form and leaves normal forms alone. */
  lemma {:induction false} NormalForm(bs: seq<MBlock>)
    ensures IsNormal(Normal(bs))
    ensures IsNormal(bs) ==> Normal(bs) == bs
  {
    if bs != [] {
      var n := |bs| - 1;
      NormalForm(bs[..n]);
      JoinKeepsNormal(Normal(bs[..n]), bs[n]);
      assert bs == bs[..n] + [bs[n]];
      if IsNormal(bs) { NormalFront(bs[..n], bs[n]); }
    }
  }

  /** Tool ids the upstream left empty are replaced by one drawn for that block. */
  function Stamped(bs: seq<MBlock>, synth: nat -> string): (r: seq<MBlock>)
    ensures |r| == |bs|
  {
    seq(|bs|, b requires 0 <= b < |bs| =>
      if bs[b].MTool? && bs[b].id == "" then bs[b].(id := synth(b)) else bs[b])
  }

  /** stop_sequence, an unknown reason and no reason at all come back as end_turn. */
  function KeptStop(stop: Option<StopReason>): StopReason {
    match stop
    case Some(MaxTokens) => MaxTokens
    case Some(ToolUseStop) => ToolUseStop
    case Some(Refusal) => Refusal
    case _ => EndTurn
  }

  /** What the round trip turns message `m` into. */
  function Reissued(cfg: O.Config, m: Message): Message {
    var bs := Stamped(Normal(m.blocks), cfg.synth);
    Message(if "msg_" <= m.id then m.id else cfg.freshId,
            cfg.requestModel,
            cfg.inputTokens,
            if bs == [] then [MText("")] else bs,
            Some(KeptStop(m.stop)),
            Some(m.outputTokens.GetOr(0)),
            m.cacheCreation,
            m.cacheRead)
  }

  // ----- The chunks in between -------------------------------------------

  function ToolCount(bs: seq<MBlock>): nat {
    if bs == [] then 0
    else ToolCount(bs[..|bs| - 1]) + (if bs[|bs| - 1].MTool? then 1 else 0)
  }

  /** The groups the chunks of blocks `bs` form: tools are numbered 0, 1, 2, ... */
  function Numbered(bs: seq<MBlock>): seq<Group> {
    if bs == [] then []
    else NumberOne(Numbered(bs[..|bs| - 1]), ToolCount(bs[..|bs| - 1]), bs[|bs| - 1])
  }

  function NumberOne(gs: seq<Group>, tools: nat, b: MBlock): seq<Group> {
    match b
    case MText(t) => AddText(gs, t)
    case MTool(id, name, json) => gs + [GTool(tools, id, name, json)]
    case MOther => gs
  }

  lemma NumberedSnoc(bs: seq<MBlock>, b: MBlock)
    ensures ToolCount(bs + [b]) == ToolCount(bs) + (if b.MTool? then 1 else 0)
    ensures Numbered(bs + [b]) == NumberOne(Numbered(bs), ToolCount(bs), b)
  {
    assert (bs + [b])[..|bs|] == bs;
  }

  lemma {:induction false} NumberedIndices(bs: seq<MBlock>)
    ensures forall i :: 0 <= i < |Numbered(bs)| && Numbered(bs)[i].GTool? ==> 0 <= Numbered(bs)[i].index < ToolCount(bs)
  {
    if bs != [] { NumberedIndices(bs[..|bs| - 1]); }
  }

  lemma AddTextTwice(gs: seq<Group>, s: string, t: string)
    ensures AddText(AddText(gs, s), t) == AddText(gs, s + t)
  {
    var last := |gs| - 1;
    if s == "" {
      assert s + t == t;
    } else if t == "" {
      assert s + t == s;
    } else if gs != [] && gs[last].GText? {
      assert gs[last].text + s + t == gs[last].text + (s + t);
    } else {
      assert (gs + [GText(s)])[|gs| := GText(s + t)] == gs + [GText(s + t)];
    }
  }

  lemma {:induction false} NumberedShowsNormal(bs: seq<MBlock>, synth: nat -> string)
    ensures O.Shown(Numbered(bs), synth) == Stamped(Normal(bs), synth)
    ensures |Numbered(bs)| == |Normal(bs)|
    ensures forall i :: 0 <= i < |Normal(bs)| ==>
              (Numbered(bs)[i].GText? <==> Normal(bs)[i].MText?) &&
              (Numbered(bs)[i].GText? ==> Numbered(bs)[i].text == Normal(bs)[i].text)
  {
    if bs != [] { NumberedShowsNormal(bs[..|bs| - 1], synth); }
  }

  lemma AllPiecesSnoc(chunks: seq<Chunk>, c: Chunk)
    ensures AllPieces(chunks + [c]) == AllPieces(chunks) + Pieces(c)
    ensures O.LastFinish(chunks + [c]) ==
            if c.choices != [] && c.choices[0].finishReason.Some? then c.choices[0].finishReason
            else O.LastFinish(chunks)
    ensures O.LastTokens(chunks + [c]) ==
            if c.usage.Some? then c.usage.value.completionTokens else O.LastTokens(chunks)
  {
    assert (chunks + [c])[..|chunks|] == chunks;
  }

  // ----- Invariant of the first translator -------------------------------

  /** The pieces sent so far group into the numbered blocks read so far, and never resume a tool. */
  ghost predicate Sent(s: A.State, chunks: seq<Chunk>, p: Phase, bs: seq<MBlock>) {
    && Grouped(AllPieces(chunks)) == Numbered(bs)
    && NonInterleaving(AllPieces(chunks))
    && s.nextTool == ToolCount(bs)
    && (p.Open? && p.kind == ToolKind ==> p.index in s.blockTool && s.blockTool[p.index] == s.nextTool - 1)
  }

  /** The first chunk carries the heading; finish reason and tokens come with message_delta. */
  ghost predicate Told(cfg: O.Config, chunks: seq<Chunk>, p: Phase, m: Message) {
    && (p.Fresh? ==> chunks == [] && m == EMPTY_MESSAGE)
    && (!p.Fresh? ==>
          && chunks != []
          && O.Heading(cfg, chunks) ==
             EMPTY_MESSAGE.(id := if "msg_" <= m.id then m.id else cfg.freshId,
                            model := cfg.requestModel, inputTokens := cfg.inputTokens,
                            cacheCreation := m.cacheCreation, cacheRead := m.cacheRead))
    && O.LastTokens(chunks) == m.outputTokens.GetOr(0)
    && (p.Closing? || p.Done? ==>
          KeptStop(m.stop) == if O.LastFinish(chunks).Some? then StopOf(O.LastFinish(chunks).value) else EndTurn)
    && (!p.Closing? && !p.Done? ==> m.stop == None && m.outputTokens == None && O.LastFinish(chunks) == None)
  }

  lemma SendText(s: A.State, chunks: seq<Chunk>, k: nat, bs: seq<MBlock>, c: Chunk, t: string)
    requires bs != [] && bs[|bs| - 1].MText? && k == |bs| - 1
    requires Sent(s, chunks, Open(k, TextKind), bs)
    requires Pieces(c) == TextPieces(Some(t))
    ensures Sent(s, chunks + [c], Open(k, TextKind), bs[k := Grow(bs[k], TextDelta(t))])
  {
    var front, had := bs[..k], bs[k].text;
    AllPiecesSnoc(chunks, c);
    AddTextTwice(Numbered(front), had, t);
    NumberedSnoc(front, MText(had + t));
    assert bs[k := MText(had + t)] == front + [MText(had + t)];
    if t == "" {
      assert AllPieces(chunks) + [] == AllPieces(chunks);
      assert had + t == had;
    } else {
      GroupedSnoc(AllPieces(chunks), TextPiece(t));
      NonInterleavingSnoc(AllPieces(chunks), TextPiece(t));
    }
  }

  lemma SendTool(s: A.State, chunks: seq<Chunk>, k: nat, bs: seq<MBlock>, id: string, name: string, c: Chunk)
    requires Sent(s, chunks, Idle(k), bs)
    requires Pieces(c) == [ToolPiece(s.nextTool, id, name, "")]
    ensures Sent(s.(nextTool := s.nextTool + 1, blockTool := s.blockTool[k := s.nextTool]),
                 chunks + [c], Open(k, ToolKind), bs + [MTool(id, name, "")])
  {
    var ps, p := AllPieces(chunks), ToolPiece(s.nextTool, id, name, "");
    AllPiecesSnoc(chunks, c);
    NumberedSnoc(bs, MTool(id, name, ""));
    NumberedIndices(bs);
    GroupedSnoc(ps, p);
    NonInterleavingSnoc(ps, p);
  }

  /** Arguments for the tool of the last block go there. */
  lemma LastToolGrows(gs: seq<Group>, g: Group, p: Piece)
    requires Distinct(gs + [g]) && g.GTool? && p.ToolPiece? && p.index == g.index
    ensures Find(gs + [g], p.index) == |gs| && AddPiece(gs + [g], p) == gs + [g.(args := g.args + p.args)]
  {
    FindMisses(gs + [g], p.index);
    assert Holds(gs + [g], p.index, |gs|);
  }

  lemma GroupsAreDistinct(ps: seq<Piece>)
    ensures Distinct(Grouped(ps))
  {
    GroupedIsDistinct(ps);
  }

  /** One more tool piece for the last block, said of the groups alone. */
  lemma LastToolSent(ps: seq<Piece>, gs: seq<Group>, g: Group, p: Piece)
    requires Grouped(ps) == gs + [g] && NonInterleaving(ps) && g.GTool? && p.ToolPiece? && p.index == g.index
    ensures Grouped(ps + [p]) == gs + [g.(args := g.args + p.args)] && NonInterleaving(ps + [p])
  {
    GroupsAreDistinct(ps);
    LastToolGrows(gs, g, p);
    GroupedSnoc(ps, p);
    NonInterleavingSnoc(ps, p);
  }

  lemma NumberedLastTool(front: seq<MBlock>, b: MBlock, bs: seq<MBlock>)
    requires b.MTool? && bs == front + [b]
    ensures Numbered(bs) == Numbered(front) + [GTool(ToolCount(front), b.id, b.name, b.json)]
    ensures ToolCount(bs) == ToolCount(front) + 1
  {
    NumberedSnoc(front, b);
  }

  /** Before and after arguments for the tool of the last block. */
  ghost predicate LastToolAt(front: seq<MBlock>, last: MBlock, j: string, bs: seq<MBlock>, more: seq<MBlock>) {
    last.MTool? && bs == front + [last] && more == front + [last.(json := last.json + j)]
  }

  lemma JsonGroups(chunks: seq<Chunk>, c: Chunk, front: seq<MBlock>, last: MBlock, j: string, bs: seq<MBlock>,
                   more: seq<MBlock>, index: nat)
    requires LastToolAt(front, last, j, bs, more)
    requires Grouped(AllPieces(chunks)) == Numbered(bs) && NonInterleaving(AllPieces(chunks))
    requires Pieces(c) == [ToolPiece(index, "", "", j)] && index + 1 == ToolCount(bs)
    ensures Grouped(AllPieces(chunks + [c])) == Numbered(more) && NonInterleaving(AllPieces(chunks + [c]))
    ensures ToolCount(more) == ToolCount(bs)
  {
    AllPiecesSnoc(chunks, c);
    NumberedLastTool(front, last, bs);
    NumberedLastTool(front, last.(json := last.json + j), more);
    LastToolSent(AllPieces(chunks), Numbered(front), GTool(index, last.id, last.name, last.json),
                 ToolPiece(index, "", "", j));
  }

  lemma SendJson(s: A.State, chunks: seq<Chunk>, k: nat, bs: seq<MBlock>, c: Chunk, j: string)
    requires bs != [] && bs[|bs| - 1].MTool? && k == |bs| - 1
    requires Sent(s, chunks, Open(k, ToolKind), bs)
    requires Pieces(c) == [ToolPiece(s.blockTool[k], "", "", j)]
    ensures Sent(s, chunks + [c], Open(k, ToolKind), bs[k := Grow(bs[k], InputJsonDelta(j))])
  {
    var front := LastReplaced(bs, Grow(bs[k], InputJsonDelta(j)));
    SendMoreJson(s, chunks, k, front, bs[k], c, j, bs, bs[k := Grow(bs[k], InputJsonDelta(j))]);
  }

  lemma LastReplaced(bs: seq<MBlock>, b: MBlock) returns (front: seq<MBlock>)
    requires bs != []
    ensures bs == front + [bs[|bs| - 1]] && bs[|bs| - 1 := b] == front + [b] && |front| == |bs| - 1
  {
    front := bs[..|bs| - 1];
  }

  lemma SendMoreJson(s: A.State, chunks: seq<Chunk>, k: nat, front: seq<MBlock>, last: MBlock, c: Chunk, j: string,
                     bs: seq<MBlock>, more: seq<MBlock>)
    requires LastToolAt(front, last, j, bs, more) && Sent(s, chunks, Open(k, ToolKind), bs)
    requires Pieces(c) == [ToolPiece(s.blockTool[k], "", "", j)]
    ensures Sent(s, chunks + [c], Open(k, ToolKind), more)
  {
    NumberedLastTool(front, last, bs);
    JsonGroups(chunks, c, front, last, j, bs, more, s.blockTool[k]);
  }

  lemma LaterChunkKeepsHeading(cfg: O.Config, chunks: seq<Chunk>, c: Chunk)
    requires chunks != []
    ensures O.Heading(cfg, chunks + [c]) == O.Heading(cfg, chunks)
  {
  }

  /** message_start: the heading travels on the first chunk, including every cache count. */
  lemma TellStart(cfg: O.Config, uuid: string, e: Event, s: A.State, c: Chunk)
    requires e.MessageStart?
    requires (s, Some(c)) == A.EventStep(A.INITIAL, e, uuid)
    ensures Told(cfg, [c], Idle(0), Absorb(EMPTY_MESSAGE, e))
    ensures Sent(s, [c], Idle(0), [])
  {
    AllPiecesSnoc([], c);
    assert [] + [c] == [c];
    assert AllPieces([c]) == [];
    assert ("chatcmpl-" + uuid)[0] == 'c';
  }

  lemma TellContent(cfg: O.Config, chunks: seq<Chunk>, p: Phase, q: Phase, m: Message, n: Message, c: Chunk)
    requires Told(cfg, chunks, p, m) && (p.Idle? || p.Open?) && (q.Idle? || q.Open?)
    requires n == m.(blocks := n.blocks)
    requires c.usage == None && |c.choices| == 1 && c.choices[0].finishReason == None
    ensures Told(cfg, chunks + [c], q, n)
  {
    AllPiecesSnoc(chunks, c);
    LaterChunkKeepsHeading(cfg, chunks, c);
  }

  lemma StopSurvives(stop: StopReason)
    ensures StopOf(FinishOf(stop)) == KeptStop(Some(stop))
  {
  }

  lemma TellDelta(cfg: O.Config, chunks: seq<Chunk>, p: Phase, m: Message, e: Event, s: A.State, uuid: string, c: Chunk)
    requires Told(cfg, chunks, p, m) && p.Idle? && e.MessageDelta?
    requires A.EventStep(s, e, uuid).1 == Some(c)
    ensures Told(cfg, chunks + [c], Closing, Absorb(m, e))
  {
    AllPiecesSnoc(chunks, c);
    LaterChunkKeepsHeading(cfg, chunks, c);
    if e.stop.Some? {
      StopSurvives(e.stop.value);
      assert O.LastFinish(chunks + [c]) == Some(FinishOf(e.stop.value));
    } else {
      assert O.LastFinish(chunks + [c]) == None;
    }
  }

  lemma SendNothing(s: A.State, chunks: seq<Chunk>, p: Phase, q: Phase, bs: seq<MBlock>, c: Chunk)
    requires Sent(s, chunks, p, bs) && Pieces(c) == [] && !q.Open?
    ensures Sent(s, chunks + [c], q, bs)
  {
    AllPiecesSnoc(chunks, c);
    assert AllPieces(chunks) + [] == AllPieces(chunks);
  }

  /** The first translator and a client, having read the same grammatical events. */
  ghost predicate Linked(cfg: O.Config, s: A.State, chunks: seq<Chunk>, p: Phase, m: Message) {
    && Sent(s, chunks, p, m.blocks)
    && Told(cfg, chunks, p, m)
    && (p.Fresh? ==> s == A.INITIAL)
  }

  ghost predicate Counts(p: Phase, bs: seq<MBlock>) {
    && (p.Idle? ==> |bs| == p.closed)
    && (p.Open? ==>
          && |bs| == p.index + 1
          && (p.kind == TextKind <==> bs[p.index].MText?)
          && (p.kind == ToolKind <==> bs[p.index].MTool?))
  }

  lemma ToolStartTold(cfg: O.Config, chunks: seq<Chunk>, k: nat, m: Message, id: string, name: string, c: Chunk)
    requires Told(cfg, chunks, Idle(k), m)
    requires c.usage == None && |c.choices| == 1 && c.choices[0].finishReason == None
    ensures Told(cfg, chunks + [c], Open(k, ToolKind), Absorb(m, ContentBlockStart(k, ToolUseBlock(id, name))))
  {
    TellContent(cfg, chunks, Idle(k), Open(k, ToolKind), m, Absorb(m, ContentBlockStart(k, ToolUseBlock(id, name))), c);
  }

  lemma ToolStartKeeps(cfg: O.Config, uuid: string, s: A.State, chunks: seq<Chunk>, k: nat, m: Message, id: string,
                       name: string)
    requires Linked(cfg, s, chunks, Idle(k), m) && Counts(Idle(k), m.blocks)
    ensures var e := ContentBlockStart(k, ToolUseBlock(id, name));
            var (t, c) := A.EventStep(s, e, uuid);
            c.Some? && Linked(cfg, t, chunks + [c.value], Open(k, ToolKind), Absorb(m, e))
  {
    var e := ContentBlockStart(k, ToolUseBlock(id, name));
    var (t, c) := A.EventStep(s, e, uuid);
    ToolStartPieces(s, k, id, name, uuid, t, c.value);
    ToolStartLinks(cfg, s, chunks, k, m, id, name, t, c.value);
  }

  lemma ToolStartLinks(cfg: O.Config, s: A.State, chunks: seq<Chunk>, k: nat, m: Message, id: string, name: string,
                       t: A.State, c: Chunk)
    requires Linked(cfg, s, chunks, Idle(k), m)
    requires t == s.(nextTool := s.nextTool + 1, blockTool := s.blockTool[k := s.nextTool])
    requires Pieces(c) == [ToolPiece(s.nextTool, id, name, "")]
    requires c.usage == None && |c.choices| == 1 && c.choices[0].finishReason == None
    ensures Linked(cfg, t, chunks + [c], Open(k, ToolKind), Absorb(m, ContentBlockStart(k, ToolUseBlock(id, name))))
  {
    ToolStartTold(cfg, chunks, k, m, id, name, c);
    SendTool(s, chunks, k, m.blocks, id, name, c);
  }

  lemma ToolStartPieces(s: A.State, k: nat, id: string, name: string, uuid: string, t: A.State, c: Chunk)
    requires A.EventStep(s, ContentBlockStart(k, ToolUseBlock(id, name)), uuid) == (t, Some(c))
    ensures t == s.(nextTool := s.nextTool + 1, blockTool := s.blockTool[k := s.nextTool])
    ensures Pieces(c) == [ToolPiece(s.nextTool, id, name, "")]
    ensures c.usage == None && |c.choices| == 1 && c.choices[0].finishReason == None
  {
  }

  lemma SilentStartKeeps(cfg: O.Config, s: A.State, chunks: seq<Chunk>, k: nat, m: Message, block: Block)
    requires Linked(cfg, s, chunks, Idle(k), m) && !block.ToolUseBlock?
    ensures Linked(cfg, s, chunks, Open(k, KindOf(block)), Absorb(m, ContentBlockStart(k, block)))
  {
    NumberedSnoc(m.blocks, Opened(block));
  }

  lemma TextDeltaKeeps(cfg: O.Config, uuid: string, s: A.State, chunks: seq<Chunk>, p: Phase, m: Message, i: int,
                       text: string)
    requires Linked(cfg, s, chunks, p, m) && Counts(p, m.blocks)
    requires p.Open? && p.index == i && p.kind == TextKind
    ensures var e := ContentBlockDelta(i, TextDelta(text));
            var (t, c) := A.EventStep(s, e, uuid);
            t == s && c.Some? && Linked(cfg, t, chunks + [c.value], p, Absorb(m, e))
  {
    var e := ContentBlockDelta(i, TextDelta(text));
    var c := A.EventStep(s, e, uuid).1.value;
    TellContent(cfg, chunks, p, p, m, Absorb(m, e), c);
    SendText(s, chunks, i, m.blocks, c, text);
  }

  lemma JsonDeltaKeeps(cfg: O.Config, uuid: string, s: A.State, chunks: seq<Chunk>, p: Phase, m: Message, i: int,
                       j: string)
    requires Linked(cfg, s, chunks, p, m) && Counts(p, m.blocks)
    requires p.Open? && p.index == i && p.kind == ToolKind
    ensures var e := ContentBlockDelta(i, InputJsonDelta(j));
            var (t, c) := A.EventStep(s, e, uuid);
            t == s && c.Some? && Linked(cfg, t, chunks + [c.value], p, Absorb(m, e))
  {
    var e := ContentBlockDelta(i, InputJsonDelta(j));
    var c := A.EventStep(s, e, uuid).1.value;
    TellContent(cfg, chunks, p, p, m, Absorb(m, e), c);
    SendJson(s, chunks, i, m.blocks, c, j);
  }

  lemma DeltaKeeps(cfg: O.Config, uuid: string, s: A.State, chunks: seq<Chunk>, p: Phase, m: Message, i: int,
                   delta: BlockDelta)
    requires Linked(cfg, s, chunks, p, m) && Counts(p, m.blocks)
    requires p.Open? && p.index == i && DeltaFits(p.kind, delta)
    ensures var e := ContentBlockDelta(i, delta);
            var (t, c) := A.EventStep(s, e, uuid);
            t == s && Linked(cfg, t, if c.Some? then chunks + [c.value] else chunks, p, Absorb(m, e))
  {
    match delta
    case TextDelta(text) => TextDeltaKeeps(cfg, uuid, s, chunks, p, m, i, text);
    case InputJsonDelta(j) => JsonDeltaKeeps(cfg, uuid, s, chunks, p, m, i, j);
    case OtherDelta =>
      assert m.blocks[i := Grow(m.blocks[i], OtherDelta)] == m.blocks;
  }

  lemma EndKeeps(cfg: O.Config, uuid: string, s: A.State, chunks: seq<Chunk>, p: Phase, m: Message, e: Event)
    requires Linked(cfg, s, chunks, p, m)
    requires e.MessageStart? || e.MessageDelta?
    requires Advance(p, e) != Broken
    ensures var (t, c) := A.EventStep(s, e, uuid);
            c.Some? && Linked(cfg, t, chunks + [c.value], Advance(p, e), Absorb(m, e))
  {
    var (t, c) := A.EventStep(s, e, uuid);
    if e.MessageStart? {
      TellStart(cfg, uuid, e, t, c.value);
      assert chunks + [c.value] == [c.value];
    } else {
      TellDelta(cfg, chunks, p, m, e, s, uuid, c.value);
      SendNothing(s, chunks, p, Closing, m.blocks, c.value);
    }
  }

  /** One grammatical event of any kind keeps translator and client linked. */
  lemma StepKeeps(cfg: O.Config, uuid: string, s: A.State, chunks: seq<Chunk>, p: Phase, m: Message, e: Event)
    requires Linked(cfg, s, chunks, p, m) && Counts(p, m.blocks)
    requires Advance(p, e) != Broken
    ensures var (t, c) := A.EventStep(s, e, uuid);
            Linked(cfg, t, if c.Some? then chunks + [c.value] else chunks, Advance(p, e), Absorb(m, e))
  {
    if e.ContentBlockStart? {
      if e.block.ToolUseBlock? {
        ToolStartKeeps(cfg, uuid, s, chunks, p.closed, m, e.block.id, e.block.name);
      } else {
        SilentStartKeeps(cfg, s, chunks, p.closed, m, e.block);
      }
    } else if e.ContentBlockDelta? {
      DeltaKeeps(cfg, uuid, s, chunks, p, m, e.index, e.delta);
    } else if e.MessageStart? || e.MessageDelta? {
      EndKeeps(cfg, uuid, s, chunks, p, m, e);
    }
  }

  lemma {:induction false} RunKeeps(cfg: O.Config, uuids: nat -> string, events: seq<Event>)
    requires Scan(events) != Broken
    ensures var (s, chunks) := A.Run(events, uuids);
            Linked(cfg, s, chunks, Scan(events), View(events))
  {
    if events != [] {
      var front, e := events[..|events| - 1], events[|events| - 1];
      var (s, chunks) := A.Run(front, uuids);
      RunKeeps(cfg, uuids, front);
      PhaseCountsBlocks(front);
      StepKeeps(cfg, uuids(|front|), s, chunks, Scan(front), View(front), e);
    }
  }

  /** Every well-formed Anthropic stream, sent through both translators and one `finalize`, comes back as a
      well-formed stream that accumulates to the same message up to `Reissued`. */
  lemma RoundTrip(cfg: O.Config, uuids: nat -> string, events: seq<Event>)
    requires WellFormed(events)
    ensures var back := O.Translate(cfg, A.Run(events, uuids).1);
            WellFormed(back) && View(back) == Reissued(cfg, View(events))
  {
    var chunks := A.Run(events, uuids).1;
    RunKeeps(cfg, uuids, events);
    O.TranslateMeans(cfg, chunks);
    NumberedShowsNormal(View(events).blocks, cfg.synth);
  }

  /** Streams already in the gateway's own shape come back exactly, under the model and the input tokens the caller
      announces: nothing is lost the second time. */
  lemma RoundTripExact(cfg: O.Config, uuids: nat -> string, events: seq<Event>)
    requires WellFormed(events)
    requires var m := View(events);
             && m.blocks != [] && IsNormal(m.blocks)
             && (forall i :: 0 <= i < |m.blocks| && m.blocks[i].MTool? ==> m.blocks[i].id != "")
             && "msg_" <= m.id
             && m.stop == Some(KeptStop(m.stop)) && m.outputTokens.Some?
    ensures View(O.Translate(cfg, A.Run(events, uuids).1))
            == View(events).(model := cfg.requestModel, inputTokens := cfg.inputTokens)
  {
    var m := View(events);
    RoundTrip(cfg, uuids, events);
    NormalForm(m.blocks);
    assert Stamped(m.blocks, cfg.synth) == m.blocks;
  }
}
