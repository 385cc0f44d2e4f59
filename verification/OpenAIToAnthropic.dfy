/** The chunk-to-event translator: step functions, what a whole run means, and the class that holds the state. */
module OpenAIToAnthropic {
  import opened Wrappers
  import opened SeqFacts
  import opened StreamTypes
  import opened AnthropicMessage
  import opened ChunkPieces

  /** `freshId` and `synth(b)` stand for the uuids drawn for the message and for block `b`. */
  datatype Config = Config(requestModel: string, inputTokens: int, freshId: string, synth: nat -> string)

  datatype State = State(
    started: bool,
    messageId: string,
    nextBlock: nat,
    current: Option<nat>,
    kind: Option<Kind>,
    toolBlock: map<int, nat>,
    finish: Option<FinishReason>,
    outputTokens: int,
    cacheCreation: Option<int>,
    cacheRead: Option<int>,
    anyOpened: bool)

  const INITIAL := State(false, "", 0, None, None, map[], None, 0, None, None, false)

  // ----- Steps ----------------------------------------------------------

  function CaptureUsage(s: State, usage: Option<Usage>): State {
    if usage.None? then s
    else
      var d := usage.value.details;
      s.(outputTokens := usage.value.completionTokens,
         cacheCreation := if d.Some? && d.value.creation.Some? then d.value.creation else s.cacheCreation,
         cacheRead := if d.Some? && d.value.read.Some? then d.value.read else s.cacheRead)
  }

  function StartEvent(cfg: Config, s: State): Event {
    MessageStart(s.messageId, cfg.requestModel, Some(StartUsage(cfg.inputTokens, s.cacheCreation, s.cacheRead)))
  }

  function NormalizeId(cfg: Config, id: string): string {
    if "msg_" <= id then id else cfg.freshId
  }

  function Start(cfg: Config, s: State, id: string): (State, seq<Event>) {
    if s.started then (s, [])
    else
      var t := s.(started := true, messageId := id);
      (t, [StartEvent(cfg, t)])
  }

  function CloseCurrent(s: State): seq<Event> {
    if s.current.Some? then [ContentBlockStop(s.current.value)] else []
  }

  function OpenBlock(s: State, kind: Kind): State {
    s.(nextBlock := s.nextBlock + 1, current := Some(s.nextBlock), kind := Some(kind), anyOpened := true)
  }

  function EmitText(s: State, text: string): (State, seq<Event>) {
    if s.kind == Some(TextKind) && s.current.Some?
    then (s, [ContentBlockDelta(s.current.value, TextDelta(text))])
    else (OpenBlock(s, TextKind),
          CloseCurrent(s) + [ContentBlockStart(s.nextBlock, TextBlock),
                             ContentBlockDelta(s.nextBlock, TextDelta(text))])
  }

  /** The block of a tool on its first mention. */
  function OpenTool(cfg: Config, s: State, p: Piece): (State, seq<Event>)
    requires p.ToolPiece?
  {
    if p.index in s.toolBlock then (s, [])
    else (OpenBlock(s, ToolKind).(toolBlock := s.toolBlock[p.index := s.nextBlock]),
          CloseCurrent(s) +
          [ContentBlockStart(s.nextBlock, ToolUseBlock(if p.id != "" then p.id else cfg.synth(s.nextBlock), p.name))])
  }

  function EmitTool(cfg: Config, s: State, p: Piece): (State, seq<Event>)
    requires p.ToolPiece?
  {
    var (t, opening) := OpenTool(cfg, s, p);
    (t, opening + if p.args != "" then [ContentBlockDelta(t.toolBlock[p.index], InputJsonDelta(p.args))] else [])
  }

  function Emit(cfg: Config, s: State, p: Piece): (State, seq<Event>) {
    if p.TextPiece? then EmitText(s, p.text) else EmitTool(cfg, s, p)
  }

  function EmitAll(cfg: Config, s: State, ps: seq<Piece>): (State, seq<Event>) {
    if ps == [] then (s, [])
    else
      var (t, before) := EmitAll(cfg, s, ps[..|ps| - 1]);
      var (u, last) := Emit(cfg, t, ps[|ps| - 1]);
      (u, before + last)
  }

  function NoteFinish(s: State, c: Chunk): State {
    if c.choices != [] && c.choices[0].finishReason.Some? then s.(finish := c.choices[0].finishReason) else s
  }

  function ChunkStep(cfg: Config, s: State, c: Chunk): (State, seq<Event>) {
    var (t, starting) := Start(cfg, CaptureUsage(s, c.usage), NormalizeId(cfg, c.id));
    var (u, content) := EmitAll(cfg, t, Pieces(c));
    (NoteFinish(u, c), starting + content)
  }

  function Run(cfg: Config, chunks: seq<Chunk>): (State, seq<Event>) {
    if chunks == [] then (INITIAL, [])
    else
      var (s, before) := Run(cfg, chunks[..|chunks| - 1]);
      var (t, last) := ChunkStep(cfg, s, chunks[|chunks| - 1]);
      (t, before + last)
  }

  function ClosingDelta(s: State): Event {
    MessageDelta(Some(if s.finish.Some? then StopOf(s.finish.value) else EndTurn), Some(s.outputTokens))
  }

  function FinalStep(cfg: Config, s: State): (State, seq<Event>) {
    var (t, starting) := Start(cfg, s, cfg.freshId);
    var closed := t.(current := None, kind := if t.current.Some? then None else t.kind);
    var padded := if t.anyOpened then closed else closed.(nextBlock := 1, anyOpened := true);
    var padding := if t.anyOpened then [] else [ContentBlockStart(0, TextBlock), ContentBlockStop(0)];
    (padded, starting + CloseCurrent(t) + padding + [ClosingDelta(t), MessageStop])
  }

  /** The whole stream: every chunk, then one `finalize`. */
  function Translate(cfg: Config, chunks: seq<Chunk>): seq<Event> {
    var (s, events) := Run(cfg, chunks);
    events + FinalStep(cfg, s).1
  }

  // ----- What a run means -----------------------------------------------

  function Show(g: Group, synth: nat -> string, b: nat): MBlock {
    match g
    case GText(t) => MText(t)
    case GTool(_, id, name, args) => MTool(if id != "" then id else synth(b), name, args)
  }

  function Shown(gs: seq<Group>, synth: nat -> string): (bs: seq<MBlock>)
    ensures |bs| == |gs| && forall b :: 0 <= b < |gs| ==> bs[b] == Show(gs[b], synth, b)
  {
    seq(|gs|, b requires 0 <= b < |gs| => Show(gs[b], synth, b))
  }

  /** The finish reason of the last chunk that carries one. */
  function LastFinish(chunks: seq<Chunk>): Option<FinishReason> {
    if chunks == [] then None
    else
      var c := chunks[|chunks| - 1];
      if c.choices != [] && c.choices[0].finishReason.Some? then c.choices[0].finishReason
      else LastFinish(chunks[..|chunks| - 1])
  }

  /** The completion count of the last chunk that carries usage. */
  function LastTokens(chunks: seq<Chunk>): int {
    if chunks == [] then 0
    else if chunks[|chunks| - 1].usage.Some? then chunks[|chunks| - 1].usage.value.completionTokens
    else LastTokens(chunks[..|chunks| - 1])
  }

  /** The message before any content: the model and the input tokens are the caller's, the rest comes from the first
      chunk. Its id is kept if it is one of Anthropic's, with or without more chunks behind it. */
  function Heading(cfg: Config, chunks: seq<Chunk>): Message {
    var announced := EMPTY_MESSAGE.(model := cfg.requestModel, inputTokens := cfg.inputTokens);
    if chunks == [] then announced.(id := cfg.freshId)
    else
      var u, id := chunks[0].usage, chunks[0].id;
      var d := if u.Some? then u.value.details else None;
      announced.(id := if |id| >= 4 && id[..4] == "msg_" then id else cfg.freshId,
                 cacheCreation := if d.Some? then d.value.creation else None,
                 cacheRead := if d.Some? then d.value.read else None)
  }

  /** The message a chunk stream stands for. */
  function Meaning(cfg: Config, chunks: seq<Chunk>): Message {
    var gs := Grouped(AllPieces(chunks));
    Heading(cfg, chunks).(
      blocks := if gs == [] then [MText("")] else Shown(gs, cfg.synth),
      stop := Some(if LastFinish(chunks).Some? then StopOf(LastFinish(chunks).value) else EndTurn),
      outputTokens := Some(LastTokens(chunks)))
  }

  // ----- Invariant ------------------------------------------------------

  function KindOfGroup(g: Group): Kind {
    if g.GText? then TextKind else ToolKind
  }

  /** Where the block of each tool index is. */
  function BlockMap(gs: seq<Group>): map<int, nat> {
    if gs == [] then map[]
    else
      var n := |gs| - 1;
      var before := BlockMap(gs[..n]);
      if gs[n].GTool? && gs[n].index !in before then before[gs[n].index := n] else before
  }

  /** Bookkeeping: counters, open block and index map all describe the blocks `gs`. */
  ghost predicate Tracks(s: State, gs: seq<Group>) {
    && s.started
    && s.nextBlock == |gs|
    && (s.anyOpened <==> gs != [])
    && s.current == (if gs == [] then None else Some(|gs| - 1))
    && s.kind == (if gs == [] then None else Some(KindOfGroup(gs[|gs| - 1])))
    && s.toolBlock == BlockMap(gs)
  }

  function PhaseOf(gs: seq<Group>): Phase {
    if gs == [] then Idle(0) else Open(|gs| - 1, KindOfGroup(gs[|gs| - 1]))
  }

  /** Output so far: it shows the blocks `gs`, and it is a grammatical prefix exactly when `ok`. */
  ghost predicate Shows(synth: nat -> string, events: seq<Event>, gs: seq<Group>, ok: bool, heading: Message) {
    && View(events) == heading.(blocks := Shown(gs, synth))
    && Scan(events) == if ok then PhaseOf(gs) else Broken
  }

  ghost predicate Inv(cfg: Config, s: State, events: seq<Event>, ps: seq<Piece>, heading: Message) {
    && Tracks(s, Grouped(ps))
    && Shows(cfg.synth, events, Grouped(ps), NonInterleaving(ps), heading)
  }

  // ----- What one emission adds to the output ----------------------------

  function Closing(gs: seq<Group>): seq<Event> {
    if gs == [] then [] else [ContentBlockStop(|gs| - 1)]
  }

  /** Closing the open block, if there is one, shows the same message. */
  lemma ShowClosing(synth: nat -> string, events: seq<Event>, gs: seq<Group>, ok: bool, heading: Message)
    requires Shows(synth, events, gs, ok, heading)
    ensures View(events + Closing(gs)) == View(events)
    ensures Scan(events + Closing(gs)) == if ok then Idle(|gs|) else Broken
  {
    if gs == [] {
      assert events + Closing(gs) == events;
    } else {
      ScanViewSnoc(events, ContentBlockStop(|gs| - 1));
    }
  }

  lemma ShownSnoc(gs: seq<Group>, g: Group, synth: nat -> string)
    ensures Shown(gs + [g], synth) == Shown(gs, synth) + [Show(g, synth, |gs|)]
  {
  }

  lemma ShowOpening(synth: nat -> string, events: seq<Event>, gs: seq<Group>, ok: bool, heading: Message, block: Block,
                    g: Group)
    requires Shows(synth, events, gs, ok, heading)
    requires KindOf(block) == KindOfGroup(g) && Opened(block) == Show(g, synth, |gs|)
    ensures Shows(synth, events + (Closing(gs) + [ContentBlockStart(|gs|, block)]), gs + [g], ok, heading)
  {
    var start := ContentBlockStart(|gs|, block);
    ShowClosing(synth, events, gs, ok, heading);
    ScanViewSnoc(events + Closing(gs), start);
    Regroup(events, Closing(gs), [start]);
    ShownSnoc(gs, g, synth);
  }

  lemma ShowText(synth: nat -> string, events: seq<Event>, gs: seq<Group>, ok: bool, heading: Message, text: string)
    requires Shows(synth, events, gs, ok, heading)
    requires gs != [] && gs[|gs| - 1].GText?
    ensures var last := |gs| - 1;
            Shows(synth, events + [ContentBlockDelta(last, TextDelta(text))],
                  gs[last := GText(gs[last].text + text)], ok, heading)
  {
    var last := |gs| - 1;
    var grown := gs[last := GText(gs[last].text + text)];
    ScanViewSnoc(events, ContentBlockDelta(last, TextDelta(text)));
    assert Shown(grown, synth) == Shown(gs, synth)[last := Show(grown[last], synth, last)];
  }

  lemma ShowArgs(synth: nat -> string, events: seq<Event>, gs: seq<Group>, ok: bool, heading: Message, b: nat,
                 args: string)
    requires Shows(synth, events, gs, ok, heading)
    requires b < |gs| && gs[b].GTool?
    ensures Shows(synth, events + [ContentBlockDelta(b, InputJsonDelta(args))],
                  gs[b := gs[b].(args := gs[b].args + args)], ok && b == |gs| - 1, heading)
  {
    var grown := gs[b := gs[b].(args := gs[b].args + args)];
    ScanViewSnoc(events, ContentBlockDelta(b, InputJsonDelta(args)));
    assert Shown(grown, synth) == Shown(gs, synth)[b := Show(grown[b], synth, b)];
  }

  // ----- One emission keeps the invariant --------------------------------

  lemma {:induction false} BlockMapFinds(gs: seq<Group>, index: int)
    ensures index in BlockMap(gs) <==> Find(gs, index) < |gs|
    ensures index in BlockMap(gs) ==> BlockMap(gs)[index] == Find(gs, index)
  {
    if gs != [] { BlockMapFinds(gs[..|gs| - 1], index); }
  }

  lemma BlockMapSnoc(gs: seq<Group>, g: Group)
    ensures BlockMap(gs + [g]) ==
            if g.GTool? && g.index !in BlockMap(gs) then BlockMap(gs)[g.index := |gs|] else BlockMap(gs)
  {
    assert (gs + [g])[..|gs|] == gs;
  }

  lemma {:induction false} BlockMapReplace(gs: seq<Group>, b: nat, g: Group)
    requires b < |gs| && (gs[b].GTool? <==> g.GTool?) && (g.GTool? ==> gs[b].index == g.index)
    ensures BlockMap(gs[b := g]) == BlockMap(gs)
  {
    var n := |gs| - 1;
    if b < n {
      BlockMapReplace(gs[..n], b, g);
      assert gs[b := g][..n] == gs[..n][b := g];
    } else {
      assert gs[b := g][..n] == gs[..n];
    }
  }

  lemma EmitTextTracks(cfg: Config, s: State, gs: seq<Group>, text: string)
    requires Tracks(s, gs) && text != ""
    ensures Tracks(EmitText(s, text).0, AddPiece(gs, TextPiece(text)))
  {
    if gs != [] && gs[|gs| - 1].GText? {
      BlockMapReplace(gs, |gs| - 1, GText(gs[|gs| - 1].text + text));
    } else {
      BlockMapSnoc(gs, GText(text));
    }
  }

  lemma EmitToolTracks(cfg: Config, s: State, gs: seq<Group>, p: Piece)
    requires Tracks(s, gs) && p.ToolPiece?
    ensures Tracks(EmitTool(cfg, s, p).0, AddPiece(gs, p))
  {
    var b := Find(gs, p.index);
    BlockMapFinds(gs, p.index);
    if b < |gs| {
      BlockMapReplace(gs, b, gs[b].(args := gs[b].args + p.args));
    } else {
      BlockMapSnoc(gs, GTool(p.index, p.id, p.name, p.args));
    }
  }

  /** The events of one emission, said in terms of the blocks so far. */
  lemma TextEvents(s: State, gs: seq<Group>, text: string)
    requires Tracks(s, gs)
    ensures EmitText(s, text).1 ==
            if gs != [] && gs[|gs| - 1].GText? then [ContentBlockDelta(|gs| - 1, TextDelta(text))]
            else Closing(gs) + [ContentBlockStart(|gs|, TextBlock), ContentBlockDelta(|gs|, TextDelta(text))]
  {
  }

  lemma ToolEvents(cfg: Config, s: State, gs: seq<Group>, p: Piece)
    requires Tracks(s, gs) && p.ToolPiece?
    ensures var b := Find(gs, p.index);
            EmitTool(cfg, s, p).1 ==
            (if b < |gs| then []
             else Closing(gs) +
                  [ContentBlockStart(|gs|, ToolUseBlock(if p.id != "" then p.id else cfg.synth(|gs|), p.name))]) +
            (if p.args == "" then [] else [ContentBlockDelta(b, InputJsonDelta(p.args))])
  {
    BlockMapFinds(gs, p.index);
    assert CloseCurrent(s) == Closing(gs);
  }

  lemma NewTextShows(synth: nat -> string, events: seq<Event>, gs: seq<Group>, ok: bool, heading: Message, text: string)
    requires Shows(synth, events, gs, ok, heading)
    ensures Shows(synth,
                  events + (Closing(gs)
                            + [ContentBlockStart(|gs|, TextBlock), ContentBlockDelta(|gs|, TextDelta(text))]),
                  gs + [GText(text)], ok, heading)
  {
    var opening := Closing(gs) + [ContentBlockStart(|gs|, TextBlock)];
    var delta := ContentBlockDelta(|gs|, TextDelta(text));
    ShowOpening(synth, events, gs, ok, heading, TextBlock, GText(""));
    ShowText(synth, events + opening, gs + [GText("")], ok, heading, text);
    assert "" + text == text;
    assert (gs + [GText("")])[|gs| := GText(text)] == gs + [GText(text)];
    Regroup(events, opening, [delta]);
    assert opening + [delta] == Closing(gs) + [ContentBlockStart(|gs|, TextBlock), delta];
  }

  lemma EmitTextShows(cfg: Config, s: State, events: seq<Event>, gs: seq<Group>, ok: bool, heading: Message,
                      text: string)
    requires Tracks(s, gs) && Shows(cfg.synth, events, gs, ok, heading) && text != ""
    ensures Shows(cfg.synth, events + Emit(cfg, s, TextPiece(text)).1, AddText(gs, text), ok, heading)
  {
    TextEvents(s, gs, text);
    if gs != [] && gs[|gs| - 1].GText? {
      ShowText(cfg.synth, events, gs, ok, heading, text);
    } else {
      NewTextShows(cfg.synth, events, gs, ok, heading, text);
    }
  }

  /** Adding arguments to the block at `b`, or nothing if there are none. */
  lemma ArgsShow(synth: nat -> string, events: seq<Event>, gs: seq<Group>, ok: bool, heading: Message, b: nat,
                 args: string)
    requires Shows(synth, events, gs, ok, heading)
    requires b < |gs| && gs[b].GTool?
    ensures Shows(synth, events + (if args == "" then [] else [ContentBlockDelta(b, InputJsonDelta(args))]),
                  gs[b := gs[b].(args := gs[b].args + args)], ok && !(args != "" && b < |gs| - 1), heading)
  {
    if args == "" {
      assert gs[b].args + "" == gs[b].args;
      assert gs[b := gs[b]] == gs;
      assert events + [] == events;
    } else {
      ShowArgs(synth, events, gs, ok, heading, b, args);
    }
  }

  lemma NewToolShows(synth: nat -> string, events: seq<Event>, gs: seq<Group>, ok: bool, heading: Message,
                     g: Group, block: Block, args: string)
    requires Shows(synth, events, gs, ok, heading)
    requires g.GTool? && g.args == "" && block.ToolUseBlock? && Opened(block) == Show(g, synth, |gs|)
    ensures var delta := if args == "" then [] else [ContentBlockDelta(|gs|, InputJsonDelta(args))];
            Shows(synth, events + (Closing(gs) + [ContentBlockStart(|gs|, block)] + delta),
                  gs + [g.(args := args)], ok, heading)
  {
    var b := |gs|;
    var delta := if args == "" then [] else [ContentBlockDelta(b, InputJsonDelta(args))];
    var opening := Closing(gs) + [ContentBlockStart(b, block)];
    ShowOpening(synth, events, gs, ok, heading, block, g);
    ArgsShow(synth, events + opening, gs + [g], ok, heading, b, args);
    assert "" + args == args;
    assert (gs + [g])[b := g.(args := args)] == gs + [g.(args := args)];
    assert events + (opening + delta) == events + opening + delta;
  }

  lemma EmitOldToolShows(cfg: Config, s: State, events: seq<Event>, gs: seq<Group>, ok: bool, heading: Message,
                         p: Piece, b: nat)
    requires Tracks(s, gs) && Shows(cfg.synth, events, gs, ok, heading) && p.ToolPiece? && b == Find(gs, p.index) < |gs|
    ensures Shows(cfg.synth, events + Emit(cfg, s, p).1, AddPiece(gs, p),
                  ok && !(p.args != "" && b < |gs| - 1), heading)
  {
    ToolEvents(cfg, s, gs, p);
    var delta := if p.args == "" then [] else [ContentBlockDelta(b, InputJsonDelta(p.args))];
    assert Emit(cfg, s, p).1 == delta by { assert [] + delta == delta; }
    ArgsShow(cfg.synth, events, gs, ok, heading, b, p.args);
  }

  lemma EmitNewToolShows(cfg: Config, s: State, events: seq<Event>, gs: seq<Group>, ok: bool, heading: Message,
                         p: Piece)
    requires Tracks(s, gs) && Shows(cfg.synth, events, gs, ok, heading) && p.ToolPiece? && Find(gs, p.index) == |gs|
    ensures Shows(cfg.synth, events + Emit(cfg, s, p).1, AddPiece(gs, p), ok, heading)
  {
    ToolEvents(cfg, s, gs, p);
    NewToolShows(cfg.synth, events, gs, ok, heading, GTool(p.index, p.id, p.name, ""),
                 ToolUseBlock(if p.id != "" then p.id else cfg.synth(|gs|), p.name), p.args);
  }

  lemma EmitToolShows(cfg: Config, s: State, events: seq<Event>, gs: seq<Group>, ok: bool, heading: Message, p: Piece)
    requires Tracks(s, gs) && Shows(cfg.synth, events, gs, ok, heading) && p.ToolPiece?
    ensures Shows(cfg.synth, events + Emit(cfg, s, p).1, AddPiece(gs, p),
                  ok && !(p.args != "" && Find(gs, p.index) < |gs| - 1), heading)
  {
    if Find(gs, p.index) < |gs| {
      EmitOldToolShows(cfg, s, events, gs, ok, heading, p, Find(gs, p.index));
    } else {
      EmitNewToolShows(cfg, s, events, gs, ok, heading, p);
    }
  }

  lemma EmitKeepsInv(cfg: Config, s: State, events: seq<Event>, ps: seq<Piece>, heading: Message, p: Piece,
                     t: State, out: seq<Event>, all: seq<Piece>)
    requires Inv(cfg, s, events, ps, heading)
    requires p.TextPiece? ==> p.text != ""
    requires t == Emit(cfg, s, p).0 && out == events + Emit(cfg, s, p).1 && all == ps + [p]
    ensures Inv(cfg, t, out, all, heading)
  {
    GroupedSnoc(ps, p);
    NonInterleavingSnoc(ps, p);
    if p.TextPiece? {
      EmitTextTracks(cfg, s, Grouped(ps), p.text);
      EmitTextShows(cfg, s, events, Grouped(ps), NonInterleaving(ps), heading, p.text);
    } else {
      EmitToolTracks(cfg, s, Grouped(ps), p);
      EmitToolShows(cfg, s, events, Grouped(ps), NonInterleaving(ps), heading, p);
    }
  }

  lemma {:induction false} EmitAllKeepsInv(cfg: Config, s: State, events: seq<Event>, before: seq<Piece>,
                                           heading: Message, ps: seq<Piece>, t: State, out: seq<Event>, all: seq<Piece>)
    requires Inv(cfg, s, events, before, heading)
    requires forall i :: 0 <= i < |ps| && ps[i].TextPiece? ==> ps[i].text != ""
    requires t == EmitAll(cfg, s, ps).0 && out == events + EmitAll(cfg, s, ps).1 && all == before + ps
    ensures Inv(cfg, t, out, all, heading)
  {
    if ps == [] {
      assert out == events && all == before;
    } else {
      var front, p := ps[..|ps| - 1], ps[|ps| - 1];
      var (mid, more) := EmitAll(cfg, s, front);
      assert ps == front + [p];
      Regroup(events, more, Emit(cfg, mid, p).1);
      Regroup(before, front, [p]);
      EmitAllKeepsInv(cfg, s, events, before, heading, front, mid, events + more, before + front);
      EmitKeepsInv(cfg, mid, events + more, before + front, heading, p, t, out, all);
    }
  }

  lemma EmitAllSnoc(cfg: Config, s: State, ps: seq<Piece>, p: Piece)
    ensures var (t, before) := EmitAll(cfg, s, ps);
            var (u, last) := Emit(cfg, t, p);
            EmitAll(cfg, s, ps + [p]) == (u, before + last)
  {
    assert (ps + [p])[..|ps|] == ps;
  }

  lemma {:induction false} EmitAllKeepsRest(cfg: Config, s: State, ps: seq<Piece>)
    ensures var t := EmitAll(cfg, s, ps).0;
            t.finish == s.finish && t.outputTokens == s.outputTokens
  {
    if ps != [] { EmitAllKeepsRest(cfg, s, ps[..|ps| - 1]); }
  }

  /** The opening event alone shows a message without blocks. */
  lemma StartEventShows(synth: nat -> string, e: Event)
    requires e.MessageStart?
    ensures Shows(synth, [e], [], true, Absorb(EMPTY_MESSAGE, e))
  {
    ScanViewSnoc([], e);
    assert [] + [e] == [e];
    assert Shown([], synth) == [];
  }

  lemma StartShows(cfg: Config, c: Chunk, t: State, events: seq<Event>)
    requires (t, events) == Start(cfg, CaptureUsage(INITIAL, c.usage), NormalizeId(cfg, c.id))
    ensures Inv(cfg, t, events, [], Heading(cfg, [c]))
  {
    StartEventShows(cfg.synth, StartEvent(cfg, t));
    assert Absorb(EMPTY_MESSAGE, StartEvent(cfg, t)) == Heading(cfg, [c]);
    assert NonInterleaving([]);
  }

  /** Counters captured from a chunk's usage are not part of the invariant. */
  lemma CaptureKeepsInv(cfg: Config, s: State, events: seq<Event>, ps: seq<Piece>, heading: Message, c: Chunk, t: State)
    requires Inv(cfg, s, events, ps, heading)
    requires t == CaptureUsage(s, c.usage) || t == NoteFinish(s, c)
    ensures Inv(cfg, t, events, ps, heading)
  {
  }

  lemma {:induction false} RunKeepsRest(cfg: Config, chunks: seq<Chunk>)
    ensures var s := Run(cfg, chunks).0;
            s.finish == LastFinish(chunks) && s.outputTokens == LastTokens(chunks)
  {
    if chunks != [] {
      var front, c := chunks[..|chunks| - 1], chunks[|chunks| - 1];
      RunKeepsRest(cfg, front);
      EmitAllKeepsRest(cfg, Start(cfg, CaptureUsage(Run(cfg, front).0, c.usage), NormalizeId(cfg, c.id)).0, Pieces(c));
    }
  }

  lemma ContentKeepsInv(cfg: Config, t: State, begun: seq<Event>, ps: seq<Piece>, heading: Message, c: Chunk,
                        s: State, events: seq<Event>)
    requires Inv(cfg, t, begun, ps, heading)
    requires s == NoteFinish(EmitAll(cfg, t, Pieces(c)).0, c) && events == begun + EmitAll(cfg, t, Pieces(c)).1
    ensures Inv(cfg, s, events, ps + Pieces(c), heading)
  {
    var u := EmitAll(cfg, t, Pieces(c)).0;
    EmitAllKeepsInv(cfg, t, begun, ps, heading, Pieces(c), u, events, ps + Pieces(c));
    CaptureKeepsInv(cfg, u, events, ps + Pieces(c), heading, c, s);
  }

  lemma FirstChunkKeepsInv(cfg: Config, c: Chunk, s: State, events: seq<Event>)
    requires (s, events) == ChunkStep(cfg, INITIAL, c)
    ensures Inv(cfg, s, events, Pieces(c), Heading(cfg, [c]))
  {
    var (t, starting) := Start(cfg, CaptureUsage(INITIAL, c.usage), NormalizeId(cfg, c.id));
    StartShows(cfg, c, t, starting);
    ContentKeepsInv(cfg, t, starting, [], Heading(cfg, [c]), c, s, events);
    assert [] + Pieces(c) == Pieces(c);
  }

  lemma LaterChunkKeepsInv(cfg: Config, r: State, before: seq<Event>, ps: seq<Piece>, heading: Message, c: Chunk,
                           s: State, events: seq<Event>)
    requires Inv(cfg, r, before, ps, heading)
    requires s == ChunkStep(cfg, r, c).0 && events == before + ChunkStep(cfg, r, c).1
    ensures Inv(cfg, s, events, ps + Pieces(c), heading)
  {
    var t := CaptureUsage(r, c.usage);
    CaptureKeepsInv(cfg, r, before, ps, heading, c, t);
    assert [] + EmitAll(cfg, t, Pieces(c)).1 == EmitAll(cfg, t, Pieces(c)).1;
    ContentKeepsInv(cfg, t, before, ps, heading, c, s, events);
  }

  lemma {:induction false} RunKeepsInv(cfg: Config, chunks: seq<Chunk>)
    requires chunks != []
    ensures var (s, events) := Run(cfg, chunks); Inv(cfg, s, events, AllPieces(chunks), Heading(cfg, chunks))
  {
    var front, c := chunks[..|chunks| - 1], chunks[|chunks| - 1];
    var (r, before) := Run(cfg, front);
    var (s, events) := Run(cfg, chunks);
    if front == [] {
      assert chunks == [c] && before == [];
      assert [] + Pieces(c) == Pieces(c) == AllPieces(chunks);
      assert r == INITIAL;
      assert events == before + ChunkStep(cfg, r, c).1 == ChunkStep(cfg, r, c).1;
      FirstChunkKeepsInv(cfg, c, s, events);
    } else {
      RunKeepsInv(cfg, front);
      assert Heading(cfg, front) == Heading(cfg, chunks);
      LaterChunkKeepsInv(cfg, r, before, AllPieces(front), Heading(cfg, chunks), c, s, events);
    }
  }

  /** The two last events, after closed blocks. */
  lemma EndMessage(body: seq<Event>, closing: Event)
    requires closing.MessageDelta?
    ensures var out := body + [closing, MessageStop];
            && Scan(out) == Advance(Advance(Scan(body), closing), MessageStop)
            && View(out) == View(body).(stop := closing.stop, outputTokens := closing.outputTokens)
  {
    ScanViewSnoc(body, closing);
    ScanViewSnoc(body + [closing], MessageStop);
    assert body + [closing, MessageStop] == body + [closing] + [MessageStop];
  }

  /** Closing the open block, or padding an empty message with one empty text block. */
  lemma CloseBlocks(synth: nat -> string, events: seq<Event>, gs: seq<Group>, ok: bool, heading: Message)
    requires Shows(synth, events, gs, ok, heading)
    ensures var body := events + Closing(gs) +
                        if gs == [] then [ContentBlockStart(0, TextBlock), ContentBlockStop(0)] else [];
            && Scan(body) == (if ok then Idle(if gs == [] then 1 else |gs|) else Broken)
            && View(body) == heading.(blocks := if gs == [] then [MText("")] else Shown(gs, synth))
  {
    if gs == [] {
      var start, stop := ContentBlockStart(0, TextBlock), ContentBlockStop(0);
      ScanViewSnoc(events, start);
      ScanViewSnoc(events + [start], stop);
      assert events + Closing(gs) + [start, stop] == events + [start] + [stop];
      assert Shown(gs, synth) == [];
    } else {
      ScanViewSnoc(events, ContentBlockStop(|gs| - 1));
      assert events + Closing(gs) + [] == events + [ContentBlockStop(|gs| - 1)];
    }
  }

  lemma CloseAll(synth: nat -> string, events: seq<Event>, gs: seq<Group>, ok: bool, heading: Message, closing: Event)
    requires Shows(synth, events, gs, ok, heading) && closing.MessageDelta?
    ensures var pad := if gs == [] then [ContentBlockStart(0, TextBlock), ContentBlockStop(0)] else [];
            var out := events + Closing(gs) + pad + [closing, MessageStop];
            && Scan(out) == (if ok then Done else Broken)
            && View(out) == heading.(blocks := if gs == [] then [MText("")] else Shown(gs, synth),
                                     stop := closing.stop, outputTokens := closing.outputTokens)
  {
    CloseBlocks(synth, events, gs, ok, heading);
    EndMessage(events + Closing(gs) + if gs == [] then [ContentBlockStart(0, TextBlock), ContentBlockStop(0)] else [],
               closing);
  }

  /** Whole runs: any chunk sequence, interleaved or not, yields exactly the message the chunks stand for,
      and the event grammar holds exactly when no abandoned tool receives arguments again. */
  lemma TranslateMeans(cfg: Config, chunks: seq<Chunk>)
    ensures View(Translate(cfg, chunks)) == Meaning(cfg, chunks)
    ensures WellFormed(Translate(cfg, chunks)) <==> NonInterleaving(AllPieces(chunks))
  {
    if chunks == [] {
      EmptyRunMeans(cfg);
    } else {
      var (s, events) := Run(cfg, chunks);
      RunKeepsRest(cfg, chunks);
      RunKeepsInv(cfg, chunks);
      InvFinishes(cfg, s, events, AllPieces(chunks), Heading(cfg, chunks));
    }
  }

  /** The stop reason a client must read after `finish`. The legacy function_call counts as a tool use, and no reason
      at all as the end of the turn. */
  predicate StopTells(stop: Option<StopReason>, finish: Option<FinishReason>) {
    && (stop == Some(MaxTokens) <==> finish == Some(FinishLength))
    && (stop == Some(ToolUseStop) <==> finish == Some(FinishToolCalls) || finish == Some(FinishFunctionCall))
    && (stop == Some(Refusal) <==> finish == Some(FinishContentFilter))
    && (stop == Some(EndTurn) <==> finish == Some(FinishStop) || finish == None)
  }

  lemma StopOfTells(stop: Option<StopReason>, finish: Option<FinishReason>)
    requires stop == Some(if finish.Some? then StopOf(finish.value) else EndTurn)
    ensures StopTells(stop, finish)
  {
  }

  /** The stop reason of every stream tells the last finish reason of its chunks. */
  lemma StopTellsFinish(cfg: Config, chunks: seq<Chunk>)
    ensures StopTells(View(Translate(cfg, chunks)).stop, LastFinish(chunks))
  {
    TranslateMeans(cfg, chunks);
    StopOfTells(Meaning(cfg, chunks).stop, LastFinish(chunks));
  }

  /** The arguments of one tool call, in a chunk of their own. */
  function ToolChunkOf(index: int, arguments: string): Chunk {
    Chunk("c", "m",
          [Choice(Delta(None, [ToolDelta(index, Some("t"), Some(FunctionDelta(Some("f"), Some(arguments))))]), None)],
          None)
  }

  lemma ResumedPieces(p: Piece, q: Piece, r: Piece)
    requires p.ToolPiece? && q.ToolPiece? && r.ToolPiece? && p.index == r.index != q.index && r.args != ""
    ensures !NonInterleaving([p, q, r])
  {
    var two, ps := [p, q], [p, q, r];
    assert ps[..2] == two && two[..1] == [p];
    assert Mentions(two[0], r.index);
    assert !Seen([p], q.index);
    assert Breaks(two, 1);
    assert Abandoned(two, r.index);
    assert Resumes(ps, 2);
  }

  lemma OneMorePiece(chunks: seq<Chunk>, c: Chunk, p: Piece, more: seq<Chunk>, ps: seq<Piece>)
    requires Pieces(c) == [p] && more == chunks + [c] && ps == AllPieces(chunks) + [p]
    ensures AllPieces(more) == ps
  {
    assert more[..|more| - 1] == chunks;
  }

  lemma ToolChunkPieces(index: int, arguments: string)
    ensures Pieces(ToolChunkOf(index, arguments)) == [ToolPiece(index, "t", "f", arguments)]
  {
    var td := ToolChunkOf(index, arguments).choices[0].delta.toolCalls[0];
    assert ToolPieces([td]) == [PieceOf(td)];
    assert [] + [PieceOf(td)] == [PieceOf(td)];
  }

  lemma ResumedChunkPieces(a: Chunk, b: Chunk, c: Chunk, p: Piece, q: Piece, r: Piece)
    requires Pieces(a) == [p] && Pieces(b) == [q] && Pieces(c) == [r]
    ensures AllPieces([a, b, c]) == [p, q, r]
  {
    OneMorePiece([], a, p, [a], [p]);
    OneMorePiece([a], b, q, [a, b], [p, q]);
    OneMorePiece([a, b], c, r, [a, b, c], [p, q, r]);
  }

  /** The grammar can break: tool 0 gets arguments, tool 1 opens, and tool 0 gets more. */
  lemma ResumedToolBreaksGrammar(cfg: Config)
    ensures !WellFormed(Translate(cfg, [ToolChunkOf(0, "x"), ToolChunkOf(1, ""), ToolChunkOf(0, "y")]))
  {
    ToolChunkPieces(0, "x");
    ToolChunkPieces(1, "");
    ToolChunkPieces(0, "y");
    var p, q, r := ToolPiece(0, "t", "f", "x"), ToolPiece(1, "t", "f", ""), ToolPiece(0, "t", "f", "y");
    ResumedChunkPieces(ToolChunkOf(0, "x"), ToolChunkOf(1, ""), ToolChunkOf(0, "y"), p, q, r);
    ResumedPieces(p, q, r);
    TranslateMeans(cfg, [ToolChunkOf(0, "x"), ToolChunkOf(1, ""), ToolChunkOf(0, "y")]);
  }

  lemma InvFinishes(cfg: Config, s: State, events: seq<Event>, ps: seq<Piece>, heading: Message)
    requires Inv(cfg, s, events, ps, heading)
    ensures var out, closing := events + FinalStep(cfg, s).1, ClosingDelta(s);
            && (WellFormed(out) <==> NonInterleaving(ps))
            && View(out) == heading.(blocks := if Grouped(ps) == [] then [MText("")] else Shown(Grouped(ps), cfg.synth),
                                     stop := closing.stop, outputTokens := closing.outputTokens)
  {
    FinishShows(cfg, s, events, Grouped(ps), NonInterleaving(ps), heading);
  }

  /** No chunk at all still yields one empty text block. */
  lemma EmptyRunMeans(cfg: Config)
    ensures View(Translate(cfg, [])) == Meaning(cfg, [])
    ensures WellFormed(Translate(cfg, []))
  {
    var (t, starting) := Start(cfg, INITIAL, cfg.freshId);
    StartEventShows(cfg.synth, StartEvent(cfg, t));
    FinishShows(cfg, t, starting, [], true, Heading(cfg, []));
    assert starting + FinalStep(cfg, t).1 == Translate(cfg, []);
  }

  lemma FinishShows(cfg: Config, t: State, begun: seq<Event>, gs: seq<Group>, ok: bool, heading: Message)
    requires t.started && t.current == (if gs == [] then None else Some(|gs| - 1)) && (t.anyOpened <==> gs != [])
    requires Shows(cfg.synth, begun, gs, ok, heading)
    ensures var out, closing := begun + FinalStep(cfg, t).1, ClosingDelta(t);
            && Scan(out) == (if ok then Done else Broken)
            && View(out) == heading.(blocks := if gs == [] then [MText("")] else Shown(gs, cfg.synth),
                                     stop := closing.stop, outputTokens := closing.outputTokens)
  {
    var pad := if gs == [] then [ContentBlockStart(0, TextBlock), ContentBlockStop(0)] else [];
    CloseAll(cfg.synth, begun, gs, ok, heading, ClosingDelta(t));
    assert begun + FinalStep(cfg, t).1 == begun + Closing(gs) + pad + [ClosingDelta(t), MessageStop];
  }

  /** After finalize the translator has started, has no block open, and counts the blocks it has shown. */
  lemma FinishedState(cfg: Config, chunks: seq<Chunk>)
    ensures var t := FinalStep(cfg, Run(cfg, chunks).0).0;
            && t.started && t.anyOpened && t.current == None && t.kind == None
            && t.nextBlock == |View(Translate(cfg, chunks)).blocks|
  {
    TranslateMeans(cfg, chunks);
    if chunks != [] { RunKeepsInv(cfg, chunks); }
    assert Grouped([]) == [];
  }

  function TextOfBlocks(bs: seq<MBlock>): string {
    if bs == [] then ""
    else TextOfBlocks(bs[..|bs| - 1]) + (if bs[|bs| - 1].MText? then bs[|bs| - 1].text else "")
  }

  lemma {:induction false} ShownKeepsText(gs: seq<Group>, synth: nat -> string)
    ensures TextOfBlocks(Shown(gs, synth)) == TextOfGroups(gs)
  {
    if gs != [] {
      var n := |gs| - 1;
      ShownKeepsText(gs[..n], synth);
      assert Shown(gs, synth)[..n] == Shown(gs[..n], synth);
    }
  }

  /** For any chunk sequence the client ends with exactly the streamed text, and each tool's block
      with exactly that tool's streamed arguments, under the id and name of its first mention. */
  lemma ContentConserved(cfg: Config, chunks: seq<Chunk>, index: int)
    ensures var ps, bs := AllPieces(chunks), View(Translate(cfg, chunks)).blocks;
            && TextOfBlocks(bs) == TextIn(ps)
            && (Seen(ps, index) ==>
                  && Opener(ps, index).Some?
                  && var opener := Opener(ps, index).value;
                     exists b :: 0 <= b < |bs| && bs[b] == MTool(if opener.id != "" then opener.id else cfg.synth(b),
                                                                 opener.name, ArgsIn(ps, index)))
  {
    var ps := AllPieces(chunks);
    var gs := Grouped(ps);
    var bs := View(Translate(cfg, chunks)).blocks;
    TranslateMeans(cfg, chunks);
    GroupedKeepsText(ps);
    ShownKeepsText(gs, cfg.synth);
    GroupedKeepsArgs(ps, index);
    GroupedIsDistinct(ps);
    if gs == [] {
      assert [MText("")][..0] == [];
      assert TextOfBlocks([]) == "";
      assert TextOfBlocks([MText("")]) == "";
    }
    if Seen(ps, index) {
      assert bs[Find(gs, index)] == Show(gs[Find(gs, index)], cfg.synth, Find(gs, index));
    }
  }

  /** A second `finalize` is not silent, whatever its docstring says: it closes the message again. */
  lemma SecondFinalizeRepeats(cfg: Config, s: State, events: seq<Event>)
    requires WellFormed(events)
    ensures var t := FinalStep(cfg, s).0;
            && FinalStep(cfg, t).1 == [ClosingDelta(s), MessageStop]
            && !WellFormed(events + FinalStep(cfg, t).1)
  {
    var t := FinalStep(cfg, s).0;
    assert FinalStep(cfg, t).1 == [ClosingDelta(s), MessageStop];
    ScanViewSnoc(events, ClosingDelta(s));
    ScanViewSnoc(events + [ClosingDelta(s)], MessageStop);
    assert events + [ClosingDelta(s), MessageStop] == events + [ClosingDelta(s)] + [MessageStop];
  }

  // ----- The translator object ------------------------------------------

  /** State lives in fields and is updated chunk by chunk. */
  class OpenAIToAnthropicStreamTranslator {
    const cfg: Config
    var messageStarted: bool
    var messageId: string
    var nextBlockIndex: nat
    var currentBlockIndex: Option<nat>
    var currentBlockKind: Option<Kind>
    var openaiToolIdxToBlock: map<int, nat>
    var finishReason: Option<FinishReason>
    var finalOutputTokens: int
    var cacheCreation: Option<int>
    var cacheRead: Option<int>
    var anyBlockOpened: bool

    function Current(): State
      reads this
    {
      State(messageStarted, messageId, nextBlockIndex, currentBlockIndex, currentBlockKind, openaiToolIdxToBlock,
            finishReason, finalOutputTokens, cacheCreation, cacheRead, anyBlockOpened)
    }

    constructor (cfg: Config)
      ensures this.cfg == cfg && Current() == INITIAL
    {
      this.cfg := cfg;
      messageStarted, messageId := false, "";
      nextBlockIndex, currentBlockIndex, currentBlockKind := 0, None, None;
      openaiToolIdxToBlock := map[];
      finishReason, finalOutputTokens := None, 0;
      cacheCreation, cacheRead := None, None;
      anyBlockOpened := false;
    }

    method EmitTextDelta(text: string) returns (events: seq<Event>)
      modifies this
      ensures (Current(), events) == EmitText(old(Current()), text)
    {
      events := [];
      if currentBlockKind != Some(TextKind) || currentBlockIndex.None? {
        if currentBlockIndex.Some? {
          events := events + [ContentBlockStop(currentBlockIndex.value)];
        }
        currentBlockIndex, currentBlockKind := Some(nextBlockIndex), Some(TextKind);
        nextBlockIndex := nextBlockIndex + 1;
        anyBlockOpened := true;
        events := events + [ContentBlockStart(currentBlockIndex.value, TextBlock)];
      }
      events := events + [ContentBlockDelta(currentBlockIndex.value, TextDelta(text))];
      assert events == EmitText(old(Current()), text).1;
    }

    /** On the first mention of a tool, closes the open block and opens the tool's. */
    method OpenToolBlock(td: ToolDelta) returns (events: seq<Event>)
      modifies this
      ensures (Current(), events) == OpenTool(cfg, old(Current()), PieceOf(td))
      ensures td.index in openaiToolIdxToBlock
    {
      events := [];
      if td.index in openaiToolIdxToBlock {
        return;
      }
      if currentBlockIndex.Some? {
        events := events + [ContentBlockStop(currentBlockIndex.value)];
      }
      var b := nextBlockIndex;
      nextBlockIndex := nextBlockIndex + 1;
      openaiToolIdxToBlock := openaiToolIdxToBlock[td.index := b];
      currentBlockIndex, currentBlockKind := Some(b), Some(ToolKind);
      anyBlockOpened := true;
      var id := if td.id.Some? && td.id.value != "" then td.id.value else cfg.synth(b);
      var name := "";
      if td.call.Some? && td.call.value.name.Some? {
        name := td.call.value.name.value;
      }
      events := events + [ContentBlockStart(b, ToolUseBlock(id, name))];
      assert events == OpenTool(cfg, old(Current()), PieceOf(td)).1;
    }

    method EmitToolCallDelta(td: ToolDelta) returns (events: seq<Event>)
      modifies this
      ensures (Current(), events) == EmitTool(cfg, old(Current()), PieceOf(td))
    {
      events := OpenToolBlock(td);
      ghost var opening := events;
      if td.call.Some? && td.call.value.arguments.Some? && td.call.value.arguments.value != "" {
        events := events + [ContentBlockDelta(openaiToolIdxToBlock[td.index],
                                              InputJsonDelta(td.call.value.arguments.value))];
      } else {
        assert opening + [] == opening;
      }
    }

    /** The content part of `translate_chunk`: text first, then every tool delta in order. */
    method EmitDelta(delta: Delta) returns (events: seq<Event>)
      modifies this
      ensures (Current(), events)
              == EmitAll(cfg, old(Current()), TextPieces(delta.content) + ToolPieces(delta.toolCalls))
    {
      ghost var t := Current();
      ghost var text, tools := TextPieces(delta.content), ToolPieces(delta.toolCalls);
      events := [];
      if delta.content.Some? && delta.content.value != "" {
        events := EmitTextDelta(delta.content.value);
        EmitAllSnoc(cfg, t, [], text[0]);
        assert [] + [text[0]] == text && [] + events == events;
      }
      assert text + tools[..0] == text;
      for i := 0 to |delta.toolCalls|
        invariant (Current(), events) == EmitAll(cfg, t, text + tools[..i])
      {
        TakeMore(tools, i);
        Regroup(text, tools[..i], [tools[i]]);
        EmitAllSnoc(cfg, t, text + tools[..i], tools[i]);
        var more := EmitToolCallDelta(delta.toolCalls[i]);
        events := events + more;
      }
      assert tools[..|tools|] == tools;
    }

    method TakeUsage(usage: Option<Usage>)
      modifies this
      ensures Current() == CaptureUsage(old(Current()), usage)
    {
      if usage.Some? {
        finalOutputTokens := usage.value.completionTokens;
        var details := usage.value.details;
        if details.Some? {
          if details.value.creation.Some? { cacheCreation := details.value.creation; }
          if details.value.read.Some? { cacheRead := details.value.read; }
        }
      }
    }

    method EnsureStarted(id: string) returns (events: seq<Event>)
      modifies this
      ensures (Current(), events) == Start(cfg, old(Current()), id)
    {
      events := [];
      if !messageStarted {
        messageStarted, messageId := true, id;
        events := [StartEvent(cfg, Current())];
      }
    }

    method TranslateChunk(c: Chunk) returns (events: seq<Event>)
      modifies this
      ensures (Current(), events) == ChunkStep(cfg, old(Current()), c)
    {
      TakeUsage(c.usage);
      events := EnsureStarted(NormalizeId(cfg, c.id));
      if c.choices == [] {
        assert events + [] == events;
        return;
      }
      var more := EmitDelta(c.choices[0].delta);
      events := events + more;
      if c.choices[0].finishReason.Some? {
        finishReason := c.choices[0].finishReason;
      }
    }

    method Finalize() returns (events: seq<Event>)
      modifies this
      ensures (Current(), events) == FinalStep(cfg, old(Current()))
    {
      events := EnsureStarted(cfg.freshId);
      if currentBlockIndex.Some? {
        events := events + [ContentBlockStop(currentBlockIndex.value)];
        currentBlockIndex, currentBlockKind := None, None;
      }
      if !anyBlockOpened {
        events := events + [ContentBlockStart(0, TextBlock), ContentBlockStop(0)];
        nextBlockIndex, anyBlockOpened := 1, true;
      }
      var stop := EndTurn;
      if finishReason.Some? {
        stop := StopOf(finishReason.value);
      }
      events := events + [MessageDelta(Some(stop), Some(finalOutputTokens)), MessageStop];
      assert events == FinalStep(cfg, old(Current())).1;
    }
  }
}
