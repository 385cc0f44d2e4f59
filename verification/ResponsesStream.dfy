/** The chunk-to-Responses translator, and the client that follows its event lifecycle. */
module ResponsesStream {
  import opened Wrappers
  import opened SeqFacts
  import opened StreamTypes
  import opened ChunkPieces

  // ----- Events -----------------------------------------------------------

  /** A message in progress has no content yet; function_call items carry what is known so far. */
  datatype Item =
    | MessageItem(id: string, content: Option<string>)
    | CallItem(id: string, callId: string, name: string, arguments: string)

  datatype Event =
    | Created(seqNo: nat)
    | ItemAdded(seqNo: nat, index: nat, item: Item)
    | PartAdded(seqNo: nat, itemId: string, index: nat)
    | TextDelta(seqNo: nat, itemId: string, index: nat, delta: string)
    | ArgsDelta(seqNo: nat, itemId: string, index: nat, delta: string)
    | TextDone(seqNo: nat, itemId: string, index: nat, text: string)
    | PartDone(seqNo: nat, itemId: string, index: nat, text: string)
    | ArgsDone(seqNo: nat, itemId: string, index: nat, name: string, arguments: string)
    | ItemDone(seqNo: nat, index: nat, item: Item)
    | Completed(seqNo: nat, output: seq<Item>, inputTokens: int, outputTokens: int)

  // ----- The client's view ---------------------------------------------------

  /** One output item as a client tracks it: `added` is the item as it was announced, `named` the function name that
      came with the complete arguments, and `closed` counts the closing events seen before the item is done. */
  datatype Tracked = Tracked(id: string, call: Option<string>, added: Item, named: Option<string>, partOpen: bool,
                             body: string, closed: nat, done: Option<Item>)

  datatype Client = Client(seen: nat, created: bool, items: seq<Tracked>, completed: bool)

  const NEW_CLIENT := Client(0, false, [], false)

  /** The item `index` while it still accepts content. */
  predicate Accepts(c: Client, index: nat, id: string) {
    index < |c.items| && c.items[index].id == id && c.items[index].done.None?
  }

  function Update(c: Client, index: nat, t: Tracked): Client
    requires index < |c.items|
  {
    c.(items := c.items[index := t])
  }

  /** One event, or `None` when it breaks the lifecycle. */
  function React(c: Client, e: Event): Option<Client> {
    match e
    case Created(_) => if c.created then None else Some(c.(created := true))
    case ItemAdded(_, i, MessageItem(id, content)) =>
      if i != |c.items| || content.Some? then None
      else Some(c.(items := c.items + [Tracked(id, None, e.item, None, false, "", 0, None)]))
    case ItemAdded(_, i, CallItem(id, callId, _, arguments)) =>
      if i != |c.items| || arguments != "" then None
      else Some(c.(items := c.items + [Tracked(id, Some(callId), e.item, None, false, "", 0, None)]))
    case PartAdded(_, id, i) =>
      if !Accepts(c, i, id) || c.items[i].call.Some? || c.items[i].partOpen then None
      else Some(Update(c, i, c.items[i].(partOpen := true)))
    case TextDelta(_, id, i, delta) =>
      if delta == "" || !Accepts(c, i, id) || !c.items[i].partOpen || c.items[i].closed != 0 then None
      else Some(Update(c, i, c.items[i].(body := c.items[i].body + delta)))
    case ArgsDelta(_, id, i, delta) =>
      if delta == "" || !Accepts(c, i, id) || c.items[i].call.None? || c.items[i].closed != 0 then None
      else Some(Update(c, i, c.items[i].(body := c.items[i].body + delta)))
    case TextDone(_, id, i, text) =>
      if !Accepts(c, i, id) || !c.items[i].partOpen || c.items[i].closed != 0 || text != c.items[i].body then None
      else Some(Update(c, i, c.items[i].(closed := 1)))
    case PartDone(_, id, i, text) =>
      if !Accepts(c, i, id) || !c.items[i].partOpen || c.items[i].closed != 1 || text != c.items[i].body then None
      else Some(Update(c, i, c.items[i].(closed := 2)))
    case ArgsDone(_, id, i, name, arguments) =>
      if !Accepts(c, i, id) || c.items[i].call.None? || c.items[i].closed != 0 || arguments != c.items[i].body then None
      else Some(Update(c, i, c.items[i].(closed := 1, named := Some(name))))
    case ItemDone(_, i, MessageItem(id, content)) =>
      if !Accepts(c, i, id) || c.items[i].closed != 2 || content != Some(c.items[i].body) then None
      else Some(Update(c, i, c.items[i].(done := Some(e.item))))
    case ItemDone(_, i, CallItem(id, callId, name, arguments)) =>
      if !Accepts(c, i, id) || c.items[i].closed != 1 || c.items[i].named != Some(name)
         || c.items[i].call != Some(callId) || arguments != c.items[i].body then None
      else Some(Update(c, i, c.items[i].(done := Some(e.item))))
    case Completed(_, output, _, _) =>
      if c.items == [] || |output| != |c.items|
         || (exists i :: 0 <= i < |c.items| && c.items[i].done != Some(output[i])) then None
      else Some(c.(completed := true))
  }

  /** Numbers must run 0, 1, 2, ..., response.created comes first and nothing follows response.completed. */
  function Observe(c: Client, e: Event): Option<Client> {
    if e.seqNo != c.seen || c.completed || (!e.Created? && !c.created) then None
    else
      var d := React(c, e);
      if d.None? then None else Some(d.value.(seen := c.seen + 1))
  }

  function Watch(c: Client, events: seq<Event>): Option<Client>
    decreases |events|
  {
    if events == [] then Some(c)
    else
      var d := Observe(c, events[0]);
      if d.None? then None else Watch(d.value, events[1..])
  }

  lemma {:induction false} WatchConcat(c: Client, a: seq<Event>, b: seq<Event>)
    ensures Watch(c, a).Some? ==> Watch(c, a + b) == Watch(Watch(c, a).value, b)
    decreases |a|
  {
    if a == [] {
      assert a + b == b;
    } else {
      assert (a + b)[1..] == a[1..] + b;
      var d := Observe(c, a[0]);
      if d.Some? { WatchConcat(d.value, a[1..], b); }
    }
  }

  // ----- Translator state -------------------------------------------------------

  datatype TextItem = TextItem(index: nat, id: string, text: string)

  datatype Tool = Tool(key: int, index: nat, id: string, callId: string, name: string, args: string)

  /** The functions stand for the uuids drawn for the message and for the item at an output index. */
  datatype Config = Config(messageId: string, itemId: nat -> string, callId: nat -> string)

  /** `tools` lists the dictionary's entries in insertion order. */
  datatype State = State(
    seqNo: nat, created: bool, finished: bool, nextIndex: nat,
    text: Option<TextItem>, tools: seq<Tool>,
    inputTokens: int, outputTokens: int, sawUsage: bool, outputChars: nat)

  const INITIAL := State(0, false, false, 0, None, [], 0, 0, false, 0)

  function Position(tools: seq<Tool>, key: int): (k: nat)
    ensures k <= |tools| && (k < |tools| ==> tools[k].key == key)
    ensures forall j :: 0 <= j < k ==> tools[j].key != key
  {
    if tools == [] || tools[0].key == key then 0 else 1 + Position(tools[1..], key)
  }

  // ----- Steps ------------------------------------------------------------------

  function OpenText(cfg: Config, s: State): (State, seq<Event>) {
    (s.(text := Some(TextItem(s.nextIndex, cfg.messageId, "")), nextIndex := s.nextIndex + 1, seqNo := s.seqNo + 2),
     [ItemAdded(s.seqNo, s.nextIndex, MessageItem(cfg.messageId, None)),
      PartAdded(s.seqNo + 1, cfg.messageId, s.nextIndex)])
  }

  function EmitText(cfg: Config, s: State, delta: string): (State, seq<Event>) {
    var (t, opening) := if s.text.Some? then (s, []) else OpenText(cfg, s);
    var item := t.text.value;
    (t.(text := Some(item.(text := item.text + delta)), outputChars := t.outputChars + |delta|, seqNo := t.seqNo + 1),
     opening + [Event.TextDelta(t.seqNo, item.id, item.index, delta)])
  }

  function CallOf(t: Tool, arguments: string): Item {
    CallItem(t.id, t.callId, t.name, arguments)
  }

  function OpenTool(cfg: Config, s: State, p: Piece): (State, seq<Event>)
    requires p.ToolPiece?
  {
    if Position(s.tools, p.index) < |s.tools| then (s, [])
    else
      var i := s.nextIndex;
      var tool := Tool(p.index, i, cfg.itemId(i), if p.id != "" then p.id else cfg.callId(i), p.name, "");
      (s.(tools := s.tools + [tool], nextIndex := i + 1, seqNo := s.seqNo + 1),
       [ItemAdded(s.seqNo, i, CallOf(tool, ""))])
  }

  /** The tool's record after this delta: a late name fills an empty one, arguments accumulate. */
  function Fill(t: Tool, p: Piece): Tool
    requires p.ToolPiece?
  {
    t.(name := if p.name != "" && t.name == "" then p.name else t.name, args := t.args + p.args)
  }

  function FillTool(s: State, p: Piece): (State, seq<Event>)
    requires p.ToolPiece?
  {
    var k := Position(s.tools, p.index);
    if k == |s.tools| then (s, [])
    else
      var t := s.(tools := s.tools[k := Fill(s.tools[k], p)]);
      if p.args == "" then (t, [])
      else (t.(outputChars := t.outputChars + |p.args|, seqNo := t.seqNo + 1),
            [ArgsDelta(t.seqNo, s.tools[k].id, s.tools[k].index, p.args)])
  }

  function Emit(cfg: Config, s: State, p: Piece): (State, seq<Event>) {
    if p.TextPiece? then EmitText(cfg, s, p.text)
    else
      var (t, opening) := OpenTool(cfg, s, p);
      var (u, filling) := FillTool(t, p);
      (u, opening + filling)
  }

  function EmitAll(cfg: Config, s: State, ps: seq<Piece>): (State, seq<Event>) {
    if ps == [] then (s, [])
    else
      var (t, before) := EmitAll(cfg, s, ps[..|ps| - 1]);
      var (u, last) := Emit(cfg, t, ps[|ps| - 1]);
      (u, before + last)
  }

  function Create(s: State): (State, seq<Event>) {
    if s.created then (s, []) else (s.(created := true, seqNo := s.seqNo + 1), [Created(s.seqNo)])
  }

  function TakeUsage(s: State, usage: Option<Usage>): State {
    if usage.None? then s
    else s.(sawUsage := true, outputTokens := usage.value.completionTokens, inputTokens := usage.value.promptTokens)
  }

  function ChunkStep(cfg: Config, s: State, c: Chunk): (State, seq<Event>) {
    var (t, creating) := Create(s);
    var (u, content) := EmitAll(cfg, t, Pieces(c));
    (TakeUsage(u, c.usage), creating + content)
  }

  function Run(cfg: Config, chunks: seq<Chunk>): (State, seq<Event>) {
    if chunks == [] then (INITIAL, [])
    else
      var (s, before) := Run(cfg, chunks[..|chunks| - 1]);
      var (t, last) := ChunkStep(cfg, s, chunks[|chunks| - 1]);
      (t, before + last)
  }

  // ----- Closing ------------------------------------------------------------------

  /** Where an entry goes: after the last entry whose index is not larger. */
  function Slot<T>(xs: seq<(nat, T)>, x: (nat, T)): (k: nat)
    ensures k <= |xs|
    ensures forall i :: k <= i < |xs| ==> xs[i].0 > x.0
    ensures k > 0 ==> xs[k - 1].0 <= x.0
  {
    if xs == [] || xs[|xs| - 1].0 <= x.0 then |xs| else Slot(xs[..|xs| - 1], x)
  }

  /** Stable insertion by index, as Python's `sorted` with the index as key. */
  function Insert<T>(xs: seq<(nat, T)>, x: (nat, T)): seq<(nat, T)> {
    var k := Slot(xs, x);
    xs[..k] + [x] + xs[k..]
  }

  function SortByIndex<T>(xs: seq<(nat, T)>): seq<(nat, T)> {
    if xs == [] then [] else Insert(SortByIndex(xs[..|xs| - 1]), xs[|xs| - 1])
  }

  function Indexed(tools: seq<Tool>): (r: seq<(nat, Tool)>)
    ensures |r| == |tools| && forall k :: 0 <= k < |tools| ==> r[k] == (tools[k].index, tools[k])
  {
    seq(|tools|, k requires 0 <= k < |tools| => (tools[k].index, tools[k]))
  }

  /** A quarter of the characters, and at least one token where there are any. */
  function EstimatedTokens(chars: nat): (tokens: nat)
    ensures tokens == 0 <==> chars == 0
    ensures 0 < chars < 4 ==> tokens == 1
    ensures chars >= 4 ==> 4 * tokens <= chars < 4 * tokens + 4
  {
    if chars == 0 then 0 else if chars / 4 < 1 then 1 else chars / 4
  }

  function Estimate(s: State, inputTokens: int): State {
    if s.sawUsage then s
    else s.(inputTokens := inputTokens,
            outputTokens := EstimatedTokens(s.outputChars))
  }

  function CloseText(seqNo: nat, t: TextItem): seq<Event> {
    [TextDone(seqNo, t.id, t.index, t.text), PartDone(seqNo + 1, t.id, t.index, t.text),
     ItemDone(seqNo + 2, t.index, MessageItem(t.id, Some(t.text)))]
  }

  function CloseTools(seqNo: nat, tools: seq<(nat, Tool)>): seq<Event>
    decreases |tools|
  {
    if tools == [] then []
    else
      var t := tools[0].1;
      [ArgsDone(seqNo, t.id, t.index, t.name, t.args), ItemDone(seqNo + 1, t.index, CallOf(t, t.args))] +
      CloseTools(seqNo + 2, tools[1..])
  }

  /** The completed items in the order they were closed: text first, then tools. */
  function ClosedItems(text: Option<TextItem>, tools: seq<(nat, Tool)>): seq<(nat, Item)> {
    (if text.Some? then [(text.value.index, MessageItem(text.value.id, Some(text.value.text)))] else []) +
    seq(|tools|, k requires 0 <= k < |tools| => (tools[k].1.index, CallOf(tools[k].1, tools[k].1.args)))
  }

  function Output(items: seq<(nat, Item)>): seq<Item> {
    seq(|items|, i requires 0 <= i < |items| => items[i].1)
  }

  function ClosingWith(u: State, tools: seq<(nat, Tool)>): seq<Event> {
    (if u.text.Some? then CloseText(u.seqNo, u.text.value) else []) +
    CloseTools(if u.text.Some? then u.seqNo + 3 else u.seqNo, tools)
  }

  function ClosingOf(u: State): seq<Event> {
    ClosingWith(u, SortByIndex(Indexed(u.tools)))
  }

  function CompletedWith(u: State, n: nat, tools: seq<(nat, Tool)>): Event {
    Completed(n, Output(SortByIndex(ClosedItems(u.text, tools))), u.inputTokens, u.outputTokens)
  }

  function LastOf(u: State): Event {
    CompletedWith(u, u.seqNo + |ClosingOf(u)|, SortByIndex(Indexed(u.tools)))
  }

  /** Everything before items are closed: the estimate, response.created if still due, and at least one item. */
  function BeginStep(cfg: Config, s: State, inputTokens: int): (State, seq<Event>) {
    var (t, creating) := Create(Estimate(s, inputTokens).(finished := true));
    var (u, opening) := if t.text.None? && t.tools == [] then OpenText(cfg, t) else (t, []);
    (u, creating + opening)
  }

  function FinalStep(cfg: Config, s: State, inputTokens: int): (State, seq<Event>) {
    if s.finished then (s, [])
    else
      var (u, begun) := BeginStep(cfg, s, inputTokens);
      (u.(seqNo := u.seqNo + |ClosingOf(u)| + 1), begun + (ClosingOf(u) + [LastOf(u)]))
  }

  function Translate(cfg: Config, chunks: seq<Chunk>, inputTokens: int): seq<Event> {
    var (s, events) := Run(cfg, chunks);
    events + FinalStep(cfg, s, inputTokens).1
  }

  // ----- Invariant ------------------------------------------------------------------

  function OpenMessage(t: TextItem): Tracked {
    Tracked(t.id, None, MessageItem(t.id, None), None, true, t.text, 0, None)
  }

  function OpenCall(t: Tool, added: Item): Tracked {
    Tracked(t.id, Some(t.callId), added, None, false, t.args, 0, None)
  }

  /** Every item the translator knows is open at the client, at its own index and with the same content. */
  ghost predicate Mirrors(s: State, c: Client) {
    && c.seen == s.seqNo && c.created && s.created && !c.completed && !s.finished
    && |c.items| == s.nextIndex == |s.tools| + (if s.text.Some? then 1 else 0)
    && (s.text.Some? ==>
          && s.text.value.index < |c.items|
          && c.items[s.text.value.index] == OpenMessage(s.text.value)
          && forall k :: 0 <= k < |s.tools| ==> s.tools[k].index != s.text.value.index)
    && (forall k :: 0 <= k < |s.tools| ==>
          && s.tools[k].index < |c.items|
          && c.items[s.tools[k].index] == OpenCall(s.tools[k], c.items[s.tools[k].index].added))
    && (forall j, k :: 0 <= j < k < |s.tools| ==> s.tools[j].index < s.tools[k].index)
  }

  /** What a translator remembers of a tool. */
  datatype Record = Record(index: nat, id: string, callId: string, name: string, args: string)

  /** The id of the call shown at output index i: the first one given, or one drawn for it. */
  function CallIdOf(cfg: Config, opener: Piece, i: nat): string
    requires opener.ToolPiece?
  {
    if opener.id != "" then opener.id else cfg.callId(i)
  }

  /** The record of tool `key` holds exactly what the pieces said about it. */
  ghost predicate HoldsTool(cfg: Config, s: State, ps: seq<Piece>, key: int) {
    var r, opener := RecordOf(s.tools, key), Opener(ps, key);
    if opener.None? then r.None?
    else r.Some? && r.value == Record(r.value.index, cfg.itemId(r.value.index),
                                      CallIdOf(cfg, opener.value, r.value.index), NameIn(ps, key), ArgsIn(ps, key))
  }

  ghost predicate HoldsText(cfg: Config, s: State, ps: seq<Piece>) {
    && TextIn(ps) == (if s.text.Some? then s.text.value.text else "")
    && (s.text.Some? ==> s.text.value.id == cfg.messageId)
  }

  ghost predicate DistinctKeys(tools: seq<Tool>) {
    forall j, k :: 0 <= j < k < |tools| ==> tools[j].key != tools[k].key
  }

  lemma Watch1(c: Client, e: Event)
    ensures Watch(c, [e]) == Observe(c, e)
  {
  }

  lemma Watch2(c: Client, d: Event, e: Event)
    requires Observe(c, d).Some?
    ensures Watch(c, [d, e]) == Observe(Observe(c, d).value, e)
  {
    assert [d, e][1..] == [e];
    Watch1(Observe(c, d).value, e);
  }

  lemma OpenTextMirrors(cfg: Config, s: State, c: Client)
    requires Mirrors(s, c) && s.text.None?
    ensures var (t, events) := OpenText(cfg, s);
            Watch(c, events).Some? && Mirrors(t, Watch(c, events).value)
  {
    var (t, events) := OpenText(cfg, s);
    Watch2(c, events[0], events[1]);
    assert events == [events[0], events[1]];
  }

  lemma EmitTextMirrors(cfg: Config, s: State, c: Client, delta: string)
    requires Mirrors(s, c) && delta != ""
    ensures var (t, events) := EmitText(cfg, s, delta);
            Watch(c, events).Some? && Mirrors(t, Watch(c, events).value)
  {
    var (t, opening) := if s.text.Some? then (s, []) else OpenText(cfg, s);
    if s.text.None? { OpenTextMirrors(cfg, s, c); }
    var d := Watch(c, opening).value;
    var e := Event.TextDelta(t.seqNo, t.text.value.id, t.text.value.index, delta);
    Watch1(d, e);
    WatchConcat(c, opening, [e]);
  }

  /** A new tool at the next index, on both sides. */
  lemma ToolAppended(s: State, c: Client, tool: Tool, t: State, d: Client)
    requires Mirrors(s, c) && tool.index == s.nextIndex
    requires t == s.(tools := s.tools + [tool], nextIndex := s.nextIndex + 1, seqNo := s.seqNo + 1)
    requires d == c.(seen := c.seen + 1, items := c.items + [OpenCall(tool, CallOf(tool, ""))])
    ensures Mirrors(t, d)
  {
  }

  lemma OpenToolMirrors(cfg: Config, s: State, c: Client, p: Piece)
    requires Mirrors(s, c) && p.ToolPiece?
    ensures var (t, events) := OpenTool(cfg, s, p);
            Watch(c, events).Some? && Mirrors(t, Watch(c, events).value)
  {
    var (t, events) := OpenTool(cfg, s, p);
    if events != [] {
      var tool := t.tools[|s.tools|];
      var d := c.(seen := c.seen + 1, items := c.items + [OpenCall(tool, CallOf(tool, ""))]);
      Watch1(c, events[0]);
      assert Observe(c, events[0]) == Some(d);
      ToolAppended(s, c, tool, t, d);
    }
  }

  lemma FillToolMirrors(s: State, c: Client, p: Piece)
    requires Mirrors(s, c) && p.ToolPiece?
    ensures var (t, events) := FillTool(s, p);
            Watch(c, events).Some? && Mirrors(t, Watch(c, events).value)
  {
    var k := Position(s.tools, p.index);
    if k < |s.tools| {
      var tool := Fill(s.tools[k], p);
      if p.args != "" {
        var e := ArgsDelta(s.seqNo, tool.id, tool.index, p.args);
        Watch1(c, e);
        var added := c.items[tool.index].added;
        assert Observe(c, e) == Some(c.(seen := c.seen + 1, items := c.items[tool.index := OpenCall(tool, added)]));
      } else {
        assert s.tools[k].args + "" == s.tools[k].args;
      }
    }
  }

  lemma EmitMirrors(cfg: Config, s: State, c: Client, p: Piece)
    requires Mirrors(s, c) && (p.TextPiece? ==> p.text != "")
    ensures var (t, events) := Emit(cfg, s, p);
            Watch(c, events).Some? && Mirrors(t, Watch(c, events).value)
  {
    if p.TextPiece? {
      EmitTextMirrors(cfg, s, c, p.text);
    } else {
      var (t, opening) := OpenTool(cfg, s, p);
      OpenToolMirrors(cfg, s, c, p);
      FillToolMirrors(t, Watch(c, opening).value, p);
      WatchConcat(c, opening, FillTool(t, p).1);
    }
  }

  // ----- Content -------------------------------------------------------------------

  lemma ContentSnoc(ps: seq<Piece>, p: Piece, key: int)
    ensures TextIn(ps + [p]) == TextIn(ps) + (if p.TextPiece? then p.text else "")
    ensures ArgsIn(ps + [p], key) == ArgsIn(ps, key) + (if Mentions(p, key) then p.args else "")
  {
    assert (ps + [p])[..|ps|] == ps;
  }

  lemma PositionAppend(tools: seq<Tool>, t: Tool, key: int)
    ensures Position(tools + [t], key) ==
            if Position(tools, key) < |tools| then Position(tools, key)
            else if t.key == key then |tools| else |tools| + 1
  {
    var all := tools + [t];
    var k, j := Position(all, key), Position(tools, key);
    assert all[|tools|] == t;
    if k < |tools| { assert all[k] == tools[k]; }
    if j < |tools| { assert all[j] == tools[j]; }
  }

  lemma PositionReplace(tools: seq<Tool>, k: nat, t: Tool, key: int)
    requires k < |tools| && t.key == tools[k].key
    ensures Position(tools[k := t], key) == Position(tools, key)
  {
    var all := tools[k := t];
    var i, j := Position(all, key), Position(tools, key);
    if i < |tools| { assert tools[i].key == key; }
    if j < |tools| { assert all[j].key == key; }
  }

  lemma ToolLeavesText(cfg: Config, s: State, p: Piece)
    requires p.ToolPiece?
    ensures Emit(cfg, s, p).0.text == s.text
  {
  }

  lemma EmitHoldsText(cfg: Config, s: State, ps: seq<Piece>, p: Piece)
    requires HoldsText(cfg, s, ps)
    ensures HoldsText(cfg, Emit(cfg, s, p).0, ps + [p])
  {
    ContentSnoc(ps, p, 0);
    if p.TextPiece? {
      assert "" + p.text == p.text;
    } else {
      ToolLeavesText(cfg, s, p);
      assert TextIn(ps) + "" == TextIn(ps);
    }
  }

  /** What is recorded for tool `key`, or `None`. */
  function RecordOf(tools: seq<Tool>, key: int): Option<Record> {
    var k := Position(tools, key);
    if k == |tools| then None
    else Some(Record(tools[k].index, tools[k].id, tools[k].callId, tools[k].name, tools[k].args))
  }

  function NewRecord(cfg: Config, s: State, p: Piece): Record
    requires p.ToolPiece?
  {
    Record(s.nextIndex, cfg.itemId(s.nextIndex), CallIdOf(cfg, p, s.nextIndex), p.name, "")
  }

  function Filled(r: Record, p: Piece): Record
    requires p.ToolPiece?
  {
    r.(name := if r.name != "" then r.name else p.name, args := r.args + p.args)
  }

  lemma OpenToolAt(cfg: Config, s: State, p: Piece, key: int)
    requires p.ToolPiece?
    ensures RecordOf(OpenTool(cfg, s, p).0.tools, key) ==
            if RecordOf(s.tools, key).None? && key == p.index then Some(NewRecord(cfg, s, p))
            else RecordOf(s.tools, key)
  {
    if Position(s.tools, p.index) == |s.tools| {
      PositionAppend(s.tools, OpenTool(cfg, s, p).0.tools[|s.tools|], key);
    }
  }

  lemma FillToolAt(s: State, p: Piece, key: int)
    requires p.ToolPiece? && RecordOf(s.tools, p.index).Some?
    ensures RecordOf(FillTool(s, p).0.tools, key) ==
            if key == p.index then Some(Filled(RecordOf(s.tools, key).value, p)) else RecordOf(s.tools, key)
  {
    var k := Position(s.tools, p.index);
    PositionReplace(s.tools, k, Fill(s.tools[k], p), key);
  }

  /** A piece changes the record of its own tool only, and by exactly what it says. */
  lemma EmitToolAt(cfg: Config, s: State, p: Piece, key: int)
    ensures p.ToolPiece? && p.index == key ==>
              RecordOf(Emit(cfg, s, p).0.tools, key) ==
                Some(Filled(RecordOf(s.tools, key).GetOr(NewRecord(cfg, s, p)), p))
    ensures !Mentions(p, key) ==> RecordOf(Emit(cfg, s, p).0.tools, key) == RecordOf(s.tools, key)
  {
    if p.ToolPiece? {
      OpenToolAt(cfg, s, p, key);
      OpenToolAt(cfg, s, p, p.index);
      FillToolAt(OpenTool(cfg, s, p).0, p, key);
    }
  }

  lemma {:induction false} OpenerIffSeen(ps: seq<Piece>, key: int)
    ensures Opener(ps, key).Some? <==> Seen(ps, key)
    ensures Opener(ps, key).None? ==> NameIn(ps, key) == "" && ArgsIn(ps, key) == ""
  {
    if ps != [] {
      var front, p := ps[..|ps| - 1], ps[|ps| - 1];
      assert ps == front + [p];
      SnocScans(front, p, key);
      OpenerIffSeen(front, key);
    }
  }

  lemma OpenerSnoc(ps: seq<Piece>, p: Piece, key: int)
    ensures Opener(ps + [p], key) ==
            if Opener(ps, key).Some? then Opener(ps, key) else if Mentions(p, key) then Some(p) else None
    ensures NameIn(ps + [p], key) ==
            if NameIn(ps, key) != "" then NameIn(ps, key) else if Mentions(p, key) then p.name else ""
  {
    assert (ps + [p])[..|ps|] == ps;
  }

  lemma EmitHoldsTool(cfg: Config, s: State, ps: seq<Piece>, p: Piece, key: int)
    requires HoldsTool(cfg, s, ps, key)
    ensures HoldsTool(cfg, Emit(cfg, s, p).0, ps + [p], key)
  {
    ContentSnoc(ps, p, key);
    OpenerSnoc(ps, p, key);
    OpenerIffSeen(ps, key);
    assert ArgsIn(ps, key) + "" == ArgsIn(ps, key);
    EmitToolAt(cfg, s, p, key);
  }

  lemma OpenToolDistinct(cfg: Config, s: State, p: Piece)
    requires DistinctKeys(s.tools) && p.ToolPiece?
    ensures DistinctKeys(OpenTool(cfg, s, p).0.tools)
  {
  }

  lemma FillToolDistinct(s: State, p: Piece)
    requires DistinctKeys(s.tools) && p.ToolPiece?
    ensures DistinctKeys(FillTool(s, p).0.tools)
  {
  }

  lemma EmitDistinct(cfg: Config, s: State, p: Piece)
    requires DistinctKeys(s.tools)
    ensures DistinctKeys(Emit(cfg, s, p).0.tools)
  {
    if p.ToolPiece? {
      OpenToolDistinct(cfg, s, p);
      FillToolDistinct(OpenTool(cfg, s, p).0, p);
    }
  }

  // ----- Whole chunks ----------------------------------------------------------------

  predicate NoEmptyText(ps: seq<Piece>) {
    forall p :: p in ps && p.TextPiece? ==> p.text != ""
  }

  lemma {:induction false} EmitAllMirrors(cfg: Config, s: State, c: Client, ps: seq<Piece>, t: State,
                                          events: seq<Event>)
    requires Mirrors(s, c) && NoEmptyText(ps)
    requires (t, events) == EmitAll(cfg, s, ps)
    ensures Watch(c, events).Some? && Mirrors(t, Watch(c, events).value)
  {
    if ps != [] {
      var (m, more) := EmitAll(cfg, s, ps[..|ps| - 1]);
      EmitAllMirrors(cfg, s, c, ps[..|ps| - 1], m, more);
      EmitMirrors(cfg, m, Watch(c, more).value, ps[|ps| - 1]);
      WatchConcat(c, more, Emit(cfg, m, ps[|ps| - 1]).1);
    }
  }

  lemma EmitAllSplit(cfg: Config, s: State, before: seq<Piece>, ps: seq<Piece>)
    requires ps != []
    ensures var front, p := ps[..|ps| - 1], ps[|ps| - 1];
            && EmitAll(cfg, s, ps).0 == Emit(cfg, EmitAll(cfg, s, front).0, p).0
            && before + ps == before + front + [p]
  {
    assert ps == ps[..|ps| - 1] + [ps[|ps| - 1]];
    Regroup(before, ps[..|ps| - 1], [ps[|ps| - 1]]);
  }

  lemma {:induction false} EmitAllHoldsText(cfg: Config, s: State, before: seq<Piece>, ps: seq<Piece>, t: State,
                                            all: seq<Piece>)
    requires HoldsText(cfg, s, before) && t == EmitAll(cfg, s, ps).0 && all == before + ps
    ensures HoldsText(cfg, t, all)
  {
    if ps == [] {
      assert all == before;
    } else {
      var front, p := ps[..|ps| - 1], ps[|ps| - 1];
      EmitAllSplit(cfg, s, before, ps);
      EmitAllHoldsText(cfg, s, before, front, EmitAll(cfg, s, front).0, before + front);
      EmitHoldsText(cfg, EmitAll(cfg, s, front).0, before + front, p);
    }
  }

  lemma {:induction false} EmitAllHoldsTool(cfg: Config, s: State, before: seq<Piece>, ps: seq<Piece>, key: int,
                                            t: State, all: seq<Piece>)
    requires HoldsTool(cfg, s, before, key) && t == EmitAll(cfg, s, ps).0 && all == before + ps
    ensures HoldsTool(cfg, t, all, key)
  {
    if ps == [] {
      assert all == before;
    } else {
      var front, p := ps[..|ps| - 1], ps[|ps| - 1];
      EmitAllSplit(cfg, s, before, ps);
      EmitAllHoldsTool(cfg, s, before, front, key, EmitAll(cfg, s, front).0, before + front);
      EmitHoldsTool(cfg, EmitAll(cfg, s, front).0, before + front, p, key);
    }
  }

  lemma {:induction false} EmitAllDistinct(cfg: Config, s: State, ps: seq<Piece>)
    requires DistinctKeys(s.tools)
    ensures DistinctKeys(EmitAll(cfg, s, ps).0.tools)
  {
    if ps != [] {
      EmitAllDistinct(cfg, s, ps[..|ps| - 1]);
      EmitDistinct(cfg, EmitAll(cfg, s, ps[..|ps| - 1]).0, ps[|ps| - 1]);
    }
  }

  lemma ChunkHolds(cfg: Config, s: State, before: seq<Piece>, c: Chunk, key: int, t: State, all: seq<Piece>)
    requires HoldsText(cfg, s, before) && HoldsTool(cfg, s, before, key) && DistinctKeys(s.tools)
    requires t == ChunkStep(cfg, s, c).0 && all == before + Pieces(c)
    ensures HoldsText(cfg, t, all) && HoldsTool(cfg, t, all, key) && DistinctKeys(t.tools)
  {
    var m := Create(s).0;
    var u := EmitAll(cfg, m, Pieces(c)).0;
    EmitAllHoldsText(cfg, m, before, Pieces(c), u, all);
    EmitAllHoldsTool(cfg, m, before, Pieces(c), key, u, all);
    EmitAllDistinct(cfg, m, Pieces(c));
  }

  /** Text and tool records of a whole run are exactly those of its pieces. */
  lemma {:induction false} RunHolds(cfg: Config, chunks: seq<Chunk>, key: int)
    ensures var s := Run(cfg, chunks).0;
            HoldsText(cfg, s, AllPieces(chunks)) && HoldsTool(cfg, s, AllPieces(chunks), key) && DistinctKeys(s.tools)
  {
    if chunks != [] {
      var front, c := chunks[..|chunks| - 1], chunks[|chunks| - 1];
      RunHolds(cfg, front, key);
      ChunkHolds(cfg, Run(cfg, front).0, AllPieces(front), c, key, Run(cfg, chunks).0, AllPieces(chunks));
    }
  }

  /** Before response.created nothing is known; afterwards client and translator agree. */
  ghost predicate Linked(s: State, events: seq<Event>) {
    if s.created then Watch(NEW_CLIENT, events).Some? && Mirrors(s, Watch(NEW_CLIENT, events).value)
    else s == INITIAL && events == []
  }

  lemma CreateLinks(s: State, events: seq<Event>, t: State, creating: seq<Event>)
    requires Linked(s, events) && (t, creating) == Create(s)
    ensures Watch(NEW_CLIENT, events + creating).Some? && Mirrors(t, Watch(NEW_CLIENT, events + creating).value)
  {
    if s.created {
      assert events + creating == events;
    } else {
      assert events + creating == creating;
      Watch1(NEW_CLIENT, creating[0]);
    }
  }

  lemma ChunkLinks(cfg: Config, r: State, before: seq<Event>, c: Chunk, s: State, events: seq<Event>)
    requires Linked(r, before) && s == ChunkStep(cfg, r, c).0 && events == before + ChunkStep(cfg, r, c).1
    ensures Linked(s, events) && s.created
  {
    var (t, creating) := Create(r);
    var (u, content) := EmitAll(cfg, t, Pieces(c));
    CreateLinks(r, before, t, creating);
    EmitAllMirrors(cfg, t, Watch(NEW_CLIENT, before + creating).value, Pieces(c), u, content);
    WatchConcat(NEW_CLIENT, before + creating, content);
    Regroup(before, creating, content);
  }

  lemma {:induction false} RunLinks(cfg: Config, chunks: seq<Chunk>)
    ensures var (s, events) := Run(cfg, chunks);
            Linked(s, events) && (s.created <==> chunks != [])
  {
    if chunks != [] {
      var front, c := chunks[..|chunks| - 1], chunks[|chunks| - 1];
      RunLinks(cfg, front);
      ChunkLinks(cfg, Run(cfg, front).0, Run(cfg, front).1, c, Run(cfg, chunks).0, Run(cfg, chunks).1);
    }
  }

  // ----- Sorting by index --------------------------------------------------------------

  ghost predicate Increasing<T>(xs: seq<(nat, T)>) {
    forall i, j :: 0 <= i < j < |xs| ==> xs[i].0 < xs[j].0
  }

  lemma InsertIncreasing<T>(xs: seq<(nat, T)>, x: (nat, T))
    requires Increasing(xs) && forall i :: 0 <= i < |xs| ==> xs[i].0 != x.0
    ensures Increasing(Insert(xs, x))
  {
    var k := Slot(xs, x);
    var ys := Insert(xs, x);
    forall i | 0 <= i < k ensures xs[i].0 < x.0 {
      assert xs[i].0 <= xs[k - 1].0;
    }
    forall i, j | 0 <= i < j < |ys| ensures ys[i].0 < ys[j].0 {
      var low := if i < k then xs[i] else if i == k then x else xs[i - 1];
      var high := if j < k then xs[j] else if j == k then x else xs[j - 1];
      assert ys[i] == low && ys[j] == high;
    }
  }

  lemma InsertElements<T>(xs: seq<(nat, T)>, x: (nat, T))
    ensures multiset(Insert(xs, x)) == multiset(xs) + multiset{x}
  {
    var k := Slot(xs, x);
    assert xs == xs[..k] + xs[k..];
  }

  ghost predicate DistinctIndices<T>(xs: seq<(nat, T)>) {
    forall i, j :: 0 <= i < j < |xs| ==> xs[i].0 != xs[j].0
  }

  lemma SameElements<T>(xs: seq<(nat, T)>, ys: seq<(nat, T)>, i: nat)
    requires multiset(xs) == multiset(ys) && i < |xs|
    ensures exists j :: 0 <= j < |ys| && ys[j] == xs[i]
  {
    assert xs[i] in multiset(xs);
    assert xs[i] in ys;
  }

  lemma SortStep<T>(front: seq<(nat, T)>, sorted: seq<(nat, T)>, last: (nat, T), all: seq<(nat, T)>)
    requires Increasing(sorted) && multiset(sorted) == multiset(front)
    requires all == front + [last] && DistinctIndices(all)
    ensures Increasing(Insert(sorted, last)) && multiset(Insert(sorted, last)) == multiset(all)
  {
    forall i | 0 <= i < |sorted| ensures sorted[i].0 != last.0 {
      SameElements(sorted, front, i);
      var j :| 0 <= j < |front| && front[j] == sorted[i];
      assert all[j] == front[j] && all[|front|] == last;
    }
    InsertIncreasing(sorted, last);
    InsertElements(sorted, last);
  }

  lemma {:induction false} SortFacts<T>(xs: seq<(nat, T)>)
    requires DistinctIndices(xs)
    ensures Increasing(SortByIndex(xs)) && multiset(SortByIndex(xs)) == multiset(xs)
    ensures |SortByIndex(xs)| == |xs|
  {
    if xs != [] {
      var front, last := xs[..|xs| - 1], xs[|xs| - 1];
      SortFacts(front);
      assert xs == front + [last];
      SortStep(front, SortByIndex(front), last, xs);
    }
  }

  lemma {:induction false} SortedStays<T>(xs: seq<(nat, T)>)
    requires Increasing(xs)
    ensures SortByIndex(xs) == xs
  {
    if xs != [] {
      var front, last := xs[..|xs| - 1], xs[|xs| - 1];
      SortedStays(front);
      assert xs == front + [last];
      assert Slot(front, last) == |front|;
    }
  }

  /** An increasing sequence of n indices below n is 0, 1, ..., n - 1. */
  lemma {:induction false} IncreasingIsIdentity<T>(xs: seq<(nat, T)>, i: nat)
    requires Increasing(xs) && i < |xs| && forall j :: 0 <= j < |xs| ==> xs[j].0 < |xs|
    ensures xs[i].0 == i
  {
    AtLeastPosition(xs, i);
    AtMostPosition(xs, i);
  }

  lemma {:induction false} AtLeastPosition<T>(xs: seq<(nat, T)>, i: nat)
    requires Increasing(xs) && i < |xs|
    ensures i <= xs[i].0
  {
    if i > 0 { AtLeastPosition(xs, i - 1); }
  }

  lemma {:induction false} AtMostPosition<T>(xs: seq<(nat, T)>, i: nat)
    requires Increasing(xs) && i < |xs| && forall j :: 0 <= j < |xs| ==> xs[j].0 < |xs|
    ensures xs[i].0 <= i
    decreases |xs| - i
  {
    if i + 1 < |xs| { AtMostPosition(xs, i + 1); }
  }

  // ----- Closing events -----------------------------------------------------------------

  function DoneMessage(t: TextItem): Tracked {
    Tracked(t.id, None, MessageItem(t.id, None), None, true, t.text, 2, Some(MessageItem(t.id, Some(t.text))))
  }

  function DoneCall(t: Tool, added: Item): Tracked {
    Tracked(t.id, Some(t.callId), added, Some(t.name), false, t.args, 1, Some(CallOf(t, t.args)))
  }

  /** Every item of `u` is done in a list of `n` items. */
  ghost predicate AllDone(u: State, items: seq<Tracked>, n: nat) {
    && |items| == n
    && (u.text.Some? ==> u.text.value.index < n && items[u.text.value.index] == DoneMessage(u.text.value))
    && (forall k :: 0 <= k < |u.tools| ==>
          u.tools[k].index < n && items[u.tools[k].index] == DoneCall(u.tools[k], items[u.tools[k].index].added))
  }

  lemma CloseTextWatched(c: Client, t: TextItem)
    requires c.created && !c.completed && t.index < |c.items| && c.items[t.index] == OpenMessage(t)
    ensures Watch(c, CloseText(c.seen, t)) ==
            Some(c.(seen := c.seen + 3, items := c.items[t.index := DoneMessage(t)]))
  {
    var es := CloseText(c.seen, t);
    var d := Observe(c, es[0]).value;
    assert d.items[t.index].closed == 1;
    var f := Observe(d, es[1]).value;
    assert f.items[t.index].closed == 2;
    var g := Observe(f, es[2]).value;
    assert g.items == c.items[t.index := DoneMessage(t)];
    Watch2(c, es[0], es[1]);
    Watch1(f, es[2]);
    WatchConcat(c, [es[0], es[1]], [es[2]]);
    assert es == [es[0], es[1]] + [es[2]];
  }

  lemma CloseToolWatched(c: Client, t: Tool)
    requires c.created && !c.completed && t.index < |c.items|
    requires c.items[t.index] == OpenCall(t, c.items[t.index].added)
    ensures Watch(c, [ArgsDone(c.seen, t.id, t.index, t.name, t.args),
                      ItemDone(c.seen + 1, t.index, CallOf(t, t.args))]) ==
            Some(c.(seen := c.seen + 2, items := c.items[t.index := DoneCall(t, c.items[t.index].added)]))
  {
    var d, e := ArgsDone(c.seen, t.id, t.index, t.name, t.args), ItemDone(c.seen + 1, t.index, CallOf(t, t.args));
    Watch2(c, d, e);
    assert Observe(Observe(c, d).value, e).value.items == c.items[t.index := DoneCall(t, c.items[t.index].added)];
  }

  /** These tools are open at the client, each at its own index. */
  ghost predicate AreOpen(c: Client, tools: seq<(nat, Tool)>) {
    Increasing(tools) &&
    forall k :: 0 <= k < |tools| ==>
      && tools[k].0 == tools[k].1.index < |c.items|
      && c.items[tools[k].0] == OpenCall(tools[k].1, c.items[tools[k].0].added)
  }

  lemma {:induction false} CloseToolsWatched(c: Client, tools: seq<(nat, Tool)>)
    requires c.created && !c.completed && AreOpen(c, tools)
    ensures var r := Watch(c, CloseTools(c.seen, tools));
            && r.Some? && r.value.seen == c.seen + |CloseTools(c.seen, tools)|
            && r.value.created && !r.value.completed && |r.value.items| == |c.items|
    decreases |tools|
  {
    if tools != [] {
      var d := CloseOne(c, tools);
      CloseToolsWatched(d, tools[1..]);
    }
  }

  /** The client after the first of these tools was closed; the others are still open. */
  lemma CloseOne(c: Client, tools: seq<(nat, Tool)>) returns (d: Client)
    requires c.created && !c.completed && AreOpen(c, tools) && tools != []
    ensures d == c.(seen := c.seen + 2, items := c.items[tools[0].0 := DoneCall(tools[0].1, c.items[tools[0].0].added)])
    ensures AreOpen(d, tools[1..])
    ensures Watch(c, CloseTools(c.seen, tools)) == Watch(d, CloseTools(d.seen, tools[1..]))
  {
    var t, rest := tools[0].1, tools[1..];
    var es := [ArgsDone(c.seen, t.id, t.index, t.name, t.args), ItemDone(c.seen + 1, t.index, CallOf(t, t.args))];
    CloseToolWatched(c, t);
    d := c.(seen := c.seen + 2, items := c.items[t.index := DoneCall(t, c.items[t.index].added)]);
    assert forall k :: 0 <= k < |rest| ==> rest[k] == tools[k + 1];
    WatchConcat(c, es, CloseTools(d.seen, rest));
  }

  /** Closing tools leaves every other item alone. */
  lemma {:induction false} CloseToolsSpare(c: Client, tools: seq<(nat, Tool)>, i: nat)
    requires c.created && !c.completed && AreOpen(c, tools)
    requires i < |c.items| && forall k :: 0 <= k < |tools| ==> tools[k].0 != i
    ensures var r := Watch(c, CloseTools(c.seen, tools));
            r.Some? && i < |r.value.items| && r.value.items[i] == c.items[i]
    decreases |tools|
  {
    if tools != [] {
      var d := CloseOne(c, tools);
      assert forall k :: 0 <= k < |tools[1..]| ==> tools[1..][k] == tools[k + 1];
      CloseToolsSpare(d, tools[1..], i);
    }
  }

  /** Closing tools closes each of them with its own arguments. */
  lemma {:induction false} CloseToolsFinish(c: Client, tools: seq<(nat, Tool)>, k: nat)
    requires c.created && !c.completed && AreOpen(c, tools) && k < |tools|
    ensures var r := Watch(c, CloseTools(c.seen, tools));
            && r.Some? && tools[k].0 < |r.value.items|
            && r.value.items[tools[k].0] == DoneCall(tools[k].1, r.value.items[tools[k].0].added)
    decreases |tools|
  {
    var d := CloseOne(c, tools);
    var rest := tools[1..];
    if k == 0 {
      forall j | 0 <= j < |rest| ensures rest[j].0 != tools[0].0 { assert rest[j] == tools[j + 1]; }
      CloseToolsSpare(d, rest, tools[0].0);
    } else {
      CloseToolsFinish(d, rest, k - 1);
    }
  }

  /** The client after the text item, if any, was closed. */
  lemma TextPartWatched(u: State, c: Client)
    requires Mirrors(u.(finished := false), c)
    ensures var es := if u.text.Some? then CloseText(u.seqNo, u.text.value) else [];
            Watch(c, es) ==
            Some(if u.text.Some?
                 then c.(seen := c.seen + 3, items := c.items[u.text.value.index := DoneMessage(u.text.value)]) else c)
  {
    if u.text.Some? { CloseTextWatched(c, u.text.value); }
  }

  /** The whole closing sequence is accepted. */
  lemma ClosingWatched(u: State, c: Client, tools: seq<(nat, Tool)>) returns (d: Client)
    requires Mirrors(u.(finished := false), c) && tools == Indexed(u.tools)
    ensures d.created && !d.completed && AreOpen(d, tools)
    ensures d.items == if u.text.Some? then c.items[u.text.value.index := DoneMessage(u.text.value)] else c.items
    ensures u.text.Some? ==> forall k :: 0 <= k < |tools| ==> tools[k].0 != u.text.value.index
    ensures var r := Watch(c, ClosingWith(u, tools));
            && r.Some? && r == Watch(d, CloseTools(d.seen, tools))
            && r.value.seen == u.seqNo + |ClosingWith(u, tools)| && r.value.created && !r.value.completed
            && |r.value.items| == |c.items|
  {
    var first := if u.text.Some? then CloseText(u.seqNo, u.text.value) else [];
    TextPartWatched(u, c);
    d := Watch(c, first).value;
    ToolsStillOpen(u, c, d, tools);
    CloseToolsWatched(d, tools);
    WatchConcat(c, first, CloseTools(d.seen, tools));
  }

  /** Every item is closed exactly once, with the content streamed for it. */
  lemma AllItemsClosed(u: State, c: Client, closing: seq<Event>, tools: seq<(nat, Tool)>)
    requires Mirrors(u.(finished := false), c) && tools == Indexed(u.tools)
    requires closing == ClosingWith(u, tools)
    ensures var d := Watch(c, closing);
            && d.Some? && d.value.seen == u.seqNo + |closing| && d.value.created && !d.value.completed
            && AllDone(u, d.value.items, |c.items|)
  {
    var d := ClosingWatched(u, c, tools);
    if u.text.Some? { CloseToolsSpare(d, tools, u.text.value.index); }
    forall k | 0 <= k < |u.tools|
      ensures var items, i := Watch(d, CloseTools(d.seen, tools)).value.items, u.tools[k].index;
              items[i] == DoneCall(u.tools[k], items[i].added)
    {
      CloseToolsFinish(d, tools, k);
    }
  }

  lemma ToolsStillOpen(u: State, c: Client, d: Client, tools: seq<(nat, Tool)>)
    requires Mirrors(u.(finished := false), c) && tools == Indexed(u.tools)
    requires d.items == if u.text.Some? then c.items[u.text.value.index := DoneMessage(u.text.value)] else c.items
    ensures AreOpen(d, tools)
    ensures u.text.Some? ==> forall k :: 0 <= k < |tools| ==> tools[k].0 != u.text.value.index
  {
  }

  /** Indices of the items, apart from their content: tools increase, text is somewhere between them. */
  ghost predicate Layout(text: Option<TextItem>, tools: seq<Tool>, n: nat) {
    && n == |tools| + (if text.Some? then 1 else 0)
    && (text.Some? ==> text.value.index < n && forall k :: 0 <= k < |tools| ==> tools[k].index != text.value.index)
    && (forall k :: 0 <= k < |tools| ==> tools[k].index < n)
    && (forall j, k :: 0 <= j < k < |tools| ==> tools[j].index < tools[k].index)
  }

  lemma ClosedMember(text: Option<TextItem>, tools: seq<Tool>, x: (nat, Item))
    requires x in ClosedItems(text, Indexed(tools))
    ensures (text.Some? && x == (text.value.index, MessageItem(text.value.id, Some(text.value.text)))) ||
            exists k :: 0 <= k < |tools| && x == (tools[k].index, CallOf(tools[k], tools[k].args))
  {
    var closed := ClosedItems(text, Indexed(tools));
    var j :| 0 <= j < |closed| && closed[j] == x;
    var k := if text.Some? then j - 1 else j;
    if k >= 0 { assert x == (tools[k].index, CallOf(tools[k], tools[k].args)); }
  }

  lemma ClosedDistinct(text: Option<TextItem>, tools: seq<Tool>, n: nat)
    requires Layout(text, tools, n)
    ensures var closed := ClosedItems(text, Indexed(tools));
            && |closed| == n
            && DistinctIndices(closed)
            && (forall i :: 0 <= i < n ==> closed[i].0 < n)
  {
    var closed := ClosedItems(text, Indexed(tools));
    var shift := if text.Some? then 1 else 0;
    assert forall i :: shift <= i < n ==> closed[i].0 == tools[i - shift].index;
  }

  lemma SortedBelow<T>(closed: seq<(nat, T)>, sorted: seq<(nat, T)>, n: nat, i: nat)
    requires multiset(sorted) == multiset(closed) && i < |sorted|
    requires forall k :: 0 <= k < |closed| ==> closed[k].0 < n
    ensures sorted[i].0 < n && sorted[i] in closed
  {
    SameElements(sorted, closed, i);
  }

  /** Sorting the closed items puts item i at position i: output indices are contiguous. */
  lemma ClosedSorted(text: Option<TextItem>, tools: seq<Tool>, n: nat, i: nat)
    requires Layout(text, tools, n) && i < n
    ensures var sorted := SortByIndex(ClosedItems(text, Indexed(tools)));
            |sorted| == n && sorted[i].0 == i && sorted[i] in ClosedItems(text, Indexed(tools))
  {
    var closed := ClosedItems(text, Indexed(tools));
    var sorted := SortByIndex(closed);
    ClosedDistinct(text, tools, n);
    SortFacts(closed);
    forall j | 0 <= j < n ensures sorted[j].0 < n {
      SortedBelow(closed, sorted, n, j);
    }
    SortedBelow(closed, sorted, n, i);
    IncreasingIsIdentity(sorted, i);
  }

  /** The terminal output lists all items in index order, although text was closed before any tool. */
  lemma OutputIsInOrder(u: State, items: seq<Tracked>, i: nat)
    requires Layout(u.text, u.tools, |items|) && AllDone(u, items, |items|) && i < |items|
    ensures var output := Output(SortByIndex(ClosedItems(u.text, Indexed(u.tools))));
            |output| == |items| && items[i].done == Some(output[i])
  {
    var sorted := SortByIndex(ClosedItems(u.text, Indexed(u.tools)));
    ClosedSorted(u.text, u.tools, |items|, i);
    ClosedMember(u.text, u.tools, sorted[i]);
  }

  lemma MirrorsLayout(u: State, c: Client)
    requires Mirrors(u.(finished := false), c)
    ensures Layout(u.text, u.tools, |c.items|) && Increasing(Indexed(u.tools))
  {
  }

  lemma FinishWith(u: State, c: Client, tools: seq<(nat, Tool)>, closing: seq<Event>, last: Event)
    requires Mirrors(u.(finished := false), c) && c.items != [] && Layout(u.text, u.tools, |c.items|)
    requires tools == Indexed(u.tools) && closing == ClosingWith(u, tools)
    requires last == CompletedWith(u, u.seqNo + |closing|, tools)
    ensures var d := Watch(c, closing + [last]);
            d.Some? && d.value.completed && AllDone(u, d.value.items, |c.items|)
  {
    AllItemsClosed(u, c, closing, tools);
    LastWatched(u, Watch(c, closing).value, last);
    WatchConcat(c, closing, [last]);
  }

  lemma FinishWatched(u: State, c: Client, closing: seq<Event>, last: Event)
    requires Mirrors(u.(finished := false), c) && c.items != []
    requires closing == ClosingOf(u) && last == LastOf(u)
    ensures var d := Watch(c, closing + [last]);
            d.Some? && d.value.completed && AllDone(u, d.value.items, |c.items|)
  {
    MirrorsLayout(u, c);
    SortedStays(Indexed(u.tools));
    FinishWith(u, c, Indexed(u.tools), closing, last);
  }

  lemma LastWatched(u: State, d: Client, last: Event)
    requires d.created && !d.completed && d.items != []
    requires Layout(u.text, u.tools, |d.items|) && AllDone(u, d.items, |d.items|)
    requires last == CompletedWith(u, d.seen, Indexed(u.tools))
    ensures Watch(d, [last]) == Some(d.(completed := true, seen := d.seen + 1))
  {
    OutputIsInOrder(u, d.items, 0);
    forall i | 0 <= i < |d.items| ensures d.items[i].done == Some(last.output[i]) {
      OutputIsInOrder(u, d.items, i);
    }
    Watch1(d, last);
  }

  // ----- What is announced ---------------------------------------------------------------

  /** The item a tool is announced as: under the name of its first mention, empty or not, and without arguments. */
  function Announcement(cfg: Config, opener: Piece, i: nat): Item
    requires opener.ToolPiece?
  {
    CallItem(cfg.itemId(i), CallIdOf(cfg, opener, i), opener.name, "")
  }

  ghost predicate Announces(events: seq<Event>, i: nat, item: Item) {
    exists e :: e in events && e.ItemAdded? && e.index == i && e.item == item
  }

  /** Tool `key`, if there is one, was announced at the index on record. */
  ghost predicate Announced(cfg: Config, s: State, events: seq<Event>, ps: seq<Piece>, key: int) {
    var r, opener := RecordOf(s.tools, key), Opener(ps, key);
    r.Some? && opener.Some? ==> Announces(events, r.value.index, Announcement(cfg, opener.value, r.value.index))
  }

  lemma EmitAnnounces(cfg: Config, s: State, events: seq<Event>, ps: seq<Piece>, p: Piece, key: int)
    requires HoldsTool(cfg, s, ps, key) && Announced(cfg, s, events, ps, key)
    ensures Announced(cfg, Emit(cfg, s, p).0, events + Emit(cfg, s, p).1, ps + [p], key)
  {
    var more := Emit(cfg, s, p).1;
    OpenerSnoc(ps, p, key);
    EmitToolAt(cfg, s, p, key);
    if Opener(ps, key).Some? {
      var i := RecordOf(s.tools, key).value.index;
      var e :| e in events && e.ItemAdded? && e.index == i && e.item == Announcement(cfg, Opener(ps, key).value, i);
      assert e in events + more;
    } else if Mentions(p, key) {
      assert more[0] in events + more;
      assert more[0].item == Announcement(cfg, p, s.nextIndex);
    }
  }

  lemma {:induction false} EmitAllAnnounces(cfg: Config, s: State, events: seq<Event>, before: seq<Piece>,
                                            ps: seq<Piece>, key: int)
    requires HoldsTool(cfg, s, before, key) && Announced(cfg, s, events, before, key)
    ensures var (t, more) := EmitAll(cfg, s, ps); Announced(cfg, t, events + more, before + ps, key)
  {
    if ps == [] {
      assert before + ps == before && events + [] == events;
    } else {
      var front, p := ps[..|ps| - 1], ps[|ps| - 1];
      var (u, more) := EmitAll(cfg, s, front);
      EmitAllAnnounces(cfg, s, events, before, front, key);
      EmitAllHoldsTool(cfg, s, before, front, key, u, before + front);
      EmitAnnounces(cfg, u, events + more, before + front, p, key);
      EmitAllSplit(cfg, s, before, ps);
      Regroup(events, more, Emit(cfg, u, p).1);
    }
  }

  lemma ChunkAnnounces(cfg: Config, r: State, events: seq<Event>, ps: seq<Piece>, c: Chunk, key: int)
    requires HoldsTool(cfg, r, ps, key) && Announced(cfg, r, events, ps, key)
    ensures var (s, more) := ChunkStep(cfg, r, c); Announced(cfg, s, events + more, ps + Pieces(c), key)
  {
    var (t, creating) := Create(r);
    if r.tools != [] && RecordOf(r.tools, key).Some? && Opener(ps, key).Some? {
      var i := RecordOf(r.tools, key).value.index;
      var e :| e in events && e.ItemAdded? && e.index == i && e.item == Announcement(cfg, Opener(ps, key).value, i);
      assert e in events + creating;
    }
    EmitAllAnnounces(cfg, t, events + creating, ps, Pieces(c), key);
    Regroup(events, creating, EmitAll(cfg, t, Pieces(c)).1);
  }

  lemma {:induction false} RunAnnounces(cfg: Config, chunks: seq<Chunk>, key: int)
    ensures Announced(cfg, Run(cfg, chunks).0, Run(cfg, chunks).1, AllPieces(chunks), key)
  {
    if chunks != [] {
      var front := chunks[..|chunks| - 1];
      RunAnnounces(cfg, front, key);
      RunHolds(cfg, front, key);
      ChunkAnnounces(cfg, Run(cfg, front).0, Run(cfg, front).1, AllPieces(front), chunks[|chunks| - 1], key);
    }
  }

  /** An item stays as it was announced. */
  lemma ObserveKeepsAdded(c: Client, e: Event, i: nat)
    requires Observe(c, e).Some?
    ensures var d := Observe(c, e).value;
            && |c.items| <= |d.items|
            && (i < |c.items| ==> d.items[i].added == c.items[i].added)
            && (e.ItemAdded? ==> e.index == |c.items| < |d.items| && d.items[e.index].added == e.item)
  {
  }

  lemma {:induction false} WatchKeepsAdded(c: Client, events: seq<Event>, i: nat)
    requires Watch(c, events).Some? && i < |c.items|
    ensures var d := Watch(c, events).value; i < |d.items| && d.items[i].added == c.items[i].added
    decreases |events|
  {
    if events != [] {
      ObserveKeepsAdded(c, events[0], i);
      WatchKeepsAdded(Observe(c, events[0]).value, events[1..], i);
    }
  }

  /** A client holds every item as it was announced. */
  lemma {:induction false} AnnouncedIsKept(c: Client, events: seq<Event>, i: nat, item: Item)
    requires Watch(c, events).Some? && Announces(events, i, item)
    ensures var d := Watch(c, events).value; i < |d.items| && d.items[i].added == item
    decreases |events|
  {
    var e :| e in events && e.ItemAdded? && e.index == i && e.item == item;
    var d := Observe(c, events[0]).value;
    ObserveKeepsAdded(c, events[0], i);
    if e == events[0] {
      WatchKeepsAdded(d, events[1..], i);
    } else {
      assert e in events[1..];
      AnnouncedIsKept(d, events[1..], i, item);
    }
  }

  // ----- Main results ---------------------------------------------------------------------

  /** What a client holds at the end of a stream whose pieces are `ps`. */
  ghost predicate Delivered(cfg: Config, c: Client, ps: seq<Piece>) {
    && c.completed && c.items != []
    && (forall i :: 0 <= i < |c.items| ==> c.items[i].done.Some?)
    && (TextIn(ps) != "" ==>
          exists i :: 0 <= i < |c.items| && c.items[i].call.None? && c.items[i].body == TextIn(ps))
    && (forall i, j :: 0 <= i < j < |c.items| ==> !(c.items[i].call.None? && c.items[j].call.None?))
    && (forall i :: 0 <= i < |c.items| && c.items[i].call.None? ==>
          c.items[i].body == TextIn(ps) && c.items[i].id == cfg.messageId)
  }

  lemma {:induction false} WatchedDone(c: Client, events: seq<Event>)
    requires Watch(c, events).Some?
    requires c.completed ==> c.items != [] && forall i :: 0 <= i < |c.items| ==> c.items[i].done.Some?
    ensures var d := Watch(c, events).value;
            d.completed ==> d.items != [] && forall i :: 0 <= i < |d.items| ==> d.items[i].done.Some?
    decreases |events|
  {
    if events != [] { WatchedDone(Observe(c, events[0]).value, events[1..]); }
  }

  /** From the state before closing: create and, if nothing was ever said, open an empty message. */
  lemma PrepareClosing(cfg: Config, s: State, events: seq<Event>, inputTokens: int, t: State, u: State,
                       creating: seq<Event>, opening: seq<Event>)
    requires Linked(s, events) && !s.finished
    requires (t, creating) == Create(Estimate(s, inputTokens).(finished := true))
    requires (u, opening) == if t.text.None? && t.tools == [] then OpenText(cfg, t) else (t, [])
    ensures var c := Watch(NEW_CLIENT, events + creating + opening);
            c.Some? && Mirrors(u.(finished := false), c.value) && c.value.items != []
    ensures u.tools == s.tools
    ensures u.text == if s.text.None? && s.tools == [] then Some(TextItem(s.nextIndex, cfg.messageId, "")) else s.text
  {
    var r := Estimate(s, inputTokens);
    if s.created {
      assert Mirrors(r, Watch(NEW_CLIENT, events).value);
      assert events + creating == events;
    } else {
      assert events + creating == creating;
      Watch1(NEW_CLIENT, creating[0]);
    }
    var c := Watch(NEW_CLIENT, events + creating).value;
    assert Mirrors(t.(finished := false), c);
    if opening != [] {
      OpenTextMirrors(cfg, t.(finished := false), c);
      WatchConcat(NEW_CLIENT, events + creating, opening);
    } else {
      assert events + creating + opening == events + creating;
    }
  }

  /** The accumulators of `s` hold the pieces `ps`, for every tool on record and for tool `key`. */
  ghost predicate Faithful(cfg: Config, s: State, ps: seq<Piece>, key: int) {
    && HoldsText(cfg, s, ps) && HoldsTool(cfg, s, ps, key) && DistinctKeys(s.tools)
    && forall k :: 0 <= k < |s.tools| ==> HoldsTool(cfg, s, ps, s.tools[k].key)
  }

  /** Item i was announced under the name of the first mention of tool `key`, and is done with exactly what the pieces
      said of it: id, name and arguments, the name with the arguments and in the finished item alike. */
  predicate Tells(cfg: Config, t: Tracked, i: nat, ps: seq<Piece>, key: int) {
    var opener := Opener(ps, key);
    && opener.Some?
    && t.id == cfg.itemId(i)
    && t.added == CallItem(t.id, CallIdOf(cfg, opener.value, i), opener.value.name, "")
    && t.named == Some(NameIn(ps, key))
    && t.done == Some(CallItem(t.id, CallIdOf(cfg, opener.value, i), NameIn(ps, key), ArgsIn(ps, key)))
    && t.body == ArgsIn(ps, key)
  }

  ghost predicate Outcome(cfg: Config, c: Client, ps: seq<Piece>, key: int) {
    && Delivered(cfg, c, ps) && CallsHaveSources(cfg, c, ps)
    && (Seen(ps, key) ==>
          exists i :: 0 <= i < |c.items| && Tells(cfg, c.items[i], i, ps, key))
  }

  lemma RunFaithful(cfg: Config, chunks: seq<Chunk>, key: int)
    ensures Faithful(cfg, Run(cfg, chunks).0, AllPieces(chunks), key)
  {
    var s := Run(cfg, chunks).0;
    RunHolds(cfg, chunks, key);
    forall k | 0 <= k < |s.tools| ensures HoldsTool(cfg, s, AllPieces(chunks), s.tools[k].key) {
      RunHolds(cfg, chunks, s.tools[k].key);
    }
  }

  /** An empty message opened at the end says no more than was said. */
  lemma FaithfulAfterOpening(cfg: Config, s: State, u: State, ps: seq<Piece>, key: int)
    requires Faithful(cfg, s, ps, key) && u.tools == s.tools
    requires u.text == s.text || (s.text.None? && u.text.Some? && u.text.value.text == "")
    requires u.text.Some? ==> u.text.value.id == cfg.messageId
    ensures Faithful(cfg, u, ps, key)
  {
    forall k | 0 <= k < |u.tools| ensures HoldsTool(cfg, u, ps, u.tools[k].key) {
      assert HoldsTool(cfg, s, ps, s.tools[k].key);
    }
  }

  /** Every tool on record was announced. */
  ghost predicate AllAnnounced(cfg: Config, s: State, events: seq<Event>, ps: seq<Piece>) {
    forall k :: 0 <= k < |s.tools| ==> Announced(cfg, s, events, ps, s.tools[k].key)
  }

  /** At a client that accepted the whole stream, they are held as announced. */
  ghost predicate HeldAsAnnounced(cfg: Config, u: State, items: seq<Tracked>, ps: seq<Piece>) {
    forall k :: 0 <= k < |u.tools| ==> HeldAs(cfg, u.tools[k], items, ps)
  }

  ghost predicate HeldAs(cfg: Config, tool: Tool, items: seq<Tracked>, ps: seq<Piece>) {
    var opener, i := Opener(ps, tool.key), tool.index;
    opener.Some? ==> i < |items| && items[i].added == Announcement(cfg, opener.value, i)
  }

  lemma AnnouncedAreHeld(cfg: Config, u: State, begun: seq<Event>, ending: seq<Event>, ps: seq<Piece>)
    requires AllAnnounced(cfg, u, begun, ps) && DistinctKeys(u.tools) && Watch(NEW_CLIENT, begun + ending).Some?
    ensures HeldAsAnnounced(cfg, u, Watch(NEW_CLIENT, begun + ending).value.items, ps)
  {
    var items := Watch(NEW_CLIENT, begun + ending).value.items;
    forall k | 0 <= k < |u.tools| ensures HeldAs(cfg, u.tools[k], items, ps) {
      var key, i := u.tools[k].key, u.tools[k].index;
      assert Announced(cfg, u, begun, ps, key) && Position(u.tools, key) == k;
      if Opener(ps, key).Some? {
        var item := Announcement(cfg, Opener(ps, key).value, i);
        var e :| e in begun && e.ItemAdded? && e.index == i && e.item == item;
        assert e in begun + ending;
        AnnouncedIsKept(NEW_CLIENT, begun + ending, i, item);
      }
    }
  }

  lemma RunAnnouncesAll(cfg: Config, chunks: seq<Chunk>)
    ensures AllAnnounced(cfg, Run(cfg, chunks).0, Run(cfg, chunks).1, AllPieces(chunks))
  {
    var s := Run(cfg, chunks).0;
    forall k | 0 <= k < |s.tools|
      ensures Announced(cfg, s, Run(cfg, chunks).1, AllPieces(chunks), s.tools[k].key)
    {
      RunAnnounces(cfg, chunks, s.tools[k].key);
    }
  }

  /** More events and another text item change nothing about the tools announced. */
  lemma StillAnnounced(cfg: Config, s: State, u: State, events: seq<Event>, more: seq<Event>, ps: seq<Piece>)
    requires AllAnnounced(cfg, s, events, ps) && u.tools == s.tools
    ensures AllAnnounced(cfg, u, events + more, ps)
  {
    forall k | 0 <= k < |u.tools| ensures Announced(cfg, u, events + more, ps, u.tools[k].key) {
      var key := s.tools[k].key;
      var r, opener := RecordOf(s.tools, key), Opener(ps, key);
      assert Announced(cfg, s, events, ps, key);
      if r.Some? && opener.Some? {
        var item := Announcement(cfg, opener.value, r.value.index);
        var e :| e in events && e.ItemAdded? && e.index == r.value.index && e.item == item;
        assert e in events + more;
      }
    }
  }

  lemma ClosingDelivers(cfg: Config, s: State, events: seq<Event>, inputTokens: int, ps: seq<Piece>, key: int)
    requires Linked(s, events) && !s.finished && Faithful(cfg, s, ps, key) && AllAnnounced(cfg, s, events, ps)
    ensures var c := Watch(NEW_CLIENT, events + FinalStep(cfg, s, inputTokens).1);
            c.Some? && Outcome(cfg, c.value, ps, key)
  {
    var (t, creating) := Create(Estimate(s, inputTokens).(finished := true));
    var (u, opening) := if t.text.None? && t.tools == [] then OpenText(cfg, t) else (t, []);
    var begun := events + creating + opening;
    PrepareClosing(cfg, s, events, inputTokens, t, u, creating, opening);
    FaithfulAfterOpening(cfg, s, u, ps, key);
    StillAnnounced(cfg, s, u, events, creating + opening, ps);
    Regroup(events, creating, opening);
    EndingDelivers(cfg, u, begun, ps, key);
    Regroup(events, creating + opening, ClosingOf(u) + [LastOf(u)]);
  }

  lemma EndingDelivers(cfg: Config, u: State, begun: seq<Event>, ps: seq<Piece>, key: int)
    requires Faithful(cfg, u, ps, key) && AllAnnounced(cfg, u, begun, ps)
    requires var c := Watch(NEW_CLIENT, begun);
             c.Some? && Mirrors(u.(finished := false), c.value) && c.value.items != []
    ensures var c := Watch(NEW_CLIENT, begun + (ClosingOf(u) + [LastOf(u)]));
            c.Some? && Outcome(cfg, c.value, ps, key)
  {
    var ending := ClosingOf(u) + [LastOf(u)];
    var c := Watch(NEW_CLIENT, begun).value;
    FinishWatched(u, c, ClosingOf(u), LastOf(u));
    var d := Watch(c, ending).value;
    WatchConcat(NEW_CLIENT, begun, ending);
    WatchedDone(NEW_CLIENT, begun + ending);
    AnnouncedAreHeld(cfg, u, begun, ending, ps);
    CallSources(cfg, u, c, d, ps);
    DeliveredFrom(cfg, u, c, d, ps, key);
  }

  /** For every chunk sequence, interleaved tools included, the stream is a legal lifecycle from the first
      event to response.completed, and every item is announced as its source was first mentioned and ends with exactly
      the content streamed for it. */
  lemma LifecycleHolds(cfg: Config, chunks: seq<Chunk>, inputTokens: int, key: int)
    ensures var c := Watch(NEW_CLIENT, Translate(cfg, chunks, inputTokens));
            c.Some? && Outcome(cfg, c.value, AllPieces(chunks), key)
  {
    var (s, events) := Run(cfg, chunks);
    RunLinks(cfg, chunks);
    RunFaithful(cfg, chunks, key);
    RunAnnouncesAll(cfg, chunks);
    ClosingDelivers(cfg, s, events, inputTokens, AllPieces(chunks), key);
  }

  /** Every call item carries exactly what was streamed for one of the tools mentioned. */
  ghost predicate CallsHaveSources(cfg: Config, c: Client, ps: seq<Piece>) {
    forall i :: 0 <= i < |c.items| && c.items[i].call.Some? ==>
      exists key :: Seen(ps, key) && Tells(cfg, c.items[i], i, ps, key)
  }

  lemma CallSources(cfg: Config, u: State, c: Client, d: Client, ps: seq<Piece>)
    requires Mirrors(u.(finished := false), c) && DistinctKeys(u.tools)
    requires forall k :: 0 <= k < |u.tools| ==> HoldsTool(cfg, u, ps, u.tools[k].key)
    requires AllDone(u, d.items, |c.items|) && HeldAsAnnounced(cfg, u, d.items, ps)
    ensures CallsHaveSources(cfg, d, ps)
  {
    MirrorsLayout(u, c);
    forall i | 0 <= i < |d.items| && d.items[i].call.Some?
      ensures exists key :: Seen(ps, key) && Tells(cfg, d.items[i], i, ps, key)
    {
      EveryIndexUsed(u.text, u.tools, |d.items|, i);
      var k :| 0 <= k < |u.tools| && u.tools[k].index == i;
      var key := u.tools[k].key;
      assert HoldsTool(cfg, u, ps, key) && Position(u.tools, key) == k && HeldAs(cfg, u.tools[k], d.items, ps);
      OpenerIffSeen(ps, key);
      assert d.items[i] == DoneCall(u.tools[k], d.items[i].added);
      assert Seen(ps, key) && Tells(cfg, d.items[i], i, ps, key);
    }
  }

  lemma DeliveredFrom(cfg: Config, u: State, c: Client, d: Client, ps: seq<Piece>, key: int)
    requires Mirrors(u.(finished := false), c) && HoldsText(cfg, u, ps) && HoldsTool(cfg, u, ps, key)
    requires d.completed && d.items != [] && AllDone(u, d.items, |c.items|) && HeldAsAnnounced(cfg, u, d.items, ps)
    requires forall i :: 0 <= i < |d.items| ==> d.items[i].done.Some?
    ensures Delivered(cfg, d, ps)
    ensures Seen(ps, key) ==> exists i :: 0 <= i < |d.items| && Tells(cfg, d.items[i], i, ps, key)
  {
    forall i | 0 <= i < |d.items| && (u.text.None? || u.text.value.index != i) ensures d.items[i].call.Some? {
      EveryIndexUsed(u.text, u.tools, |c.items|, i);
    }
    if Seen(ps, key) {
      var k := Position(u.tools, key);
      OpenerIffSeen(ps, key);
      assert HeldAs(cfg, u.tools[k], d.items, ps);
      assert d.items[u.tools[k].index] == DoneCall(u.tools[k], d.items[u.tools[k].index].added);
      assert Tells(cfg, d.items[u.tools[k].index], u.tools[k].index, ps, key);
    }
  }

  /** Each output index belongs to the text item or to a tool. */
  lemma EveryIndexUsed(text: Option<TextItem>, tools: seq<Tool>, n: nat, i: nat)
    requires Layout(text, tools, n) && i < n
    requires text.None? || text.value.index != i
    ensures exists k :: 0 <= k < |tools| && tools[k].index == i
  {
    ClosedSorted(text, tools, n, i);
    ClosedMember(text, tools, SortByIndex(ClosedItems(text, Indexed(tools)))[i]);
  }

  /** Sequence numbers of an accepted stream are exactly 0, 1, 2, ... */
  lemma {:induction false} NumbersAreConsecutive(c: Client, events: seq<Event>, i: nat)
    requires Watch(c, events).Some? && i < |events|
    ensures events[i].seqNo == c.seen + i
    decreases |events|
  {
    if i > 0 {
      NumbersAreConsecutive(Observe(c, events[0]).value, events[1..], i - 1);
    }
  }

  lemma SequenceNumbers(cfg: Config, chunks: seq<Chunk>, inputTokens: int, i: nat)
    ensures var events := Translate(cfg, chunks, inputTokens);
            i < |events| ==> events[i].seqNo == i
  {
    var events := Translate(cfg, chunks, inputTokens);
    LifecycleHolds(cfg, chunks, inputTokens, 0);
    if i < |events| { NumbersAreConsecutive(NEW_CLIENT, events, i); }
  }

  // ----- Token counts ----------------------------------------------------------------------

  /** The usage of the last chunk that reports one. */
  function LastUsage(chunks: seq<Chunk>): Option<Usage> {
    if chunks == [] then None
    else
      var last := chunks[|chunks| - 1].usage;
      if last.Some? then last else LastUsage(chunks[..|chunks| - 1])
  }

  /** Characters of arguments over all tools. */
  function ArgChars(ps: seq<Piece>): nat {
    if ps == [] then 0
    else ArgChars(ps[..|ps| - 1]) + if ps[|ps| - 1].ToolPiece? then |ps[|ps| - 1].args| else 0
  }

  /** Characters of all text and arguments. */
  function CharsIn(ps: seq<Piece>): nat {
    |TextIn(ps)| + ArgChars(ps)
  }

  lemma CharsSnoc(ps: seq<Piece>, p: Piece)
    ensures CharsIn(ps + [p])
            == CharsIn(ps) + if p.TextPiece? then |p.text| else |p.args|
  {
    assert (ps + [p])[..|ps|] == ps;
  }

  /** Neither usage nor the end of the stream is touched. */
  predicate SameCounts(s: State, t: State) {
    && t.finished == s.finished && t.sawUsage == s.sawUsage
    && t.inputTokens == s.inputTokens && t.outputTokens == s.outputTokens
  }

  lemma FillToolCounts(s: State, p: Piece)
    requires p.ToolPiece? && Position(s.tools, p.index) < |s.tools|
    ensures var t := FillTool(s, p).0;
            && t.outputChars == s.outputChars + |p.args|
            && SameCounts(s, t)
  {
  }

  lemma EmitCounts(cfg: Config, s: State, p: Piece)
    ensures var t := Emit(cfg, s, p).0;
            && t.outputChars == s.outputChars + (if p.TextPiece? then |p.text| else |p.args|)
            && SameCounts(s, t)
  {
    if p.ToolPiece? {
      OpenToolAt(cfg, s, p, p.index);
      FillToolCounts(OpenTool(cfg, s, p).0, p);
    }
  }

  lemma {:induction false} EmitAllCounts(cfg: Config, s: State, before: seq<Piece>, ps: seq<Piece>, t: State,
                                         all: seq<Piece>)
    requires s.outputChars == CharsIn(before) && t == EmitAll(cfg, s, ps).0 && all == before + ps
    ensures t.outputChars == CharsIn(all)
    ensures SameCounts(s, t)
  {
    if ps == [] {
      assert all == before;
    } else {
      var front, p := ps[..|ps| - 1], ps[|ps| - 1];
      EmitAllSplit(cfg, s, before, ps);
      EmitAllCounts(cfg, s, before, front, EmitAll(cfg, s, front).0, before + front);
      EmitCounts(cfg, EmitAll(cfg, s, front).0, p);
      CharsSnoc(before + front, p);
    }
  }

  /** Characters are counted, and the last reported usage is kept. */
  lemma {:induction false} RunCounts(cfg: Config, chunks: seq<Chunk>)
    ensures var s, ps, usage := Run(cfg, chunks).0, AllPieces(chunks), LastUsage(chunks);
            && !s.finished && s.outputChars == CharsIn(ps) && (s.sawUsage <==> usage.Some?)
            && (usage.Some? ==>
                  s.inputTokens == usage.value.promptTokens && s.outputTokens == usage.value.completionTokens)
  {
    if chunks != [] {
      var front, c := chunks[..|chunks| - 1], chunks[|chunks| - 1];
      RunCounts(cfg, front);
      var t := Create(Run(cfg, front).0).0;
      EmitAllCounts(cfg, t, AllPieces(front), Pieces(c), EmitAll(cfg, t, Pieces(c)).0, AllPieces(chunks));
    }
  }

  /** The token counts of events that end with response.completed. */
  function FinalTokens(events: seq<Event>): Option<(int, int)> {
    if events != [] && events[|events| - 1].Completed?
    then Some((events[|events| - 1].inputTokens, events[|events| - 1].outputTokens)) else None
  }

  lemma FinalStepTokens(cfg: Config, s: State, inputTokens: int)
    requires !s.finished
    ensures var r := Estimate(s, inputTokens);
            FinalTokens(FinalStep(cfg, s, inputTokens).1) == Some((r.inputTokens, r.outputTokens))
  {
    var (u, begun) := BeginStep(cfg, s, inputTokens);
    var r := Estimate(s, inputTokens);
    assert u.inputTokens == r.inputTokens && u.outputTokens == r.outputTokens;
    var ending := begun + (ClosingOf(u) + [LastOf(u)]);
    assert ending[|ending| - 1] == LastOf(u);
  }

  lemma TokensBehind(all: seq<Event>, events: seq<Event>, ending: seq<Event>)
    requires all == events + ending && FinalTokens(ending).Some?
    ensures FinalTokens(all) == FinalTokens(ending)
  {
    assert all[|all| - 1] == ending[|ending| - 1];
  }

  lemma TranslateIs(cfg: Config, chunks: seq<Chunk>, inputTokens: int)
    ensures Translate(cfg, chunks, inputTokens) ==
            Run(cfg, chunks).1 + FinalStep(cfg, Run(cfg, chunks).0, inputTokens).1
  {
  }

  /** The counts to report: the last reported usage, or else the caller's input estimate and the estimate from all
      streamed characters. */
  function Counts(usage: Option<Usage>, chars: nat, inputTokens: int): (int, int) {
    if usage.Some? then (usage.value.promptTokens, usage.value.completionTokens)
    else (inputTokens, EstimatedTokens(chars))
  }

  lemma EstimateIsCounts(s: State, usage: Option<Usage>, chars: nat, inputTokens: int)
    requires s.outputChars == chars && (s.sawUsage <==> usage.Some?)
    requires usage.Some? ==> s.inputTokens == usage.value.promptTokens && s.outputTokens == usage.value.completionTokens
    ensures var r := Estimate(s, inputTokens); (r.inputTokens, r.outputTokens) == Counts(usage, chars, inputTokens)
  {
  }

  /** The stream ends with response.completed, which carries those counts, all streamed text and arguments counted. */
  lemma CountsKnown(cfg: Config, s: State, usage: Option<Usage>, chars: nat, inputTokens: int, all: seq<Event>,
                    events: seq<Event>)
    requires !s.finished && s.outputChars == chars && (s.sawUsage <==> usage.Some?)
    requires usage.Some? ==> s.inputTokens == usage.value.promptTokens && s.outputTokens == usage.value.completionTokens
    requires all == events + FinalStep(cfg, s, inputTokens).1
    ensures FinalTokens(all) == Some(Counts(usage, chars, inputTokens))
  {
    EstimateIsCounts(s, usage, chars, inputTokens);
    FinalStepTokens(cfg, s, inputTokens);
    TokensBehind(all, events, FinalStep(cfg, s, inputTokens).1);
  }

  lemma CompletedCounts(cfg: Config, chunks: seq<Chunk>, inputTokens: int)
    ensures FinalTokens(Translate(cfg, chunks, inputTokens))
            == Some(Counts(LastUsage(chunks), CharsIn(AllPieces(chunks)), inputTokens))
  {
    RunCounts(cfg, chunks);
    TranslateIs(cfg, chunks, inputTokens);
    CountsKnown(cfg, Run(cfg, chunks).0, LastUsage(chunks), CharsIn(AllPieces(chunks)), inputTokens,
                Translate(cfg, chunks, inputTokens), Run(cfg, chunks).1);
  }

  /** A finished translator has counted every event it emitted. */
  lemma EveryEventIsCounted(cfg: Config, chunks: seq<Chunk>, inputTokens: int)
    ensures FinalStep(cfg, Run(cfg, chunks).0, inputTokens).0.seqNo == |Translate(cfg, chunks, inputTokens)|
  {
    var s := Run(cfg, chunks).0;
    var all, last := Translate(cfg, chunks, inputTokens), FinalStep(cfg, s, inputTokens).1;
    RunCounts(cfg, chunks);
    TranslateIs(cfg, chunks, inputTokens);
    LastIsNumbered(cfg, s, inputTokens);
    assert all[|all| - 1] == last[|last| - 1];
    SequenceNumbers(cfg, chunks, inputTokens, |all| - 1);
  }

  lemma LastIsNumbered(cfg: Config, s: State, inputTokens: int)
    requires !s.finished
    ensures var (t, last) := FinalStep(cfg, s, inputTokens); last != [] && last[|last| - 1].seqNo + 1 == t.seqNo
  {
    var (u, begun) := BeginStep(cfg, s, inputTokens);
    var ending := begun + (ClosingOf(u) + [LastOf(u)]);
    assert ending[|ending| - 1] == LastOf(u);
  }

  /** A second `finalize` emits nothing and changes nothing. */
  lemma SecondFinalizeIsSilent(cfg: Config, s: State, first: int, second: int)
    ensures var t := FinalStep(cfg, s, first).0;
            FinalStep(cfg, t, second) == (t, [])
  {
  }

  // ----- The translator object -----------------------------------------------------------

  class ResponsesStreamTranslator {
    const cfg: Config
    var seqNo: nat
    var createdEmitted: bool
    var finished: bool
    var nextOutputIndex: nat
    var text: Option<TextItem>
    var tools: seq<Tool>
    var inputTokens: int
    var outputTokens: int
    var sawUsage: bool
    var outputChars: nat

    function Current(): State
      reads this
    {
      State(seqNo, createdEmitted, finished, nextOutputIndex, text, tools, inputTokens, outputTokens, sawUsage,
            outputChars)
    }

    constructor (cfg: Config)
      ensures this.cfg == cfg && Current() == INITIAL
    {
      this.cfg := cfg;
      seqNo, createdEmitted, finished, nextOutputIndex := 0, false, false, 0;
      text, tools := None, [];
      inputTokens, outputTokens, sawUsage, outputChars := 0, 0, false, 0;
    }

    method NextSeq() returns (n: nat)
      modifies this`seqNo
      ensures n == old(seqNo) && seqNo == n + 1
    {
      n := seqNo;
      seqNo := seqNo + 1;
    }

    /** response.created, once. */
    method EmitCreated() returns (events: seq<Event>)
      modifies this
      ensures (Current(), events) == Create(old(Current()))
    {
      events := [];
      if !createdEmitted {
        createdEmitted := true;
        var n := NextSeq();
        events := [Created(n)];
      }
    }

    method OpenTextItem() returns (events: seq<Event>)
      modifies this
      ensures (Current(), events) == OpenText(cfg, old(Current()))
    {
      text := Some(TextItem(nextOutputIndex, cfg.messageId, ""));
      nextOutputIndex := nextOutputIndex + 1;
      var a := NextSeq();
      var b := NextSeq();
      events := [ItemAdded(a, text.value.index, MessageItem(cfg.messageId, None)),
                 PartAdded(b, cfg.messageId, text.value.index)];
    }

    method EmitTextDelta(delta: string) returns (events: seq<Event>)
      modifies this
      ensures (Current(), events) == EmitText(cfg, old(Current()), delta)
    {
      events := [];
      if text.None? {
        events := OpenTextItem();
      }
      text := Some(text.value.(text := text.value.text + delta));
      outputChars := outputChars + |delta|;
      var n := NextSeq();
      events := events + [Event.TextDelta(n, text.value.id, text.value.index, delta)];
    }

    /** First half of `_handle_tool_delta`: the item of the tool exists. */
    method OpenToolItem(p: Piece) returns (events: seq<Event>)
      requires p.ToolPiece?
      modifies this
      ensures (Current(), events) == OpenTool(cfg, old(Current()), p)
    {
      events := [];
      if Position(tools, p.index) == |tools| {
        var i := nextOutputIndex;
        nextOutputIndex := nextOutputIndex + 1;
        var tool := Tool(p.index, i, cfg.itemId(i), if p.id != "" then p.id else cfg.callId(i), p.name, "");
        tools := tools + [tool];
        var n := NextSeq();
        events := [ItemAdded(n, i, CallOf(tool, ""))];
      }
    }

    method HandleToolDelta(td: ToolDelta) returns (events: seq<Event>)
      modifies this
      ensures (Current(), events) == Emit(cfg, old(Current()), PieceOf(td))
    {
      var p := PieceOf(td);
      events := OpenToolItem(p);
      ghost var (m, opening) := OpenTool(cfg, old(Current()), p);
      OpenToolAt(cfg, old(Current()), p, p.index);
      var k := Position(tools, td.index);
      tools := tools[k := Fill(tools[k], p)];
      if p.args != "" {
        outputChars := outputChars + |p.args|;
        var n := NextSeq();
        events := events + [ArgsDelta(n, tools[k].id, tools[k].index, p.args)];
      } else {
        assert opening + [] == opening;
      }
      assert Current() == FillTool(m, p).0 && events == opening + FillTool(m, p).1;
    }

    /** The content part of `translate_chunk`: text first, then every tool delta in order. */
    method EmitDelta(delta: Delta) returns (events: seq<Event>)
      modifies this
      ensures (Current(), events)
              == EmitAll(cfg, old(Current()), TextPieces(delta.content) + ToolPieces(delta.toolCalls))
    {
      ghost var t := Current();
      ghost var said, calls := TextPieces(delta.content), ToolPieces(delta.toolCalls);
      events := [];
      if delta.content.Some? && delta.content.value != "" {
        events := EmitTextDelta(delta.content.value);
        EmitAllSnoc(cfg, t, [], said[0]);
        assert [] + [said[0]] == said && [] + events == events;
      }
      assert said + calls[..0] == said;
      for i := 0 to |delta.toolCalls|
        invariant (Current(), events) == EmitAll(cfg, t, said + calls[..i])
      {
        TakeMore(calls, i);
        Regroup(said, calls[..i], [calls[i]]);
        EmitAllSnoc(cfg, t, said + calls[..i], calls[i]);
        var more := HandleToolDelta(delta.toolCalls[i]);
        events := events + more;
      }
      assert calls[..|calls|] == calls;
    }

    method TranslateChunk(c: Chunk) returns (events: seq<Event>)
      modifies this
      ensures (Current(), events) == ChunkStep(cfg, old(Current()), c)
    {
      events := EmitCreated();
      ghost var creating := events;
      if c.choices != [] {
        var more := EmitDelta(c.choices[0].delta);
        events := events + more;
      } else {
        assert creating + [] == creating;
      }
      if c.usage.Some? {
        sawUsage := true;
        outputTokens, inputTokens := c.usage.value.completionTokens, c.usage.value.promptTokens;
      }
    }

    /** Closes the tools in index order, one after the other. */
    method CloseAllTools(ordered: seq<(nat, Tool)>) returns (events: seq<Event>)
      modifies this`seqNo
      ensures events == CloseTools(old(seqNo), ordered)
      ensures seqNo == old(seqNo) + |events|
    {
      events := [];
      for k := 0 to |ordered|
        invariant seqNo == old(seqNo) + |events|
        invariant events + CloseTools(seqNo, ordered[k..]) == CloseTools(old(seqNo), ordered)
      {
        var t := ordered[k].1;
        var a := NextSeq();
        var b := NextSeq();
        var two := [ArgsDone(a, t.id, t.index, t.name, t.args), ItemDone(b, t.index, CallOf(t, t.args))];
        assert ordered[k..][1..] == ordered[k + 1..];
        Regroup(events, two, CloseTools(seqNo, ordered[k + 1..]));
        events := events + two;
      }
      assert ordered[|ordered|..] == [];
      assert events + [] == events;
    }

    method CloseTextItem() returns (events: seq<Event>)
      modifies this`seqNo
      ensures events == if text.Some? then CloseText(old(seqNo), text.value) else []
      ensures seqNo == old(seqNo) + |events|
    {
      events := [];
      if text.Some? {
        var a := NextSeq();
        var b := NextSeq();
        var d := NextSeq();
        var item := text.value;
        events := [TextDone(a, item.id, item.index, item.text), PartDone(b, item.id, item.index, item.text),
                   ItemDone(d, item.index, MessageItem(item.id, Some(item.text)))];
      }
    }

    /** Closes the text item, then the tools. */
    method CloseItems() returns (events: seq<Event>)
      modifies this`seqNo
      ensures events == ClosingOf(old(Current()))
      ensures seqNo == old(seqNo) + |events|
    {
      events := CloseTextItem();
      var more := CloseAllTools(SortByIndex(Indexed(tools)));
      events := events + more;
    }

    /** Everything `finalize` does before it closes items. */
    method BeginClosing(estimatedInput: int) returns (events: seq<Event>)
      modifies this
      ensures (Current(), events) == BeginStep(cfg, old(Current()), estimatedInput)
    {
      finished := true;
      if !sawUsage {
        inputTokens := estimatedInput;
        outputTokens := if outputChars == 0 then 0 else if outputChars / 4 < 1 then 1 else outputChars / 4;
      }
      assert Current() == Estimate(old(Current()), estimatedInput).(finished := true);
      events := EmitCreated();
      ghost var creating := events;
      if text.None? && tools == [] {
        var more := OpenTextItem();
        events := events + more;
      } else {
        assert creating + [] == creating;
      }
    }

    method Finalize(estimatedInput: int) returns (events: seq<Event>)
      modifies this
      ensures (Current(), events) == FinalStep(cfg, old(Current()), estimatedInput)
    {
      if finished {
        return [];
      }
      var begun := BeginClosing(estimatedInput);
      ghost var u := Current();
      var closing := CloseItems();
      assert Current() == u.(seqNo := u.seqNo + |closing|);
      var ordered := SortByIndex(Indexed(tools));
      var n := NextSeq();
      var last := Completed(n, Output(SortByIndex(ClosedItems(text, ordered))), inputTokens, outputTokens);
      events := begun + (closing + [last]);
    }
  }

  lemma EmitAllSnoc(cfg: Config, s: State, ps: seq<Piece>, p: Piece)
    ensures var (t, before) := EmitAll(cfg, s, ps);
            var (u, last) := Emit(cfg, t, p);
            EmitAll(cfg, s, ps + [p]) == (u, before + last)
  {
    assert (ps + [p])[..|ps|] == ps;
  }
}
