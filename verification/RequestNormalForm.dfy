/** What every translated request looks like: nothing lost, one leading system message, tool results behind calls. */
module RequestNormalForm {
  import opened Wrappers
  import opened SeqFacts
  import opened Text
  import opened Requests

  function Flat<A, B>(xs: seq<A>, f: A -> seq<B>): seq<B> {
    if xs == [] then [] else Flat(xs[..|xs| - 1], f) + f(xs[|xs| - 1])
  }

  lemma {:induction false} FlatConcat<A, B>(xs: seq<A>, ys: seq<A>, f: A -> seq<B>)
    ensures Flat(xs + ys, f) == Flat(xs, f) + Flat(ys, f)
  {
    if ys == [] {
      assert xs + ys == xs;
    } else {
      var n := |ys| - 1;
      assert (xs + ys)[..|xs| + n] == xs + ys[..n];
      FlatConcat(xs, ys[..n], f);
      Regroup(Flat(xs, f), Flat(ys[..n], f), f(ys[n]));
    }
  }

  lemma FlatSnoc<A, B>(xs: seq<A>, x: A, f: A -> seq<B>)
    ensures Flat(xs + [x], f) == Flat(xs, f) + f(x)
  {
    assert (xs + [x])[..|xs|] == xs;
  }

  lemma FlatOne<A, B>(x: A, f: A -> seq<B>)
    ensures Flat([x], f) == f(x)
  {
    assert [x][..0] == [];
  }

  // ----- When translation fails -----------------------------------------------------

  /** Images anywhere, tool calls said by the user, tool results said by the assistant. */
  predicate Misplaced<J>(role: Role, b: Block<J>) {
    match role
    case UserRole => b.ImageB? || b.ToolUse?
    case AssistantRole => b.ImageB? || b.ToolResult?
    case SystemRole => false
  }

  ghost predicate Malformed<J>(t: Turn<J>) {
    t.content.Blocks? && exists b :: b in t.content.blocks && Misplaced(t.role, b)
  }

  lemma {:induction false} UserFailsIff<J>(bs: seq<Block<J>>)
    ensures FromUserBlocks(bs).Err? <==> exists b :: b in bs && Misplaced(UserRole, b)
  {
    if bs != [] {
      var n := |bs| - 1;
      UserFailsIff(bs[..n]);
      assert bs == bs[..n] + [bs[n]];
      assert bs[n] in bs;
    }
  }

  lemma {:induction false} AssistantFailsIff<J>(c: Codec<J>, bs: seq<Block<J>>)
    ensures FromAssistantBlocks(c, bs).Err? <==> exists b :: b in bs && Misplaced(AssistantRole, b)
  {
    if bs != [] {
      var n := |bs| - 1;
      AssistantFailsIff(c, bs[..n]);
      assert bs == bs[..n] + [bs[n]];
      assert bs[n] in bs;
    }
  }

  lemma TurnFailsIff<J>(c: Codec<J>, t: Turn<J>)
    ensures FromTurn(c, t).Err? <==> Malformed(t)
  {
    if t.content.Blocks? {
      UserFailsIff(t.content.blocks);
      AssistantFailsIff(c, t.content.blocks);
    }
  }

  /** A request is refused exactly when some turn holds a block that does not belong to its role. */
  lemma {:induction false} FailsIff<J>(c: Codec<J>, ts: seq<Turn<J>>)
    ensures FromTurns(c, ts).Err? <==> exists t :: t in ts && Malformed(t)
  {
    if ts != [] {
      var n := |ts| - 1;
      FailsIff(c, ts[..n]);
      TurnFailsIff(c, ts[n]);
      assert ts == ts[..n] + [ts[n]];
      assert ts[n] in ts;
    }
  }

  // ----- Conservation ------------------------------------------------------------------

  /** One thing somebody contributed to the conversation. */
  datatype Item =
    | Said(part: TextPart)
    | Answered(answer: Option<string>)
    | Called(call: ToolCall)
    | Returned(id: string, text: string)

  function SaidIn<J>(b: Block<J>): seq<Item> {
    if b.TextB? then [Said(TextPart(b.block.text, b.block.cache))] else []
  }

  function BlockText(b: TextBlock): seq<string> {
    [b.text]
  }

  /** A result in blocks is their texts, one to a line. */
  function ReturnedIn<J>(b: Block<J>): seq<Item> {
    if !b.ToolResult? then []
    else [Returned(b.useId, if b.result.Str? then b.result.s else Join("\n", Flat(b.result.blocks, BlockText)))]
  }

  lemma {:induction false} BlockTextsAreFlat(bs: seq<TextBlock>)
    ensures Flat(bs, BlockText) == BlockTexts(bs)
  {
    if bs != [] {
      BlockTextsAreFlat(bs[..|bs| - 1]);
      assert BlockTexts(bs) == BlockTexts(bs[..|bs| - 1]) + [bs[|bs| - 1].text];
    }
  }

  function CalledIn<J>(c: Codec<J>): Block<J> -> seq<Item> {
    (b: Block<J>) => if b.ToolUse? then [Called(ToolCall(b.id, b.name, c.dump(b.input)))] else []
  }

  function TextIn<J>(b: Block<J>): seq<string> {
    if b.TextB? then [b.block.text] else []
  }

  /** A turn's items; a user's tool results come before what the user says. */
  function TurnItems<J>(c: Codec<J>): Turn<J> -> seq<Item> {
    (t: Turn<J>) =>
      match t.role
      case UserRole =>
        if t.content.Just? then [Said(TextPart(t.content.s, None))]
        else Flat(t.content.blocks, ReturnedIn) + Flat(t.content.blocks, SaidIn)
      case AssistantRole =>
        if t.content.Just? then [Answered(Some(t.content.s))]
        else
          var texts := Flat(t.content.blocks, TextIn);
          [Answered(if texts == [] then None else Some(Join("\n", texts)))] + Flat(t.content.blocks, CalledIn(c))
      case SystemRole => []
  }

  function PartItems(p: UserPart): seq<Item> {
    if p.TextOf? then [Said(p.part)] else []
  }

  function CallItems(k: ToolCall): seq<Item> {
    [Called(k)]
  }

  function MessageItems(m: Message): seq<Item> {
    match m
    case System(_) => []
    case User(PlainUser(s)) => [Said(TextPart(s, None))]
    case User(UserParts(ps)) => Flat(ps, PartItems)
    case Assistant(answer, calls) =>
      [Answered(if answer.Some? then Some(LinesOf(answer.value)) else None)] + Flat(calls, CallItems)
    case Tool(id, output) => [Returned(id, LinesOf(output))]
  }

  function PartText(p: TextPart): seq<string> {
    [p.text]
  }

  /** The text of a content in parts is their texts, one to a line. */
  function LinesOf(t: TextContent): string {
    match t
    case Plain(s) => s
    case Parts(ps) => Join("\n", Flat(ps, PartText))
  }

  lemma {:induction false} PartTextsAreFlat(ps: seq<TextPart>)
    ensures Flat(ps, PartText) == PartTexts(ps)
  {
    if ps != [] {
      PartTextsAreFlat(ps[..|ps| - 1]);
      assert PartTexts(ps) == PartTexts(ps[..|ps| - 1]) + [ps[|ps| - 1].text];
    }
  }

  /** Wherever a translation needs the text of a content, it takes these lines. */
  lemma ContentTextIsLines(t: TextContent)
    ensures ContentText(t) == LinesOf(t)
  {
    if t.Parts? { PartTextsAreFlat(t.parts); }
  }

  /** An assistant message says something if its content is a text that is not empty, or has parts. */
  predicate Says(answer: Option<TextContent>) {
    match answer
    case None => false
    case Some(Plain(s)) => |s| > 0
    case Some(Parts(ps)) => |ps| > 0
  }

  /** What an assistant message becomes: its text if it says something, then its calls in order, the input of each
      parsed from the arguments, empty for none and wrapped where they are no JSON; and an empty text if there is
      neither. */
  lemma {:induction false} AssistantBlocksAre<J>(c: Codec<J>, answer: Option<TextContent>, calls: seq<ToolCall>)
    ensures var blocks, said := ToAssistantBlocks(c, answer, calls), if Says(answer) then 1 else 0;
            && (said + |calls| == 0 ==> blocks == [TextB(TextBlock("", None))])
            && (said + |calls| > 0 ==> |blocks| == said + |calls|)
            && (said == 1 ==> blocks[0] == TextB(TextBlock(LinesOf(answer.value), None)))
            && forall i :: 0 <= i < |calls| ==>
                 var b, k := blocks[said + i], calls[i];
                 && b.ToolUse? && b.id == k.id && b.name == k.name
                 && (|k.arguments| == 0 ==> b.input == c.empty)
                 && (|k.arguments| > 0 && c.parse(k.arguments).Some? ==> b.input == c.parse(k.arguments).value)
                 && (|k.arguments| > 0 && c.parse(k.arguments).None? ==> b.input == c.raw(k.arguments))
  {
    UsesAreCalls(c, calls);
    if Says(answer) { ContentTextIsLines(answer.value); }
  }

  lemma {:induction false} UsesAreCalls<J>(c: Codec<J>, calls: seq<ToolCall>)
    ensures forall i :: 0 <= i < |calls| ==> ToUses(c, calls)[i] == ToUse(c, calls[i])
  {
    if calls != [] { UsesAreCalls(c, calls[..|calls| - 1]); }
  }

  predicate DataUrl(url: string, mime: string, data: string) {
    url == "data:" + mime + ";base64," + data && mime != "" && data != "" && ';' !in mime
  }

  lemma DataUrlIsSplit(url: string, mime: string, data: string)
    requires DataUrl(url, mime, data)
    ensures ToImageSource(url) == Base64(mime, data)
  {
    var semi := 5 + |mime|;
    assert url[5..semi] == mime && url[semi] == ';';
    assert forall k :: 5 <= k < semi ==> url[k] == mime[k - 5];
    assert Find(url, ';', 5) == semi;
    assert url[semi..] == ";base64," + data && url[semi + 8..] == data;
  }

  lemma SplitIsDataUrl(url: string, mime: string, data: string)
    requires ToImageSource(url) == Base64(mime, data)
    ensures DataUrl(url, mime, data)
  {
    var semi := Find(url, ';', 5);
    assert url == url[..5] + url[5..semi] + url[semi..semi + 8] + url[semi + 8..];
  }

  /** A data URL is split exactly if it has a media type without semicolon and a body behind ";base64,", and then into
      these two; every other URL is passed on as it is. */
  lemma ImageSourceIff(url: string, mime: string, data: string)
    ensures ToImageSource(url) == Base64(mime, data) <==> DataUrl(url, mime, data)
    ensures ToImageSource(url).Url? ==> ToImageSource(url) == Url(url)
  {
    if DataUrl(url, mime, data) { DataUrlIsSplit(url, mime, data); }
    if ToImageSource(url) == Base64(mime, data) { SplitIsDataUrl(url, mime, data); }
  }

  lemma OneMoreResult<J>(tools: seq<Message>, b: Block<J>)
    requires b.ToolResult?
    ensures Flat(tools + [Tool(b.useId, Plain(FieldText(b.result)))], MessageItems)
            == Flat(tools, MessageItems) + ReturnedIn(b)
  {
    if b.result.Texts? { BlockTextsAreFlat(b.result.blocks); }
    FlatSnoc(tools, Tool(b.useId, Plain(FieldText(b.result))), MessageItems);
  }

  lemma {:induction false} UserBlockTools<J>(bs: seq<Block<J>>)
    requires FromUserBlocks(bs).Ok?
    ensures Flat(FromUserBlocks(bs).value.tools, MessageItems) == Flat(bs, ReturnedIn)
  {
    if bs != [] {
      var n := |bs| - 1;
      UserBlockTools(bs[..n]);
      if bs[n].ToolResult? { OneMoreResult(FromUserBlocks(bs[..n]).value.tools, bs[n]); }
    }
  }

  lemma {:induction false} UserBlockParts<J>(bs: seq<Block<J>>)
    requires FromUserBlocks(bs).Ok?
    ensures Flat(FromUserBlocks(bs).value.parts, PartItems) == Flat(bs, SaidIn)
  {
    if bs != [] {
      var n := |bs| - 1;
      UserBlockParts(bs[..n]);
      if bs[n].TextB? {
        FlatSnoc(FromUserBlocks(bs[..n]).value.parts, TextOf(TextPart(bs[n].block.text, bs[n].block.cache)), PartItems);
      }
    }
  }

  lemma WrapItems(parts: seq<UserPart>)
    ensures Flat(WrapParts(parts), MessageItems) == Flat(parts, PartItems)
  {
    if |parts| == 1 {
      assert parts == [parts[0]];
      FlatOne(parts[0], PartItems);
      if parts[0].TextOf? && parts[0].part.cache.None? { FlatOne(User(PlainUser(parts[0].part.text)), MessageItems); }
    }
    FlatOne(User(UserParts(parts)), MessageItems);
  }

  lemma {:induction false} AssistantBlockItems<J>(c: Codec<J>, bs: seq<Block<J>>)
    requires FromAssistantBlocks(c, bs).Ok?
    ensures var a := FromAssistantBlocks(c, bs).value;
            a.texts == Flat(bs, TextIn) && Flat(a.calls, CallItems) == Flat(bs, CalledIn(c))
  {
    if bs != [] {
      var n := |bs| - 1;
      AssistantBlockItems(c, bs[..n]);
      var a, b := FromAssistantBlocks(c, bs[..n]).value, bs[n];
      if b.ToolUse? {
        FlatSnoc(a.calls, ToolCall(b.id, b.name, c.dump(b.input)), CallItems);
      }
    }
  }

  lemma TurnConserved<J>(c: Codec<J>, t: Turn<J>)
    requires FromTurn(c, t).Ok?
    ensures Flat(FromTurn(c, t).value.body, MessageItems) == TurnItems(c)(t)
  {
    var body := FromTurn(c, t).value.body;
    match t.role
    case UserRole =>
      if t.content.Just? {
        FlatOne(User(PlainUser(t.content.s)), MessageItems);
      } else {
        var u := FromUserBlocks(t.content.blocks).value;
        UserBlockTools(t.content.blocks);
        UserBlockParts(t.content.blocks);
        WrapItems(u.parts);
        FlatConcat(u.tools, WrapParts(u.parts), MessageItems);
      }
    case AssistantRole =>
      FlatOne(body[0], MessageItems);
      if t.content.Blocks? { AssistantBlockItems(c, t.content.blocks); }
    case SystemRole =>
  }

  /** Every text, answer, tool call and tool result of the request is in the translated body, in the same order. */
  lemma {:induction false} ContentIsConserved<J>(c: Codec<J>, ts: seq<Turn<J>>)
    requires FromTurns(c, ts).Ok?
    ensures Flat(FromTurns(c, ts).value.body, MessageItems) == Flat(ts, TurnItems(c))
  {
    if ts != [] {
      var n := |ts| - 1;
      ContentIsConserved(c, ts[..n]);
      TurnConserved(c, ts[n]);
      FlatConcat(FromTurns(c, ts[..n]).value.body, FromTurn(c, ts[n]).value.body, MessageItems);
    }
  }

  function SpokenIn<J>(b: Block<J>): seq<string> {
    if b.TextB? && |b.block.text| > 0 then [b.block.text] else []
  }

  lemma {:induction false} SpokenAreNonEmpty<J>(bs: seq<Block<J>>)
    ensures NonEmptyTexts(bs) == Flat(bs, SpokenIn)
  {
    if bs != [] { SpokenAreNonEmpty(bs[..|bs| - 1]); }
  }

  /** System text of in-array system turns: the texts that are not empty, one to a line. */
  function SystemIn<J>(t: Turn<J>): seq<TextPart> {
    if !t.role.SystemRole? then []
    else
      var text := if t.content.Just? then t.content.s else Join("\n", Flat(t.content.blocks, SpokenIn));
      if text == "" then [] else [TextPart(text, None)]
  }

  lemma {:induction false} SystemIsConserved<J>(c: Codec<J>, ts: seq<Turn<J>>)
    requires FromTurns(c, ts).Ok?
    ensures FromTurns(c, ts).value.fragments == Flat(ts, SystemIn)
  {
    if ts != [] {
      SystemIsConserved(c, ts[..|ts| - 1]);
      if ts[|ts| - 1].content.Blocks? { SpokenAreNonEmpty(ts[|ts| - 1].content.blocks); }
    }
  }

  lemma {:induction false} NoSystem<J>(c: Codec<J>, ts: seq<Turn<J>>)
    requires FromTurns(c, ts).Ok?
    ensures forall m :: m in FromTurns(c, ts).value.body ==> !m.System?
  {
    if ts != [] {
      NoSystem(c, ts[..|ts| - 1]);
      var last := ts[|ts| - 1];
      if last.content.Blocks? && last.role.UserRole? { UserBlocksProduced(c, last.content.blocks); }
    }
  }

  lemma LeadItems(parts: seq<TextPart>, body: seq<Message>)
    ensures Flat(Lead(parts) + body, MessageItems) == Flat(body, MessageItems)
  {
    FlatConcat(Lead(parts), body, MessageItems);
    if parts != [] {
      assert Lead(parts) == [Lead(parts)[0]];
      FlatOne(Lead(parts)[0], MessageItems);
    }
  }

  lemma LeadIsFirst(parts: seq<TextPart>, body: seq<Message>, ms: seq<Message>)
    requires ms == Lead(parts) + body && forall m :: m in body ==> !m.System?
    ensures forall i :: 0 <= i < |ms| && ms[i].System? ==> i == 0
    ensures (ms != [] && ms[0].System?) <==> parts != []
    ensures parts != [] ==>
              ms[0].content == if Cached(parts) then Parts(parts) else Plain(Join("\n\n", PartTexts(parts)))
  {
    forall i | 1 <= i < |ms| ensures !ms[i].System? {
      assert ms[i] == body[i - |Lead(parts)|] && ms[i] in body;
    }
    if parts == [] {
      assert ms == body;
      assert ms != [] ==> ms[0] in body;
    } else {
      assert ms[0] == Lead(parts)[0];
    }
  }

  function Fragment(b: TextBlock): seq<TextPart> {
    if |b.text| > 0 || b.cache.Some? then [TextPart(b.text, b.cache)] else []
  }

  /** The fragments of the top-level system field that say something or mark the cache. */
  function TopSystem(f: Option<TextField>): seq<TextPart> {
    if f.None? then []
    else if f.value.Str? then Fragment(TextBlock(f.value.s, None))
    else Flat(f.value.blocks, Fragment)
  }

  lemma {:induction false} FragmentsAreParts(bs: seq<TextBlock>)
    ensures SystemParts(bs) == Flat(bs, Fragment)
  {
    if bs != [] { FragmentsAreParts(bs[..|bs| - 1]); }
  }

  lemma TopSystemIs(f: Option<TextField>)
    ensures SystemField(f) == TopSystem(f)
  {
    if f.Some? {
      if f.value.Str? {
        FragmentsAreParts([TextBlock(f.value.s, None)]);
        FlatOne(TextBlock(f.value.s, None), Fragment);
      } else {
        FragmentsAreParts(f.value.blocks);
      }
    }
  }

  /** The normal form: system text only in the first message, and there all of it, top-level fragments first, in
      parts if a fragment carries a cache marker and joined if not; the other content in the order it came. */
  lemma NormalForm<J>(c: Codec<J>, system: Option<TextField>, ts: seq<Turn<J>>)
    requires FromAnthropic(c, system, ts).Ok?
    ensures var ms, parts := FromAnthropic(c, system, ts).value, TopSystem(system) + Flat(ts, SystemIn);
            && (forall i :: 0 <= i < |ms| && ms[i].System? ==> i == 0)
            && ((ms != [] && ms[0].System?) <==> parts != [])
            && (parts != [] ==>
                  ms[0].content == if exists p :: p in parts && p.cache.Some? then Parts(parts)
                                   else Plain(Join("\n\n", Flat(parts, PartText))))
            && Flat(ms, MessageItems) == Flat(ts, TurnItems(c))
  {
    var g := FromTurns(c, ts).value;
    var parts := SystemField(system) + g.fragments;
    NoSystem(c, ts);
    TopSystemIs(system);
    PartTextsAreFlat(parts);
    SystemIsConserved(c, ts);
    ContentIsConserved(c, ts);
    LeadIsFirst(parts, g.body, FromAnthropic(c, system, ts).value);
    LeadItems(parts, g.body);
  }

  // ----- Tool messages follow the call they answer ----------------------------------------

  function CallIds(calls: seq<ToolCall>): set<string> {
    if calls == [] then {} else CallIds(calls[..|calls| - 1]) + {calls[|calls| - 1].id}
  }

  function UseIds<J>(bs: seq<Block<J>>): set<string> {
    if bs == [] then {}
    else var last := bs[|bs| - 1]; UseIds(bs[..|bs| - 1]) + if last.ToolUse? then {last.id} else {}
  }

  function ResultIds<J>(bs: seq<Block<J>>): set<string> {
    if bs == [] then {}
    else var last := bs[|bs| - 1]; ResultIds(bs[..|bs| - 1]) + if last.ToolResult? then {last.useId} else {}
  }

  /** Tool ids the latest non-system turn called, if the assistant said it. */
  function AskedBy<J>(ts: seq<Turn<J>>): set<string> {
    if ts == [] then {}
    else
      var last := ts[|ts| - 1];
      match last.role
      case UserRole => {}
      case AssistantRole => if last.content.Blocks? then UseIds(last.content.blocks) else {}
      case SystemRole => AskedBy(ts[..|ts| - 1])
  }

  /** Every tool result of a turn answers a call of the latest non-system turn before it. */
  predicate ResultsAnswer<J>(ts: seq<Turn<J>>) {
    if ts == [] then true
    else
      var front, last := ts[..|ts| - 1], ts[|ts| - 1];
      ResultsAnswer(front) &&
      (last.role.UserRole? && last.content.Blocks? ==> ResultIds(last.content.blocks) <= AskedBy(front))
  }

  /** Tool ids that a tool message placed next may answer. */
  function OpenIds(ms: seq<Message>): set<string> {
    if ms == [] then {}
    else
      var last := ms[|ms| - 1];
      if last.Assistant? then CallIds(last.calls)
      else if last.Tool? then OpenIds(ms[..|ms| - 1])
      else {}
  }

  predicate Paired(ms: seq<Message>) {
    if ms == [] then true
    else
      var front, last := ms[..|ms| - 1], ms[|ms| - 1];
      Paired(front) && (last.Tool? ==> last.callId in OpenIds(front))
  }

  lemma {:induction false} ToolsKeepPaired(ms: seq<Message>, tools: seq<Message>)
    requires Paired(ms) && forall m :: m in tools ==> m.Tool? && m.callId in OpenIds(ms)
    ensures Paired(ms + tools) && OpenIds(ms + tools) == OpenIds(ms)
  {
    if tools == [] {
      assert ms + tools == ms;
    } else {
      var n := |tools| - 1;
      ToolsKeepPaired(ms, tools[..n]);
      assert (ms + tools)[..|ms| + n] == ms + tools[..n];
      assert tools[n] in tools;
    }
  }

  lemma {:induction false} ToolsAreResults<J>(bs: seq<Block<J>>)
    requires FromUserBlocks(bs).Ok?
    ensures forall m :: m in FromUserBlocks(bs).value.tools ==> m.Tool? && m.callId in ResultIds(bs)
  {
    if bs != [] { ToolsAreResults(bs[..|bs| - 1]); }
  }

  lemma {:induction false} CallsAreUses<J>(c: Codec<J>, bs: seq<Block<J>>)
    requires FromAssistantBlocks(c, bs).Ok?
    ensures CallIds(FromAssistantBlocks(c, bs).value.calls) == UseIds(bs)
  {
    if bs != [] {
      var n := |bs| - 1;
      CallsAreUses(c, bs[..n]);
      if bs[n].ToolUse? {
        CallIdsSnoc(FromAssistantBlocks(c, bs[..n]).value.calls, ToolCall(bs[n].id, bs[n].name, c.dump(bs[n].input)));
      }
    }
  }

  lemma CallIdsSnoc(calls: seq<ToolCall>, k: ToolCall)
    ensures CallIds(calls + [k]) == CallIds(calls) + {k.id}
  {
    assert (calls + [k])[..|calls|] == calls;
  }

  lemma EndsWith(ms: seq<Message>, m: Message)
    requires Paired(ms) && !m.Tool?
    ensures Paired(ms + [m]) && OpenIds(ms + [m]) == if m.Assistant? then CallIds(m.calls) else {}
  {
    assert (ms + [m])[..|ms|] == ms;
  }

  lemma UserKeepsPaired(ms: seq<Message>, tools: seq<Message>, parts: seq<UserPart>)
    requires Paired(ms) && forall m :: m in tools ==> m.Tool? && m.callId in OpenIds(ms)
    ensures Paired(ms + (tools + WrapParts(parts)))
  {
    ToolsKeepPaired(ms, tools);
    Regroup(ms, tools, WrapParts(parts));
    if parts == [] {
      assert tools + [] == tools;
    } else {
      assert WrapParts(parts) == [WrapParts(parts)[0]];
      EndsWith(ms + tools, WrapParts(parts)[0]);
    }
  }

  lemma AskedSnoc<J>(front: seq<Turn<J>>, t: Turn<J>)
    requires ResultsAnswer(front + [t])
    ensures AskedBy(front + [t]) == match t.role
                                    case UserRole => {}
                                    case AssistantRole => if t.content.Blocks? then UseIds(t.content.blocks) else {}
                                    case SystemRole => AskedBy(front)
    ensures ResultsAnswer(front)
    ensures t.role.UserRole? && t.content.Blocks? ==> ResultIds(t.content.blocks) <= AskedBy(front)
  {
    assert (front + [t])[..|front|] == front;
  }

  /** One more turn keeps the pairing. */
  lemma TurnKeepsPaired<J>(c: Codec<J>, ms: seq<Message>, front: seq<Turn<J>>, t: Turn<J>)
    requires FromTurn(c, t).Ok? && Paired(ms) && AskedBy(front) <= OpenIds(ms) && ResultsAnswer(front + [t])
    ensures var more := ms + FromTurn(c, t).value.body; Paired(more) && AskedBy(front + [t]) <= OpenIds(more)
  {
    AskedSnoc(front, t);
    var body := FromTurn(c, t).value.body;
    match t.role
    case UserRole =>
      if t.content.Just? {
        EndsWith(ms, body[0]);
      } else {
        var u := FromUserBlocks(t.content.blocks).value;
        ToolsAreResults(t.content.blocks);
        UserKeepsPaired(ms, u.tools, u.parts);
      }
    case AssistantRole =>
      EndsWith(ms, body[0]);
      if t.content.Blocks? { CallsAreUses(c, t.content.blocks); }
    case SystemRole =>
      assert ms + body == ms;
  }

  lemma {:induction false} TurnsArePaired<J>(c: Codec<J>, lead: seq<Message>, ts: seq<Turn<J>>)
    requires FromTurns(c, ts).Ok? && ResultsAnswer(ts) && Paired(lead)
    ensures var ms := lead + FromTurns(c, ts).value.body; Paired(ms) && AskedBy(ts) <= OpenIds(ms)
  {
    if ts == [] {
      assert lead + [] == lead;
    } else {
      var n := |ts| - 1;
      var front, t := ts[..n], ts[n];
      TakeMore(ts, n);
      assert ts[..n + 1] == ts;
      AskedSnoc(front, t);
      TurnsArePaired(c, lead, front);
      var before, last := FromTurns(c, front).value.body, FromTurn(c, t).value.body;
      TurnKeepsPaired(c, lead + before, front, t);
      Regroup(lead, before, last);
    }
  }

  /** Position a holds the assistant message that called `id`, and only tool messages lie between a and k. */
  ghost predicate CallSite(ms: seq<Message>, a: int, k: int, id: string) {
    0 <= a < k <= |ms| && ms[a].Assistant? && id in CallIds(ms[a].calls) && forall j :: a < j < k ==> ms[j].Tool?
  }

  lemma {:induction false} OpenIdHasSite(ms: seq<Message>, id: string) returns (a: int)
    requires id in OpenIds(ms)
    ensures CallSite(ms, a, |ms|, id)
  {
    var n := |ms| - 1;
    if ms[n].Assistant? {
      a := n;
    } else {
      a := OpenIdHasSite(ms[..n], id);
      assert forall j :: a < j < n ==> ms[j] == ms[..n][j];
    }
  }

  lemma {:induction false} PairedHasSite(ms: seq<Message>, k: int) returns (a: int)
    requires Paired(ms) && 0 <= k < |ms| && ms[k].Tool?
    ensures CallSite(ms, a, k, ms[k].callId)
  {
    var n := |ms| - 1;
    if k < n {
      a := PairedHasSite(ms[..n], k);
      assert forall j :: a < j < k ==> ms[j] == ms[..n][j];
    } else {
      a := OpenIdHasSite(ms[..n], ms[n].callId);
      assert forall j :: a < j < k ==> ms[j] == ms[..n][j];
    }
  }

  lemma RequestIsPaired<J>(c: Codec<J>, system: Option<TextField>, ts: seq<Turn<J>>)
    requires FromAnthropic(c, system, ts).Ok? && ResultsAnswer(ts)
    ensures Paired(FromAnthropic(c, system, ts).value)
  {
    var lead := Lead(SystemField(system) + FromTurns(c, ts).value.fragments);
    if lead != [] {
      assert lead == [] + [lead[0]] && lead[0] in lead;
      EndsWith([], lead[0]);
    }
    TurnsArePaired(c, lead, ts);
  }

  /** If every tool result answers a call of the turn before it, system turns aside, then every tool message of the
      translated request lies in the run of tool messages right behind the assistant message that called it. */
  lemma ToolsFollowTheirCall<J>(c: Codec<J>, system: Option<TextField>, ts: seq<Turn<J>>, k: int)
    requires FromAnthropic(c, system, ts).Ok? && ResultsAnswer(ts)
    requires 0 <= k < |FromAnthropic(c, system, ts).value| && FromAnthropic(c, system, ts).value[k].Tool?
    ensures var ms := FromAnthropic(c, system, ts).value; exists a :: CallSite(ms, a, k, ms[k].callId)
  {
    var ms := FromAnthropic(c, system, ts).value;
    RequestIsPaired(c, system, ts);
    var a := PairedHasSite(ms, k);
  }
}
