/** Request translation: Anthropic message arrays into OpenAI ones and back. */
module Requests {
  import opened Wrappers
  import opened SeqFacts
  import opened Text

  // ----- OpenAI side ------------------------------------------------------------

  datatype TextPart = TextPart(text: string, cache: Option<string>)

  datatype TextContent = Plain(text: string) | Parts(parts: seq<TextPart>)

  datatype UserPart = TextOf(part: TextPart) | ImageOf(url: string) | Audio

  datatype UserContent = PlainUser(text: string) | UserParts(parts: seq<UserPart>)

  datatype ToolCall = ToolCall(id: string, name: string, arguments: string)

  /** An assistant message without tool calls has `calls == []`. */
  datatype Message =
    | System(content: TextContent)
    | User(said: UserContent)
    | Assistant(answer: Option<TextContent>, calls: seq<ToolCall>)
    | Tool(callId: string, output: TextContent)

  // ----- Anthropic side -----------------------------------------------------------

  datatype ImageSource = Base64(mime: string, data: string) | Url(url: string)

  datatype TextBlock = TextBlock(text: string, cache: Option<string>)

  datatype TextField = Str(s: string) | Texts(blocks: seq<TextBlock>)

  datatype Block<J> =
    | TextB(block: TextBlock)
    | ImageB(source: ImageSource)
    | ToolUse(id: string, name: string, input: J)
    | ToolResult(useId: string, result: TextField)

  datatype Role = UserRole | AssistantRole | SystemRole

  datatype TurnContent<J> = Just(s: string) | Blocks(blocks: seq<Block<J>>)

  datatype Turn<J> = Turn(role: Role, content: TurnContent<J>)

  /** JSON text and JSON values: parser, printer, the empty object and the wrapper for text that does not parse. */
  datatype Codec<!J> = Codec(parse: string -> Option<J>, dump: J -> string, empty: J, raw: string -> J)

  /** Parsing what was printed gives the value back, and nothing prints as the empty text. */
  ghost predicate Lawful<J(!new)>(c: Codec<J>) {
    forall j: J :: c.parse(c.dump(j)) == Some(j) && c.dump(j) != ""
  }

  datatype Error =
    | ImageUnsupported
    | ToolUseOnUser(id: string)
    | ImageOnAssistant
    | ToolResultOnAssistant(id: string)
    | PartUnsupported

  // ----- Anthropic to OpenAI ----------------------------------------------------------

  function BlockTexts(bs: seq<TextBlock>): (r: seq<string>)
    ensures |r| == |bs| && forall i :: 0 <= i < |bs| ==> r[i] == bs[i].text
  {
    seq(|bs|, i requires 0 <= i < |bs| => bs[i].text)
  }

  function FieldText(f: TextField): string {
    if f.Str? then f.s else Join("\n", BlockTexts(f.blocks))
  }

  datatype UserTurn = UserTurn(tools: seq<Message>, parts: seq<UserPart>)

  function FromUserBlocks<J>(bs: seq<Block<J>>): Result<UserTurn, Error> {
    if bs == [] then Ok(UserTurn([], []))
    else
      var before := FromUserBlocks(bs[..|bs| - 1]);
      if before.Err? then before
      else
        match bs[|bs| - 1]
        case TextB(b) => Ok(before.value.(parts := before.value.parts + [TextOf(TextPart(b.text, b.cache))]))
        case ImageB(_) => Err(ImageUnsupported)
        case ToolResult(id, f) => Ok(before.value.(tools := before.value.tools + [Tool(id, Plain(FieldText(f)))]))
        case ToolUse(id, _, _) => Err(ToolUseOnUser(id))
  }

  /** One uncached text part becomes a plain string, no part no message. */
  function WrapParts(parts: seq<UserPart>): seq<Message> {
    if parts == [] then []
    else if |parts| == 1 && parts[0].TextOf? && parts[0].part.cache.None? then [User(PlainUser(parts[0].part.text))]
    else [User(UserParts(parts))]
  }

  datatype AssistantTurn = AssistantTurn(texts: seq<string>, calls: seq<ToolCall>)

  function FromAssistantBlocks<J>(c: Codec<J>, bs: seq<Block<J>>): Result<AssistantTurn, Error> {
    if bs == [] then Ok(AssistantTurn([], []))
    else
      var before := FromAssistantBlocks(c, bs[..|bs| - 1]);
      if before.Err? then before
      else
        match bs[|bs| - 1]
        case TextB(b) => Ok(before.value.(texts := before.value.texts + [b.text]))
        case ToolUse(id, name, input) =>
          Ok(before.value.(calls := before.value.calls + [ToolCall(id, name, c.dump(input))]))
        case ImageB(_) => Err(ImageOnAssistant)
        case ToolResult(id, _) => Err(ToolResultOnAssistant(id))
  }

  function NonEmptyTexts<J>(bs: seq<Block<J>>): seq<string> {
    if bs == [] then []
    else
      var last := bs[|bs| - 1];
      NonEmptyTexts(bs[..|bs| - 1]) + if last.TextB? && last.block.text != "" then [last.block.text] else []
  }

  /** System fragments and other messages, gathered in order. */
  datatype Gathered = Gathered(fragments: seq<TextPart>, body: seq<Message>)

  function FromTurn<J>(c: Codec<J>, t: Turn<J>): Result<Gathered, Error> {
    match t.role
    case UserRole =>
      if t.content.Just? then Ok(Gathered([], [User(PlainUser(t.content.s))]))
      else
        var u := FromUserBlocks(t.content.blocks);
        if u.Err? then Err(u.error) else Ok(Gathered([], u.value.tools + WrapParts(u.value.parts)))
    case AssistantRole =>
      if t.content.Just? then Ok(Gathered([], [Assistant(Some(Plain(t.content.s)), [])]))
      else
        var a := FromAssistantBlocks(c, t.content.blocks);
        if a.Err? then Err(a.error)
        else
          var answer := if a.value.texts == [] then None else Some(Plain(Join("\n", a.value.texts)));
          Ok(Gathered([], [Assistant(answer, a.value.calls)]))
    case SystemRole =>
      var text := if t.content.Just? then t.content.s else Join("\n", NonEmptyTexts(t.content.blocks));
      Ok(Gathered(if text == "" then [] else [TextPart(text, None)], []))
  }

  function FromTurns<J>(c: Codec<J>, ts: seq<Turn<J>>): Result<Gathered, Error> {
    if ts == [] then Ok(Gathered([], []))
    else
      var before := FromTurns(c, ts[..|ts| - 1]);
      if before.Err? then before
      else
        var last := FromTurn(c, ts[|ts| - 1]);
        if last.Err? then last
        else Ok(Gathered(before.value.fragments + last.value.fragments, before.value.body + last.value.body))
  }

  /** Top-level system fragments, without those that carry neither text nor a cache marker. */
  function SystemParts(blocks: seq<TextBlock>): seq<TextPart> {
    if blocks == [] then []
    else
      var last := blocks[|blocks| - 1];
      SystemParts(blocks[..|blocks| - 1]) +
        if last.text != "" || last.cache.Some? then [TextPart(last.text, last.cache)] else []
  }

  function SystemField(f: Option<TextField>): seq<TextPart> {
    if f.None? then []
    else if f.value.Str? then SystemParts([TextBlock(f.value.s, None)])
    else SystemParts(f.value.blocks)
  }

  function PartTexts(ps: seq<TextPart>): (r: seq<string>)
    ensures |r| == |ps| && forall i :: 0 <= i < |ps| ==> r[i] == ps[i].text
  {
    seq(|ps|, i requires 0 <= i < |ps| => ps[i].text)
  }

  predicate Cached(ps: seq<TextPart>) {
    exists p :: p in ps && p.cache.Some?
  }

  /** The single leading system message: a list only if some fragment carries a cache marker. */
  function Lead(parts: seq<TextPart>): (r: seq<Message>)
    ensures |r| <= 1 && forall m :: m in r ==> m.System?
  {
    if parts == [] then []
    else if Cached(parts) then [System(Parts(parts))]
    else [System(Plain(Join("\n\n", PartTexts(parts))))]
  }

  function FromAnthropic<J>(c: Codec<J>, system: Option<TextField>, ts: seq<Turn<J>>): Result<seq<Message>, Error> {
    var g := FromTurns(c, ts);
    if g.Err? then Err(g.error)
    else Ok(Lead(SystemField(system) + g.value.fragments) + g.value.body)
  }

  // ----- OpenAI to Anthropic --------------------------------------------------------------

  function ContentText(t: TextContent): string {
    if t.Plain? then t.text else Join("\n", PartTexts(t.parts))
  }

  function Find(s: string, c: char, from: nat): (i: nat)
    requires from <= |s|
    ensures from <= i <= |s| && (i < |s| ==> s[i] == c) && forall k :: from <= k < i ==> s[k] != c
    decreases |s| - from
  {
    if from == |s| || s[from] == c then from else Find(s, c, from + 1)
  }

  /** A data URL with a media type and a non-empty base64 body is split, anything else is passed on as a link. */
  function ToImageSource(url: string): ImageSource {
    if "data:" <= url then
      var semi := Find(url, ';', 5);
      if semi > 5 && ";base64," <= url[semi..] && |url| > semi + 8 then Base64(url[5..semi], url[semi + 8..])
      else Url(url)
    else Url(url)
  }

  function ToUserBlocks<J>(ps: seq<UserPart>): Result<seq<Block<J>>, Error> {
    if ps == [] then Ok([])
    else
      var before := ToUserBlocks(ps[..|ps| - 1]);
      if before.Err? then before
      else
        match ps[|ps| - 1]
        case TextOf(p) => Ok(before.value + [TextB(TextBlock(p.text, None))])
        case ImageOf(url) => Ok(before.value + [ImageB(ToImageSource(url))])
        case Audio => Err(PartUnsupported)
  }

  function Arguments<J>(c: Codec<J>, text: string): J {
    if text == "" then c.empty else c.parse(text).GetOr(c.raw(text))
  }

  function ToUse<J>(c: Codec<J>, call: ToolCall): Block<J> {
    ToolUse(call.id, call.name, Arguments(c, call.arguments))
  }

  function ToUses<J>(c: Codec<J>, calls: seq<ToolCall>): (r: seq<Block<J>>)
    ensures |r| == |calls|
  {
    if calls == [] then [] else ToUses(c, calls[..|calls| - 1]) + [ToUse(c, calls[|calls| - 1])]
  }

  /** An empty string and an empty list of parts both count as no content. */
  predicate Shown(answer: Option<TextContent>) {
    answer.Some? && match answer.value case Plain(s) => s != "" case Parts(ps) => ps != []
  }

  function TextBlocks<J>(text: Option<string>): seq<Block<J>> {
    if text.Some? then [TextB(TextBlock(text.value, None))] else []
  }

  function ToAssistantBlocks<J>(c: Codec<J>, answer: Option<TextContent>, calls: seq<ToolCall>): seq<Block<J>> {
    var blocks := TextBlocks(if Shown(answer) then Some(ContentText(answer.value)) else None) + ToUses(c, calls);
    if |blocks| == 0 then TextBlocks(Some("")) else blocks
  }

  function ToTurn<J>(c: Codec<J>, m: Message): Result<Turn<J>, Error>
    requires !m.System?
  {
    match m
    case User(PlainUser(s)) => Ok(Turn(UserRole, Just(s)))
    case User(UserParts(ps)) =>
      var blocks := ToUserBlocks(ps);
      if blocks.Err? then Err(blocks.error) else Ok(Turn(UserRole, Blocks(blocks.value)))
    case Assistant(answer, calls) => Ok(Turn(AssistantRole, Blocks(ToAssistantBlocks(c, answer, calls))))
    case Tool(id, output) => Ok(Turn(UserRole, Blocks([ToolResult(id, Str(ContentText(output)))])))
  }

  function ToTurns<J>(c: Codec<J>, ms: seq<Message>): Result<seq<Turn<J>>, Error> {
    if ms == [] then Ok([])
    else
      var before, last := ToTurns(c, ms[..|ms| - 1]), ms[|ms| - 1];
      if before.Err? || last.System? then before
      else
        var t := ToTurn(c, last);
        if t.Err? then Err(t.error) else Ok(before.value + [t.value])
  }

  function SystemTexts(ms: seq<Message>): seq<string> {
    if ms == [] then []
    else
      var last := ms[|ms| - 1];
      SystemTexts(ms[..|ms| - 1]) + if last.System? then [ContentText(last.content)] else []
  }

  /** System text and turns; an empty system text is not sent. */
  function ToAnthropic<J>(c: Codec<J>, ms: seq<Message>): Result<(Option<TextField>, seq<Turn<J>>), Error> {
    var turns, text := ToTurns(c, ms), Join("\n\n", SystemTexts(ms));
    if turns.Err? then Err(turns.error)
    else Ok((if text == "" then None else Some(Str(text)), turns.value))
  }

  // ----- What a round trip makes of each message ---------------------------------------------

  function Bare(ps: seq<UserPart>): (r: seq<UserPart>)
    ensures |r| == |ps|
    ensures forall i :: 0 <= i < |ps| ==>
              r[i] == if ps[i].TextOf? then TextOf(TextPart(ps[i].part.text, None)) else ps[i]
  {
    seq(|ps|, i requires 0 <= i < |ps| => if ps[i].TextOf? then TextOf(TextPart(ps[i].part.text, None)) else ps[i])
  }

  /** Cache markers go; an assistant's empty text beside tool calls goes; an assistant that said nothing gets an
      empty text; a system list becomes one text, and goes if that is empty. */
  function Bounce(m: Message): seq<Message> {
    match m
    case System(t) => if ContentText(t) == "" then [] else [System(Plain(ContentText(t)))]
    case User(PlainUser(_)) => [m]
    case User(UserParts(ps)) => WrapParts(Bare(ps))
    case Assistant(answer, calls) =>
      if Shown(answer) then [Assistant(Some(Plain(ContentText(answer.value))), calls)]
      else [Assistant(if calls == [] then Some(Plain("")) else None, calls)]
    case Tool(id, output) => [Tool(id, Plain(ContentText(output)))]
  }

  function BounceAll(ms: seq<Message>): seq<Message> {
    if ms == [] then [] else BounceAll(ms[..|ms| - 1]) + Bounce(ms[|ms| - 1])
  }

  /** Survives the trip: no cache marker, text or calls but no empty text beside calls. */
  predicate Lossless(m: Message) {
    match m
    case System(t) => t.Plain?
    case User(PlainUser(_)) => true
    case User(UserParts(ps)) => forall p :: p in ps && p.TextOf? ==> p.part.cache.None?
    case Assistant(answer, calls) => if answer.None? then calls != [] else answer.value == Plain("") ==> calls == []
    case Tool(_, _) => true
  }

  /** Messages as `FromTurn` builds them. */
  ghost predicate Produced<J(!new)>(c: Codec<J>, m: Message) {
    match m
    case System(_) => false
    case User(PlainUser(_)) => true
    case User(UserParts(ps)) =>
      (forall p :: p in ps ==> p.TextOf?) && ps != [] && (|ps| == 1 ==> ps[0].part.cache.Some?)
    case Assistant(answer, calls) => (answer.Some? ==> answer.value.Plain?) && forall k :: k in calls ==> Dumped(c, k)
    case Tool(_, output) => output.Plain?
  }

  ghost predicate Dumped<J(!new)>(c: Codec<J>, call: ToolCall) {
    exists j: J :: call.arguments == c.dump(j)
  }

  lemma {:induction false} UserBlocksProduced<J>(c: Codec<J>, bs: seq<Block<J>>)
    requires FromUserBlocks(bs).Ok?
    ensures var u := FromUserBlocks(bs).value;
            (forall p :: p in u.parts ==> p.TextOf?) && (forall m :: m in u.tools ==> m.Tool? && m.output.Plain?)
  {
    if bs != [] { UserBlocksProduced(c, bs[..|bs| - 1]); }
  }

  lemma {:induction false} AssistantBlocksProduced<J(!new)>(c: Codec<J>, bs: seq<Block<J>>)
    requires FromAssistantBlocks(c, bs).Ok?
    ensures forall k :: k in FromAssistantBlocks(c, bs).value.calls ==> Dumped(c, k)
  {
    if bs != [] {
      AssistantBlocksProduced(c, bs[..|bs| - 1]);
      var last := bs[|bs| - 1];
      if last.ToolUse? { assert Dumped(c, ToolCall(last.id, last.name, c.dump(last.input))); }
    }
  }

  lemma TurnProduced<J(!new)>(c: Codec<J>, t: Turn<J>)
    requires FromTurn(c, t).Ok?
    ensures forall m :: m in FromTurn(c, t).value.body ==> Produced(c, m)
    ensures forall p :: p in FromTurn(c, t).value.fragments ==> p.text != "" && p.cache.None?
  {
    if t.content.Blocks? {
      if t.role.UserRole? { UserBlocksProduced(c, t.content.blocks); }
      if t.role.AssistantRole? { AssistantBlocksProduced(c, t.content.blocks); }
    }
  }

  lemma {:induction false} TurnsProduced<J(!new)>(c: Codec<J>, ts: seq<Turn<J>>)
    requires FromTurns(c, ts).Ok?
    ensures forall m :: m in FromTurns(c, ts).value.body ==> Produced(c, m)
    ensures forall p :: p in FromTurns(c, ts).value.fragments ==> p.text != "" && p.cache.None?
  {
    if ts != [] {
      TurnsProduced(c, ts[..|ts| - 1]);
      TurnProduced(c, ts[|ts| - 1]);
    }
  }

  lemma {:induction false} UserTrip<J>(ps: seq<UserPart>)
    requires forall p :: p in ps ==> p.TextOf?
    ensures ToUserBlocks<J>(ps).Ok? && FromUserBlocks(ToUserBlocks<J>(ps).value) == Ok(UserTurn([], Bare(ps)))
  {
    if ps != [] {
      var n := |ps| - 1;
      UserTrip<J>(ps[..n]);
      assert ps[n] in ps;
      var before, all := ToUserBlocks<J>(ps[..n]).value, ToUserBlocks<J>(ps).value;
      assert all[..|all| - 1] == before;
      assert Bare(ps) == Bare(ps[..n]) + [TextOf(TextPart(ps[n].part.text, None))];
    }
  }

  lemma AssistantSnoc<J>(c: Codec<J>, bs: seq<Block<J>>, b: Block<J>)
    requires FromAssistantBlocks(c, bs).Ok? && (b.TextB? || b.ToolUse?)
    ensures var turn := FromAssistantBlocks(c, bs).value;
            FromAssistantBlocks(c, bs + [b])
            == Ok(if b.TextB? then turn.(texts := turn.texts + [b.block.text])
                  else turn.(calls := turn.calls + [ToolCall(b.id, b.name, c.dump(b.input))]))
  {
    assert (bs + [b])[..|bs|] == bs;
  }

  lemma AssistantText<J>(c: Codec<J>, text: Option<string>)
    ensures FromAssistantBlocks(c, TextBlocks(text)) == Ok(AssistantTurn(if text.Some? then [text.value] else [], []))
  {
    if text.Some? {
      var b: Block<J> := TextB(TextBlock(text.value, None));
      var none: seq<Block<J>> := [];
      AssistantSnoc(c, none, b);
      assert none + [b] == [b] && [] + [text.value] == [text.value];
    }
  }

  lemma ArgumentsTrip<J(!new)>(c: Codec<J>, call: ToolCall)
    requires Lawful(c) && Dumped(c, call)
    ensures c.dump(Arguments(c, call.arguments)) == call.arguments
  {
  }

  lemma {:induction false} CallsTrip<J(!new)>(c: Codec<J>, text: Option<string>, calls: seq<ToolCall>)
    requires Lawful(c) && (forall k :: k in calls ==> Dumped(c, k))
    ensures FromAssistantBlocks(c, TextBlocks(text) + ToUses(c, calls))
            == Ok(AssistantTurn(if text.Some? then [text.value] else [], calls))
  {
    var blocks := TextBlocks<J>(text);
    if calls == [] {
      assert blocks + ToUses(c, calls) == blocks;
      AssistantText(c, text);
    } else {
      var n := |calls| - 1;
      CallsTrip(c, text, calls[..n]);
      assert calls[n] in calls;
      ArgumentsTrip(c, calls[n]);
      Regroup(blocks, ToUses(c, calls[..n]), [ToUse(c, calls[n])]);
      AssistantSnoc(c, blocks + ToUses(c, calls[..n]), ToUse(c, calls[n]));
      TakeMore(calls, n);
      assert calls[..n + 1] == calls;
    }
  }

  /** The blocks of an assistant message, read back: its text if there is one to show, and its calls. */
  lemma AssistantTrip<J(!new)>(c: Codec<J>, answer: Option<TextContent>, calls: seq<ToolCall>)
    requires Lawful(c) && forall k :: k in calls ==> Dumped(c, k)
    ensures FromAssistantBlocks(c, ToAssistantBlocks(c, answer, calls))
            == Ok(AssistantTurn(
                 if Shown(answer) then [ContentText(answer.value)] else if calls == [] then [""] else [], calls))
  {
    CallsTrip(c, if Shown(answer) then Some(ContentText(answer.value)) else None, calls);
    AssistantText(c, Some(""));
  }

  lemma ToolTrip<J>(c: Codec<J>, id: string, text: string)
    ensures FromTurn(c, Turn(UserRole, Blocks([ToolResult(id, Str(text))]))) ==
            Ok(Gathered([], [Tool(id, Plain(text))]))
  {
    var bs: seq<Block<J>> := [ToolResult(id, Str(text))];
    assert bs[..0] == [];
    assert FromUserBlocks(bs) == Ok(UserTurn([] + [Tool(id, Plain(text))], []));
    assert [] + [Tool(id, Plain(text))] + [] == [Tool(id, Plain(text))];
  }

  /** One produced message: translated and back it is exactly its bounce. */
  lemma MessageTrip<J(!new)>(c: Codec<J>, m: Message)
    requires Lawful(c) && Produced(c, m)
    ensures ToTurn(c, m).Ok? && FromTurn(c, ToTurn(c, m).value) == Ok(Gathered([], Bounce(m)))
  {
    match m
    case User(PlainUser(_)) =>
    case User(UserParts(ps)) =>
      UserTrip<J>(ps);
      assert [] + WrapParts(Bare(ps)) == WrapParts(Bare(ps));
    case Assistant(answer, calls) => AssistantTrip(c, answer, calls);
    case Tool(id, output) => ToolTrip(c, id, ContentText(output));
  }

  lemma ToTurnsSnoc<J>(c: Codec<J>, ms: seq<Message>, m: Message)
    ensures SystemTexts(ms + [m]) == SystemTexts(ms) + if m.System? then [ContentText(m.content)] else []
    ensures BounceAll(ms + [m]) == BounceAll(ms) + Bounce(m)
    ensures ToTurns(c, ms).Err? || m.System? ==> ToTurns(c, ms + [m]) == ToTurns(c, ms)
    ensures ToTurns(c, ms).Ok? && !m.System? && ToTurn(c, m).Err? ==> ToTurns(c, ms + [m]) == Err(ToTurn(c, m).error)
    ensures ToTurns(c, ms).Ok? && !m.System? && ToTurn(c, m).Ok? ==>
              ToTurns(c, ms + [m]) == Ok(ToTurns(c, ms).value + [ToTurn(c, m).value])
  {
    assert (ms + [m])[..|ms|] == ms;
  }

  lemma FromTurnsSnoc<J>(c: Codec<J>, ts: seq<Turn<J>>, t: Turn<J>)
    requires FromTurns(c, ts).Ok? && FromTurn(c, t).Ok?
    ensures var before, last := FromTurns(c, ts).value, FromTurn(c, t).value;
            FromTurns(c, ts + [t]) == Ok(Gathered(before.fragments + last.fragments, before.body + last.body))
  {
    assert (ts + [t])[..|ts|] == ts;
  }

  lemma OneMoreTrip<J(!new)>(c: Codec<J>, front: seq<Message>, m: Message)
    requires !m.System? && ToTurns(c, front).Ok? && ToTurn(c, m).Ok? && SystemTexts(front) == []
    requires FromTurns(c, ToTurns(c, front).value) == Ok(Gathered([], BounceAll(front)))
    requires FromTurn(c, ToTurn(c, m).value) == Ok(Gathered([], Bounce(m)))
    ensures ToTurns(c, front + [m]).Ok? && SystemTexts(front + [m]) == []
    ensures FromTurns(c, ToTurns(c, front + [m]).value) == Ok(Gathered([], BounceAll(front + [m])))
  {
    ToTurnsSnoc(c, front, m);
    FromTurnsSnoc(c, ToTurns(c, front).value, ToTurn(c, m).value);
  }

  lemma {:induction false} BodyTrip<J(!new)>(c: Codec<J>, ms: seq<Message>)
    requires Lawful(c) && forall m :: m in ms ==> Produced(c, m)
    ensures ToTurns(c, ms).Ok? && FromTurns(c, ToTurns(c, ms).value) == Ok(Gathered([], BounceAll(ms)))
    ensures SystemTexts(ms) == []
  {
    if ms != [] {
      var n := |ms| - 1;
      BodyTrip(c, ms[..n]);
      assert ms[n] in ms;
      MessageTrip(c, ms[n]);
      TakeMore(ms, n);
      assert ms[..n + 1] == ms;
      OneMoreTrip(c, ms[..n], ms[n]);
    }
  }

  lemma {:induction false} AfterLead<J>(c: Codec<J>, lead: Message, body: seq<Message>)
    requires lead.System?
    ensures ToTurns(c, [lead] + body) == ToTurns(c, body)
    ensures SystemTexts([lead] + body) == [ContentText(lead.content)] + SystemTexts(body)
    ensures BounceAll([lead] + body) == Bounce(lead) + BounceAll(body)
  {
    if body == [] {
      ToTurnsSnoc(c, [], lead);
      assert [lead] + body == [] + [lead];
    } else {
      var n := |body| - 1;
      var front, last := body[..n], body[n];
      AfterLead(c, lead, front);
      TakeMore(body, n);
      assert body[..n + 1] == body;
      Regroup([lead], front, [last]);
      ToTurnsSnoc(c, [lead] + front, last);
      ToTurnsSnoc(c, front, last);
      Regroup(Bounce(lead), BounceAll(front), Bounce(last));
      Regroup([ContentText(lead.content)], SystemTexts(front),
              if last.System? then [ContentText(last.content)] else []);
    }
  }

  lemma SystemFieldOfText(text: string)
    ensures Lead(SystemField(if text == "" then None else Some(Str(text))))
            == if text == "" then [] else [System(Plain(text))]
  {
    if text != "" {
      var blocks := [TextBlock(text, None)];
      assert blocks[..0] == [];
      assert SystemParts(blocks) == [TextPart(text, None)];
      assert PartTexts([TextPart(text, None)]) == [text];
    }
  }

  lemma SendLed<J(!new)>(c: Codec<J>, lead: seq<Message>, body: seq<Message>)
    requires Lawful(c) && (forall m :: m in body ==> Produced(c, m))
    requires |lead| <= 1 && forall m :: m in lead ==> m.System?
    ensures var text := if lead == [] then "" else ContentText(lead[0].content);
            && ToTurns(c, body).Ok?
            && FromTurns(c, ToTurns(c, body).value) == Ok(Gathered([], BounceAll(body)))
            && ToAnthropic(c, lead + body) == Ok((if text == "" then None else Some(Str(text)), ToTurns(c, body).value))
            && BounceAll(lead + body) == (if text == "" then [] else [System(Plain(text))]) + BounceAll(body)
  {
    BodyTrip(c, body);
    if lead == [] {
      assert lead + body == body;
    } else {
      assert lead[0] in lead && lead == [lead[0]];
      AfterLead(c, lead[0], body);
      assert [ContentText(lead[0].content)] + [] == [ContentText(lead[0].content)];
      JoinOne("\n\n", ContentText(lead[0].content));
    }
  }

  /** A translated request, sent back and translated again, is its message-wise bounce: nothing fails, and
      nothing but the named losses happens. */
  lemma TripIsBounce<J(!new)>(c: Codec<J>, system: Option<TextField>, ts: seq<Turn<J>>)
    requires Lawful(c) && FromAnthropic(c, system, ts).Ok?
    ensures var ms := FromAnthropic(c, system, ts).value;
            ToAnthropic(c, ms).Ok? && var back := ToAnthropic(c, ms).value;
            FromAnthropic(c, back.0, back.1) == Ok(BounceAll(ms))
  {
    var g := FromTurns(c, ts).value;
    var lead := Lead(SystemField(system) + g.fragments);
    TurnsProduced(c, ts);
    SendLed(c, lead, g.body);
    var text := if lead == [] then "" else ContentText(lead[0].content);
    SystemFieldOfText(text);
    var field := SystemField(if text == "" then None else Some(Str(text)));
    assert field + [] == field;
  }

  // ----- Exactly when nothing is lost ----------------------------------------------------------

  lemma BareIsSame(ps: seq<UserPart>)
    ensures Bare(ps) == ps <==> forall p :: p in ps && p.TextOf? ==> p.part.cache.None?
  {
    if Bare(ps) == ps {
      forall p | p in ps && p.TextOf? ensures p.part.cache.None? {
        var i :| 0 <= i < |ps| && ps[i] == p;
      }
    }
  }

  /** A system message as `Lead` builds it. */
  predicate Led(m: Message) {
    m.System? && match m.content case Plain(s) => s != "" case Parts(_) => true
  }

  lemma BounceOne<J(!new)>(c: Codec<J>, m: Message)
    requires Produced(c, m) || Led(m)
    ensures |Bounce(m)| <= 1 && (!m.System? ==> |Bounce(m)| == 1)
    ensures Bounce(m) == [m] <==> Lossless(m)
    ensures forall b :: b in Bounce(m) ==> Lossless(b)
  {
    if m.User? && m.said.UserParts? {
      var ps := m.said.parts;
      BareIsSame(ps);
      BareIsSame(Bare(ps));
      assert forall p :: p in Bare(ps) ==> p.TextOf? && p.part.cache.None?;
      if |ps| == 1 { assert ps[0] in ps; }
    }
  }

  /** Lists no longer than these are equal to them joined only if each is. */
  lemma SameJoined(a: seq<Message>, b: seq<Message>, front: seq<Message>, last: Message)
    requires |a| <= |front| && |b| <= 1
    ensures a + b == front + [last] <==> a == front && b == [last]
  {
    if a + b == front + [last] {
      assert |a| == |front| && |b| == 1;
      assert (a + b)[..|a|] == a && (front + [last])[..|front|] == front;
      assert (a + b)[|a|] == b[0] && (front + [last])[|front|] == last;
    }
  }

  lemma AllLossless(front: seq<Message>, last: Message)
    ensures (forall m :: m in front + [last] ==> Lossless(m)) <==>
            Lossless(last) && forall m :: m in front ==> Lossless(m)
  {
    assert last in front + [last];
  }

  lemma {:induction false} BounceAllIff<J(!new)>(c: Codec<J>, ms: seq<Message>)
    requires forall i :: 0 <= i < |ms| ==> Produced(c, ms[i]) || (i == 0 && Led(ms[i]))
    ensures |BounceAll(ms)| <= |ms|
    ensures BounceAll(ms) == ms <==> forall m :: m in ms ==> Lossless(m)
    ensures forall b :: b in BounceAll(ms) ==> Lossless(b)
  {
    if ms != [] {
      var n := |ms| - 1;
      var front, last := ms[..n], ms[n];
      BounceAllIff(c, front);
      BounceOne(c, last);
      TakeMore(ms, n);
      assert ms[..n + 1] == ms;
      SameJoined(BounceAll(front), Bounce(last), front, last);
      AllLossless(front, last);
    }
  }

  lemma {:induction false} SystemPartsKept(blocks: seq<TextBlock>)
    ensures forall p :: p in SystemParts(blocks) ==> p.text != "" || p.cache.Some?
  {
    if blocks != [] { SystemPartsKept(blocks[..|blocks| - 1]); }
  }

  lemma LeadIsLed(parts: seq<TextPart>)
    requires forall p :: p in parts ==> p.text != "" || p.cache.Some?
    ensures forall m :: m in Lead(parts) ==> Led(m)
  {
    if parts != [] && !Cached(parts) {
      forall t | t in PartTexts(parts) ensures t != "" {
        var i :| 0 <= i < |parts| && PartTexts(parts)[i] == t;
        assert parts[i] in parts;
      }
      JoinNotEmpty("\n\n", PartTexts(parts));
    }
  }

  lemma SystemFieldKept(f: Option<TextField>)
    ensures forall p :: p in SystemField(f) ==> p.text != "" || p.cache.Some?
  {
    if f.Some? { SystemPartsKept(if f.value.Str? then [TextBlock(f.value.s, None)] else f.value.blocks); }
  }

  lemma ImageShape<J(!new)>(c: Codec<J>, system: Option<TextField>, ts: seq<Turn<J>>)
    requires FromAnthropic(c, system, ts).Ok?
    ensures var ms := FromAnthropic(c, system, ts).value;
            forall i :: 0 <= i < |ms| ==> Produced(c, ms[i]) || (i == 0 && Led(ms[i]))
  {
    TurnsProduced(c, ts);
    SystemFieldKept(system);
    var g, ms := FromTurns(c, ts).value, FromAnthropic(c, system, ts).value;
    LeadIsLed(SystemField(system) + g.fragments);
    ShapeOf(c, Lead(SystemField(system) + g.fragments), g.body, ms);
  }

  lemma ShapeOf<J(!new)>(c: Codec<J>, lead: seq<Message>, body: seq<Message>, ms: seq<Message>)
    requires ms == lead + body && |lead| <= 1 && (forall m :: m in lead ==> Led(m)) &&
             (forall m :: m in body ==> Produced(c, m))
    ensures forall i :: 0 <= i < |ms| ==> Produced(c, ms[i]) || (i == 0 && Led(ms[i]))
  {
    forall i | 0 <= i < |ms| ensures Produced(c, ms[i]) || (i == 0 && Led(ms[i])) {
      if i < |lead| {
        assert ms[i] == lead[i] && lead[i] in lead;
      } else {
        assert ms[i] == body[i - |lead|] && body[i - |lead|] in body;
      }
    }
  }

  /** The trip back and forth is the identity on a translated request exactly when each of its messages is
      lossless. */
  lemma RoundTripIffLossless<J(!new)>(c: Codec<J>, system: Option<TextField>, ts: seq<Turn<J>>)
    requires Lawful(c) && FromAnthropic(c, system, ts).Ok?
    ensures var ms := FromAnthropic(c, system, ts).value;
            ToAnthropic(c, ms).Ok? && var back := ToAnthropic(c, ms).value;
            FromAnthropic(c, back.0, back.1) == Ok(ms) <==> forall m :: m in ms ==> Lossless(m)
  {
    TripIsBounce(c, system, ts);
    ImageShape(c, system, ts);
    BounceAllIff(c, FromAnthropic(c, system, ts).value);
  }

  /** What one trip loses is all there is to lose: the second trip is the identity. */
  lemma SecondTripIsExact<J(!new)>(c: Codec<J>, system: Option<TextField>, ts: seq<Turn<J>>)
    requires Lawful(c) && FromAnthropic(c, system, ts).Ok?
    ensures var once := BounceAll(FromAnthropic(c, system, ts).value);
            ToAnthropic(c, once).Ok? && var back := ToAnthropic(c, once).value;
            FromAnthropic(c, back.0, back.1) == Ok(once)
  {
    var ms := FromAnthropic(c, system, ts).value;
    TripIsBounce(c, system, ts);
    ImageShape(c, system, ts);
    BounceAllIff(c, ms);
    var back := ToAnthropic(c, ms).value;
    RoundTripIffLossless(c, back.0, back.1);
  }
}
