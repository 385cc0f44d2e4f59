/** The request translators as they run: loops over turns and blocks.
    Each is proved to compute the function that the theorems about requests are stated for. */
module RequestTranslators {
  import opened Wrappers
  import opened SeqFacts
  import opened Text
  import opened Requests

  // ----- The first error is the answer ---------------------------------------------

  lemma {:induction false} UserErrorStays<J>(bs: seq<Block<J>>, k: nat)
    requires k <= |bs| && FromUserBlocks(bs[..k]).Err?
    ensures FromUserBlocks(bs) == FromUserBlocks(bs[..k])
  {
    if k < |bs| {
      assert bs[..|bs| - 1][..k] == bs[..k];
      UserErrorStays(bs[..|bs| - 1], k);
    } else {
      assert bs[..k] == bs;
    }
  }

  lemma {:induction false} AssistantErrorStays<J>(c: Codec<J>, bs: seq<Block<J>>, k: nat)
    requires k <= |bs| && FromAssistantBlocks(c, bs[..k]).Err?
    ensures FromAssistantBlocks(c, bs) == FromAssistantBlocks(c, bs[..k])
  {
    if k < |bs| {
      assert bs[..|bs| - 1][..k] == bs[..k];
      AssistantErrorStays(c, bs[..|bs| - 1], k);
    } else {
      assert bs[..k] == bs;
    }
  }

  lemma {:induction false} TurnsErrorStays<J>(c: Codec<J>, ts: seq<Turn<J>>, k: nat)
    requires k <= |ts| && FromTurns(c, ts[..k]).Err?
    ensures FromTurns(c, ts) == FromTurns(c, ts[..k])
  {
    if k < |ts| {
      assert ts[..|ts| - 1][..k] == ts[..k];
      TurnsErrorStays(c, ts[..|ts| - 1], k);
    } else {
      assert ts[..k] == ts;
    }
  }

  lemma {:induction false} PartsErrorStays<J>(ps: seq<UserPart>, k: nat)
    requires k <= |ps| && ToUserBlocks<J>(ps[..k]).Err?
    ensures ToUserBlocks<J>(ps) == ToUserBlocks<J>(ps[..k])
  {
    if k < |ps| {
      assert ps[..|ps| - 1][..k] == ps[..k];
      PartsErrorStays<J>(ps[..|ps| - 1], k);
    } else {
      assert ps[..k] == ps;
    }
  }

  lemma {:induction false} MessagesErrorStays<J>(c: Codec<J>, ms: seq<Message>, k: nat)
    requires k <= |ms| && ToTurns(c, ms[..k]).Err?
    ensures ToTurns(c, ms) == ToTurns(c, ms[..k])
  {
    if k < |ms| {
      assert ms[..|ms| - 1][..k] == ms[..k];
      MessagesErrorStays(c, ms[..|ms| - 1], k);
    } else {
      assert ms[..k] == ms;
    }
  }

  // ----- Anthropic to OpenAI ------------------------------------------------------------

  /** Tool messages first, whatever the block order, then one message with what the user says. */
  method UserToOpenAI<J>(bs: seq<Block<J>>) returns (r: Result<seq<Message>, Error>)
    ensures var u := FromUserBlocks(bs);
            r == if u.Err? then Err(u.error) else Ok(u.value.tools + WrapParts(u.value.parts))
  {
    var tools: seq<Message>, parts: seq<UserPart> := [], [];
    for i := 0 to |bs|
      invariant FromUserBlocks(bs[..i]) == Ok(UserTurn(tools, parts))
    {
      assert bs[..i + 1][..i] == bs[..i];
      match bs[i] {
        case TextB(b) => parts := parts + [TextOf(TextPart(b.text, b.cache))];
        case ImageB(_) => UserErrorStays(bs, i + 1); return Err(ImageUnsupported);
        case ToolResult(id, f) => tools := tools + [Tool(id, Plain(FieldText(f)))];
        case ToolUse(id, _, _) => UserErrorStays(bs, i + 1); return Err(ToolUseOnUser(id));
      }
    }
    assert bs[..|bs|] == bs;
    r := Ok(tools + WrapParts(parts));
  }

  method AssistantToOpenAI<J>(c: Codec<J>, bs: seq<Block<J>>) returns (r: Result<Message, Error>)
    ensures var a := FromAssistantBlocks(c, bs);
            r == if a.Err? then Err(a.error)
                 else Ok(Assistant(if a.value.texts == [] then None else Some(Plain(Join("\n", a.value.texts))),
                                   a.value.calls))
  {
    var texts: seq<string>, calls: seq<ToolCall> := [], [];
    for i := 0 to |bs|
      invariant FromAssistantBlocks(c, bs[..i]) == Ok(AssistantTurn(texts, calls))
    {
      assert bs[..i + 1][..i] == bs[..i];
      match bs[i] {
        case TextB(b) => texts := texts + [b.text];
        case ToolUse(id, name, input) => calls := calls + [ToolCall(id, name, c.dump(input))];
        case ImageB(_) => AssistantErrorStays(c, bs, i + 1); return Err(ImageOnAssistant);
        case ToolResult(id, _) => AssistantErrorStays(c, bs, i + 1); return Err(ToolResultOnAssistant(id));
      }
    }
    assert bs[..|bs|] == bs;
    r := Ok(Assistant(if texts == [] then None else Some(Plain(Join("\n", texts))), calls));
  }

  method TurnToOpenAI<J>(c: Codec<J>, t: Turn<J>) returns (r: Result<Gathered, Error>)
    ensures r == FromTurn(c, t)
  {
    match t.role {
      case UserRole =>
        if t.content.Just? {
          return Ok(Gathered([], [User(PlainUser(t.content.s))]));
        }
        var u := UserToOpenAI(t.content.blocks);
        r := if u.Err? then Err(u.error) else Ok(Gathered([], u.value));
      case AssistantRole =>
        if t.content.Just? {
          return Ok(Gathered([], [Assistant(Some(Plain(t.content.s)), [])]));
        }
        var a := AssistantToOpenAI(c, t.content.blocks);
        r := if a.Err? then Err(a.error) else Ok(Gathered([], [a.value]));
      case SystemRole =>
        var text := if t.content.Just? then t.content.s else Join("\n", NonEmptyTexts(t.content.blocks));
        r := Ok(Gathered(if text == "" then [] else [TextPart(text, None)], []));
    }
  }

  method FromAnthropicRequest<J>(c: Codec<J>, system: Option<TextField>, ts: seq<Turn<J>>)
    returns (r: Result<seq<Message>, Error>)
    ensures r == FromAnthropic(c, system, ts)
  {
    var systemParts := SystemField(system);
    var body: seq<Message> := [];
    ghost var fragments: seq<TextPart> := [];
    for i := 0 to |ts|
      invariant FromTurns(c, ts[..i]) == Ok(Gathered(fragments, body))
      invariant systemParts == SystemField(system) + fragments
    {
      assert ts[..i + 1][..i] == ts[..i];
      var converted := TurnToOpenAI(c, ts[i]);
      if converted.Err? {
        TurnsErrorStays(c, ts, i + 1);
        return Err(converted.error);
      }
      Regroup(SystemField(system), fragments, converted.value.fragments);
      systemParts := systemParts + converted.value.fragments;
      fragments := fragments + converted.value.fragments;
      body := body + converted.value.body;
    }
    assert ts[..|ts|] == ts;
    r := Ok(Lead(systemParts) + body);
  }

  // ----- OpenAI to Anthropic ----------------------------------------------------------------

  method TranslateUserContent<J>(ps: seq<UserPart>) returns (r: Result<seq<Block<J>>, Error>)
    ensures r == ToUserBlocks(ps)
  {
    var blocks: seq<Block<J>> := [];
    for i := 0 to |ps|
      invariant ToUserBlocks(ps[..i]) == Ok(blocks)
    {
      assert ps[..i + 1][..i] == ps[..i];
      match ps[i] {
        case TextOf(p) => blocks := blocks + [TextB(TextBlock(p.text, None))];
        case ImageOf(url) => blocks := blocks + [ImageB(ToImageSource(url))];
        case Audio => PartsErrorStays<J>(ps, i + 1); return Err(PartUnsupported);
      }
    }
    assert ps[..|ps|] == ps;
    r := Ok(blocks);
  }

  method TranslateAssistantContent<J>(c: Codec<J>, answer: Option<TextContent>, calls: seq<ToolCall>)
    returns (blocks: seq<Block<J>>)
    ensures blocks == ToAssistantBlocks(c, answer, calls)
  {
    blocks := [];
    if Shown(answer) {
      blocks := blocks + [TextB(TextBlock(ContentText(answer.value), None))];
    }
    ghost var text := blocks;
    for i := 0 to |calls|
      invariant blocks == text + ToUses(c, calls[..i])
    {
      assert calls[..i + 1][..i] == calls[..i];
      blocks := blocks + [ToUse(c, calls[i])];
    }
    assert calls[..|calls|] == calls;
    if |blocks| == 0 {
      blocks := [TextB(TextBlock("", None))];
    }
  }

  method TranslateMessage<J>(c: Codec<J>, m: Message) returns (r: Result<Turn<J>, Error>)
    requires !m.System?
    ensures r == ToTurn(c, m)
  {
    match m {
      case User(PlainUser(s)) => r := Ok(Turn(UserRole, Just(s)));
      case User(UserParts(ps)) =>
        var blocks := TranslateUserContent(ps);
        r := if blocks.Err? then Err(blocks.error) else Ok(Turn(UserRole, Blocks(blocks.value)));
      case Assistant(answer, calls) =>
        var blocks := TranslateAssistantContent(c, answer, calls);
        r := Ok(Turn(AssistantRole, Blocks(blocks)));
      case Tool(id, output) => r := Ok(Turn(UserRole, Blocks([ToolResult(id, Str(ContentText(output)))])));
    }
  }

  method ToAnthropicParams<J>(c: Codec<J>, ms: seq<Message>)
    returns (r: Result<(Option<TextField>, seq<Turn<J>>), Error>)
    ensures r == ToAnthropic(c, ms)
  {
    var systemParts: seq<string>, converted: seq<Turn<J>> := [], [];
    for i := 0 to |ms|
      invariant systemParts == SystemTexts(ms[..i]) && ToTurns(c, ms[..i]) == Ok(converted)
    {
      assert ms[..i + 1][..i] == ms[..i];
      if ms[i].System? {
        systemParts := systemParts + [ContentText(ms[i].content)];
      } else {
        var t := TranslateMessage(c, ms[i]);
        if t.Err? {
          MessagesErrorStays(c, ms, i + 1);
          return Err(t.error);
        }
        converted := converted + [t.value];
      }
    }
    assert ms[..|ms|] == ms;
    var text := Join("\n\n", systemParts);
    r := Ok((if text == "" then None else Some(Str(text)), converted));
  }
}
