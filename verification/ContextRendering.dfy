/** The system message a memory context is rendered as, and what its budget says about its length. */
module ContextRendering {
  import opened Wrappers
  import opened MemoryStore
  import opened ContextBudget
  import Text

  const PREAMBLE := "[Context restored by ModelMeld gateway]" + "\n\n"
  const FACTS_HEADING := "## Persistent facts"
  const SUMMARY_HEADING := "## Conversation summary" + "\n"

  function FactLine(f: Fact): string {
    "- " + f.key + ": " + f.value
  }

  /** The lines of all facts, each behind a line break. */
  function FactLines(facts: seq<Fact>): string {
    if facts == [] then "" else "\n" + FactLine(facts[0]) + FactLines(facts[1..])
  }

  function Sections(space: char -> bool, ctx: MemoryContext): seq<string> {
    var text := Text.Strip(space, SummaryText(ctx.summary));
    (if ctx.facts != [] then [FACTS_HEADING + FactLines(ctx.facts)] else []) +
    (if text != "" then [SUMMARY_HEADING + text] else [])
  }

  /** The empty message where there is nothing to say. */
  function RenderSystemMessage(space: char -> bool, ctx: MemoryContext): string {
    var sections := Sections(space, ctx);
    if sections == [] then "" else PREAMBLE + Text.Join("\n\n", sections)
  }

  /** One more fact is one more line at the end. */
  lemma {:induction false} FactLinesSnoc(facts: seq<Fact>, f: Fact)
    ensures FactLines(facts + [f]) == FactLines(facts) + "\n- " + f.key + ": " + f.value
  {
    if facts == [] {
      assert [] + [f] == [f] && [f][1..] == [];
      assert FactLines([]) == "";
    } else {
      assert (facts + [f])[1..] == facts[1..] + [f];
      FactLinesSnoc(facts[1..], f);
    }
  }

  /** Facts first, then the summary, behind one preamble; nothing at all where there is neither. */
  lemma RenderedParts(space: char -> bool, ctx: MemoryContext)
    ensures var rendered, text := RenderSystemMessage(space, ctx), Text.Strip(space, SummaryText(ctx.summary));
            && (ctx.facts == [] && text == "" ==> rendered == "")
            && (ctx.facts != [] && text == "" ==> rendered == PREAMBLE + (FACTS_HEADING + FactLines(ctx.facts)))
            && (ctx.facts == [] && text != "" ==> rendered == PREAMBLE + (SUMMARY_HEADING + text))
            && (ctx.facts != [] && text != "" ==>
                  rendered == PREAMBLE + (FACTS_HEADING + FactLines(ctx.facts) + "\n\n" + (SUMMARY_HEADING + text)))
  {
    var text := Text.Strip(space, SummaryText(ctx.summary));
    JoinsTwo(FACTS_HEADING + FactLines(ctx.facts), SUMMARY_HEADING + text);
    JoinsTwo(SUMMARY_HEADING + text, "");
    assert Sections(space, ctx) ==
           (if ctx.facts != [] then [FACTS_HEADING + FactLines(ctx.facts)] else []) +
           (if text != "" then [SUMMARY_HEADING + text] else []);
  }

  lemma JoinsTwo(a: string, b: string)
    ensures Text.Join("\n\n", [a]) == a && Text.Join("\n\n", [a, b]) == a + "\n\n" + b
  {
    assert [a, b][..1] == [a];
  }

  // ----- What is counted is what is rendered ------------------------------------------------

  /** The estimate counts every character of the facts as they are rendered, line breaks included. */
  lemma {:induction false} FactsCountAsRendered(facts: seq<Fact>)
    ensures FactsCost(Chars, facts) == |FactLines(facts)|
  {
    if facts != [] { FactsCountAsRendered(facts[1..]); }
  }

  /** In tokens, a fact is what its rendered line counts, and one more. */
  lemma TokensCountAsRendered(counter: string -> nat, f: Fact)
    ensures FactCost(Tokens(counter), f) == counter(FactLine(f)) + 1
  {
  }

  /** One more fact, or one more turn, adds its own share: a turn its content and twelve characters or four tokens. */
  lemma EachAddsItsShare(c: Cost, facts: seq<Fact>, summary: Option<Summary>, recent: seq<Turn>, f: Fact, t: Turn)
    ensures Total(c, facts + [f], summary, recent) == Total(c, facts, summary, recent) + FactCost(c, f)
    ensures Total(c, facts, summary, recent + [t])
            == Total(c, facts, summary, recent) + if c.Chars? then |t.content| + 12 else c.counter(t.content) + 4
  {
    FactsCostSnoc(c, facts, f);
    TurnsCostSnoc(c, recent, t);
  }

  lemma {:induction false} FactsCostSnoc(c: Cost, facts: seq<Fact>, f: Fact)
    ensures FactsCost(c, facts + [f]) == FactsCost(c, facts) + FactCost(c, f)
  {
    if facts == [] {
      assert [] + [f] == [f];
    } else {
      assert (facts + [f])[1..] == facts[1..] + [f];
      FactsCostSnoc(c, facts[1..], f);
    }
  }

  lemma {:induction false} TurnsCostSnoc(c: Cost, turns: seq<Turn>, t: Turn)
    ensures TurnsCost(c, turns + [t]) == TurnsCost(c, turns) + TurnCost(c, t)
  {
    if turns == [] {
      assert [] + [t] == [t];
    } else {
      assert (turns + [t])[1..] == turns[1..] + [t];
      TurnsCostSnoc(c, turns[1..], t);
    }
  }

  lemma {:induction false} StripLeftShrinks(space: char -> bool, s: string)
    ensures |Text.StripLeft(space, s)| <= |s|
  {
    if s != "" { StripLeftShrinks(space, s[1..]); }
  }

  lemma {:induction false} StripRightShrinks(space: char -> bool, s: string)
    ensures |Text.StripRight(space, s)| <= |s|
  {
    if s != "" { StripRightShrinks(space, s[..|s| - 1]); }
  }

  lemma StripShrinks(space: char -> bool, s: string)
    ensures |Text.Strip(space, s)| <= |s|
  {
    StripLeftShrinks(space, s);
    StripRightShrinks(space, Text.StripLeft(space, s));
  }

  /** What headings and separators take at most. */
  const OVERHEAD := |PREAMBLE| + |FACTS_HEADING| + 2 + |SUMMARY_HEADING|

  lemma JoinSizes(a: string, b: string)
    ensures Text.Join("\n\n", [a]) == a
    ensures |Text.Join("\n\n", [a, b])| == |a| + 2 + |b|
  {
  }

  lemma RenderedSize(space: char -> bool, ctx: MemoryContext, lines: string, text: string)
    requires lines == FactLines(ctx.facts) && text == Text.Strip(space, SummaryText(ctx.summary))
    ensures |RenderSystemMessage(space, ctx)| <= OVERHEAD + |lines| + |text|
    ensures ctx.facts != [] && text != "" ==> |RenderSystemMessage(space, ctx)| == OVERHEAD + |lines| + |text|
  {
    JoinSizes(FACTS_HEADING + lines, SUMMARY_HEADING + text);
    JoinSizes(SUMMARY_HEADING + text, "");
    var sections := Sections(space, ctx);
    if ctx.facts != [] && text != "" {
      assert sections == [FACTS_HEADING + lines, SUMMARY_HEADING + text];
    } else if ctx.facts != [] {
      assert sections == [FACTS_HEADING + lines];
    } else if text != "" {
      assert sections == [SUMMARY_HEADING + text];
    }
  }

  /** A context within its character budget is rendered within that budget, recent turns set aside, and the fixed
      headings; with facts and an unpadded summary the estimate is exact. */
  lemma RenderedFitsBudget(space: char -> bool, ctx: MemoryContext, budget: int)
    ensures var rendered, text := |RenderSystemMessage(space, ctx)|, SummaryText(ctx.summary);
            && (Total(Chars, ctx.facts, ctx.summary, ctx.recent) <= budget ==>
                  rendered + TurnsCost(Chars, ctx.recent) <= budget + OVERHEAD)
            && (ctx.facts != [] && text != "" && Text.Strip(space, text) == text ==>
                  rendered == OVERHEAD + Total(Chars, ctx.facts, ctx.summary, []))
  {
    FactsCountAsRendered(ctx.facts);
    StripShrinks(space, SummaryText(ctx.summary));
    RenderedSize(space, ctx, FactLines(ctx.facts), Text.Strip(space, SummaryText(ctx.summary)));
  }
}
