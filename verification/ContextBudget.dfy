/** Packing facts, summary and recent turns into a budget of characters or of tokens. */
module ContextBudget {
  import opened Wrappers
  import opened MemoryStore

  datatype Fact = Fact(key: string, value: string)

  datatype MemoryContext = MemoryContext(facts: seq<Fact>, summary: Option<Summary>, recent: seq<Turn>, truncated: bool)

  function SummaryText(s: Option<Summary>): string {
    if s.Some? then s.value.text else ""
  }

  /** `tail` is what is left of `all` after dropping from the front. */
  ghost predicate IsSuffix<T>(tail: seq<T>, all: seq<T>) {
    |tail| <= |all| && tail == all[|all| - |tail|..]
  }

  // ----- Sizes --------------------------------------------------------------

  /** How sizes are counted: in characters, or in tokens of some counter. */
  datatype Cost = Chars | Tokens(counter: string -> nat)

  function FactCost(c: Cost, f: Fact): nat {
    match c
    case Chars => |f.key| + |f.value| + 5
    case Tokens(counter) => counter("- " + f.key + ": " + f.value) + 1
  }

  function TurnCost(c: Cost, t: Turn): nat {
    match c
    case Chars => |t.content| + 12
    case Tokens(counter) => counter(t.content) + 4
  }

  function TextCost(c: Cost, text: string): nat {
    match c
    case Chars => |text|
    case Tokens(counter) => if text == "" then 0 else counter(text)
  }

  function FactsCost(c: Cost, facts: seq<Fact>): nat {
    if facts == [] then 0 else FactCost(c, facts[0]) + FactsCost(c, facts[1..])
  }

  function TurnsCost(c: Cost, turns: seq<Turn>): nat {
    if turns == [] then 0 else TurnCost(c, turns[0]) + TurnsCost(c, turns[1..])
  }

  function Total(c: Cost, facts: seq<Fact>, summary: Option<Summary>, recent: seq<Turn>): nat {
    FactsCost(c, facts) + TextCost(c, SummaryText(summary)) + TurnsCost(c, recent)
  }

  // ----- What a good packing is ------------------------------------------------

  /** Recent turns go first: `kept` is the longest suffix that fits beside everything else. */
  ghost predicate TurnsBest(c: Cost, facts: seq<Fact>, summary: Option<Summary>, recent: seq<Turn>, budget: int,
                            kept: seq<Turn>)
  {
    && IsSuffix(kept, recent)
    && (forall d :: 0 <= d < |recent| - |kept| ==> Total(c, facts, summary, recent[d..]) > budget)
    && (kept != [] ==> Total(c, facts, summary, kept) <= budget)
  }

  /** Facts go last: `kept` is the longest suffix that fits beside what is left of the summary. */
  ghost predicate FactsBest(c: Cost, facts: seq<Fact>, summary: Option<Summary>, budget: int, kept: seq<Fact>) {
    && IsSuffix(kept, facts)
    && (forall d :: 0 <= d < |facts| - |kept| ==> Total(c, facts[d..], summary, []) > budget)
    && (kept != [] ==> Total(c, kept, summary, []) <= budget)
  }

  /** The order of sacrifice: turns, then the summary from its end, then facts. */
  ghost predicate InPriority(facts: seq<Fact>, summary: Option<Summary>, ctx: MemoryContext) {
    && (ctx.summary != summary ==> ctx.recent == [])
    && (ctx.facts != facts ==> ctx.recent == [] && SummaryText(ctx.summary) == "")
    && SummaryText(ctx.summary) <= SummaryText(summary)
    && (ctx.summary.Some? ==> summary.Some? && ctx.summary.value == summary.value.(text := ctx.summary.value.text))
  }

  /** Everything promised of a packing of these three parts, whatever is counted. */
  ghost predicate WellPacked(c: Cost, facts: seq<Fact>, summary: Option<Summary>, recent: seq<Turn>, budget: int,
                             ctx: MemoryContext)
  {
    && (budget >= 0 ==> Total(c, ctx.facts, ctx.summary, ctx.recent) <= budget)
    && TurnsBest(c, facts, summary, recent, budget, ctx.recent)
    && (ctx.facts == facts || FactsBest(c, facts, ctx.summary, budget, ctx.facts))
    && InPriority(facts, summary, ctx)
    && (ctx.truncated <==> ctx.facts != facts || ctx.summary != summary || ctx.recent != recent)
  }

  // ----- The loops -----------------------------------------------------------------

  /** Pops oldest turns, keeping the running size instead of counting again. */
  method DropTurnsRunning(facts: seq<Fact>, summary: Option<Summary>, recent0: seq<Turn>, budget: int)
    returns (recent: seq<Turn>, current: int)
    ensures current == Total(Chars, facts, summary, recent)
    ensures TurnsBest(Chars, facts, summary, recent0, budget, recent)
  {
    recent, current := recent0, Total(Chars, facts, summary, recent0);
    while recent != [] && current > budget
      invariant IsSuffix(recent, recent0)
      invariant current == Total(Chars, facts, summary, recent)
      invariant forall d :: 0 <= d < |recent0| - |recent| ==> Total(Chars, facts, summary, recent0[d..]) > budget
    {
      current := current - (|recent[0].content| + 12);
      recent := recent[1..];
    }
  }

  /** Pops oldest turns, counting everything again each time. */
  method DropTurns(c: Cost, facts: seq<Fact>, summary: Option<Summary>, recent0: seq<Turn>, budget: int)
    returns (recent: seq<Turn>)
    ensures TurnsBest(c, facts, summary, recent0, budget, recent)
  {
    recent := recent0;
    while recent != [] && Total(c, facts, summary, recent) > budget
      invariant IsSuffix(recent, recent0)
      invariant forall d :: 0 <= d < |recent0| - |recent| ==> Total(c, facts, summary, recent0[d..]) > budget
    {
      recent := recent[1..];
    }
  }

  method DropFacts(c: Cost, facts0: seq<Fact>, summary: Option<Summary>, budget: int) returns (facts: seq<Fact>)
    ensures FactsBest(c, facts0, summary, budget, facts)
  {
    facts := facts0;
    while facts != [] && Total(c, facts, summary, []) > budget
      invariant IsSuffix(facts, facts0)
      invariant forall d :: 0 <= d < |facts0| - |facts| ==> Total(c, facts0[d..], summary, []) > budget
    {
      facts := facts[1..];
    }
  }

  // ----- Characters -------------------------------------------------------------

  /** Python's `text[:n]` for n >= 0. */
  function TakeUpTo(text: string, n: nat): string {
    if n < |text| then text[..n] else text
  }

  /** What the character budget leaves of the summary beside all facts. */
  function Shortened(summary: Summary, room: int): Option<Summary> {
    if room <= 0 then None
    else Some(summary.(text := TakeUpTo(summary.text, room)))
  }

  /** The summary after its turn in the order of sacrifice: gone, or a proper prefix that fits beside all facts. */
  ghost predicate Cut(c: Cost, facts: seq<Fact>, before: Option<Summary>, budget: int, after: Option<Summary>) {
    var room := budget - FactsCost(c, facts);
    if SummaryText(before) == "" then after == before
    else if room <= 0 then after == None
    else
      && after.Some? && after.value == before.value.(text := after.value.text)
      && after.value.text <= before.value.text && after != before
      && TextCost(c, after.value.text) <= room
  }

  /** Facts are dropped only when nothing is left of the summary, and then what stays fits. */
  lemma FactsGoLast(c: Cost, facts0: seq<Fact>, before: Option<Summary>, budget: int, summary: Option<Summary>,
                    facts: seq<Fact>)
    requires Cut(c, facts0, before, budget, summary) && FactsBest(c, facts0, summary, budget, facts)
    ensures |facts| < |facts0| ==> SummaryText(summary) == ""
    ensures |facts| == |facts0| ==> facts == facts0
    ensures budget >= 0 ==> Total(c, facts, summary, []) <= budget
  {
    if |facts| < |facts0| {
      assert facts0[0..] == facts0;
      assert Total(c, facts0[0..], summary, []) > budget;
    }
  }

  method EnforceBudget(facts0: seq<Fact>, summary0: Option<Summary>, recent0: seq<Turn>, maxChars: int)
    returns (ctx: MemoryContext)
    ensures WellPacked(Chars, facts0, summary0, recent0, maxChars, ctx)
    ensures ctx.summary != summary0 ==> ctx.summary == Shortened(summary0.value, maxChars - FactsCost(Chars, facts0))
  {
    assert recent0[0..] == recent0;
    if Total(Chars, facts0, summary0, recent0) <= maxChars {
      return MemoryContext(facts0, summary0, recent0, false);
    }
    var recent, current := DropTurnsRunning(facts0, summary0, recent0, maxChars);
    var summary, truncated := summary0, |recent| < |recent0|;
    if current <= maxChars {
      return MemoryContext(facts0, summary, recent, true);
    }
    if summary.Some? && summary.value.text != "" {
      var room := maxChars - FactsCost(Chars, facts0);
      if room > 0 {
        summary := Some(summary.value.(text := TakeUpTo(summary.value.text, room)));
      } else {
        summary := None;
      }
      truncated := true;
    }
    var facts := DropFacts(Chars, facts0, summary, maxChars);
    truncated := truncated || |facts| < |facts0|;
    FactsGoLast(Chars, facts0, summary0, maxChars, summary, facts);
    return MemoryContext(facts, summary, recent, truncated);
  }

  // ----- Tokens ---------------------------------------------------------------------

  ghost predicate PrefixMonotone(counter: string -> nat) {
    forall s: string, k :: 0 <= k <= |s| ==> counter(s[..k]) <= counter(s)
  }

  lemma LongerPrefixCostsMore(counter: string -> nat, text: string, j: nat, k: nat)
    requires PrefixMonotone(counter) && j <= k <= |text|
    ensures counter(text[..j]) <= counter(text[..k])
  {
    assert text[..k][..j] == text[..j];
  }

  /** Binary search for how much of `text` fits into `room`: the longest prefix, if longer prefixes never cost less. */
  method BestPrefix(text: string, room: int, counter: string -> nat) returns (best: nat)
    ensures best <= |text|
    ensures best > 0 ==> counter(text[..best]) <= room
    ensures PrefixMonotone(counter) ==> forall k :: best < k <= |text| ==> counter(text[..k]) > room
  {
    var lo, hi := 0, |text|;
    best := 0;
    while lo <= hi
      invariant 0 <= lo <= hi + 1 <= |text| + 1
      invariant best == (if lo == 0 then 0 else lo - 1)
      invariant best > 0 ==> counter(text[..best]) <= room
      invariant PrefixMonotone(counter) ==> forall k :: hi < k <= |text| ==> counter(text[..k]) > room
      decreases hi - lo
    {
      var mid := (lo + hi) / 2;
      if counter(text[..mid]) <= room {
        best := mid;
        lo := mid + 1;
      } else {
        if PrefixMonotone(counter) {
          forall k | mid <= k <= hi ensures counter(text[..k]) > room {
            LongerPrefixCostsMore(counter, text, mid, k);
          }
        }
        hi := mid - 1;
      }
    }
  }

  /** The summary text keeps the longest prefix that fits beside all facts. */
  ghost predicate LongestText(counter: string -> nat, facts: seq<Fact>, summary: Option<Summary>, budget: int,
                              ctx: MemoryContext)
  {
    var room := budget - FactsCost(Tokens(counter), facts);
    forall k :: |SummaryText(ctx.summary)| < k <= |SummaryText(summary)| ==>
      room <= 0 || counter(SummaryText(summary)[..k]) > room
  }

  method EnforceTokenBudget(facts0: seq<Fact>, summary0: Option<Summary>, recent0: seq<Turn>, maxTokens: int,
                            counter: string -> nat)
    returns (ctx: MemoryContext)
    ensures WellPacked(Tokens(counter), facts0, summary0, recent0, maxTokens, ctx)
    ensures PrefixMonotone(counter) && ctx.summary != summary0 ==>
            LongestText(counter, facts0, summary0, maxTokens, ctx)
  {
    var c := Tokens(counter);
    assert recent0[0..] == recent0;
    if Total(c, facts0, summary0, recent0) <= maxTokens {
      return MemoryContext(facts0, summary0, recent0, false);
    }
    var recent := DropTurns(c, facts0, summary0, recent0, maxTokens);
    var summary, truncated := summary0, |recent| < |recent0|;
    if Total(c, facts0, summary, recent) <= maxTokens {
      return MemoryContext(facts0, summary, recent, true);
    }
    if summary.Some? && summary.value.text != "" {
      var room := maxTokens - FactsCost(c, facts0);
      if room > 0 {
        var best := BestPrefix(summary.value.text, room, counter);
        assert summary.value.text[..|summary.value.text|] == summary.value.text;
        summary := Some(summary.value.(text := summary.value.text[..best]));
      } else {
        summary := None;
      }
      truncated := true;
    }
    var facts := DropFacts(c, facts0, summary, maxTokens);
    truncated := truncated || |facts| < |facts0|;
    FactsGoLast(c, facts0, summary0, maxTokens, summary, facts);
    return MemoryContext(facts, summary, recent, truncated);
  }

  // ----- The concrete counter -----------------------------------------------------

  /** A token for every four characters, and one for fewer. */
  function CharCount(text: string): (tokens: nat)
    ensures tokens == 0 <==> text == ""
    ensures 0 < |text| < 4 ==> tokens == 1
    ensures |text| >= 4 ==> 4 * tokens <= |text| < 4 * tokens + 4
  {
    if text == "" then 0 else if |text| / 4 < 1 then 1 else |text| / 4
  }

  /** The character-based counter never counts a prefix higher than the whole. */
  lemma CharCountIsMonotone()
    ensures PrefixMonotone(CharCount)
  {
  }
}
