/** The summarizer prompt: escaping, assembly, and reading it back. */
module PromptEscape {
  import opened Wrappers
  import opened SeqFacts
  import opened Text
  import opened MemoryStore

  /** A tag fragment and the harmless text that stands in for it. */
  datatype Swap = Swap(marker: string, inert: string)

  /** The tags of the prompt. An opening turn tag is `turnOpen` followed by the role's attribute. */
  datatype Syntax = Syntax(
    turnOpen: string, attribute: Role -> string, turnClose: string,
    listOpen: string, listClose: string, summaryOpen: string, summaryClose: string,
    escapes: seq<Swap>, strips: seq<Swap>)

  function RoleName(r: Role): string {
    match r
    case UserRole => "user"
    case AssistantRole => "assistant"
    case SystemRole => "system"
    case ToolRole => "tool"
  }

  function Attribute(r: Role): string {
    " role=\"" + RoleName(r) + "\">"
  }

  const PROMPT: Syntax := Syntax(
    "<turn", Attribute, "</turn>", "<new_turns>", "</new_turns>", "<previous_summary>", "</previous_summary>",
    [Swap("</turn>", "&lt;/turn&gt;"), Swap("<turn", "&lt;turn"),
     Swap("</new_turns>", "&lt;/new_turns&gt;"), Swap("</previous_summary>", "&lt;/previous_summary&gt;")],
    [Swap("<turn", "&lt;turn"), Swap("</turn", "&lt;/turn"),
     Swap("<previous_summary", "&lt;previous_summary"), Swap("</previous_summary", "&lt;/previous_summary"),
     Swap("<new_turns", "&lt;new_turns"), Swap("</new_turns", "&lt;/new_turns")])

  // ----- What the tags must satisfy -----------------------------------------------------

  /** Neither string continues the other. */
  predicate Clash(a: string, b: string) {
    exists i :: 0 <= i < |a| && i < |b| && a[i] != b[i]
  }

  /** A marker on one line, told apart by its second and third character. */
  predicate Tag(s: string, second: char, third: char) {
    Marker(s) && |s| >= 3 && s[1] == second && s[2] == third && forall i :: 0 <= i < |s| ==> s[i] != '\n'
  }

  predicate Stands(s: Swap) {
    Marker(s.marker) && Inert(s.inert)
  }

  predicate Sound(g: Syntax) {
    && Tag(g.turnOpen, 't', 'u') && Tag(g.turnClose, '/', 't')
    && Tag(g.listOpen, 'n', 'e') && Tag(g.listClose, '/', 'n')
    && Tag(g.summaryOpen, 'p', 'r') && Tag(g.summaryClose, '/', 'p')
    && |g.escapes| == 4 && |g.strips| == 6
    && g.escapes[0].marker == g.turnClose && g.escapes[1].marker == g.turnOpen
    && g.escapes[2].marker == g.listClose && g.escapes[3].marker == g.summaryClose
    && g.strips[0].marker <= g.turnOpen && g.strips[1].marker <= g.turnClose
    && g.strips[3].marker <= g.summaryClose && g.strips[5].marker <= g.listClose
    && (forall k :: 0 <= k < 4 ==> Stands(g.escapes[k]))
    && (forall k :: 0 <= k < 6 ==> Stands(g.strips[k]))
    && AttributesDiffer(g.attribute)
  }

  predicate AttributesDiffer(attribute: Role -> string) {
    && (forall r: Role :: '<' !in attribute(r))
    && (forall r, q: Role :: r != q ==> Clash(attribute(r), attribute(q)))
  }

  lemma TurnAndListTags()
    ensures Tag("<turn", 't', 'u') && Tag("</turn>", '/', 't')
    ensures Tag("<new_turns>", 'n', 'e') && Tag("</new_turns>", '/', 'n')
  {
  }

  lemma SummaryTags()
    ensures Tag("<previous_summary>", 'p', 'r') && Tag("</previous_summary>", '/', 'p')
  {
  }

  lemma TurnSwapsStand()
    ensures Stands(Swap("</turn>", "&lt;/turn&gt;")) && Stands(Swap("<turn", "&lt;turn")) &&
            Stands(Swap("</turn", "&lt;/turn"))
  {
  }

  lemma ListSwapsStand()
    ensures Stands(Swap("</new_turns>", "&lt;/new_turns&gt;"))
    ensures Stands(Swap("<new_turns", "&lt;new_turns")) && Stands(Swap("</new_turns", "&lt;/new_turns"))
  {
  }

  lemma SummaryCloseStands()
    ensures Stands(Swap("</previous_summary>", "&lt;/previous_summary&gt;"))
  {
  }

  lemma SummaryFragmentsStand()
    ensures Stands(Swap("<previous_summary", "&lt;previous_summary")) &&
            Stands(Swap("</previous_summary", "&lt;/previous_summary"))
  {
  }

  lemma StripsCover()
    ensures "</turn" <= "</turn>" && "</previous_summary" <= "</previous_summary>" && "</new_turns" <= "</new_turns>"
  {
  }

  function Initial(r: Role): char {
    match r
    case UserRole => 'u'
    case AssistantRole => 'a'
    case SystemRole => 's'
    case ToolRole => 't'
  }

  lemma AttributeInitial(r: Role)
    ensures |Attribute(r)| > 7 && Attribute(r)[7] == Initial(r)
  {
  }

  lemma AttributeHasNoTag(r: Role)
    ensures '<' !in Attribute(r)
  {
    assert '<' !in RoleName(r);
  }

  lemma AttributesAreDistinct()
    ensures AttributesDiffer(Attribute)
  {
    forall r: Role ensures '<' !in Attribute(r) { AttributeHasNoTag(r); }
    forall r, q: Role | r != q ensures Clash(Attribute(r), Attribute(q)) {
      AttributeInitial(r);
      AttributeInitial(q);
    }
  }

  lemma PromptIsSound()
    ensures Sound(PROMPT)
  {
    TurnAndListTags();
    SummaryTags();
    TurnSwapsStand();
    ListSwapsStand();
    SummaryCloseStands();
    SummaryFragmentsStand();
    StripsCover();
    AttributesAreDistinct();
  }

  // ----- Escaping -------------------------------------------------------------

  function SwapAll(s: string, swaps: seq<Swap>): string
    requires forall k :: 0 <= k < |swaps| ==> Stands(swaps[k])
  {
    if swaps == [] then s
    else
      var last := swaps[|swaps| - 1];
      assert Stands(last);
      Replace(SwapAll(s, swaps[..|swaps| - 1]), last.marker, last.inert)
  }

  function EscapeTurnContent(g: Syntax, text: string): string
    requires Sound(g)
  {
    SwapAll(text, g.escapes)
  }

  /** Swapping never adds a marker, and leaves none of those swapped. */
  lemma {:induction false} SwapCounts(s: string, swaps: seq<Swap>, q: string)
    requires Marker(q) && forall k :: 0 <= k < |swaps| ==> Stands(swaps[k])
    ensures Count(SwapAll(s, swaps), q) <= Count(s, q)
    ensures (exists k :: 0 <= k < |swaps| && swaps[k].marker == q) ==> Count(SwapAll(s, swaps), q) == 0
  {
    if swaps != [] {
      var n := |swaps| - 1;
      SwapCounts(s, swaps[..n], q);
      assert Stands(swaps[n]);
      ReplaceCounts(SwapAll(s, swaps[..n]), swaps[n].marker, swaps[n].inert, q);
      if k :| 0 <= k < |swaps| && swaps[k].marker == q {
        assert k < n ==> swaps[..n][k].marker == q;
      }
    }
  }

  lemma {:induction false} SwapNothing(s: string, swaps: seq<Swap>)
    requires forall k :: 0 <= k < |swaps| ==> Stands(swaps[k]) && Count(s, swaps[k].marker) == 0
    ensures SwapAll(s, swaps) == s
  {
    if swaps != [] {
      SwapNothing(s, swaps[..|swaps| - 1]);
      ReplaceNothing(s, swaps[|swaps| - 1].marker, swaps[|swaps| - 1].inert);
    }
  }

  /** The tags a turn's content must not contain. */
  predicate Clean(g: Syntax, s: string)
    requires Sound(g)
  {
    && Count(s, g.turnOpen) == 0 && Count(s, g.turnClose) == 0
    && Count(s, g.listClose) == 0 && Count(s, g.summaryClose) == 0
  }

  /** No escaped content holds a turn tag or a closing tag, whatever the text was; content without them is unchanged. */
  lemma EscapedIsClean(g: Syntax, text: string)
    requires Sound(g)
    ensures Clean(g, EscapeTurnContent(g, text))
    ensures Clean(g, text) ==> EscapeTurnContent(g, text) == text
  {
    SwapCounts(text, g.escapes, g.turnOpen);
    SwapCounts(text, g.escapes, g.turnClose);
    SwapCounts(text, g.escapes, g.listClose);
    SwapCounts(text, g.escapes, g.summaryClose);
    if Clean(g, text) { SwapNothing(text, g.escapes); }
  }

  /** The opening tag of the turn list is not escaped. */
  lemma OpeningListTagPasses(g: Syntax)
    requires Sound(g)
    ensures EscapeTurnContent(g, g.listOpen) == g.listOpen
  {
    TagIsFreeOf(g.listOpen, g.turnOpen);
    TagIsFreeOf(g.listOpen, g.turnClose);
    TagIsFreeOf(g.listOpen, g.listClose);
    TagIsFreeOf(g.listOpen, g.summaryClose);
    EscapedIsClean(g, g.listOpen);
  }

  lemma TagIsFreeOf(tag: string, p: string)
    requires Marker(tag) && Marker(p) && !(p <= tag)
    ensures Count(tag, p) == 0
  {
    assert tag + "" == tag;
    CountTag(tag, "", p);
  }

  // ----- The stored summary -----------------------------------------------------

  function SanitizeSummary(g: Syntax, space: char -> bool, text: string, maxChars: nat): string
    requires Sound(g)
  {
    var safe := SwapAll(Strip(space, text), g.strips);
    if |safe| > maxChars then safe[..maxChars] else safe
  }

  /** A sanitized summary fits its bound and holds no fragment of any tag of the prompt. */
  lemma SanitizedIsClean(g: Syntax, space: char -> bool, text: string, maxChars: nat, k: nat)
    requires Sound(g) && k < 6
    ensures var safe := SanitizeSummary(g, space, text, maxChars);
            |safe| <= maxChars && Stands(g.strips[k]) && Count(safe, g.strips[k].marker) == 0
  {
    assert Stands(g.strips[k]);
    var safe := SwapAll(Strip(space, text), g.strips);
    SwapCounts(Strip(space, text), g.strips, g.strips[k].marker);
    if |safe| > maxChars { CountTakes(safe, maxChars, g.strips[k].marker); }
  }

  lemma PrefixFree(s: string, p: string, whole: string)
    requires p != "" && p <= whole && Count(s, p) == 0
    ensures Count(s, whole) == 0
  {
    assert whole == p + whole[|p|..];
    CountLonger(s, p, whole[|p|..]);
  }

  lemma SanitizedIsFree(g: Syntax, space: char -> bool, text: string, maxChars: nat)
    requires Sound(g)
    ensures Clean(g, SanitizeSummary(g, space, text, maxChars))
  {
    var safe := SanitizeSummary(g, space, text, maxChars);
    SanitizedIsClean(g, space, text, maxChars, 0);
    SanitizedIsClean(g, space, text, maxChars, 1);
    SanitizedIsClean(g, space, text, maxChars, 3);
    SanitizedIsClean(g, space, text, maxChars, 5);
    PrefixFree(safe, g.strips[0].marker, g.turnOpen);
    PrefixFree(safe, g.strips[1].marker, g.turnClose);
    PrefixFree(safe, g.strips[3].marker, g.summaryClose);
    PrefixFree(safe, g.strips[5].marker, g.listClose);
  }

  // ----- Assembly ------------------------------------------------------------------

  function OpenTag(g: Syntax, r: Role): string {
    g.turnOpen + g.attribute(r)
  }

  /** What follows "<turn" in the worker's opening tags, written out. */
  lemma TagsOfRoles()
    ensures Attribute(UserRole) == " role=\"user\">" && Attribute(AssistantRole) == " role=\"assistant\">"
    ensures Attribute(SystemRole) == " role=\"system\">" && Attribute(ToolRole) == " role=\"tool\">"
  {
  }

  function TurnLine(g: Syntax, t: Turn): string
    requires Sound(g)
  {
    OpenTag(g, t.role) + EscapeTurnContent(g, t.content) + g.turnClose
  }

  function TurnLines(g: Syntax, turns: seq<Turn>): (r: seq<string>)
    requires Sound(g)
    ensures |r| == |turns| && forall i :: 0 <= i < |turns| ==> r[i] == TurnLine(g, turns[i])
  {
    seq(|turns|, i requires 0 <= i < |turns| => TurnLine(g, turns[i]))
  }

  function SummaryText(space: char -> bool, current: Option<Summary>): Option<string> {
    if current.Some? && Strip(space, current.value.text) != "" then Some(Strip(space, current.value.text)) else None
  }

  function SummaryLines(g: Syntax, text: Option<string>): seq<string> {
    if text.Some? then [g.summaryOpen + "\n" + text.value + "\n" + g.summaryClose] else []
  }

  function PromptLines(g: Syntax, text: Option<string>, recent: seq<Turn>): seq<string>
    requires Sound(g)
  {
    SummaryLines(g, text) + ([g.listOpen] + (TurnLines(g, recent) + [g.listClose]))
  }

  function PromptBody(g: Syntax, space: char -> bool, current: Option<Summary>, recent: seq<Turn>): string
    requires Sound(g)
  {
    Join("\n", PromptLines(g, SummaryText(space, current), recent))
  }

  lemma LinesGroup(a: seq<string>, b: string, c: seq<string>, d: string)
    ensures a + [b] + c + [d] == a + ([b] + (c + [d]))
  {
  }

  method BuildSummarizerPrompt(g: Syntax, space: char -> bool, current: Option<Summary>, recent: seq<Turn>)
    returns (body: string)
    requires Sound(g)
    ensures body == PromptBody(g, space, current, recent)
  {
    var parts: seq<string> := [];
    if current.Some? && Strip(space, current.value.text) != "" {
      parts := parts + [g.summaryOpen + "\n" + Strip(space, current.value.text) + "\n" + g.summaryClose];
    }
    parts := parts + [g.listOpen];
    ghost var head := SummaryLines(g, SummaryText(space, current)) + [g.listOpen];
    for i := 0 to |recent|
      invariant parts == head + TurnLines(g, recent)[..i]
    {
      var safe := EscapeTurnContent(g, recent[i].content);
      parts := parts + [OpenTag(g, recent[i].role) + safe + g.turnClose];
    }
    parts := parts + [g.listClose];
    assert TurnLines(g, recent)[..|recent|] == TurnLines(g, recent);
    LinesGroup(SummaryLines(g, SummaryText(space, current)), g.listOpen, TurnLines(g, recent), g.listClose);
    body := Join("\n", parts);
  }

  // ----- Reading the prompt back ------------------------------------------------------

  datatype Shown = Shown(role: Role, content: string)

  function RoleAt(g: Syntax, s: string): Option<Role> {
    if OpenTag(g, UserRole) <= s then Some(UserRole)
    else if OpenTag(g, AssistantRole) <= s then Some(AssistantRole)
    else if OpenTag(g, SystemRole) <= s then Some(SystemRole)
    else if OpenTag(g, ToolRole) <= s then Some(ToolRole)
    else None
  }

  /** The text up to the next closing tag, and what follows the tag's line. */
  function UntilClose(s: string, close: string): (r: Option<(string, string)>)
    requires close != ""
    ensures r.Some? ==> |r.value.1| < |s|
  {
    var k := First(s, close);
    if k.None? || !(close + "\n" <= s[k.value..]) then None
    else Some((s[..k.value], s[k.value + |close| + 1..]))
  }

  /** The first turn and what follows its line. */
  function ReadTurn(g: Syntax, s: string): (r: Option<(Shown, string)>)
    requires g.turnClose != ""
    ensures r.Some? ==> |r.value.1| < |s|
  {
    var role := RoleAt(g, s);
    if role.None? then None
    else
      var found := UntilClose(s[|OpenTag(g, role.value)|..], g.turnClose);
      if found.None? then None else Some((Shown(role.value, found.value.0), found.value.1))
  }

  /** Turns up to the closing tag of the list. */
  function ReadTurns(g: Syntax, s: string): Option<seq<Shown>>
    requires Sound(g)
    decreases |s|
  {
    if s == g.listClose then Some([])
    else
      var first := ReadTurn(g, s);
      if first.None? then None
      else
        var rest := ReadTurns(g, first.value.1);
        if rest.None? then None else Some([first.value.0] + rest.value)
  }

  function ReadList(g: Syntax, s: string): Option<seq<Shown>>
    requires Sound(g)
  {
    if g.listOpen + "\n" <= s then ReadTurns(g, s[|g.listOpen| + 1..]) else None
  }

  datatype Prompt = Prompt(summary: Option<string>, turns: seq<Shown>)

  /** The summary and what follows it; it ends at the line break before the next closing summary tag. */
  function ReadSummary(g: Syntax, s: string): Option<(string, string)>
    requires g.summaryClose != ""
  {
    if !(g.summaryOpen + "\n" <= s) then None
    else
      var found := UntilClose(s[|g.summaryOpen| + 1..], g.summaryClose);
      if found.None? || found.value.0 == "" then None
      else Some((found.value.0[..|found.value.0| - 1], found.value.1))
  }

  function ReadPrompt(g: Syntax, s: string): Option<Prompt>
    requires Sound(g)
  {
    var summary := ReadSummary(g, s);
    var list := ReadList(g, if summary.Some? then summary.value.1 else s);
    if list.None? then None else Some(Prompt(if summary.Some? then Some(summary.value.0) else None, list.value))
  }

  // ----- The prompt in pieces ------------------------------------------------------------

  /** The turn list behind its opening tag. */
  function ListRest(g: Syntax, turns: seq<Turn>): string
    requires Sound(g)
  {
    if turns == [] then g.listClose else TurnLine(g, turns[0]) + ("\n" + ListRest(g, turns[1..]))
  }

  function SummaryBlock(g: Syntax, text: string): string {
    g.summaryOpen + "\n" + text + "\n" + g.summaryClose + "\n"
  }

  lemma {:induction false} ListJoin(g: Syntax, turns: seq<Turn>)
    requires Sound(g)
    ensures Join("\n", TurnLines(g, turns) + [g.listClose]) == ListRest(g, turns)
  {
    if turns == [] {
      assert TurnLines(g, turns) + [g.listClose] == [g.listClose];
      JoinOne("\n", g.listClose);
    } else {
      var rest := TurnLines(g, turns[1..]) + [g.listClose];
      assert TurnLines(g, turns) + [g.listClose] == [TurnLine(g, turns[0])] + rest;
      JoinFront("\n", TurnLine(g, turns[0]), rest);
      ListJoin(g, turns[1..]);
      Regroup(TurnLine(g, turns[0]), "\n", ListRest(g, turns[1..]));
    }
  }

  lemma PromptPieces(g: Syntax, text: Option<string>, recent: seq<Turn>)
    requires Sound(g)
    ensures Join("\n", PromptLines(g, text, recent))
            == (if text.Some? then SummaryBlock(g, text.value) else "") + (g.listOpen + "\n" + ListRest(g, recent))
  {
    var lines := TurnLines(g, recent) + [g.listClose];
    var list := [g.listOpen] + lines;
    ListJoin(g, recent);
    JoinFront("\n", g.listOpen, lines);
    if text.Some? {
      JoinFront("\n", SummaryLines(g, text)[0], list);
    } else {
      assert SummaryLines(g, text) + list == list;
    }
  }

  // ----- The prompt is read back -------------------------------------------------------------

  function ShownOf(g: Syntax, turns: seq<Turn>): seq<Shown>
    requires Sound(g)
  {
    if turns == [] then []
    else [Shown(turns[0].role, EscapeTurnContent(g, turns[0].content))] + ShownOf(g, turns[1..])
  }

  lemma TagClash(a: string, b: string, x: string)
    requires |a| >= 3 && |b| >= 3 && (a[1] != b[1] || a[2] != b[2])
    ensures !(a <= b + x)
  {
    assert (b + x)[1] == b[1] && (b + x)[2] == b[2];
  }

  lemma OpenTagClash(g: Syntax, r: Role, q: Role, x: string)
    requires Sound(g) && r != q
    ensures !(OpenTag(g, q) <= OpenTag(g, r) + x)
  {
    assert Clash(g.attribute(q), g.attribute(r));
    var i :| 0 <= i < |g.attribute(q)| && i < |g.attribute(r)| && g.attribute(q)[i] != g.attribute(r)[i];
    var k := |g.turnOpen| + i;
    assert (OpenTag(g, r) + x)[k] == OpenTag(g, r)[k] == g.attribute(r)[i];
    assert OpenTag(g, q)[k] == g.attribute(q)[i];
  }

  lemma OpenTagRead(g: Syntax, r: Role, x: string)
    requires Sound(g)
    ensures RoleAt(g, OpenTag(g, r) + x) == Some(r)
    ensures OpenTag(g, r) + x != g.listClose
  {
    assert OpenTag(g, r) <= OpenTag(g, r) + x;
    assert (OpenTag(g, r) + x)[1] == g.turnOpen[1];
    if r != UserRole { OpenTagClash(g, r, UserRole, x); }
    if r != AssistantRole { OpenTagClash(g, r, AssistantRole, x); }
    if r != SystemRole { OpenTagClash(g, r, SystemRole, x); }
    if r != ToolRole { OpenTagClash(g, r, ToolRole, x); }
  }

  lemma SplitAt(a: string, b: string, s: string)
    requires s == a + b
    ensures s[|a|..] == b && s[..|a|] == a
  {
  }

  /** A closing tag on its own is found, and splits the text there. */
  lemma CloseFound(safe: string, close: string, rest: string, content: string)
    requires Marker(close) && Count(safe, close) == 0 && content == safe + (close + "\n" + rest)
    ensures UntilClose(content, close) == Some((safe, rest))
  {
    var after := close + "\n" + rest;
    Regroup(close, "\n", rest);
    FirstAfter(safe, after, close);
    SplitAt(safe, after, content);
    Regroup(safe, close + "\n", rest);
    SplitAt(safe + (close + "\n"), rest, content);
  }

  lemma TurnReadsBack(g: Syntax, r: Role, safe: string, rest: string, s: string)
    requires Sound(g) && Clean(g, safe) && s == OpenTag(g, r) + (safe + (g.turnClose + "\n" + rest))
    ensures s != g.listClose && ReadTurn(g, s) == Some((Shown(r, safe), rest))
  {
    var content := safe + (g.turnClose + "\n" + rest);
    OpenTagRead(g, r, content);
    SplitAt(OpenTag(g, r), content, s);
    CloseFound(safe, g.turnClose, rest, content);
  }

  lemma LineGroups(open: string, safe: string, close: string, rest: string)
    ensures open + safe + close + ("\n" + rest) == open + (safe + (close + "\n" + rest))
  {
  }

  lemma LineReadsBack(g: Syntax, t: Turn, rest: string, s: string)
    requires Sound(g) && s == TurnLine(g, t) + ("\n" + rest)
    ensures s != g.listClose && ReadTurn(g, s) == Some((Shown(t.role, EscapeTurnContent(g, t.content)), rest))
  {
    var safe := EscapeTurnContent(g, t.content);
    EscapedIsClean(g, t.content);
    LineGroups(OpenTag(g, t.role), safe, g.turnClose, rest);
    TurnReadsBack(g, t.role, safe, rest, s);
  }

  lemma {:induction false} ListReadsBack(g: Syntax, turns: seq<Turn>)
    requires Sound(g)
    ensures ReadTurns(g, ListRest(g, turns)) == Some(ShownOf(g, turns))
  {
    if turns != [] {
      ListReadsBack(g, turns[1..]);
      LineReadsBack(g, turns[0], ListRest(g, turns[1..]), ListRest(g, turns));
    }
  }

  lemma SummaryGroups(open: string, text: string, close: string, list: string)
    ensures open + "\n" + text + "\n" + close + "\n" + list == open + "\n" + (text + "\n" + (close + "\n" + list))
  {
  }

  lemma SummaryReadsBack(g: Syntax, text: string, list: string)
    requires Sound(g) && Count(text, g.summaryClose) == 0
    ensures ReadSummary(g, SummaryBlock(g, text) + list) == Some((text, list))
  {
    var rest, s := text + "\n" + (g.summaryClose + "\n" + list), SummaryBlock(g, text) + list;
    SummaryGroups(g.summaryOpen, text, g.summaryClose, list);
    SplitAt(g.summaryOpen + "\n", rest, s);
    CountThenLine(text, g.summaryClose);
    CloseFound(text + "\n", g.summaryClose, list, rest);
    SplitAt(text, "\n", text + "\n");
  }

  /** A line break completes no tag. */
  lemma {:induction false} CountThenLine(text: string, p: string)
    requires Marker(p) && forall i :: 0 <= i < |p| ==> p[i] != '\n'
    ensures Count(text + "\n", p) == Count(text, p)
  {
    if text == "" {
      assert text + "\n" == "\n" && "\n" + "" == "\n";
      CountSkips("\n", "", p);
    } else {
      assert (text + "\n")[1..] == text[1..] + "\n";
      CountThenLine(text[1..], p);
      if |p| > |text| { assert p[|text|] != (text + "\n")[|text|]; }
    }
  }

  /** Whatever the turns say, the prompt is read back as the summary and exactly the turns in order, each with its
      escaped content, as long as the stored summary holds no closing summary tag. */
  lemma PromptReadsBack(g: Syntax, space: char -> bool, current: Option<Summary>, recent: seq<Turn>)
    requires Sound(g) && (current.Some? ==> Count(current.value.text, g.summaryClose) == 0)
    ensures ReadPrompt(g, PromptBody(g, space, current, recent)) ==
            Some(Prompt(SummaryText(space, current), ShownOf(g, recent)))
  {
    var text, list := SummaryText(space, current), g.listOpen + "\n" + ListRest(g, recent);
    PromptPieces(g, text, recent);
    ListOpens(g, recent, list);
    if text.Some? {
      StripCounts(space, current.value.text, g.summaryClose);
      SummaryReadsBack(g, text.value, list);
    } else {
      assert "" + list == list;
    }
  }

  lemma ListOpens(g: Syntax, turns: seq<Turn>, list: string)
    requires Sound(g) && list == g.listOpen + "\n" + ListRest(g, turns)
    ensures ReadList(g, list) == Some(ShownOf(g, turns)) && ReadSummary(g, list) == None
  {
    ListReadsBack(g, turns);
    SplitAt(g.listOpen + "\n", ListRest(g, turns), list);
    NotASummary(g, list);
  }

  lemma NotASummary(g: Syntax, s: string)
    requires Sound(g) && g.listOpen <= s
    ensures ReadSummary(g, s) == None
  {
    assert s[1] == g.listOpen[1];
    assert (g.summaryOpen + "\n")[1] == g.summaryOpen[1];
  }

  // ----- Counting tags -----------------------------------------------------------------------

  lemma TagOnce(tag: string, x: string, p: string)
    requires Marker(tag) && Marker(p) && |tag| >= 3 && |p| >= 3 && (p == tag || p[1] != tag[1] || p[2] != tag[2])
    ensures Count(tag + x, p) == (if p == tag then 1 else 0) + Count(x, p)
  {
    CountTag(tag, x, p);
    if p != tag { TagClash(p, tag, x); }
  }

  lemma OpenTagOnce(g: Syntax, r: Role, x: string, p: string)
    requires Sound(g) && p in [g.turnOpen, g.turnClose, g.listClose]
    ensures Count(OpenTag(g, r) + x, p) == (if p == g.turnOpen then 1 else 0) + Count(x, p)
  {
    Regroup(g.turnOpen, g.attribute(r), x);
    TagOnce(g.turnOpen, g.attribute(r) + x, p);
    CountSkips(g.attribute(r), x, p);
  }

  lemma CloseCounts(safe: string, close: string, rest: string, p: string)
    requires Marker(close) && Marker(p) && |close| >= 3 && |p| >= 3 &&
             (p == close || p[1] != close[1] || p[2] != close[2])
    requires Count(safe, p) == 0
    ensures Count(safe + (close + "\n" + rest), p) == (if p == close then 1 else 0) + Count(rest, p)
  {
    Regroup(close, "\n", rest);
    CountSplits(safe, close + "\n" + rest, p);
    TagOnce(close, "\n" + rest, p);
    CountSkips("\n", rest, p);
  }

  lemma TurnLineCounts(g: Syntax, t: Turn, rest: string, p: string)
    requires Sound(g) && p in [g.turnOpen, g.turnClose, g.listClose]
    ensures Count(TurnLine(g, t) + ("\n" + rest), p) == (if p == g.listClose then 0 else 1) + Count(rest, p)
  {
    var safe := EscapeTurnContent(g, t.content);
    EscapedIsClean(g, t.content);
    LineGroups(OpenTag(g, t.role), safe, g.turnClose, rest);
    OpenTagOnce(g, t.role, safe + (g.turnClose + "\n" + rest), p);
    CloseCounts(safe, g.turnClose, rest, p);
  }

  lemma {:induction false} ListCounts(g: Syntax, turns: seq<Turn>, p: string)
    requires Sound(g) && p in [g.turnOpen, g.turnClose, g.listClose]
    ensures Count(ListRest(g, turns), p) == if p == g.listClose then 1 else |turns|
  {
    if turns == [] {
      assert g.listClose + "" == g.listClose;
      TagOnce(g.listClose, "", p);
    } else {
      ListCounts(g, turns[1..], p);
      TurnLineCounts(g, turns[0], ListRest(g, turns[1..]), p);
    }
  }

  lemma FrameCounts(open: string, text: string, close: string, list: string, p: string)
    requires Marker(open) && Marker(close) && Marker(p) && |open| >= 3 && |close| >= 3 && |p| >= 3
    requires (p[1] != open[1] || p[2] != open[2]) && (p[1] != close[1] || p[2] != close[2])
    requires Count(text, p) == 0 && forall i :: 0 <= i < |p| ==> p[i] != '\n'
    ensures Count(open + "\n" + (text + "\n" + (close + "\n" + list)), p) == Count(list, p)
  {
    var inner := close + "\n" + list;
    Regroup(close, "\n", list);
    TagOnce(close, "\n" + list, p);
    CountSkips("\n", list, p);
    CountThenLine(text, p);
    CountSplits(text + "\n", inner, p);
    Regroup(open, "\n", text + "\n" + inner);
    TagOnce(open, "\n" + (text + "\n" + inner), p);
    CountSkips("\n", text + "\n" + inner, p);
  }

  lemma SummaryBlockCounts(g: Syntax, text: string, list: string, p: string)
    requires Sound(g) && p in [g.turnOpen, g.turnClose, g.listClose] && Count(text, p) == 0
    ensures Count(SummaryBlock(g, text) + list, p) == Count(list, p)
  {
    SummaryGroups(g.summaryOpen, text, g.summaryClose, list);
    FrameCounts(g.summaryOpen, text, g.summaryClose, list, p);
  }

  /** The prompt holds one opening and one closing turn tag per turn and one closing tag of the list, if the stored
      summary holds none of them. */
  lemma PromptCounts(g: Syntax, space: char -> bool, current: Option<Summary>, recent: seq<Turn>, p: string)
    requires Sound(g) && p in [g.turnOpen, g.turnClose, g.listClose]
    requires current.Some? ==> Count(current.value.text, p) == 0
    ensures Count(PromptBody(g, space, current, recent), p) == if p == g.listClose then 1 else |recent|
  {
    var text, list := SummaryText(space, current), g.listOpen + "\n" + ListRest(g, recent);
    PromptPieces(g, text, recent);
    ListCounts(g, recent, p);
    Regroup(g.listOpen, "\n", ListRest(g, recent));
    TagOnce(g.listOpen, "\n" + ListRest(g, recent), p);
    CountSkips("\n", ListRest(g, recent), p);
    if text.Some? {
      StripCounts(space, current.value.text, p);
      SummaryBlockCounts(g, text.value, list, p);
    } else {
      assert "" + list == list;
    }
  }

  /** What the worker stores is sanitized, so every later prompt is read back exactly, tag by tag. */
  lemma StoredSummariesAreSafe(g: Syntax, space: char -> bool, raw: string, maxChars: nat, current: Summary,
                               recent: seq<Turn>)
    requires Sound(g) && current.text == SanitizeSummary(g, space, raw, maxChars)
    ensures var body := PromptBody(g, space, Some(current), recent);
            && ReadPrompt(g, body) == Some(Prompt(SummaryText(space, Some(current)), ShownOf(g, recent)))
            && Count(body, g.turnOpen) == |recent| && Count(body, g.turnClose) == |recent|
            && Count(body, g.listClose) == 1
  {
    SanitizedIsFree(g, space, raw, maxChars);
    PromptReadsBack(g, space, Some(current), recent);
    PromptCounts(g, space, Some(current), recent, g.turnOpen);
    PromptCounts(g, space, Some(current), recent, g.turnClose);
    PromptCounts(g, space, Some(current), recent, g.listClose);
  }

  /** The prompt of the first summary and of every later one, with the tags the worker uses. */
  lemma PromptIsUnambiguous(space: char -> bool, raw: string, maxChars: nat, current: Option<Summary>,
                            recent: seq<Turn>)
    ensures Sound(PROMPT)
    ensures (current.Some? ==> current.value.text == SanitizeSummary(PROMPT, space, raw, maxChars)) ==>
              ReadPrompt(PROMPT, PromptBody(PROMPT, space, current, recent))
              == Some(Prompt(SummaryText(space, current), ShownOf(PROMPT, recent)))
  {
    PromptIsSound();
    if current.Some? && current.value.text == SanitizeSummary(PROMPT, space, raw, maxChars) {
      StoredSummariesAreSafe(PROMPT, space, raw, maxChars, current.value, recent);
    } else if current.None? {
      PromptReadsBack(PROMPT, space, current, recent);
    }
  }
}
