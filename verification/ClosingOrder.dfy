/** In which order a Responses stream closes its items. */
module ClosingOrder {
  import opened Wrappers
  import opened SeqFacts
  import opened StreamTypes
  import opened ChunkPieces
  import opened ResponsesStream

  /** The output indices of the items, in the order in which they are done. */
  function DoneIndices(events: seq<ResponsesStream.Event>): seq<nat> {
    if events == [] then []
    else
      var last := events[|events| - 1];
      DoneIndices(events[..|events| - 1]) + if last.ItemDone? then [last.index] else []
  }

  predicate Ascending(xs: seq<nat>) {
    forall i, j :: 0 <= i < j < |xs| ==> xs[i] < xs[j]
  }

  /** Text comes before every tool, or one of the two never comes. */
  predicate TextComesFirst(ps: seq<Piece>) {
    ps == [] || ps[0].TextPiece? || forall p :: p in ps ==> p.ToolPiece?
  }

  lemma {:induction false} DoneConcat(a: seq<ResponsesStream.Event>, b: seq<ResponsesStream.Event>)
    ensures DoneIndices(a + b) == DoneIndices(a) + DoneIndices(b)
  {
    if b == [] {
      assert a + b == a;
    } else {
      var front := b[..|b| - 1];
      assert (a + b)[..|a + b| - 1] == a + front;
      DoneConcat(a, front);
    }
  }

  // ----- Nothing is done before the end -----------------------------------------------

  predicate NoneDone(events: seq<ResponsesStream.Event>) {
    forall e :: e in events ==> !e.ItemDone?
  }

  lemma {:induction false} NoneDoneIndices(events: seq<ResponsesStream.Event>)
    requires NoneDone(events)
    ensures DoneIndices(events) == []
  {
    if events != [] { NoneDoneIndices(events[..|events| - 1]); }
  }

  lemma {:induction false} EmitAllOpens(cfg: Config, s: State, ps: seq<Piece>)
    ensures NoneDone(EmitAll(cfg, s, ps).1)
  {
    if ps != [] { EmitAllOpens(cfg, s, ps[..|ps| - 1]); }
  }

  lemma {:induction false} RunOpens(cfg: Config, chunks: seq<Chunk>)
    ensures NoneDone(Run(cfg, chunks).1)
  {
    if chunks != [] {
      RunOpens(cfg, chunks[..|chunks| - 1]);
      EmitAllOpens(cfg, Create(Run(cfg, chunks[..|chunks| - 1]).0).0, Pieces(chunks[|chunks| - 1]));
    }
  }

  // ----- Who opened first --------------------------------------------------------------

  /** What the open items say about the pieces so far. */
  ghost predicate Placed(s: State, ps: seq<Piece>) {
    && (s.nextIndex == 0 <==> ps == [])
    && (s.tools == [] <==> forall p :: p in ps ==> p.TextPiece?)
    && (s.text.None? <==> forall p :: p in ps ==> p.ToolPiece?)
    && (s.text.Some? ==> (s.text.value.index == 0 <==> ps[0].TextPiece?))
  }

  lemma EmitPlaces(cfg: Config, s: State, before: seq<Piece>, p: Piece, t: State)
    requires Placed(s, before) && t == Emit(cfg, s, p).0
    ensures Placed(t, before + [p])
  {
    var all := before + [p];
    assert all[|before|] == p && forall q :: q in all <==> q in before || q == p;
    if before != [] { assert before[0] in before && all[0] == before[0]; }
    if p.ToolPiece? { ToolPlaces(cfg, s, p); }
  }

  lemma ToolPlaces(cfg: Config, s: State, p: Piece)
    requires p.ToolPiece?
    ensures var t := Emit(cfg, s, p).0;
            && t.text == s.text && t.tools != []
            && t.nextIndex == s.nextIndex + if Position(s.tools, p.index) < |s.tools| then 0 else 1
  {
    OpenToolAt(cfg, s, p, p.index);
  }

  lemma {:induction false} EmitAllPlaces(cfg: Config, s: State, before: seq<Piece>, ps: seq<Piece>, t: State,
                                         all: seq<Piece>)
    requires Placed(s, before) && t == EmitAll(cfg, s, ps).0 && all == before + ps
    ensures Placed(t, all)
  {
    if ps == [] {
      assert all == before;
    } else {
      var front, p := ps[..|ps| - 1], ps[|ps| - 1];
      EmitAllSplit(cfg, s, before, ps);
      EmitAllPlaces(cfg, s, before, front, EmitAll(cfg, s, front).0, before + front);
      EmitPlaces(cfg, EmitAll(cfg, s, front).0, before + front, p, t);
    }
  }

  lemma {:induction false} RunPlaces(cfg: Config, chunks: seq<Chunk>)
    ensures Placed(Run(cfg, chunks).0, AllPieces(chunks))
  {
    if chunks != [] {
      var front, c := chunks[..|chunks| - 1], chunks[|chunks| - 1];
      RunPlaces(cfg, front);
      var t := Create(Run(cfg, front).0).0;
      EmitAllPlaces(cfg, t, AllPieces(front), Pieces(c), EmitAll(cfg, t, Pieces(c)).0, AllPieces(chunks));
    }
  }

  // ----- Closing ---------------------------------------------------------------------------

  function IndicesOf(tools: seq<(nat, Tool)>): (r: seq<nat>)
    ensures |r| == |tools| && forall k :: 0 <= k < |tools| ==> r[k] == tools[k].1.index
  {
    seq(|tools|, k requires 0 <= k < |tools| => tools[k].1.index)
  }

  lemma {:induction false} ToolsDone(n: nat, tools: seq<(nat, Tool)>)
    ensures DoneIndices(CloseTools(n, tools)) == IndicesOf(tools)
    decreases |tools|
  {
    if tools != [] {
      var t := tools[0].1;
      var two := [ArgsDone(n, t.id, t.index, t.name, t.args), ItemDone(n + 1, t.index, CallOf(t, t.args))];
      ToolsDone(n + 2, tools[1..]);
      DoneConcat(two, CloseTools(n + 2, tools[1..]));
      assert two[..1][..0] == [] && DoneIndices(two[..1]) == [];
      assert DoneIndices(two) == [t.index];
      assert IndicesOf(tools) == [t.index] + IndicesOf(tools[1..]);
    }
  }

  function TextIndex(text: Option<TextItem>): seq<nat> {
    if text.Some? then [text.value.index] else []
  }

  lemma TextIsDone(n: nat, t: TextItem)
    ensures DoneIndices(CloseText(n, t)) == [t.index]
  {
    var es := CloseText(n, t);
    NoneDoneIndices(es[..2]);
  }

  lemma ItemsDone(u: State, tools: seq<(nat, Tool)>)
    ensures DoneIndices(ClosingWith(u, tools)) == TextIndex(u.text) + IndicesOf(tools)
  {
    var n := if u.text.Some? then u.seqNo + 3 else u.seqNo;
    var first := if u.text.Some? then CloseText(u.seqNo, u.text.value) else [];
    ToolsDone(n, tools);
    DoneConcat(first, CloseTools(n, tools));
    if u.text.Some? {
      TextIsDone(u.seqNo, u.text.value);
    } else {
      assert DoneIndices(first) == [];
    }
  }

  lemma ClosingDone(u: State, tools: seq<(nat, Tool)>, last: ResponsesStream.Event)
    requires last.Completed?
    ensures DoneIndices(ClosingWith(u, tools) + [last]) == TextIndex(u.text) + IndicesOf(tools)
  {
    ItemsDone(u, tools);
    NoneDoneIndices([last]);
    DoneConcat(ClosingWith(u, tools), [last]);
  }

  lemma AscendingCons(x: nat, ys: seq<nat>)
    requires Ascending(ys)
    ensures Ascending([x] + ys) <==> ys == [] || x < ys[0]
  {
    var all := [x] + ys;
    assert forall j :: 0 < j < |all| ==> all[j] == ys[j - 1];
    if ys != [] { assert all[0] == x && all[1] == ys[0]; }
  }

  lemma ToolsAscend(text: Option<TextItem>, tools: seq<Tool>, n: nat) returns (ys: seq<nat>)
    requires Layout(text, tools, n)
    ensures ys == IndicesOf(Indexed(tools)) && Ascending(ys) && (ys == [] <==> tools == [])
    ensures tools != [] ==> ys[0] == tools[0].index
  {
    ys := IndicesOf(Indexed(tools));
    assert forall k :: 0 <= k < |tools| ==> ys[k] == tools[k].index;
  }

  lemma FirstToolIndex(text: TextItem, tools: seq<Tool>, n: nat)
    requires Layout(Some(text), tools, n) && tools != []
    ensures text.index < tools[0].index <==> text.index == 0
  {
    if text.index != 0 {
      EveryIndexUsed(Some(text), tools, n, 0);
      var k :| 0 <= k < |tools| && tools[k].index == 0;
      if k > 0 { assert tools[0].index < tools[k].index; }
    }
  }

  /** With the text item first and the tools in index order behind it, only the text item can be out of place. */
  lemma OrderOfLayout(text: Option<TextItem>, tools: seq<Tool>, n: nat)
    requires Layout(text, tools, n)
    ensures Ascending(TextIndex(text) + IndicesOf(Indexed(tools))) <==>
            text.None? || tools == [] || text.value.index == 0
  {
    var ys := ToolsAscend(text, tools, n);
    if text.None? {
      assert TextIndex(text) + ys == ys;
    } else {
      AscendingCons(text.value.index, ys);
      if tools != [] { FirstToolIndex(text.value, tools, n); }
    }
  }

  lemma EndingOrder(u: State, c: Client, ps: seq<Piece>)
    requires Mirrors(u.(finished := false), c)
    requires (u.text.None? || u.tools == [] || u.text.value.index == 0) <==> TextComesFirst(ps)
    ensures Ascending(DoneIndices(ClosingOf(u) + [LastOf(u)])) <==> TextComesFirst(ps)
  {
    MirrorsLayout(u, c);
    SortedStays(Indexed(u.tools));
    ClosingDone(u, Indexed(u.tools), LastOf(u));
    OrderOfLayout(u.text, u.tools, |c.items|);
  }

  lemma PlacedDecides(s: State, u: State, ps: seq<Piece>)
    requires Placed(s, ps) && u.tools == s.tools
    requires u.text == s.text || s.tools == []
    ensures (u.text.None? || u.tools == [] || u.text.value.index == 0) <==> TextComesFirst(ps)
  {
    if s.tools == [] && ps != [] { assert ps[0] in ps; }
    if s.text.None? && ps != [] { assert ps[0] in ps; }
  }

  lemma NoneDoneAhead(all: seq<ResponsesStream.Event>, ahead: seq<ResponsesStream.Event>,
                      rest: seq<ResponsesStream.Event>)
    requires NoneDone(ahead) && all == ahead + rest
    ensures DoneIndices(all) == DoneIndices(rest)
  {
    NoneDoneIndices(ahead);
    DoneConcat(ahead, rest);
  }

  lemma BegunState(cfg: Config, s: State, events: seq<ResponsesStream.Event>, inputTokens: int, ps: seq<Piece>,
                   u: State, begun: seq<ResponsesStream.Event>) returns (c: Client)
    requires Linked(s, events) && !s.finished && Placed(s, ps) && (u, begun) == BeginStep(cfg, s, inputTokens)
    ensures Mirrors(u.(finished := false), c) && NoneDone(begun)
    ensures (u.text.None? || u.tools == [] || u.text.value.index == 0) <==> TextComesFirst(ps)
  {
    var (t, creating) := Create(Estimate(s, inputTokens).(finished := true));
    var opening := if t.text.None? && t.tools == [] then OpenText(cfg, t).1 else [];
    PrepareClosing(cfg, s, events, inputTokens, t, u, creating, opening);
    PlacedDecides(s, u, ps);
    c := Watch(NEW_CLIENT, events + creating + opening).value;
  }

  lemma FinalOrder(cfg: Config, s: State, events: seq<ResponsesStream.Event>, inputTokens: int, ps: seq<Piece>)
    requires Linked(s, events) && !s.finished && Placed(s, ps)
    ensures Ascending(DoneIndices(FinalStep(cfg, s, inputTokens).1)) <==> TextComesFirst(ps)
  {
    var (u, begun) := BeginStep(cfg, s, inputTokens);
    var c := BegunState(cfg, s, events, inputTokens, ps, u, begun);
    EndingOrder(u, c, ps);
    NoneDoneAhead(FinalStep(cfg, s, inputTokens).1, begun, ClosingOf(u) + [LastOf(u)]);
  }

  /** Items are done in the order of their output indices if and only if text came before every tool, or no text, or no
      tool. */
  lemma ClosedInOrderIff(cfg: Config, chunks: seq<Chunk>, inputTokens: int)
    ensures Ascending(DoneIndices(Translate(cfg, chunks, inputTokens))) <==> TextComesFirst(AllPieces(chunks))
  {
    RunLinks(cfg, chunks);
    RunOpens(cfg, chunks);
    RunPlaces(cfg, chunks);
    RunCounts(cfg, chunks);
    FinalOrder(cfg, Run(cfg, chunks).0, Run(cfg, chunks).1, inputTokens, AllPieces(chunks));
    TranslateIs(cfg, chunks, inputTokens);
    NoneDoneAhead(Translate(cfg, chunks, inputTokens), Run(cfg, chunks).1,
                  FinalStep(cfg, Run(cfg, chunks).0, inputTokens).1);
  }

  // ----- A stream that is closed out of order ------------------------------------------------

  /** A tool call and then text: the text item is closed first, under the larger index. */
  lemma TextAfterToolIsClosedFirst(cfg: Config, callId: string, text: string, inputTokens: int)
    requires text != ""
    ensures var call := ToolDelta(0, Some(callId), Some(FunctionDelta(Some("f"), Some("{}"))));
            var chunks := [Chunk("c", "m", [Choice(Delta(None, [call]), None)], None),
                           Chunk("c", "m", [Choice(Delta(Some(text), []), None)], None)];
            !Ascending(DoneIndices(Translate(cfg, chunks, inputTokens)))
  {
    var call := ToolDelta(0, Some(callId), Some(FunctionDelta(Some("f"), Some("{}"))));
    var one, two := Chunk("c", "m", [Choice(Delta(None, [call]), None)], None),
                    Chunk("c", "m", [Choice(Delta(Some(text), []), None)], None);
    var ps := AllPieces([one, two]);
    assert [one, two][..1] == [one] && [one][..0] == [];
    assert AllPieces([one]) == AllPieces([]) + Pieces(one);
    assert ps == Pieces(one) + Pieces(two);
    assert ps[0] == PieceOf(call) && ps[1] == TextPiece(text) && ps[1] in ps;
    ClosedInOrderIff(cfg, [one, two], inputTokens);
  }
}
