/** What an OpenAI chunk stream means: its content pieces, and the blocks they group into. */
module ChunkPieces {
  import opened Wrappers
  import opened StreamTypes
  import opened AnthropicMessage

  /** One content-bearing part of a chunk. An absent and an empty string are the same to every consumer. */
  datatype Piece = TextPiece(text: string) | ToolPiece(index: int, id: string, name: string, args: string)

  function PieceOf(td: ToolDelta): Piece {
    var f := td.call;
    ToolPiece(td.index, td.id.GetOr(""),
              if f.Some? then f.value.name.GetOr("") else "",
              if f.Some? then f.value.arguments.GetOr("") else "")
  }

  function ToolPieces(tds: seq<ToolDelta>): (ps: seq<Piece>)
    ensures |ps| == |tds| && forall i :: 0 <= i < |tds| ==> ps[i] == PieceOf(tds[i])
  {
    seq(|tds|, i requires 0 <= i < |tds| => PieceOf(tds[i]))
  }

  function TextPieces(content: Option<string>): seq<Piece> {
    if content.Some? && content.value != "" then [TextPiece(content.value)] else []
  }

  /** The pieces of one chunk: only the first choice counts, text before tool calls. */
  function Pieces(c: Chunk): seq<Piece> {
    if c.choices == [] then []
    else TextPieces(c.choices[0].delta.content) + ToolPieces(c.choices[0].delta.toolCalls)
  }

  function AllPieces(chunks: seq<Chunk>): seq<Piece> {
    if chunks == [] then []
    else AllPieces(chunks[..|chunks| - 1]) + Pieces(chunks[|chunks| - 1])
  }

  // ----- Streams that never resume an abandoned tool --------------------

  predicate Mentions(p: Piece, index: int) {
    p.ToolPiece? && p.index == index
  }

  predicate Seen(ps: seq<Piece>, index: int) {
    exists k :: 0 <= k < |ps| && Mentions(ps[k], index)
  }

  /** Piece `j` starts something new: text, or a tool index not mentioned before. */
  predicate Breaks(ps: seq<Piece>, j: nat)
    requires j < |ps|
  {
    if ps[j].TextPiece? then ps[j].text != "" else !Seen(ps[..j], ps[j].index)
  }

  /** Something new started after tool `index` was first mentioned. */
  predicate Abandoned(ps: seq<Piece>, index: int) {
    exists k, j {:trigger Mentions(ps[k], index), Breaks(ps, j)} ::
      0 <= k < j < |ps| && Mentions(ps[k], index) && Breaks(ps, j)
  }

  /** Piece `i` adds arguments to a tool that was abandoned before. */
  predicate Resumes(ps: seq<Piece>, i: nat)
    requires i < |ps|
  {
    ps[i].ToolPiece? && ps[i].args != "" && Abandoned(ps[..i], ps[i].index)
  }

  predicate NonInterleaving(ps: seq<Piece>) {
    forall i :: 0 <= i < |ps| ==> !Resumes(ps, i)
  }

  // ----- Grouping -------------------------------------------------------

  datatype Group = GText(text: string) | GTool(index: int, id: string, name: string, args: string)

  function AddText(gs: seq<Group>, text: string): seq<Group> {
    if text == "" then gs
    else if gs != [] && gs[|gs| - 1].GText? then gs[|gs| - 1 := GText(gs[|gs| - 1].text + text)]
    else gs + [GText(text)]
  }

  predicate Holds(gs: seq<Group>, index: int, b: nat) {
    b < |gs| && gs[b].GTool? && gs[b].index == index
  }

  /** Blocks of tool indices are unique in `gs`. */
  predicate Distinct(gs: seq<Group>) {
    forall a, b :: 0 <= a < b < |gs| && gs[a].GTool? && gs[b].GTool? ==> gs[a].index != gs[b].index
  }

  /** Position of the block of tool `index`, or |gs| if it has none. */
  function Find(gs: seq<Group>, index: int): (b: nat)
    ensures b <= |gs|
    ensures b < |gs| ==> gs[b].GTool? && gs[b].index == index
  {
    if gs == [] then 0
    else
      var n := |gs| - 1;
      var b := Find(gs[..n], index);
      if b < n then b
      else if Holds(gs, index, n) then n else n + 1
  }

  lemma {:induction false} FindMisses(gs: seq<Group>, index: int)
    ensures Find(gs, index) == |gs| ==> forall c: nat :: !Holds(gs, index, c)
  {
    if gs != [] {
      var n := |gs| - 1;
      FindMisses(gs[..n], index);
      assert forall c: nat :: Holds(gs, index, c) <==> Holds(gs[..n], index, c) || (c == n && Holds(gs, index, n));
    }
  }

  function AddPiece(gs: seq<Group>, p: Piece): seq<Group> {
    match p
    case TextPiece(t) => AddText(gs, t)
    case ToolPiece(index, id, name, args) =>
      var b := Find(gs, index);
      if b == |gs| then gs + [GTool(index, id, name, args)]
      else gs[b := gs[b].(args := gs[b].args + args)]
  }

  /** The blocks a piece sequence stands for: text merges with text, arguments go to their tool's block. */
  function Grouped(ps: seq<Piece>): seq<Group> {
    if ps == [] then []
    else AddPiece(Grouped(ps[..|ps| - 1]), ps[|ps| - 1])
  }

  lemma GroupedSnoc(ps: seq<Piece>, p: Piece)
    ensures Grouped(ps + [p]) == AddPiece(Grouped(ps), p)
  {
    assert (ps + [p])[..|ps|] == ps;
  }

  lemma AddPieceKeepsDistinct(gs: seq<Group>, p: Piece)
    requires Distinct(gs)
    ensures Distinct(AddPiece(gs, p))
  {
    if p.ToolPiece? && Find(gs, p.index) == |gs| {
      FindMisses(gs, p.index);
      forall a | 0 <= a < |gs| && gs[a].GTool? ensures gs[a].index != p.index {
        assert !Holds(gs, p.index, a);
      }
    }
  }

  lemma {:induction false} GroupedIsDistinct(ps: seq<Piece>)
    ensures Distinct(Grouped(ps))
    ensures forall index :: Find(Grouped(ps), index) < |Grouped(ps)| <==> Seen(ps, index)
  {
    if ps != [] {
      var front, p := ps[..|ps| - 1], ps[|ps| - 1];
      GroupedIsDistinct(front);
      AddPieceKeepsDistinct(Grouped(front), p);
      assert ps == front + [p];
      forall index ensures Find(Grouped(ps), index) < |Grouped(ps)| <==> Seen(ps, index) {
        FindAfterAdd(Grouped(front), p, index);
        SnocScans(front, p, index);
      }
    }
  }

  // ----- Abandoned tools are exactly those whose block is not the last ----

  lemma SnocScans(ps: seq<Piece>, p: Piece, index: int)
    ensures Seen(ps + [p], index) <==> Seen(ps, index) || Mentions(p, index)
    ensures Abandoned(ps + [p], index) <==>
            Abandoned(ps, index) || (Seen(ps, index) && Breaks(ps + [p], |ps|))
  {
    var all, n := ps + [p], |ps|;
    assert forall j :: 0 <= j <= n ==> all[..j] == ps[..j];
    assert Mentions(all[n], index) <==> Mentions(p, index);
    if Seen(ps, index) {
      var k :| 0 <= k < n && Mentions(ps[k], index);
      assert Mentions(all[k], index);
    }
    if Seen(all, index) {
      var k :| 0 <= k < |all| && Mentions(all[k], index);
      assert k < n ==> Mentions(ps[k], index);
    }
    if Abandoned(ps, index) {
      var k, j :| 0 <= k < j < n && Mentions(ps[k], index) && Breaks(ps, j);
      assert Mentions(all[k], index) && Breaks(all, j);
    }
    if Abandoned(all, index) {
      var k, j :| 0 <= k < j < |all| && Mentions(all[k], index) && Breaks(all, j);
      assert Mentions(ps[k], index);
      assert j < n ==> Breaks(ps, j);
    }
  }

  lemma {:induction false} AbandonedIffNotLast(ps: seq<Piece>, index: int)
    ensures Abandoned(ps, index) <==> Find(Grouped(ps), index) < |Grouped(ps)| - 1
  {
    if ps != [] {
      var n := |ps| - 1;
      var front, p := ps[..n], ps[n];
      assert ps == front + [p];
      SnocScans(front, p, index);
      AbandonedIffNotLast(front, index);
      GroupedIsDistinct(front);
      GroupedIsDistinct(ps);
      assert front == ps[..n];
      FindAfterAdd(Grouped(front), p, index);
    }
  }

  lemma FindAfterAdd(gs: seq<Group>, p: Piece, index: int)
    requires Distinct(gs)
    ensures var after := AddPiece(gs, p);
            Find(gs, index) < |gs| ==> Find(after, index) == Find(gs, index)
    ensures var after := AddPiece(gs, p);
            Find(gs, index) == |gs| ==> Find(after, index) == if Mentions(p, index) then |gs| else |after|
  {
    var after := AddPiece(gs, p);
    AddPieceKeepsDistinct(gs, p);
    var b, c := Find(gs, index), Find(after, index);
    FindMisses(gs, index);
    FindMisses(after, index);
    if b < |gs| {
      assert Holds(after, index, b);
    } else {
      assert c < |gs| ==> !Holds(gs, index, c);
      if Mentions(p, index) { assert Holds(after, index, |gs|); }
    }
  }

  lemma NonInterleavingSnoc(ps: seq<Piece>, p: Piece)
    ensures NonInterleaving(ps + [p]) <==>
            NonInterleaving(ps) &&
            !(p.ToolPiece? && p.args != "" && Find(Grouped(ps), p.index) < |Grouped(ps)| - 1)
  {
    var all, n := ps + [p], |ps|;
    assert forall i :: 0 <= i <= n ==> all[..i] == ps[..i];
    if p.ToolPiece? { AbandonedIffNotLast(ps, p.index); }
    assert all[..n] == ps;
    assert Resumes(all, n) <==> p.ToolPiece? && p.args != "" && Find(Grouped(ps), p.index) < |Grouped(ps)| - 1;
    assert forall i :: 0 <= i < n ==> (Resumes(all, i) <==> Resumes(ps, i));
  }

  // ----- Conservation ---------------------------------------------------

  function TextIn(ps: seq<Piece>): string {
    if ps == [] then ""
    else TextIn(ps[..|ps| - 1]) + (if ps[|ps| - 1].TextPiece? then ps[|ps| - 1].text else "")
  }

  function ArgsIn(ps: seq<Piece>, index: int): string {
    if ps == [] then ""
    else ArgsIn(ps[..|ps| - 1], index) + (if Mentions(ps[|ps| - 1], index) then ps[|ps| - 1].args else "")
  }

  /** The first piece that mentions a tool; it fixes the tool's id. */
  function Opener(ps: seq<Piece>, index: int): (r: Option<Piece>)
    ensures r.Some? ==> Mentions(r.value, index)
  {
    if ps == [] then None
    else
      var before, last := Opener(ps[..|ps| - 1], index), ps[|ps| - 1];
      if before.Some? then before else if Mentions(last, index) then Some(last) else None
  }

  /** The first name given for a tool. */
  function NameIn(ps: seq<Piece>, index: int): string {
    if ps == [] then ""
    else
      var before, last := NameIn(ps[..|ps| - 1], index), ps[|ps| - 1];
      if before != "" then before else if Mentions(last, index) then last.name else ""
  }

  function TextOfGroups(gs: seq<Group>): string {
    if gs == [] then ""
    else TextOfGroups(gs[..|gs| - 1]) + (if gs[|gs| - 1].GText? then gs[|gs| - 1].text else "")
  }

  lemma TextOfGroupsSnoc(gs: seq<Group>, g: Group)
    ensures TextOfGroups(gs + [g]) == TextOfGroups(gs) + (if g.GText? then g.text else "")
  {
    assert (gs + [g])[..|gs|] == gs;
  }

  lemma {:induction false} ToolUpdateKeepsText(gs: seq<Group>, b: nat, g: Group)
    requires b < |gs| && gs[b].GTool? && g.GTool?
    ensures TextOfGroups(gs[b := g]) == TextOfGroups(gs)
  {
    var n := |gs| - 1;
    if b == n {
      assert gs[b := g] == gs[..n] + [g];
      TextOfGroupsSnoc(gs[..n], g);
    } else {
      ToolUpdateKeepsText(gs[..n], b, g);
      assert gs[b := g] == gs[..n][b := g] + [gs[n]];
      TextOfGroupsSnoc(gs[..n][b := g], gs[n]);
    }
  }

  lemma AddTextKeepsText(gs: seq<Group>, t: string)
    ensures TextOfGroups(AddText(gs, t)) == TextOfGroups(gs) + t
  {
    if t == "" {
    } else if gs != [] && gs[|gs| - 1].GText? {
      var m := |gs| - 1;
      var merged := GText(gs[m].text + t);
      assert gs[m := merged] == gs[..m] + [merged];
      TextOfGroupsSnoc(gs[..m], merged);
    } else {
      TextOfGroupsSnoc(gs, GText(t));
    }
  }

  lemma AddToolKeepsText(gs: seq<Group>, p: Piece)
    requires p.ToolPiece?
    ensures TextOfGroups(AddPiece(gs, p)) == TextOfGroups(gs)
  {
    var b := Find(gs, p.index);
    if b == |gs| {
      TextOfGroupsSnoc(gs, GTool(p.index, p.id, p.name, p.args));
    } else {
      ToolUpdateKeepsText(gs, b, gs[b].(args := gs[b].args + p.args));
    }
  }

  /** No text is lost, duplicated or reordered by grouping. */
  lemma {:induction false} GroupedKeepsText(ps: seq<Piece>)
    ensures TextOfGroups(Grouped(ps)) == TextIn(ps)
  {
    if ps != [] {
      var n := |ps| - 1;
      GroupedKeepsText(ps[..n]);
      if ps[n].TextPiece? {
        AddTextKeepsText(Grouped(ps[..n]), ps[n].text);
      } else {
        AddToolKeepsText(Grouped(ps[..n]), ps[n]);
      }
    }
  }

  /** Every tool's arguments end up, in order and complete, in the one block of that tool, under the id and the
      name of its first mention. */
  lemma {:induction false} GroupedKeepsArgs(ps: seq<Piece>, index: int)
    ensures var b, opener := Find(Grouped(ps), index), Opener(ps, index);
            if b < |Grouped(ps)| then
              && Grouped(ps)[b].args == ArgsIn(ps, index) && opener.Some?
              && Grouped(ps)[b].id == opener.value.id && Grouped(ps)[b].name == opener.value.name
            else ArgsIn(ps, index) == "" && opener.None?
  {
    if ps != [] {
      var n := |ps| - 1;
      GroupedKeepsArgs(ps[..n], index);
      GroupedIsDistinct(ps[..n]);
      FindAfterAdd(Grouped(ps[..n]), ps[n], index);
    }
  }
}
