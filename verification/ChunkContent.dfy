/** The pieces of a chunk stream say what its chunks say: the same text, tools, ids, names and arguments. */
module ChunkContent {
  import opened Wrappers
  import opened SeqFacts
  import opened StreamTypes
  import opened ChunkPieces

  /** The text of all first choices. */
  function SpokenText(chunks: seq<Chunk>): string {
    if chunks == [] then ""
    else
      var c := chunks[|chunks| - 1];
      SpokenText(chunks[..|chunks| - 1]) +
      if c.choices != [] && c.choices[0].delta.content.Some? then c.choices[0].delta.content.value else ""
  }

  /** The tool deltas of all first choices. */
  function ToolDeltas(chunks: seq<Chunk>): seq<ToolDelta> {
    if chunks == [] then []
    else
      var c := chunks[|chunks| - 1];
      ToolDeltas(chunks[..|chunks| - 1]) + if c.choices != [] then c.choices[0].delta.toolCalls else []
  }

  /** The arguments given for one tool. */
  function GivenArguments(tds: seq<ToolDelta>, index: int): string {
    if tds == [] then ""
    else
      var td := tds[|tds| - 1];
      GivenArguments(tds[..|tds| - 1], index) +
      if td.index == index && td.call.Some? && td.call.value.arguments.Some? then td.call.value.arguments.value else ""
  }

  predicate GivenId(td: ToolDelta, id: string) {
    if td.id.Some? then id == td.id.value else id == ""
  }

  predicate GivenName(td: ToolDelta, name: string) {
    if td.call.Some? && td.call.value.name.Some? then name == td.call.value.name.value else name == ""
  }

  lemma {:induction false} TextInConcat(a: seq<Piece>, b: seq<Piece>)
    ensures TextIn(a + b) == TextIn(a) + TextIn(b)
  {
    if b == [] {
      assert a + b == a;
    } else {
      assert (a + b)[..|a + b| - 1] == a + b[..|b| - 1];
      TextInConcat(a, b[..|b| - 1]);
    }
  }

  lemma {:induction false} ArgsInConcat(a: seq<Piece>, b: seq<Piece>, index: int)
    ensures ArgsIn(a + b, index) == ArgsIn(a, index) + ArgsIn(b, index)
  {
    if b == [] {
      assert a + b == a;
    } else {
      assert (a + b)[..|a + b| - 1] == a + b[..|b| - 1];
      ArgsInConcat(a, b[..|b| - 1], index);
    }
  }

  lemma {:induction false} ToolPiecesHoldNoText(tds: seq<ToolDelta>)
    ensures TextIn(ToolPieces(tds)) == ""
  {
    if tds != [] {
      assert ToolPieces(tds)[..|tds| - 1] == ToolPieces(tds[..|tds| - 1]);
      ToolPiecesHoldNoText(tds[..|tds| - 1]);
    }
  }

  lemma {:induction false} ToolPiecesHoldArguments(tds: seq<ToolDelta>, index: int)
    ensures ArgsIn(ToolPieces(tds), index) == GivenArguments(tds, index)
  {
    if tds != [] {
      assert ToolPieces(tds)[..|tds| - 1] == ToolPieces(tds[..|tds| - 1]);
      ToolPiecesHoldArguments(tds[..|tds| - 1], index);
    }
  }

  lemma TextPieceHolds(content: Option<string>, index: int)
    ensures TextIn(TextPieces(content)) == (if content.Some? then content.value else "")
    ensures ArgsIn(TextPieces(content), index) == ""
  {
    var ps := TextPieces(content);
    if ps != [] { assert ps[..0] == []; }
  }

  lemma ChunkHolds(c: Chunk, index: int)
    ensures TextIn(Pieces(c)) ==
            if c.choices != [] && c.choices[0].delta.content.Some? then c.choices[0].delta.content.value else ""
    ensures ArgsIn(Pieces(c), index) ==
            GivenArguments(if c.choices != [] then c.choices[0].delta.toolCalls else [], index)
  {
    if c.choices != [] {
      var d := c.choices[0].delta;
      TextPieceHolds(d.content, index);
      ToolPiecesHoldNoText(d.toolCalls);
      ToolPiecesHoldArguments(d.toolCalls, index);
      TextInConcat(TextPieces(d.content), ToolPieces(d.toolCalls));
      ArgsInConcat(TextPieces(d.content), ToolPieces(d.toolCalls), index);
    }
  }

  lemma {:induction false} GivenArgumentsConcat(a: seq<ToolDelta>, b: seq<ToolDelta>, index: int)
    ensures GivenArguments(a + b, index) == GivenArguments(a, index) + GivenArguments(b, index)
  {
    if b == [] {
      assert a + b == a;
    } else {
      assert (a + b)[..|a + b| - 1] == a + b[..|b| - 1];
      GivenArgumentsConcat(a, b[..|b| - 1], index);
    }
  }

  /** Text and arguments, exactly as they were streamed. */
  lemma {:induction false} PiecesHoldContent(chunks: seq<Chunk>, index: int)
    ensures TextIn(AllPieces(chunks)) == SpokenText(chunks)
    ensures ArgsIn(AllPieces(chunks), index) == GivenArguments(ToolDeltas(chunks), index)
  {
    if chunks != [] {
      var front, c := chunks[..|chunks| - 1], chunks[|chunks| - 1];
      var tds := if c.choices != [] then c.choices[0].delta.toolCalls else [];
      PiecesHoldContent(front, index);
      ChunkHolds(c, index);
      TextInConcat(AllPieces(front), Pieces(c));
      ArgsInConcat(AllPieces(front), Pieces(c), index);
      GivenArgumentsConcat(ToolDeltas(front), tds, index);
    }
  }

  /** One tool after another, in the order of the deltas, and within a chunk behind its text. */
  lemma PiecesAreInOrder(c: Chunk)
    ensures var d := if c.choices != [] then c.choices[0].delta else Delta(None, []);
            var spoken := if d.content.Some? && d.content.value != "" then 1 else 0;
            && |Pieces(c)| == spoken + |d.toolCalls|
            && (spoken == 1 ==> Pieces(c)[0] == TextPiece(d.content.value))
            && forall i :: 0 <= i < |d.toolCalls| ==>
                 var p := Pieces(c)[spoken + i];
                 && p.ToolPiece? && p.index == d.toolCalls[i].index
                 && GivenId(d.toolCalls[i], p.id) && GivenName(d.toolCalls[i], p.name)
  {
  }
}
