/** What chunking does to the text itself: the pieces, with runs of spaces put back behind some of
    them, are the message's text and fence bodies character for character. */
module ChunkConservation {
  import opened Prelude
  import opened TelegramRender
  import opened TelegramChunker

  /** The characters of a text, spaces included, each with the fence it lies in. */
  function Marked(s: string, fence: Option<string>): seq<Ink> {
    seq(|s|, i requires 0 <= i < |s| => Ink(s[i], fence))
  }

  function Spaces(n: nat, fence: Option<string>): seq<Ink> {
    seq(n, i => Ink(' ', fence))
  }

  function TagOf(p: Piece): Option<string> {
    if p.fence.Some? then Some(p.fence.value.lang) else None
  }

  function PieceContent(p: Piece): seq<Ink> {
    Marked(p.text, None) + if p.fence.Some? then Marked(p.fence.value.body, TagOf(p)) else []
  }

  /** The pieces in order, each with so many spaces behind it. */
  function Spread(ps: seq<Piece>, gaps: seq<nat>): seq<Ink>
    requires |gaps| == |ps|
  {
    if ps == [] then []
    else Spread(Front(ps), Front(gaps)) + PieceContent(Last(ps)) + Spaces(Last(gaps), TagOf(Last(ps)))
  }

  function BlockContent(b: Block): seq<Ink> {
    match b
    case Text(source) => Marked(source, None)
    case Fence(source, lang) => Marked(FenceBody(source), Some(lang))
  }

  function Content(bs: seq<Block>): seq<Ink> {
    if bs == [] then [] else Content(Front(bs)) + BlockContent(Last(bs))
  }

  /** The layout holds that content, up to the gaps. */
  ghost predicate Holds(l: Layout, gaps: seq<nat>, content: seq<Ink>) {
    |gaps| == |l.pieces| && Spread(l.pieces, gaps) + Marked(l.text, None) == content
  }

  lemma CutSpreads(text: string, limit: int, fence: Option<string>) returns (gap: nat)
    requires limit < Units(text)
    ensures var (head, rest) := Cut(text, limit);
            Marked(text, fence) == Marked(head, fence) + Spaces(gap, fence) + Marked(rest, fence)
  {
    hide Cut;
    hide Units;
    var spaces := CutConserves(text, limit);
    gap := |spaces|;
  }

  lemma SpreadSnoc(ps: seq<Piece>, gaps: seq<nat>, p: Piece, gap: nat)
    requires |gaps| == |ps|
    ensures Spread(ps + [p], gaps + [gap]) == Spread(ps, gaps) + PieceContent(p) + Spaces(gap, TagOf(p))
  {
    assert Front(ps + [p]) == ps && Front(gaps + [gap]) == gaps;
  }

  /** Closing the open chunk with a run of text, or behind the text it holds. */
  lemma FlushHolds(l: Layout, gaps: seq<nat>, content: seq<Ink>, run: string, gap: nat)
    requires Holds(l, gaps, content) && (l.text == "" || l.text == run)
    ensures Holds(Layout(l.pieces + [Piece(run, None)], ""), gaps + [gap],
                  content + (if l.text == "" then Marked(run, None) else []) + Spaces(gap, None))
  {
    SpreadSnoc(l.pieces, gaps, Piece(run, None), gap);
  }

  lemma CloseHolds(l: Layout, gaps: seq<nat>, content: seq<Ink>, lang: string, part: string, gap: nat)
    requires Holds(l, gaps, content)
    ensures Holds(CloseWith(l, lang, part), gaps + [gap], content + Marked(part, Some(lang)) + Spaces(gap, Some(lang)))
  {
    SpreadSnoc(l.pieces, gaps, Piece(l.text, Some(FencePiece(lang, part))), gap);
  }

  lemma {:induction false} TextHolds(l: Layout, gaps: seq<nat>, content: seq<Ink>, run: string, budget: nat)
    returns (after: seq<nat>)
    requires Holds(l, gaps, content) && l.text == "" && budget >= 2
    ensures Holds(LayText(l, run, budget), after, content + Marked(run, None))
    decreases |run|
  {
    hide Cut;
    hide Units;
    hide Spread;
    hide MaxWidth;
    if run == "" || Units(run) <= budget {
      return gaps;
    }
    CutKeepsInk(run, budget, None);
    var (head, rest) := Cut(run, budget);
    var gap := CutSpreads(run, budget, None);
    FlushHolds(l, gaps, content, head, gap);
    after := TextHolds(Layout(l.pieces + [Piece(head, None)], ""), gaps + [gap],
                       content + Marked(head, None) + Spaces(gap, None), rest, budget);
    Regroup(content, Marked(head, None), Spaces(gap, None), Marked(rest, None));
  }

  lemma Regroup(a: seq<Ink>, b: seq<Ink>, c: seq<Ink>, d: seq<Ink>)
    ensures a + b + c + d == a + (b + c + d)
  {
  }

  /** A cut of a fence's body moves on, or lies behind text, and leaves it chunkable. */
  lemma CutGoesOn(m: Layout, lang: string, body: string, budget: nat)
    requires Chunkable(lang, body, budget) && Units(body) > Usable(m, lang, budget)
    ensures var rest := Cut(body, Usable(m, lang, budget)).1;
            (|rest| < |body| || (rest == body && m.text != "")) && Chunkable(lang, rest, budget)
  {
    hide Cut;
    hide Units;
    hide MaxWidth;
    NoUnits();
    var usable := Usable(m, lang, budget);
    CutKeepsInk(body, usable, Some(lang));
    MaxWidthBound(body);
    if Cut(body, usable).0 != "" {
      CutKeepsChunkable(body, usable, Room(lang, budget));
    }
  }

  lemma RoomHolds(l: Layout, gaps: seq<nat>, content: seq<Ink>, lang: string, budget: nat) returns (after: seq<nat>)
    requires Holds(l, gaps, content)
    ensures Holds(MakeRoom(l, lang, budget), after, content)
  {
    hide Units;
    after := gaps;
    if MakeRoom(l, lang, budget) != l {
      FlushHolds(l, gaps, content, l.text, 0);
      after := gaps + [0];
      assert content + [] + Spaces(0, None) == content;
    }
  }

  lemma {:induction false} FenceHolds(l: Layout, gaps: seq<nat>, content: seq<Ink>, lang: string, body: string,
                                      budget: nat)
    returns (after: seq<nat>)
    requires Holds(l, gaps, content) && Chunkable(lang, body, budget)
    ensures Holds(LayFence(l, lang, body, budget), after, content + Marked(body, Some(lang)))
    decreases |body|, l.text != ""
  {
    hide Cut;
    hide Units;
    hide Holds;
    hide LayFence;
    hide Chunkable;
    LayFenceStep(l, lang, body, budget);
    var m := MakeRoom(l, lang, budget);
    var usable := Usable(m, lang, budget);
    var ready := RoomHolds(l, gaps, content, lang, budget);
    if Units(body) <= usable {
      CloseHolds(m, ready, content, lang, body, 0);
      assert content + Marked(body, Some(lang)) + Spaces(0, Some(lang)) == content + Marked(body, Some(lang));
      return ready + [0];
    }
    CutGoesOn(m, lang, body, budget);
    var (head, rest) := Cut(body, usable);
    var gap := CutSpreads(body, usable, Some(lang));
    CloseHolds(m, ready, content, lang, head, gap);
    after := FenceHolds(CloseWith(m, lang, head), ready + [gap],
                        content + Marked(head, Some(lang)) + Spaces(gap, Some(lang)), lang, rest, budget);
    Regroup(content, Marked(head, Some(lang)), Spaces(gap, Some(lang)), Marked(rest, Some(lang)));
  }

  lemma {:induction false} LaidHolds(blocks: seq<Block>, n: nat, budget: Budget) returns (gaps: seq<nat>)
    requires n <= |blocks| && Alternating(blocks) && AllChunkable(blocks, budget)
    ensures Holds(LayBlocks(blocks[..n], budget), gaps, Content(blocks[..n]))
  {
    hide LayText;
    hide LayFence;
    hide Chunkable;
    hide FenceBody;
    hide Units;
    if n == 0 {
      assert blocks[..0] == [];
      return [];
    }
    var was := LaidHolds(blocks, n - 1, budget);
    var l, content := LayBlocks(blocks[..n - 1], budget), Content(blocks[..n - 1]);
    LaidFits(blocks, n - 1, budget, 0);
    assert n > 1 ==> blocks[n - 2].Fence? || blocks[n - 1].Fence?;
    assert Front(blocks[..n]) == blocks[..n - 1];
    match blocks[n - 1]
    case Text(source) => gaps := TextHolds(l, was, content, source, budget);
    case Fence(source, lang) => gaps := FenceHolds(l, was, content, lang, FenceBody(source), budget);
  }

  /** Chunking loses nothing but runs of spaces at the ends of chunks: with so many spaces put back
      behind each piece, the pieces are the text runs and fence bodies of the message. */
  lemma OnlySpacesAtCutsVanish(source: string, budget: Budget)
    requires AllChunkable(Blocks(source, 0), budget)
    ensures exists gaps: seq<nat> ::
              |gaps| == |PiecesOf(source, budget)| &&
              Spread(PiecesOf(source, budget), gaps) == Content(Blocks(source, 0))
  {
    hide Blocks;
    hide LayBlocks;
    hide Spread;
    hide Content;
    var blocks := Blocks(source, 0);
    BlocksAlternate(source, 0);
    var gaps := LaidHolds(blocks, |blocks|, budget);
    assert blocks[..|blocks|] == blocks;
    var l := LayBlocks(blocks, budget);
    if l.text != "" {
      FlushHolds(l, gaps, Content(blocks), l.text, 0);
      gaps := gaps + [0];
      assert Content(blocks) + [] + Spaces(0, None) == Content(blocks);
    }
    Flushed(l, gaps, Content(blocks));
  }

  lemma Flushed(l: Layout, gaps: seq<nat>, content: seq<Ink>)
    requires Holds(Layout(Finished(l), ""), gaps, content)
    ensures |gaps| == |Finished(l)| && Spread(Finished(l), gaps) == content
  {
    hide Spread;
    assert Marked("", None) == [];
  }
}
