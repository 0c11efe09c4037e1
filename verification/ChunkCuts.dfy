/** Where chunks end: an independent description of the layout of a message, cut by cut, which the
    layout meets. */
module ChunkCuts {
  import opened Prelude
  import opened TelegramRender
  import opened TelegramChunker

  /** A run of text in chunks: each head is the proper cut of what is left, and the last part fits. */
  ghost predicate TextChain(run: string, budget: nat, heads: seq<string>, last: string)
    decreases |run|
  {
    if Units(run) <= budget then heads == [] && last == run
    else
      heads != [] &&
      exists rest: string ::
        |rest| < |run| && ProperCut(run, budget, heads[0], rest) && TextChain(rest, budget, heads[1..], last)
  }

  function TextPieces(heads: seq<string>): (ps: seq<Piece>)
    ensures |ps| == |heads| && forall i :: 0 <= i < |heads| ==> ps[i] == Piece(heads[i], None)
  {
    seq(|heads|, i requires 0 <= i < |heads| => Piece(heads[i], None))
  }

  lemma ChainText(run: string, budget: nat, head: string, rest: string, more: seq<string>, last: string)
    requires Units(run) > budget && |rest| < |run| && ProperCut(run, budget, head, rest)
    requires TextChain(rest, budget, more, last)
    ensures TextChain(run, budget, [head] + more, last)
  {
    hide Units;
    hide ProperCut;
    var heads := [head] + more;
    assert heads[1..] == more && heads[0] == head;
    assert TextChain(rest, budget, heads[1..], last);
  }

  lemma MoreText(pieces: seq<Piece>, head: string, more: seq<string>)
    ensures pieces + TextPieces([head] + more) == pieces + [Piece(head, None)] + TextPieces(more)
  {
    assert TextPieces([head] + more) == [Piece(head, None)] + TextPieces(more);
  }

  /** One cut of the layout of a text. */
  lemma LayTextStep(l: Layout, run: string, budget: nat)
    requires budget >= 2 && Units(run) > budget
    ensures var (head, rest) := Cut(run, budget);
            |rest| < |run| &&
            LayText(l, run, budget) == LayText(Layout(l.pieces + [Piece(head, None)], ""), rest, budget)
  {
    hide Cut;
    NoUnits();
    CutKeepsInk(run, budget, None);
  }

  lemma {:induction false} TextIsChained(l: Layout, run: string, budget: nat) returns (heads: seq<string>)
    requires l.text == "" && budget >= 2
    ensures var after := LayText(l, run, budget);
            after.pieces == l.pieces + TextPieces(heads) && TextChain(run, budget, heads, after.text)
    decreases |run|
  {
    heads := [];
    if Units(run) > budget {
      hide Cut;
      hide ProperCut;
      hide Units;
      hide LayText;
      hide TextChain;
      LayTextStep(l, run, budget);
      var (head, rest) := Cut(run, budget);
      CutExactly(run, budget, head, rest);
      var more := TextIsChained(Layout(l.pieces + [Piece(head, None)], ""), rest, budget);
      heads := [head] + more;
      ChainText(run, budget, head, rest, more, LayText(l, run, budget).text);
      MoreText(l.pieces, head, more);
    }
  }

  /** What a chunk holding the text can take of a fence's body beside its markers. */
  function RoomBehind(text: string, lang: string, budget: nat): int {
    budget - Units(text) - Units("```" + lang + "\n") - 4
  }

  /** A fence in chunks, the first of them behind the text: each part is the proper cut of what is
      left, for the room it has, and the last part is all that is left and fits. A part may be empty
      only behind text. */
  ghost predicate FenceChain(text: string, lang: string, body: string, budget: nat, parts: seq<string>)
    decreases |parts|
  {
    parts != [] &&
    if Units(body) <= RoomBehind(text, lang, budget) then parts == [body]
    else
      (parts[0] == "" ==> text != "") &&
      exists rest: string ::
        ProperCut(body, RoomBehind(text, lang, budget), parts[0], rest) &&
        FenceChain("", lang, rest, budget, parts[1..])
  }

  function FencePieces(text: string, lang: string, parts: seq<string>): (ps: seq<Piece>)
    ensures |ps| == |parts|
    ensures forall i :: 0 <= i < |parts| ==>
              ps[i] == Piece(if i == 0 then text else "", Some(FencePiece(lang, parts[i])))
  {
    seq(|parts|, i requires 0 <= i < |parts| => Piece(if i == 0 then text else "", Some(FencePiece(lang, parts[i]))))
  }

  lemma ChainFence(text: string, lang: string, body: string, budget: nat, head: string, rest: string, more: seq<string>)
    requires Units(body) > RoomBehind(text, lang, budget) && (head == "" ==> text != "")
    requires ProperCut(body, RoomBehind(text, lang, budget), head, rest) && FenceChain("", lang, rest, budget, more)
    ensures FenceChain(text, lang, body, budget, [head] + more)
  {
    hide Units;
    hide ProperCut;
    hide RoomBehind;
    var parts := [head] + more;
    assert parts[1..] == more && parts[0] == head;
    assert FenceChain("", lang, rest, budget, parts[1..]);
  }

  lemma MoreParts(l: Layout, lang: string, head: string, more: seq<string>)
    ensures CloseWith(l, lang, head).pieces + FencePieces("", lang, more) ==
            l.pieces + FencePieces(l.text, lang, [head] + more)
  {
    assert FencePieces(l.text, lang, [head] + more) ==
           [Piece(l.text, Some(FencePiece(lang, head)))] + FencePieces("", lang, more);
  }

  lemma LastPart(l: Layout, lang: string, body: string, budget: nat)
    requires Units(body) <= RoomBehind(l.text, lang, budget)
    ensures CloseWith(l, lang, body) == Layout(l.pieces + FencePieces(l.text, lang, [body]), "")
    ensures FenceChain(l.text, lang, body, budget, [body])
  {
    hide Units;
    assert FencePieces(l.text, lang, [body]) == [Piece(l.text, Some(FencePiece(lang, body)))];
  }

  lemma RoomIsUsable(l: Layout, lang: string, budget: nat)
    ensures RoomBehind(l.text, lang, budget) == Usable(l, lang, budget)
  {
    hide Units;
  }

  /** One cut of the layout of a fence that can be opened. */
  lemma CutFenceStep(l: Layout, lang: string, body: string, budget: nat)
    requires MakeRoom(l, lang, budget) == l && Chunkable(lang, body, budget) && Units(body) > Usable(l, lang, budget)
    ensures var (head, rest) := Cut(body, Usable(l, lang, budget));
            Chunkable(lang, rest, budget) && (head == "" ==> l.text != "") &&
            (|rest| < |body| || (rest == body && l.text != "")) &&
            LayFence(l, lang, body, budget) == LayFence(CloseWith(l, lang, head), lang, rest, budget)
  {
    hide Cut;
    hide Units;
    hide MaxWidth;
    hide LayFence;
    NoUnits();
    LayFenceStep(l, lang, body, budget);
    var usable := Usable(l, lang, budget);
    CutKeepsInk(body, usable, Some(lang));
    MaxWidthBound(body);
    if Cut(body, usable).0 != "" {
      CutKeepsChunkable(body, usable, Room(lang, budget));
    }
  }

  /** A fresh chunk can always be opened. */
  lemma FreshHasRoom(l: Layout, lang: string, budget: nat)
    requires l.text == ""
    ensures MakeRoom(l, lang, budget) == l
  {
  }

  /** From a chunk in which the fence can be opened. */
  lemma {:induction false} OpenFenceIsChained(l: Layout, lang: string, body: string, budget: nat)
    returns (parts: seq<string>)
    requires MakeRoom(l, lang, budget) == l && Chunkable(lang, body, budget)
    ensures LayFence(l, lang, body, budget) == Layout(l.pieces + FencePieces(l.text, lang, parts), "")
    ensures FenceChain(l.text, lang, body, budget, parts)
    decreases |body|, l.text != ""
  {
    hide Cut;
    hide Units;
    hide Chunkable;
    hide ProperCut;
    hide LayFence;
    hide FenceChain;
    hide FencePieces;
    hide RoomBehind;
    hide Usable;
    RoomIsUsable(l, lang, budget);
    var usable := Usable(l, lang, budget);
    if Units(body) <= usable {
      LayFenceStep(l, lang, body, budget);
      LastPart(l, lang, body, budget);
      parts := [body];
    } else {
      CutFenceStep(l, lang, body, budget);
      var (head, rest) := Cut(body, usable);
      CutExactly(body, usable, head, rest);
      FreshHasRoom(CloseWith(l, lang, head), lang, budget);
      var more := OpenFenceIsChained(CloseWith(l, lang, head), lang, rest, budget);
      parts := [head] + more;
      ChainFence(l.text, lang, body, budget, head, rest, more);
      MoreParts(l, lang, head, more);
    }
  }

  /** What one block makes of a layout. A fence is opened behind the text that lies there exactly if
      its opener still fits; otherwise that text is a chunk of its own. */
  ghost predicate LaysBlock(before: Layout, b: Block, budget: nat, after: Layout) {
    match b
    case Text(source) =>
      exists heads ::
        before.text == "" && after.pieces == before.pieces + TextPieces(heads) &&
        TextChain(source, budget, heads, after.text)
    case Fence(source, lang) =>
      exists parts ::
        after.text == "" &&
        if before.text == "" || Units(before.text) + Units("```" + lang + "\n") <= budget then
          after.pieces == before.pieces + FencePieces(before.text, lang, parts) &&
          FenceChain(before.text, lang, FenceBody(source), budget, parts)
        else
          after.pieces == before.pieces + [Piece(before.text, None)] + FencePieces("", lang, parts) &&
          FenceChain("", lang, FenceBody(source), budget, parts)
  }

  ghost predicate LaysBlocks(blocks: seq<Block>, budget: nat, after: Layout) {
    if blocks == [] then after == Layout([], "")
    else exists before :: LaysBlocks(Front(blocks), budget, before) && LaysBlock(before, Last(blocks), budget, after)
  }

  lemma FenceIsLaid(l: Layout, source: string, lang: string, budget: nat)
    requires Units(l.text) <= budget && Chunkable(lang, FenceBody(source), budget)
    ensures LaysBlock(l, Fence(source, lang), budget, LayFence(l, lang, FenceBody(source), budget))
  {
    hide Units;
    hide FenceBody;
    hide Chunkable;
    hide FenceChain;
    hide LayFence;
    NoUnits();
    var m := MakeRoom(l, lang, budget);
    var parts;
    if m == l {
      parts := OpenFenceIsChained(l, lang, FenceBody(source), budget);
    } else {
      FlushedFirst(l, lang, FenceBody(source), budget);
      parts := OpenFenceIsChained(m, lang, FenceBody(source), budget);
    }
  }

  lemma {:induction false} BlocksAreLaid(blocks: seq<Block>, n: nat, budget: Budget)
    requires n <= |blocks| && Alternating(blocks) && AllChunkable(blocks, budget)
    ensures LaysBlocks(blocks[..n], budget, LayBlocks(blocks[..n], budget))
  {
    hide LayText;
    hide LayFence;
    hide Chunkable;
    hide FenceBody;
    hide Units;
    hide TextChain;
    if n > 0 {
      BlocksAreLaid(blocks, n - 1, budget);
      var l := LayBlocks(blocks[..n - 1], budget);
      LaidFits(blocks, n - 1, budget, 0);
      assert n > 1 ==> blocks[n - 2].Fence? || blocks[n - 1].Fence?;
      assert Front(blocks[..n]) == blocks[..n - 1];
      match blocks[n - 1]
      case Text(source) => var heads := TextIsChained(l, source, budget);
      case Fence(source, lang) => FenceIsLaid(l, source, lang, budget);
    }
  }

  /** The pieces of a message are those of a layout that lays its blocks one by one with proper cuts;
      text left lying at the end is the last piece. */
  lemma MessageIsLaid(source: string, budget: Budget)
    requires AllChunkable(Blocks(source, 0), budget)
    ensures exists l ::
              LaysBlocks(Blocks(source, 0), budget, l) &&
              PiecesOf(source, budget) == if l.text == "" then l.pieces else l.pieces + [Piece(l.text, None)]
  {
    hide Blocks;
    hide LaysBlocks;
    hide LayBlocks;
    var blocks := Blocks(source, 0);
    BlocksAlternate(source, 0);
    BlocksAreLaid(blocks, |blocks|, budget);
    assert blocks[..|blocks|] == blocks;
  }

  /** What a piece shows: its text, and its fence between balanced markers. */
  lemma WhatAPieceShows(p: Piece)
    ensures p.Show() ==
            p.text + if p.fence.Some? then "```" + p.fence.value.lang + "\n" + p.fence.value.body + "\n```" else ""
  {
    assert p.fence.Some? ==>
             p.text + ("```" + p.fence.value.lang + "\n" + p.fence.value.body + "\n```") ==
             p.text + ("```" + p.fence.value.lang + "\n") + p.fence.value.body + "\n```";
    assert p.fence.None? ==> p.text + "" == p.text;
  }

  /** Each chunk stands by itself: read as a message of its own it is that text and that fence, so
      long as neither holds a backtick. */
  lemma AChunkStandsByItself(p: Piece)
    requires p.fence.Some? && TagChars(p.fence.value.lang) && '`' !in p.text && '`' !in p.fence.value.body
    ensures var lang, body := p.fence.value.lang, p.fence.value.body;
            var fence := "```" + lang + "\n" + body + "\n```";
            Blocks(p.Show(), 0) == TextRun(p.text) + [Fence(fence, lang)] && FenceBody(fence) == body + "\n"
  {
    hide Blocks;
    hide FenceBody;
    hide TextRun;
    var lang, body := p.fence.value.lang, p.fence.value.body;
    WhatAPieceShows(p);
    WrittenFenceIsFound(p.text, lang, body + "\n");
    assert "```" + lang + "\n" + body + "\n```" == FENCE + lang + "\n" + (body + "\n") + FENCE;
  }

  // ---------------------------------------------------------------------------------------
  // The numbering
  // ---------------------------------------------------------------------------------------

  predicate IsDigit(c: char) {
    '0' <= c <= '9'
  }

  /** The number a text of digits stands for. */
  function Value(digits: string): int {
    if digits == "" then 0 else Value(Front(digits)) * 10 + (Last(digits) as int - '0' as int)
  }

  /** A numeral stands for its number and has no leading zero. */
  lemma {:induction false} DecimalReads(n: nat)
    ensures Value(Decimal(n)) == n && Decimal(n) != "" && forall i :: 0 <= i < |Decimal(n)| ==> IsDigit(Decimal(n)[i])
    ensures n > 0 ==> Decimal(n)[0] != '0'
  {
    if n < 10 {
      assert Front(Decimal(n)) == "";
    } else {
      DecimalReads(n / 10);
      var last := ('0' as int + n % 10) as char;
      assert Decimal(n) == Decimal(n / 10) + [last];
      assert Front(Decimal(n)) == Decimal(n / 10) && Last(Decimal(n)) == last;
    }
  }

  /** Chunk i of several shows its piece and then " (i/n)"; a single chunk, or one that is not to be
      numbered, just its piece. */
  lemma HowChunksAreNumbered(source: string, limit: int, withIndicators: bool, i: nat)
    requires i < |ChunksOf(source, limit, withIndicators)|
    ensures var budget: Budget := Max(64, if withIndicators then limit - 10 else limit);
            var chunks, pieces := ChunksOf(source, limit, withIndicators), PiecesOf(source, budget);
            |chunks| == |pieces| &&
            (withIndicators && |pieces| > 1 ==>
              exists a, b :: Value(a) == i + 1 && Value(b) == |pieces| && (forall c :: c in a + b ==> IsDigit(c)) &&
                             chunks[i] == pieces[i].Show() + (" (" + a + "/" + b + ")")) &&
            (!withIndicators || |pieces| == 1 ==> chunks[i] == pieces[i].Show())
  {
    hide PiecesOf;
    hide Decimal;
    hide Value;
    hide IsDigit;
    hide Piece.Show;
    var pieces := PiecesOf(source, BudgetFor(limit, withIndicators));
    DecimalReads(i + 1);
    DecimalReads(|pieces|);
    var a, b := Decimal(i + 1), Decimal(|pieces|);
    assert forall c :: c in a + b ==> IsDigit(c);
    assert " (" + a + "/" + b + ")" == Indicator(i + 1, |pieces|);
    assert pieces[i].Show() + "" == pieces[i].Show();
  }

  /** What is rendered at a budget is the first of the chunks, without a number. */
  lemma TheFirstChunkIsRendered(source: string, budget: Budget)
    ensures var chunks := ChunksOf(source, budget, false);
            FirstChunk(source, budget) == if chunks == [] then "" else chunks[0]
  {
    hide PiecesOf;
    hide Piece.Show;
    assert BudgetFor(budget, false) == budget;
    var pieces := PiecesOf(source, budget);
    assert pieces != [] ==> pieces[0].Show() + "" == pieces[0].Show();
  }

  // ---------------------------------------------------------------------------------------
  // Fences and budgets
  // ---------------------------------------------------------------------------------------

  predicate IsFenceMark(s: string, i: nat) {
    i + 3 <= |s| && s[i] == '`' && s[i + 1] == '`' && s[i + 2] == '`'
  }

  predicate IsTagLetter(c: char) {
    'A' <= c <= 'Z' || 'a' <= c <= 'z' || '0' <= c <= '9' || c == '_' || c == '+' || c == '-'
  }

  /** The fence pattern: three backticks, a tag, blanks and a newline; then a body that ends at the
      first three backticks behind that, or at the end of the text. */
  ghost predicate IsFence(s: string, m: Match) {
    IsFenceMark(s, m.start) && m.start + 3 <= m.tagEnd <= m.newline < |s| &&
    (forall k :: m.start + 3 <= k < m.tagEnd ==> IsTagLetter(s[k])) &&
    (forall k :: m.tagEnd <= k < m.newline ==> s[k] == ' ' || s[k] == '\t') && s[m.newline] == '\n' &&
    m.newline < m.bodyEnd <= |s| && (forall k :: m.newline < k < m.bodyEnd ==> !IsFenceMark(s, k)) &&
    if m.bodyEnd < |s| then IsFenceMark(s, m.bodyEnd) && m.end == m.bodyEnd + 3 else m.end == |s|
  }

  lemma MarkOccurs(s: string, i: nat)
    ensures OccursAt(s, FENCE, i) <==> IsFenceMark(s, i)
  {
    if IsFenceMark(s, i) {
      assert s[i..i + 3] == FENCE;
    }
    if OccursAt(s, FENCE, i) {
      assert s[i..i + 3][0] == s[i] && s[i..i + 3][1] == s[i + 1] && s[i..i + 3][2] == s[i + 2];
    }
  }

  lemma {:induction false} SkipTagStops(s: string, i: nat)
    requires i <= |s|
    ensures var j := SkipTag(s, i);
            j < |s| ==> !IsTagLetter(s[j])
    decreases |s| - i
  {
    if i < |s| && IsTagChar(s[i]) {
      SkipTagStops(s, i + 1);
    }
  }

  lemma {:induction false} SkipBlanksStops(s: string, i: nat)
    requires i <= |s|
    ensures var j := SkipBlanks(s, i);
            j < |s| ==> s[j] != ' ' && s[j] != '\t'
    decreases |s| - i
  {
    if i < |s| && (s[i] == ' ' || s[i] == '\t') {
      SkipBlanksStops(s, i + 1);
    }
  }

  /** A match is found at a place exactly if the pattern holds there, and there is one way to match. */
  lemma MatchAtExactly(s: string, p: nat, m: Match)
    ensures MatchAt(s, p) == Some(m) <==> m.start == p && IsFence(s, m)
  {
    hide SkipTag;
    hide SkipBlanks;
    hide FindFence;
    hide OccursAt;
    hide IsFenceMark;
    forall i: nat
      ensures OccursAt(s, FENCE, i) <==> IsFenceMark(s, i)
    {
      MarkOccurs(s, i);
    }
    if IsFenceMark(s, p) {
      MarkIsInside(s, p);
      SkipTagStops(s, p + 3);
      SkipBlanksStops(s, SkipTag(s, p + 3));
      if m.start == p && IsFence(s, m) {
        OneOpener(s, p + 3, m.tagEnd, m.newline, SkipTag(s, p + 3), SkipBlanks(s, SkipTag(s, p + 3)));
      }
    }
  }

  lemma MarkIsInside(s: string, i: nat)
    requires IsFenceMark(s, i)
    ensures i + 3 <= |s|
  {
  }

  /** A tag ends at the first character that is none of its letters, blanks at the first that is none. */
  lemma OneOpener(s: string, from: nat, a: nat, b: nat, c: nat, d: nat)
    requires from <= a <= b < |s| && from <= c <= d <= |s|
    requires (forall k :: from <= k < a ==> IsTagLetter(s[k])) && (forall k :: from <= k < c ==> IsTagLetter(s[k]))
    requires (forall k :: a <= k < b ==> s[k] == ' ' || s[k] == '\t') && s[b] == '\n'
    requires (forall k :: c <= k < d ==> s[k] == ' ' || s[k] == '\t')
    requires (c < |s| ==> !IsTagLetter(s[c])) && (d < |s| ==> s[d] != ' ' && s[d] != '\t')
    ensures a == c && b == d
  {
    assert !IsTagLetter(s[a]);
  }

  /** The next budget is the largest that the observed expansion allows and that gives up at least a
      twentieth, or 64 if those are smaller. */
  lemma NextBudgetExactly(budget: nat, bound: nat, units: nat, n: nat)
    requires MINIMUM_BUDGET < budget && bound < units && n >= 64
    ensures n <= NextBudget(budget, bound, units) <==>
            n == 64 || (n * units <= budget * bound && n <= budget - budget / 20)
  {
    var product := budget * bound;
    DivisionIsExact(product, units, n);
    WithinBoth(n, product / units, budget - budget / 20);
  }

  lemma WithinBoth(n: int, a: int, b: int)
    requires n >= 64
    ensures n <= Max(64, Min(a, b)) <==> n == 64 || (n <= a && n <= b)
  {
  }

  lemma DivisionIsExact(a: nat, b: nat, n: nat)
    requires b > 0
    ensures n <= a / b <==> n * b <= a
  {
    var q, r := a / b, a % b;
    assert a == q * b + r && 0 <= r < b;
    TimesGrows(n, q, b);
    TimesGrows(q + 1, n, b);
    assert (q + 1) * b == q * b + b;
  }

  lemma TimesGrows(m: nat, n: nat, b: nat)
    ensures m <= n ==> m * b <= n * b
  {
    if m <= n {
      assert (n - m) * b >= 0;
    }
  }
}
