/**
 `chunk_telegram_text`: cut a message into chunks of a bounded width, closing a code fence at
 the end of a chunk and reopening it at the start of the next.
*/
module TelegramChunker {
  import opened Prelude
  import opened TelegramRender

  // ---------------------------------------------------------------------------------------
  // Fences: what the fence pattern matches
  // ---------------------------------------------------------------------------------------

  predicate IsTagChar(c: char) {
    'A' <= c <= 'Z' || 'a' <= c <= 'z' || '0' <= c <= '9' || c == '_' || c == '+' || c == '-'
  }

  function SkipTag(s: string, i: nat): (j: nat)
    requires i <= |s|
    ensures i <= j <= |s| && forall k :: i <= k < j ==> IsTagChar(s[k])
    decreases |s| - i
  {
    if i < |s| && IsTagChar(s[i]) then SkipTag(s, i + 1) else i
  }

  function SkipBlanks(s: string, i: nat): (j: nat)
    requires i <= |s|
    ensures i <= j <= |s| && forall k :: i <= k < j ==> s[k] == ' ' || s[k] == '\t'
    decreases |s| - i
  {
    if i < |s| && (s[i] == ' ' || s[i] == '\t') then SkipBlanks(s, i + 1) else i
  }

  /** The next run of three backticks at or after i, or the end of s. */
  function FindFence(s: string, i: nat): (j: nat)
    requires i <= |s|
    ensures i <= j <= |s| && (j < |s| ==> OccursAt(s, FENCE, j))
    ensures forall k :: i <= k < j ==> !OccursAt(s, FENCE, k)
    decreases |s| - i
  {
    if i == |s| || OccursAt(s, FENCE, i) then i else FindFence(s, i + 1)
  }

  /** One match of the fence pattern: opener, tag, blanks, newline, body, closer or end. */
  datatype Match = Match(start: nat, tagEnd: nat, newline: nat, bodyEnd: nat, end: nat)

  function MatchAt(s: string, p: nat): (m: Option<Match>)
    ensures m.Some? ==>
              p == m.value.start && p + 3 <= m.value.tagEnd <= m.value.newline < m.value.bodyEnd <= m.value.end <= |s|
    ensures m.Some? && m.value.end < |s| ==> m.value.end == m.value.bodyEnd + 3
  {
    if !OccursAt(s, FENCE, p) then None
    else
      var tagEnd := SkipTag(s, p + 3);
      var newline := SkipBlanks(s, tagEnd);
      if newline < |s| && s[newline] == '\n' then
        var bodyEnd := FindFence(s, newline + 1);
        Some(Match(p, tagEnd, newline, bodyEnd, if bodyEnd < |s| then bodyEnd + 3 else |s|))
      else None
  }

  /** The leftmost match starting at or after p. */
  function FirstMatch(s: string, p: nat): (m: Option<Match>)
    requires p <= |s|
    ensures m.Some? ==> p <= m.value.start && MatchAt(s, m.value.start) == m
    ensures forall q :: p <= q < (if m.Some? then m.value.start else |s|) ==> MatchAt(s, q).None?
    decreases |s| - p
  {
    if p == |s| then None else if MatchAt(s, p).Some? then MatchAt(s, p) else FirstMatch(s, p + 1)
  }

  datatype Block = Text(source: string) | Fence(source: string, lang: string)

  function Blocks(s: string, cursor: nat): seq<Block>
    requires cursor <= |s|
    decreases |s| - cursor
  {
    match FirstMatch(s, cursor)
    case None => TextRun(s[cursor..])
    case Some(m) =>
      TextRun(s[cursor..m.start]) + [Fence(s[m.start..m.end], s[m.start + 3..m.tagEnd])] + Blocks(s, m.end)
  }

  function TextRun(s: string): seq<Block> {
    if s == "" then [] else [Text(s)]
  }

  function Sources(blocks: seq<Block>): string {
    if blocks == [] then "" else blocks[0].source + Sources(blocks[1..])
  }

  lemma SourcesPrepend(run: string, fence: Block, rest: seq<Block>)
    ensures Sources(TextRun(run) + [fence] + rest) == run + fence.source + Sources(rest)
  {
    var tail := [fence] + rest;
    assert tail[0] == fence && tail[1..] == rest;
    assert TextRun(run) + [fence] + rest == TextRun(run) + tail;
    if run != "" {
      assert (TextRun(run) + tail)[0] == Text(run) && (TextRun(run) + tail)[1..] == tail;
      assert run + (fence.source + Sources(rest)) == run + fence.source + Sources(rest);
    } else {
      assert TextRun(run) + tail == tail;
    }
  }

  /** The segmentation loses nothing: its blocks concatenate back to the source. */
  lemma {:induction false} BlocksConcatenate(s: string, cursor: nat)
    requires cursor <= |s|
    ensures Sources(Blocks(s, cursor)) == s[cursor..]
    decreases |s| - cursor
  {
    hide FirstMatch;
    hide MatchAt;
    match FirstMatch(s, cursor)
    case None =>
      if cursor < |s| {
        assert TextRun(s[cursor..])[1..] == [];
      }
    case Some(m) =>
      BlocksConcatenate(s, m.end);
      SourcesPrepend(s[cursor..m.start], Fence(s[m.start..m.end], s[m.start + 3..m.tagEnd]), Blocks(s, m.end));
      Reassemble(s, cursor, m.start, m.end);
  }

  lemma Reassemble(s: string, a: nat, b: nat, c: nat)
    requires a <= b <= c <= |s|
    ensures s[a..b] + s[b..c] + s[c..] == s[a..]
  {
    assert s[a..b] + s[b..c] == s[a..c];
  }

  ghost predicate TagChars(lang: string) {
    forall i :: 0 <= i < |lang| ==> IsTagChar(lang[i])
  }

  lemma TagCharsMeans(lang: string)
    requires TagChars(lang)
    ensures forall c :: c in lang ==> IsTagChar(c)
  {
  }

  /** Text runs are non-empty and always separated by fences. */
  ghost predicate Alternating(blocks: seq<Block>) {
    (forall i :: 0 <= i < |blocks| && blocks[i].Text? ==> blocks[i].source != "") &&
    (forall i :: 0 <= i < |blocks| && blocks[i].Fence? ==> TagChars(blocks[i].lang)) &&
    (forall i, j :: 0 <= i && j == i + 1 && j < |blocks| ==> blocks[i].Fence? || blocks[j].Fence?)
  }

  lemma {:induction false} BlocksAlternate(s: string, cursor: nat)
    requires cursor <= |s|
    ensures Alternating(Blocks(s, cursor))
    decreases |s| - cursor
  {
    hide FirstMatch;
    hide MatchAt;
    hide Alternating;
    hide TextRun;
    hide TagChars;
    match FirstMatch(s, cursor)
    case None =>
      RunAlternates(s[cursor..]);
    case Some(m) =>
      BlocksAlternate(s, m.end);
      TagOfMatch(s, m.start);
      FenceAlternates(s[cursor..m.start], Fence(s[m.start..m.end], s[m.start + 3..m.tagEnd]), Blocks(s, m.end));
  }

  lemma RunAlternates(run: string)
    ensures Alternating(TextRun(run))
  {
  }

  lemma FenceAlternates(run: string, fence: Block, rest: seq<Block>)
    requires fence.Fence? && TagChars(fence.lang) && Alternating(rest)
    ensures Alternating(TextRun(run) + [fence] + rest)
  {
    hide TagChars;
  }

  lemma TagOfMatch(s: string, p: nat)
    requires MatchAt(s, p).Some?
    ensures TagChars(s[p + 3..MatchAt(s, p).value.tagEnd])
  {
    hide FindFence;
    hide SkipBlanks;
    hide OccursAt;
  }

  /** The body the chunker works on: after the first newline, without a closing fence. */
  function FenceBody(source: string): string {
    var newline := FirstNewline(source, 0);
    var body := if newline < |source| then source[newline + 1..] else "";
    if |body| >= 3 && body[|body| - 3..] == FENCE then body[..|body| - 3] else body
  }

  function FirstNewline(s: string, i: nat): (j: nat)
    requires i <= |s|
    ensures i <= j <= |s| && (j < |s| ==> s[j] == '\n') && forall k :: i <= k < j ==> s[k] != '\n'
    decreases |s| - i
  {
    if i == |s| || s[i] == '\n' then i else FirstNewline(s, i + 1)
  }

  /** The opener line of a match holds no newline before the one that ends it. */
  lemma OpenerLine(s: string, p: nat)
    requires MatchAt(s, p).Some?
    ensures var m := MatchAt(s, p).value;
            FirstNewline(s[m.start..m.end], 0) == m.newline - m.start
  {
    hide FindFence;
    var m := MatchAt(s, p).value;
    assert s[p..p + 3] == FENCE;
    forall k | m.start <= k < m.newline
      ensures s[k] != '\n'
    {
      if k < p + 3 {
        assert s[k] == s[p..p + 3][k - p];
      }
    }
    var block := s[m.start..m.end];
    assert block[m.newline - m.start] == '\n';
    assert forall k :: 0 <= k < m.newline - m.start ==> block[k] == s[m.start + k];
  }

  lemma BodyOfMatch(s: string, p: nat)
    requires MatchAt(s, p).Some?
    ensures var m := MatchAt(s, p).value;
            var body := s[m.newline + 1..m.end];
            s[m.newline + 1..m.bodyEnd] ==
            if |body| >= 3 && body[|body| - 3..] == FENCE then body[..|body| - 3] else body
  {
    hide SkipTag;
    hide SkipBlanks;
    hide FindFence;
    var m := MatchAt(s, p).value;
    var body := s[m.newline + 1..m.end];
    if m.bodyEnd < |s| {
      assert OccursAt(s, FENCE, m.bodyEnd);
      assert body[|body| - 3..] == s[m.bodyEnd..m.end];
    } else if |body| >= 3 {
      var tail := |s| - 3;
      assert !OccursAt(s, FENCE, tail);
      assert body[|body| - 3..] == s[tail..tail + 3];
    }
  }

  /** That body is exactly what the pattern's body group captured. */
  lemma FenceBodyIsTheGroup(s: string, p: nat)
    requires MatchAt(s, p).Some?
    ensures var m := MatchAt(s, p).value;
            FenceBody(s[m.start..m.end]) == s[m.newline + 1..m.bodyEnd]
  {
    hide MatchAt;
    var m := MatchAt(s, p).value;
    OpenerLine(s, p);
    BodyOfMatch(s, p);
    assert s[m.start..m.end][m.newline - m.start + 1..] == s[m.newline + 1..m.end];
  }

  // ---------------------------------------------------------------------------------------
  // Chunks: at most one run of text, then at most one balanced fence
  // ---------------------------------------------------------------------------------------

  datatype FencePiece = FencePiece(lang: string, body: string)

  datatype Piece = Piece(text: string, fence: Option<FencePiece>) {
    function Show(): string {
      match fence
      case None => text
      case Some(f) => text + Opener(f.lang) + f.body + CLOSER
    }
  }

  function Opener(lang: string): string {
    FENCE + lang + "\n"
  }

  /** The piece fits, unless it is text with a fence opened and closed behind it that had
      room for the opener but not for the closer. */
  ghost predicate SizeOk(p: Piece, budget: nat) {
    Units(p.Show()) <= budget ||
    (p.text != "" && p.fence.Some? && p.fence.value.body == "" &&
     Units(p.text) + Units(Opener(p.fence.value.lang)) <= budget)
  }

  lemma ShowUnits(p: Piece)
    ensures Units(p.Show()) ==
            Units(p.text) +
            if p.fence.Some? then Units(Opener(p.fence.value.lang)) + Units(p.fence.value.body) + 4 else 0
  {
    if p.fence.Some? {
      var f := p.fence.value;
      UnitsConcat(p.text, Opener(f.lang));
      UnitsConcat(p.text + Opener(f.lang), f.body);
      UnitsConcat(p.text + Opener(f.lang) + f.body, CLOSER);
      CloserUnits();
    }
  }

  lemma CloserUnits()
    ensures Units(CLOSER) == 4
  {
    assert CLOSER[1..] == "```" && CLOSER[1..][1..] == "``";
    assert "``"[1..] == "`" && "`"[1..] == "";
  }

  // ---------------------------------------------------------------------------------------
  // Content: the characters that are not spaces, each marked with the fence it lies in
  // ---------------------------------------------------------------------------------------

  datatype Ink = Ink(c: char, fence: Option<string>)

  function InkOf(s: string, fence: Option<string>): seq<Ink> {
    if s == "" then [] else InkOf(Front(s), fence) + if Last(s) == ' ' then [] else [Ink(Last(s), fence)]
  }

  lemma {:induction false} InkConcat(a: string, b: string, fence: Option<string>)
    ensures InkOf(a + b, fence) == InkOf(a, fence) + InkOf(b, fence)
  {
    if b == "" {
      assert a + b == a;
    } else {
      assert Front(a + b) == a + Front(b) && Last(a + b) == Last(b);
      InkConcat(a, Front(b), fence);
    }
  }

  lemma {:induction false} SpacesHaveNoInk(s: string, fence: Option<string>)
    requires AllSpaces(s)
    ensures InkOf(s, fence) == []
  {
    if s != "" {
      SpacesHaveNoInk(Front(s), fence);
    }
  }

  function PieceInk(p: Piece): seq<Ink> {
    InkOf(p.text, None) + if p.fence.Some? then InkOf(p.fence.value.body, Some(p.fence.value.lang)) else []
  }

  function PiecesInk(ps: seq<Piece>): seq<Ink> {
    if ps == [] then [] else PiecesInk(Front(ps)) + PieceInk(Last(ps))
  }

  function BlockInk(b: Block): seq<Ink> {
    match b
    case Text(source) => InkOf(source, None)
    case Fence(source, lang) => InkOf(FenceBody(source), Some(lang))
  }

  function BlocksInk(bs: seq<Block>): seq<Ink> {
    if bs == [] then [] else BlocksInk(Front(bs)) + BlockInk(Last(bs))
  }

  /** A cut keeps all the ink. */
  lemma CutKeepsInk(text: string, limit: int, fence: Option<string>)
    requires limit < Units(text)
    ensures var (head, rest) := Cut(text, limit);
            InkOf(head, fence) + InkOf(rest, fence) == InkOf(text, fence) &&
            Units(head) <= Max(0, limit) &&
            (head == "" ==> rest == text) && (head != "" ==> |rest| < |text|) &&
            (head == "" <==> text == "" || limit < Width(text[0]))
  {
    hide Cut;
    hide Units;
    hide InkOf;
    hide Width;
    var gap := CutConserves(text, limit);
    var (head, rest) := Cut(text, limit);
    InkConcat(head + gap, rest, fence);
    InkConcat(head, gap, fence);
    SpacesHaveNoInk(gap, fence);
  }

  // ---------------------------------------------------------------------------------------
  // When a fence can be chunked at all
  // ---------------------------------------------------------------------------------------

  /** The width of the widest character. */
  function MaxWidth(s: string): nat {
    if s == "" then 0 else Max(MaxWidth(Front(s)), Width(Last(s)))
  }

  lemma {:induction false} MaxWidthConcat(a: string, b: string)
    ensures MaxWidth(a + b) == Max(MaxWidth(a), MaxWidth(b))
  {
    if b == "" {
      assert a + b == a;
    } else {
      assert Front(a + b) == a + Front(b) && Last(a + b) == Last(b);
      MaxWidthConcat(a, Front(b));
    }
  }

  lemma {:induction false} MaxWidthBound(s: string)
    ensures MaxWidth(s) <= Units(s) && MaxWidth(s) <= 2
    ensures s != "" ==> Width(s[0]) <= MaxWidth(s)
  {
    if s != "" {
      MaxWidthBound(Front(s));
      UnitsConcat(Front(s), [Last(s)]);
      assert Front(s) + [Last(s)] == s;
      assert [Last(s)][1..] == "";
    }
  }

  /** What is left of the budget for a fence body in a fresh chunk. */
  function Room(lang: string, budget: nat): int {
    budget - Units(Opener(lang)) - 4
  }

  predicate Chunkable(lang: string, body: string, budget: nat) {
    MaxWidth(body) <= Room(lang, budget)
  }

  /** Cutting a body does not change whether the rest can be chunked. */
  lemma CutKeepsChunkable(body: string, limit: int, room: int)
    requires limit < Units(body) && limit <= room && Cut(body, limit).0 != ""
    ensures MaxWidth(Cut(body, limit).1) <= room <==> MaxWidth(body) <= room
  {
    var gap := CutConserves(body, limit);
    var (head, rest) := Cut(body, limit);
    MaxWidthConcat(head + gap, rest);
    MaxWidthConcat(head, gap);
    MaxWidthBound(head);
    MaxWidthBound(gap);
    MaxWidthBound("");
  }

  lemma CutStaysChunkable(lang: string, body: string, limit: int, budget: nat)
    requires limit < Units(body) && limit <= Room(lang, budget) && Cut(body, limit).0 != ""
    ensures Chunkable(lang, Cut(body, limit).1, budget) <==> Chunkable(lang, body, budget)
  {
    hide Cut;
    hide Units;
    hide MaxWidth;
    CutKeepsChunkable(body, limit, Room(lang, budget));
  }

  /** A fence whose tag leaves two units in a fresh chunk is always chunkable. */
  lemma ShortTagIsChunkable(lang: string, body: string, budget: nat)
    requires TagChars(lang)
    ensures |lang| + 10 <= budget ==> Chunkable(lang, body, budget)
    ensures Room(lang, budget) == budget - |lang| - 8
  {
    MaxWidthBound(body);
    OpenerUnits(lang);
  }

  lemma OpenerUnits(lang: string)
    requires TagChars(lang)
    ensures Units(Opener(lang)) == |lang| + 4
  {
    NarrowUnits(Opener(lang));
  }

  lemma {:induction false} NarrowUnits(s: string)
    requires forall i :: 0 <= i < |s| ==> s[i] as int <= 0xFFFF
    ensures Units(s) == |s|
  {
    if s != "" {
      NarrowUnits(s[1..]);
    }
  }

  // ---------------------------------------------------------------------------------------
  // The chunker
  // ---------------------------------------------------------------------------------------

  ghost predicate NoFence(ps: seq<Piece>) {
    forall i :: 0 <= i < |ps| ==> ps[i].fence.None?
  }

  ghost predicate OnlyTextAdded(before: seq<Piece>, after: seq<Piece>) {
    before <= after && NoFence(after[|before|..])
  }

  lemma OnlyTextAddedSelf(ps: seq<Piece>)
    ensures OnlyTextAdded(ps, ps)
  {
  }

  lemma OnlyTextSnoc(before: seq<Piece>, after: seq<Piece>, head: string)
    requires OnlyTextAdded(before, after)
    ensures OnlyTextAdded(before, after + [Piece(head, None)])
  {
    assert (after + [Piece(head, None)])[|before|..] == after[|before|..] + [Piece(head, None)];
  }

  lemma OnlyTextKeeps(before: seq<Piece>, after: seq<Piece>)
    requires OnlyTextAdded(before, after)
    ensures NoFence(before) ==> NoFence(after)
    ensures |before| <= |after|
  {
    assert after == before + after[|before|..];
  }

  type Budget = n: nat | n >= MINIMUM_BUDGET witness MINIMUM_BUDGET

  // ---------------------------------------------------------------------------------------
  // The layout
  // ---------------------------------------------------------------------------------------

  /** The finished pieces, and the run of text lying in the open chunk. */
  datatype Layout = Layout(pieces: seq<Piece>, text: string)

  /** A run of text in fresh chunks: cut after cut, each as long as a chunk allows, and the rest
      left lying. */
  function LayText(l: Layout, run: string, budget: nat): Layout
    decreases |run|
  {
    if run == "" then l
    else if Units(run) <= budget then Layout(l.pieces, run)
    else
      var (head, rest) := Cut(run, budget);
      if |rest| >= |run| then l else LayText(Layout(l.pieces + [Piece(head, None)], ""), rest, budget)
  }

  /** The layout in which a fence can be opened: behind the text if the opener still fits. */
  function MakeRoom(l: Layout, lang: string, budget: nat): Layout {
    if Units(Opener(lang)) <= budget - Units(l.text) || l.text == "" then l
    else Layout(l.pieces + [Piece(l.text, None)], "")
  }

  /** What a chunk can take of a fence's body behind its opener and before its closer. */
  function Usable(l: Layout, lang: string, budget: nat): int {
    budget - Units(l.text) - Units(Opener(lang)) - 4
  }

  function CloseWith(l: Layout, lang: string, part: string): Layout {
    Layout(l.pieces + [Piece(l.text, Some(FencePiece(lang, part)))], "")
  }

  /** A fence: behind the text if that leaves room, then in chunks of its own. A fence that cannot
      move on is left as it is. */
  function LayFence(l: Layout, lang: string, body: string, budget: nat): Layout
    decreases |body|, l.text != ""
  {
    var m := MakeRoom(l, lang, budget);
    var usable := Usable(m, lang, budget);
    if Units(body) <= usable then CloseWith(m, lang, body)
    else
      var (head, rest) := Cut(body, usable);
      if |rest| < |body| || (rest == body && m.text != "") then
        LayFence(CloseWith(m, lang, head), lang, rest, budget)
      else l
  }

  /** One round of that. */
  lemma LayFenceStep(l: Layout, lang: string, body: string, budget: nat)
    ensures var m := MakeRoom(l, lang, budget);
            var usable := Usable(m, lang, budget);
            var (head, rest) := Cut(body, usable);
            (Units(body) <= usable ==> LayFence(l, lang, body, budget) == CloseWith(m, lang, body)) &&
            (Units(body) > usable && (|rest| < |body| || (rest == body && m.text != "")) ==>
              LayFence(l, lang, body, budget) == LayFence(CloseWith(m, lang, head), lang, rest, budget))
  {
  }

  function LayBlocks(blocks: seq<Block>, budget: nat): Layout {
    if blocks == [] then Layout([], "")
    else
      var before := LayBlocks(Front(blocks), budget);
      match Last(blocks)
      case Text(source) => LayText(before, source, budget)
      case Fence(source, lang) => LayFence(before, lang, FenceBody(source), budget)
  }

  /** The pieces once the text still lying is flushed. */
  function Finished(l: Layout): seq<Piece> {
    if l.text == "" then l.pieces else l.pieces + [Piece(l.text, None)]
  }

  /** The pieces of a message. */
  function PiecesOf(source: string, budget: nat): seq<Piece> {
    Finished(LayBlocks(Blocks(source, 0), budget))
  }

  class Chunker {
    const budget: Budget
    var chunks: seq<string>
    var current: seq<string>
    var currentUnits: nat
    ghost var pieces: seq<Piece>
    ghost var text: string

    constructor (budget: Budget)
      ensures Resting() && text == "" && pieces == [] && this.budget == budget
    {
      this.budget := budget;
      chunks, current, currentUnits := [], [], 0;
      pieces, text := [], "";
    }

    /** The finished chunks show the finished pieces, each within its size. */
    ghost predicate Valid()
      reads this
    {
      currentUnits == Units(Flatten(current)) && |chunks| == |pieces| &&
      forall i :: 0 <= i < |pieces| ==> chunks[i] == pieces[i].Show() && SizeOk(pieces[i], budget)
    }

    /** Between blocks only a run of text may lie in the open chunk. */
    ghost predicate Resting()
      reads this
    {
      Valid() && current == (if text == "" then [] else [text]) && Units(text) <= budget
    }

    /** A fence's opener has been written behind the text. */
    ghost predicate Opened(lang: string)
      reads this
    {
      Valid() && current != [] && Flatten(current) == text + Opener(lang) &&
      currentUnits == Units(text) + Units(Opener(lang)) && (text != "" ==> currentUnits <= budget)
    }

    ghost function Laid(): Layout
      reads this`pieces, this`text
    {
      Layout(pieces, text)
    }

    ghost function Written(): seq<Ink>
      reads this
    {
      PiecesInk(pieces) + InkOf(text, None)
    }

    method Append(piece: string)
      requires currentUnits == Units(Flatten(current))
      modifies this`current, this`currentUnits
      ensures current == old(current) + [piece]
      ensures Flatten(current) == old(Flatten(current)) + piece
      ensures currentUnits == old(currentUnits) + Units(piece) == Units(Flatten(current))
    {
      assert Front(current + [piece]) == current;
      UnitsConcat(Flatten(current), piece);
      current := current + [piece];
      currentUnits := currentUnits + Units(piece);
    }

    /** Close the open chunk, which shows p; nothing happens when there is none. */
    method Flush(ghost p: Piece)
      requires Valid()
      requires current != [] ==> Flatten(current) == p.Show() && SizeOk(p, budget)
      modifies this
      ensures Valid() && current == [] && text == ""
      ensures pieces == old(pieces) + if old(current) == [] then [] else [p]
    {
      hide SizeOk;
      if current != [] {
        chunks := chunks + [Flatten(current)];
        current := [];
        currentUnits := 0;
        pieces := pieces + [p];
      }
      text := "";
    }

    /** Lay a run of text into the empty chunk. */
    method AppendText(run: string)
      requires Resting() && text == "" && Units(run) <= budget
      modifies this
      ensures Resting() && text == run && pieces == old(pieces)
      ensures run != "" ==> current != []
      ensures Flatten(current) == run == Piece(run, None).Show() && SizeOk(Piece(run, None), budget)
    {
      hide Units;
      if run != "" {
        Append(run);
      }
      text := run;
    }

    lemma RestingWidth()
      requires Resting()
      ensures currentUnits == Units(text) <= budget
      ensures current == [] <==> text == ""
    {
      assert text != "" ==> Flatten([text]) == text by {
        assert Front([text]) == [];
      }
    }

    /** Close a chunk that holds one head of text. */
    method FlushText(head: string)
      requires Resting() && text == "" && head != "" && Units(head) <= budget
      modifies this
      ensures Resting() && text == ""
      ensures pieces == old(pieces) + [Piece(head, None)]
      ensures Written() == old(Written()) + InkOf(head, None)
    {
      hide Units;
      hide InkOf;
      hide SizeOk;
      hide Flatten;
      AppendText(head);
      InkOfText(pieces, head);
      NoInk();
      Flush(Piece(head, None));
    }

    method AddText(block: string)
      requires Resting() && text == ""
      modifies this
      ensures Resting()
      ensures Written() == old(Written()) + InkOf(block, None)
      ensures Laid() == LayText(old(Laid()), block, budget)
      ensures OnlyTextAdded(old(pieces), pieces)
      ensures block != "" ==> text != "" || |pieces| > |old(pieces)|
    {
      hide InkOf;
      hide PiecesInk;
      hide Cut;
      hide Resting;
      hide Units;
      hide OnlyTextAdded;
      NoInk();
      NoUnits();
      OnlyTextAddedSelf(pieces);
      var remainder := block;
      while remainder != ""
        invariant Resting() && (text != "" ==> remainder == "")
        invariant Written() + InkOf(remainder, None) == old(Written()) + InkOf(block, None)
        invariant LayText(Laid(), remainder, budget) == LayText(old(Laid()), block, budget)
        invariant OnlyTextAdded(old(pieces), pieces) && |pieces| >= |old(pieces)|
        invariant |remainder| < |block| ==> text != "" || |pieces| > |old(pieces)|
        decreases |remainder|
      {
        RestingWidth();
        if Units(remainder) <= budget - currentUnits {
          AppendText(remainder);
          remainder := "";
        } else {
          CutKeepsInk(remainder, budget, None);
          var head, rest := SplitAt(remainder, budget - currentUnits);
          if head == "" {
            // The degenerate-budget branch: a fresh chunk always takes one character.
            assert false;
          }
          OnlyTextSnoc(old(pieces), pieces, head);
          FlushText(head);
          remainder := rest;
        }
      }
    }

    /** Close the open chunk if it holds a run of text. */
    method FlushRun()
      requires Resting()
      modifies this
      ensures Resting() && text == "" && current == []
      ensures pieces == Finished(old(Laid()))
      ensures Written() == old(Written()) && |pieces| >= |old(pieces)|
    {
      hide Units;
      hide InkOf;
      hide PiecesInk;
      hide SizeOk;
      RestingShows();
      NoInk();
      NoUnits();
      InkOfText(pieces, text);
      assert pieces + [] == pieces;
      Flush(Piece(text, None));
    }

    lemma RestingShows()
      requires Resting()
      ensures Flatten(current) == text && Units(text) == currentUnits
      ensures SizeOk(Piece(text, None), budget)
    {
      assert text != "" ==> Flatten([text]) == text by {
        assert Front([text]) == [];
      }
    }

    /** Write a fence opener behind whatever text the chunk holds. */
    method OpenFence(lang: string)
      requires Resting()
      modifies this`current, this`currentUnits
      ensures Valid() && current != [] && Flatten(current) == text + Opener(lang)
      ensures currentUnits == Units(text) + Units(Opener(lang))
    {
      hide SizeOk;
      RestingShows();
      Append(Opener(lang));
    }

    /** Open a fence, behind the text if that leaves room for the opener, else in a new chunk; tells
        whether the chunk was empty, and what it can take beside a closer. */
    method StartFence(lang: string) returns (untouched: bool, usable: int)
      requires Resting()
      modifies this
      ensures Opened(lang)
      ensures Laid() == MakeRoom(old(Laid()), lang, budget)
      ensures (untouched <==> text == "") && usable == Usable(Laid(), lang, budget)
      ensures text == "" || text == old(text)
      ensures Written() == old(Written()) && |pieces| >= |old(pieces)|
    {
      hide Units;
      hide InkOf;
      hide PiecesInk;
      hide SizeOk;
      NoUnits();
      RestingWidth();
      hide Resting;
      if Units(Opener(lang)) > budget - currentUnits {
        FlushRun();
        RestingWidth();
      }
      CloserUnits();
      untouched := current == [];
      OpenFence(lang);
      usable := budget - currentUnits - Units(CLOSER);
    }

    /** Close the chunk behind an opened fence, with part of its body. */
    method CloseFence(lang: string, part: string)
      requires Valid() && current != [] && Flatten(current) == text + Opener(lang)
      requires SizeOk(Piece(text, Some(FencePiece(lang, part))), budget)
      modifies this
      ensures Resting() && text == ""
      ensures pieces == old(pieces) + [Piece(old(text), Some(FencePiece(lang, part)))]
      ensures Written() == old(Written()) + InkOf(part, Some(lang))
    {
      hide Units;
      hide SizeOk;
      hide InkOf;
      hide PiecesInk;
      hide Flatten;
      ghost var p := Piece(text, Some(FencePiece(lang, part)));
      NoInk();
      NoUnits();
      PiecesInkSnoc(pieces, p);
      Append(part);
      Append(CLOSER);
      Flush(p);
    }

    /** The whole rest of a fence's body, which fits. */
    method LayWhole(lang: string, body: string)
      requires Opened(lang) && Units(body) <= Usable(Laid(), lang, budget)
      modifies this
      ensures Resting() && text == "" && Laid() == CloseWith(old(Laid()), lang, body)
      ensures Written() == old(Written()) + InkOf(body, Some(lang)) && Chunkable(lang, body, budget)
    {
      hide Units;
      hide InkOf;
      hide PiecesInk;
      hide MaxWidth;
      hide SizeOk;
      hide Resting;
      hide Flatten;
      hide Chunkable;
      ghost var usable := Usable(Laid(), lang, budget);
      FenceSize(text, lang, body, budget, usable);
      FitsIsChunkable(lang, body, budget, usable);
      CloseFence(lang, body);
    }

    /** A cut of a fence's body, or nothing when a fresh chunk takes nothing. */
    method LayCut(lang: string, body: string, untouched: bool, usable: int) returns (stuck: bool, rest: string)
      requires Opened(lang) && (untouched <==> text == "") && usable == Usable(Laid(), lang, budget) < Units(body)
      modifies this
      ensures stuck ==> !Chunkable(lang, body, budget)
      ensures !stuck ==>
                var (head, tail) := Cut(body, usable);
                Resting() && text == "" && rest == tail && Laid() == CloseWith(old(Laid()), lang, head)
      ensures !stuck ==> Written() + InkOf(rest, Some(lang)) == old(Written()) + InkOf(body, Some(lang))
      ensures !stuck ==> (Chunkable(lang, rest, budget) <==> Chunkable(lang, body, budget))
      ensures !stuck ==> |rest| < |body| || (rest == body && old(text) != "")
    {
      hide Units;
      hide InkOf;
      hide PiecesInk;
      hide SizeOk;
      hide Resting;
      hide Flatten;
      hide Cut;
      hide Chunkable;
      hide Opener;
      NoUnits();
      OneCut(text, lang, body, budget, usable);
      var head;
      head, rest := SplitAt(body, usable);
      stuck := head == "" && untouched;
      if stuck {
        // The next round would meet the same body and the same empty chunk.
        return;
      }
      CloseFence(lang, head);
    }

    /** One chunk's worth of a fence: the whole rest of its body, a cut of it, or nothing. */
    method FenceRound(lang: string, body: string) returns (done: bool, stuck: bool, rest: string)
      requires Resting()
      modifies this
      ensures stuck ==> !done && !Chunkable(lang, body, budget)
      ensures !stuck ==>
                Resting() && text == "" &&
                Written() + InkOf(rest, Some(lang)) == old(Written()) + InkOf(body, Some(lang))
      ensures !stuck ==> |pieces| > |old(pieces)|
      ensures !stuck && done ==> Laid() == LayFence(old(Laid()), lang, body, budget)
      ensures !stuck && !done ==> LayFence(Laid(), lang, rest, budget) == LayFence(old(Laid()), lang, body, budget)
      ensures !stuck && done ==> Chunkable(lang, body, budget) && rest == ""
      ensures !stuck && !done ==>
                (Chunkable(lang, rest, budget) <==> Chunkable(lang, body, budget)) &&
                (|rest| < |body| || (rest == body && old(text) != ""))
    {
      hide Units;
      hide InkOf;
      hide PiecesInk;
      hide Cut;
      hide Chunkable;
      hide SizeOk;
      hide LayFence;
      hide Resting;
      hide Opened;
      hide MakeRoom;
      LayFenceStep(Laid(), lang, body, budget);
      NoInk();
      var untouched, usable := StartFence(lang);
      done, stuck, rest := Units(body) <= usable, false, "";
      if done {
        LayWhole(lang, body);
        assert Written() + [] == Written();
      } else {
        stuck, rest := LayCut(lang, body, untouched, usable);
      }
    }

    /** Emit one fence block. It comes back false exactly when no number of chunks can hold
        it, where the program's loop would close and reopen the fence for ever. */
    method AddFence(lang: string, whole: string) returns (ok: bool)
      requires Resting()
      modifies this
      ensures ok <==> Chunkable(lang, whole, budget)
      ensures ok ==> Laid() == LayFence(old(Laid()), lang, whole, budget)
      ensures ok ==> Resting() && text == "" && Written() == old(Written()) + InkOf(whole, Some(lang))
      ensures ok ==> |pieces| > |old(pieces)|
    {
      hide InkOf;
      hide PiecesInk;
      hide Chunkable;
      hide Resting;
      hide LayFence;
      NoInk();
      var body := whole;
      while true
        invariant Resting()
        invariant Chunkable(lang, body, budget) <==> Chunkable(lang, whole, budget)
        invariant Written() + InkOf(body, Some(lang)) == old(Written()) + InkOf(whole, Some(lang))
        invariant LayFence(Laid(), lang, body, budget) == LayFence(old(Laid()), lang, whole, budget)
        invariant |pieces| >= |old(pieces)|
        decreases |body|, text != ""
      {
        var done, stuck, rest := FenceRound(lang, body);
        if done || stuck {
          assert Written() + [] == Written();
          return done;
        }
        body := rest;
      }
    }

    /** All blocks of a message, up to the first fence that cannot be chunked. */
    method AddBlocks(blocks: seq<Block>) returns (ok: bool)
      requires Resting() && text == "" && pieces == [] && Alternating(blocks)
      modifies this
      ensures ok <==> AllChunkable(blocks, budget)
      ensures ok ==> pieces == Finished(LayBlocks(blocks, budget))
      ensures ok ==> Valid() && current == [] && PiecesInk(pieces) == BlocksInk(blocks)
      ensures ok && blocks != [] ==> pieces != []
      ensures ok && TextOnly(blocks) ==> NoFence(pieces)
    {
      hide InkOf;
      hide PiecesInk;
      hide Chunkable;
      hide Resting;
      hide AllChunkable;
      hide TextOnly;
      hide NoFence;
      hide OnlyTextAdded;
      hide LayText;
      hide LayFence;
      NoInk();
      EmptyPieces();
      BlocksSoFar(blocks, 0, budget);
      for i := 0 to |blocks|
        invariant Resting() && (i == 0 || blocks[i - 1].Fence? ==> text == "")
        invariant Written() == BlocksInk(blocks[..i])
        invariant AllChunkable(blocks[..i], budget)
        invariant Laid() == LayBlocks(blocks[..i], budget)
        invariant i > 0 ==> text != "" || pieces != []
        invariant TextOnly(blocks[..i]) ==> NoFence(pieces)
      {
        BlocksSoFar(blocks, i, budget);
        LayOneMore(blocks, i, budget);
        match blocks[i] {
          case Text(source) =>
            ghost var before := pieces;
            AddText(source);
            OnlyTextKeeps(before, pieces);
          case Fence(source, lang) =>
            ok := AddFence(lang, FenceBody(source));
            if !ok {
              return;
            }
        }
      }
      assert blocks[..|blocks|] == blocks;
      FlushLast();
      ok := true;
    }

    method FlushLast()
      requires Resting()
      modifies this
      ensures pieces == Finished(old(Laid()))
      ensures Valid() && current == [] && PiecesInk(pieces) == old(Written())
      ensures old(text) != "" || old(pieces) != [] ==> pieces != []
      ensures NoFence(old(pieces)) ==> NoFence(pieces)
    {
      hide Units;
      hide InkOf;
      hide PiecesInk;
      hide SizeOk;
      RestingShows();
      NoInk();
      NoUnits();
      InkOfText(pieces, text);
      assert Written() == PiecesInk(pieces) + InkOf(text, None);
      assert PiecesInk(pieces) + [] == PiecesInk(pieces);
      assert pieces + [] == pieces;
      Flush(Piece(text, None));
    }
  }

  lemma LayOneMore(blocks: seq<Block>, i: nat, budget: nat)
    requires i < |blocks|
    ensures var before := LayBlocks(blocks[..i], budget);
            LayBlocks(blocks[..i + 1], budget) ==
            match blocks[i]
            case Text(source) => LayText(before, source, budget)
            case Fence(source, lang) => LayFence(before, lang, FenceBody(source), budget)
  {
    hide LayText;
    hide LayFence;
    hide FenceBody;
    assert Front(blocks[..i + 1]) == blocks[..i];
  }

  lemma EmptyPieces()
    ensures PiecesInk([]) == [] && BlocksInk([]) == []
  {
  }

  /** What one more block adds to the facts about the blocks consumed. */
  lemma BlocksSoFar(blocks: seq<Block>, i: nat, budget: nat)
    requires i <= |blocks|
    ensures AllChunkable([], budget) && NoFence([])
    ensures blocks[..0] == []
    ensures i < |blocks| ==>
              var more := blocks[..i + 1];
              BlocksInk(more) == BlocksInk(blocks[..i]) + BlockInk(blocks[i]) &&
              (TextOnly(more) <==> TextOnly(blocks[..i]) && blocks[i].Text?) &&
              (AllChunkable(more, budget) <==>
                AllChunkable(blocks[..i], budget) &&
                (blocks[i].Fence? ==> Chunkable(blocks[i].lang, FenceBody(blocks[i].source), budget))) &&
              (blocks[i].Fence? && !Chunkable(blocks[i].lang, FenceBody(blocks[i].source), budget) ==>
                !AllChunkable(blocks, budget))
  {
    hide Chunkable;
    hide FenceBody;
    hide BlockInk;
    if i < |blocks| {
      assert blocks[..i + 1] == blocks[..i] + [blocks[i]];
      BlocksInkSnoc(blocks[..i], blocks[i]);
      assert forall k :: 0 <= k < i ==> blocks[..i][k] == blocks[..i + 1][k];
    }
  }

  lemma BlocksInkSnoc(blocks: seq<Block>, b: Block)
    ensures BlocksInk(blocks + [b]) == BlocksInk(blocks) + BlockInk(b)
  {
    assert Front(blocks + [b]) == blocks;
  }

  ghost predicate TextOnly(blocks: seq<Block>) {
    forall i :: 0 <= i < |blocks| ==> blocks[i].Text?
  }

  ghost predicate AllChunkable(blocks: seq<Block>, budget: nat) {
    forall i :: 0 <= i < |blocks| && blocks[i].Fence? ==> Chunkable(blocks[i].lang, FenceBody(blocks[i].source), budget)
  }

  lemma PiecesInkSnoc(ps: seq<Piece>, p: Piece)
    ensures PiecesInk(ps + [p]) == PiecesInk(ps) + PieceInk(p)
  {
    assert Front(ps + [p]) == ps;
  }

  /** What the size promise needs of a fence part. */
  lemma FenceSize(text: string, lang: string, part: string, budget: nat, usable: int)
    requires usable == budget - Units(text) - Units(Opener(lang)) - 4
    ensures Units(part) <= usable ==> SizeOk(Piece(text, Some(FencePiece(lang, part))), budget)
    ensures part == "" && text != "" && Units(text) + Units(Opener(lang)) <= budget ==>
              SizeOk(Piece(text, Some(FencePiece(lang, part))), budget)
  {
    ShowUnits(Piece(text, Some(FencePiece(lang, part))));
  }

  /** What a cut of a fence's body means for a chunk that holds the text and the opener. */
  lemma OneCut(text: string, lang: string, body: string, budget: nat, usable: int)
    requires usable == budget - Units(text) - Units(Opener(lang)) - 4 < Units(body)
    requires text != "" ==> Units(text) + Units(Opener(lang)) <= budget
    ensures var (head, rest) := Cut(body, usable);
            InkOf(head, Some(lang)) + InkOf(rest, Some(lang)) == InkOf(body, Some(lang)) &&
            if head == "" && text == "" then !Chunkable(lang, body, budget)
            else
              SizeOk(Piece(text, Some(FencePiece(lang, head))), budget) &&
              (Chunkable(lang, rest, budget) <==> Chunkable(lang, body, budget)) &&
              (|rest| < |body| || (rest == body && text != ""))
  {
    hide Units;
    hide InkOf;
    hide MaxWidth;
    hide SizeOk;
    hide Cut;
    hide Chunkable;
    hide Width;
    hide Opener;
    NoUnits();
    CutKeepsInk(body, usable, Some(lang));
    var (head, rest) := Cut(body, usable);
    if head == "" && text == "" {
      StuckIsNotChunkable(lang, body, budget);
    } else {
      FenceSize(text, lang, head, budget, usable);
      if head != "" {
        CutStaysChunkable(lang, body, usable, budget);
      }
    }
  }

  lemma FitsIsChunkable(lang: string, body: string, budget: nat, usable: int)
    requires usable <= Room(lang, budget) && Units(body) <= usable
    ensures Chunkable(lang, body, budget)
  {
    MaxWidthBound(body);
  }

  lemma StuckIsNotChunkable(lang: string, body: string, budget: nat)
    requires Room(lang, budget) < Units(body)
    requires body == "" || Room(lang, budget) < Width(body[0])
    ensures !Chunkable(lang, body, budget)
  {
    MaxWidthBound(body);
  }

  lemma NoUnits()
    ensures Units("") == 0
  {
  }

  lemma NoInk()
    ensures forall fence :: InkOf("", fence) == []
  {
  }

  lemma InkOfText(ps: seq<Piece>, head: string)
    ensures PiecesInk(ps + [Piece(head, None)]) == PiecesInk(ps) + InkOf(head, None)
  {
    assert Front(ps + [Piece(head, None)]) == ps;
  }

  // ---------------------------------------------------------------------------------------
  // The whole message
  // ---------------------------------------------------------------------------------------

  function BudgetFor(limit: int, withIndicators: bool): Budget {
    Max(MINIMUM_BUDGET, limit - if withIndicators then INDICATOR_RESERVE else 0)
  }

  function Decimal(n: nat): string {
    if n < 10 then [('0' as int + n) as char] else Decimal(n / 10) + [('0' as int + n % 10) as char]
  }

  function Indicator(i: nat, total: nat): string {
    " (" + Decimal(i) + "/" + Decimal(total) + ")"
  }

  lemma {:induction false} DecimalUnits(n: nat)
    ensures Units(Decimal(n)) == |Decimal(n)|
    ensures n <= 9 ==> |Decimal(n)| == 1
    ensures n <= 99 ==> |Decimal(n)| <= 2
    ensures n <= 999 ==> |Decimal(n)| <= 3
  {
    if n >= 10 {
      DecimalUnits(n / 10);
      UnitsConcat(Decimal(n / 10), [('0' as int + n % 10) as char]);
    }
    NarrowUnits([('0' as int + n % 10) as char]);
  }

  /** The indicator stays within its reserve for up to 999 chunks. */
  lemma IndicatorFits(i: nat, total: nat)
    requires i <= total <= 999
    ensures Units(Indicator(i, total)) <= INDICATOR_RESERVE
  {
    var a, b := Decimal(i), Decimal(total);
    DecimalUnits(i);
    DecimalUnits(total);
    UnitsConcat(" (" + a + "/" + b, ")");
    UnitsConcat(" (" + a + "/", b);
    UnitsConcat(" (" + a, "/");
    UnitsConcat(" (", a);
    NarrowUnits(" (");
    NarrowUnits("/");
    NarrowUnits(")");
  }

  /** What the chunk list shows: the pieces, numbered when asked for and there are several. */
  ghost predicate Shows(chunks: seq<string>, pieces: seq<Piece>, withIndicators: bool) {
    |chunks| == |pieces| &&
    forall i :: 0 <= i < |chunks| ==>
      chunks[i] == pieces[i].Show() + if withIndicators && |chunks| > 1 then Indicator(i + 1, |chunks|) else ""
  }

  /** The chunks of a message, numbered when asked for and there are several. */
  function ChunksOf(source: string, limit: int, withIndicators: bool): (chunks: seq<string>)
    ensures |chunks| == |PiecesOf(source, BudgetFor(limit, withIndicators))|
  {
    var pieces := PiecesOf(source, BudgetFor(limit, withIndicators));
    seq(|pieces|, i requires 0 <= i < |pieces| =>
      pieces[i].Show() + if withIndicators && |pieces| > 1 then Indicator(i + 1, |pieces|) else "")
  }

  lemma NothingToShow(limit: int, withIndicators: bool)
    ensures ChunksOf("", limit, withIndicators) == [] && Shows([], [], withIndicators)
    ensures PiecesOf("", BudgetFor(limit, withIndicators)) == []
  {
    assert Blocks("", 0) == [];
  }

  lemma ShownAreChunksOf(source: string, limit: int, withIndicators: bool, chunks: seq<string>)
    requires Shows(chunks, PiecesOf(source, BudgetFor(limit, withIndicators)), withIndicators)
    ensures chunks == ChunksOf(source, limit, withIndicators)
  {
    hide PiecesOf;
  }

  ghost predicate AllSized(pieces: seq<Piece>, budget: nat) {
    forall i :: 0 <= i < |pieces| ==> SizeOk(pieces[i], budget)
  }

  /** The numbering pass at the end. */
  method Number(chunks: seq<string>, withIndicators: bool, ghost pieces: seq<Piece>) returns (out: seq<string>)
    requires |chunks| == |pieces| && forall i :: 0 <= i < |pieces| ==> chunks[i] == pieces[i].Show()
    ensures Shows(out, pieces, withIndicators)
  {
    if withIndicators && |chunks| > 1 {
      out := seq(|chunks|, i requires 0 <= i < |chunks| => chunks[i] + Indicator(i + 1, |chunks|));
    } else {
      out := chunks;
      assert forall i :: 0 <= i < |out| ==> out[i] + "" == out[i];
    }
  }

  /** `chunk_telegram_text`. The result is None exactly when some fence of the message leaves
      no room for its widest character between opener and closer. Otherwise the chunks show
      pieces that carry the ink of the message's blocks, in order and each character once,
      and no piece overshoots the budget by more than a closer. */
  method ChunkText(source: string, limit: int, withIndicators: bool)
    returns (chunks: Option<seq<string>>, ghost pieces: seq<Piece>)
    ensures chunks.Some? <==> AllChunkable(Blocks(source, 0), BudgetFor(limit, withIndicators))
    ensures chunks.Some? ==>
              Shows(chunks.value, pieces, withIndicators) &&
              PiecesInk(pieces) == BlocksInk(Blocks(source, 0)) &&
              AllSized(pieces, BudgetFor(limit, withIndicators)) &&
              pieces == PiecesOf(source, BudgetFor(limit, withIndicators)) &&
              chunks.value == ChunksOf(source, limit, withIndicators)
    ensures chunks.Some? && source != "" ==> chunks.value != []
    ensures chunks.Some? && TextOnly(Blocks(source, 0)) ==> NoFence(pieces)
  {
    hide Units;
    hide InkOf;
    hide PiecesInk;
    hide Chunkable;
    hide SizeOk;
    hide FirstMatch;
    hide FenceBody;
    hide BlocksInk;
    hide ChunksOf;
    hide Shows;
    if source == "" {
      EmptyPieces();
      NothingToShow(limit, withIndicators);
      return Some([]), [];
    }
    var blocks := Segment(source);
    BlocksAlternate(source, 0);
    assert blocks != [] by {
      BlocksConcatenate(source, 0);
    }
    var chunker := new Chunker(BudgetFor(limit, withIndicators));
    var ok := chunker.AddBlocks(blocks);
    pieces := chunker.pieces;
    if !ok {
      return None, pieces;
    }
    var out := Number(chunker.chunks, withIndicators, pieces);
    ShownAreChunksOf(source, limit, withIndicators, out);
    return Some(out), pieces;
  }

  /** The first phase: walk over the matches of the fence pattern. */
  method Segment(source: string) returns (blocks: seq<Block>)
    ensures blocks == Blocks(source, 0)
  {
    hide FirstMatch;
    hide MatchAt;
    hide Blocks;
    blocks := [];
    var cursor := 0;
    var next := FirstMatch(source, 0);
    while next.Some?
      invariant 0 <= cursor <= |source| && next == FirstMatch(source, cursor)
      invariant Blocks(source, 0) == blocks + Blocks(source, cursor)
      decreases |source| - cursor
    {
      var m := next.value;
      NextBlocks(source, cursor, m, blocks);
      if m.start > cursor {
        blocks := blocks + [Text(source[cursor..m.start])];
      }
      blocks := blocks + [Fence(source[m.start..m.end], source[m.start + 3..m.tagEnd])];
      cursor := m.end;
      next := FirstMatch(source, cursor);
    }
    LastBlocks(source, cursor);
    if cursor < |source| {
      blocks := blocks + [Text(source[cursor..])];
    }
  }

  lemma NextBlocks(s: string, cursor: nat, m: Match, done: seq<Block>)
    requires cursor <= |s| && FirstMatch(s, cursor) == Some(m)
    ensures var fence := Fence(s[m.start..m.end], s[m.start + 3..m.tagEnd]);
            done + Blocks(s, cursor) ==
            (if m.start > cursor then done + [Text(s[cursor..m.start])] else done) + [fence] + Blocks(s, m.end)
  {
    hide FirstMatch;
    hide MatchAt;
    var fence := Fence(s[m.start..m.end], s[m.start + 3..m.tagEnd]);
    ConcatAssociative(done, TextRun(s[cursor..m.start]), [fence], Blocks(s, m.end));
  }

  lemma ConcatAssociative(a: seq<Block>, b: seq<Block>, c: seq<Block>, d: seq<Block>)
    ensures a + (b + c + d) == a + b + c + d
    ensures b == [] ==> a + b == a
  {
  }

  lemma LastBlocks(s: string, cursor: nat)
    requires cursor <= |s| && FirstMatch(s, cursor) == None
    ensures Blocks(s, cursor) == if cursor < |s| then [Text(s[cursor..])] else []
  {
  }

  // ---------------------------------------------------------------------------------------
  // When every chunk fits
  // ---------------------------------------------------------------------------------------

  ghost predicate AllFit(pieces: seq<Piece>, budget: nat) {
    forall i :: 0 <= i < |pieces| ==> Units(pieces[i].Show()) <= budget
  }

  /** The text lying in the chunk leaves room for the fence's opener, and its closer goes over the
      budget by more than the slack. */
  predicate ClosesOver(l: Layout, lang: string, budget: nat, slack: nat) {
    l.text != "" && Units(l.text) + Units(Opener(lang)) <= budget &&
    budget + slack < Units(l.text) + Units(Opener(lang)) + 4
  }

  lemma AllFitSnoc(pieces: seq<Piece>, p: Piece, bound: nat)
    ensures AllFit(pieces + [p], bound) <==> AllFit(pieces, bound) && Units(p.Show()) <= bound
  {
    var more := pieces + [p];
    assert more[|pieces|] == p;
    assert forall i :: 0 <= i < |pieces| ==> more[i] == pieces[i];
  }

  /** Text in fresh chunks always fits. */
  lemma {:induction false} TextFits(l: Layout, run: string, budget: nat, slack: nat)
    requires l.text == "" && budget >= 2
    ensures var after := LayText(l, run, budget);
            (AllFit(after.pieces, budget + slack) <==> AllFit(l.pieces, budget + slack)) && Units(after.text) <= budget
    decreases |run|
  {
    hide Cut;
    hide AllFit;
    hide Units;
    NoUnits();
    if run != "" && Units(run) > budget {
      CutKeepsInk(run, budget, None);
      var (head, rest) := Cut(run, budget);
      ShowUnits(Piece(head, None));
      AllFitSnoc(l.pieces, Piece(head, None), budget + slack);
      if |rest| < |run| {
        TextFits(Layout(l.pieces + [Piece(head, None)], ""), rest, budget, slack);
      }
    }
  }

  /** A fence in chunks of its own always fits. */
  lemma {:induction false} FreshFenceFits(l: Layout, lang: string, body: string, budget: nat, slack: nat)
    requires l.text == "" && Chunkable(lang, body, budget)
    ensures var after := LayFence(l, lang, body, budget);
            (AllFit(after.pieces, budget + slack) <==> AllFit(l.pieces, budget + slack)) && after.text == ""
    decreases |body|
  {
    hide Cut;
    hide AllFit;
    hide Units;
    hide MaxWidth;
    hide LayFence;
    NoUnits();
    LayFenceStep(l, lang, body, budget);
    var usable := Usable(l, lang, budget);
    if Units(body) <= usable {
      ClosedUnits(l, lang, body, budget, slack);
    } else {
      CutKeepsInk(body, usable, Some(lang));
      MaxWidthBound(body);
      CutKeepsChunkable(body, usable, Room(lang, budget));
      var (head, rest) := Cut(body, usable);
      ClosedUnits(l, lang, head, budget, slack);
      FreshFenceFits(CloseWith(l, lang, head), lang, rest, budget, slack);
    }
  }

  lemma ClosedUnits(l: Layout, lang: string, part: string, budget: nat, slack: nat)
    ensures AllFit(CloseWith(l, lang, part).pieces, budget + slack) <==>
            AllFit(l.pieces, budget + slack) && Units(part) <= Usable(l, lang, budget) + slack
  {
    hide AllFit;
    hide Units;
    var p := Piece(l.text, Some(FencePiece(lang, part)));
    ShowUnits(p);
    AllFitSnoc(l.pieces, p, budget + slack);
  }

  /** A fence behind text fits exactly when it does not close over. */
  lemma FenceFits(l: Layout, lang: string, body: string, budget: nat, slack: nat)
    requires Units(l.text) <= budget && Chunkable(lang, body, budget)
    ensures var after := LayFence(l, lang, body, budget);
            (AllFit(after.pieces, budget + slack) <==>
              AllFit(l.pieces, budget + slack) && !ClosesOver(l, lang, budget, slack)) &&
            after.text == ""
  {
    hide Cut;
    hide AllFit;
    hide Units;
    hide MaxWidth;
    hide LayFence;
    NoUnits();
    var m := MakeRoom(l, lang, budget);
    if l.text == "" {
      FreshFenceFits(l, lang, body, budget, slack);
    } else if m != l {
      FlushedFirst(l, lang, body, budget);
      ShowUnits(Piece(l.text, None));
      AllFitSnoc(l.pieces, Piece(l.text, None), budget + slack);
      FreshFenceFits(m, lang, body, budget, slack);
    } else {
      LayFenceStep(l, lang, body, budget);
      var usable := Usable(l, lang, budget);
      if Units(body) <= usable {
        ClosedUnits(l, lang, body, budget, slack);
      } else {
        CutKeepsInk(body, usable, Some(lang));
        var (head, rest) := Cut(body, usable);
        ClosedUnits(l, lang, head, budget, slack);
        if head != "" {
          CutKeepsChunkable(body, usable, Room(lang, budget));
        }
        FreshFenceFits(CloseWith(l, lang, head), lang, rest, budget, slack);
      }
    }
  }

  lemma FlushedFirst(l: Layout, lang: string, body: string, budget: nat)
    requires MakeRoom(l, lang, budget) != l && Chunkable(lang, body, budget)
    ensures LayFence(l, lang, body, budget) == LayFence(MakeRoom(l, lang, budget), lang, body, budget)
  {
    hide Cut;
    hide Units;
    hide MaxWidth;
    hide LayFence;
    NoUnits();
    var m := MakeRoom(l, lang, budget);
    var usable := Usable(m, lang, budget);
    LayFenceStep(l, lang, body, budget);
    LayFenceStep(m, lang, body, budget);
    if Units(body) > usable {
      CutKeepsInk(body, usable, Some(lang));
      MaxWidthBound(body);
    }
  }

  /** Block i is a fence whose closer, behind the text before it, goes over by more than the slack. */
  predicate Overshoots(blocks: seq<Block>, budget: nat, slack: nat, i: nat)
    requires i < |blocks|
  {
    blocks[i].Fence? && ClosesOver(LayBlocks(blocks[..i], budget), blocks[i].lang, budget, slack)
  }

  lemma {:induction false} LaidFits(blocks: seq<Block>, n: nat, budget: nat, slack: nat)
    requires n <= |blocks| && budget >= 2 && Alternating(blocks) && AllChunkable(blocks, budget)
    ensures var l := LayBlocks(blocks[..n], budget);
            Units(l.text) <= budget && (n == 0 || blocks[n - 1].Fence? ==> l.text == "") &&
            (AllFit(l.pieces, budget + slack) <==> forall i :: 0 <= i < n ==> !Overshoots(blocks, budget, slack, i))
  {
    hide LayText;
    hide LayFence;
    hide LayBlocks;
    hide Chunkable;
    hide ClosesOver;
    hide FenceBody;
    hide AllFit;
    hide Units;
    NothingLaid(budget, slack);
    if n == 0 {
      assert blocks[..0] == [];
    } else {
      var l := LayBlocks(blocks[..n - 1], budget);
      LaidFits(blocks, n - 1, budget, slack);
      LayOneMore(blocks, n - 1, budget);
      assert n > 1 ==> blocks[n - 2].Fence? || blocks[n - 1].Fence?;
      assert blocks[..n - 1 + 1] == blocks[..n];
      assert (forall i :: 0 <= i < n ==> !Overshoots(blocks, budget, slack, i)) <==>
             (forall i :: 0 <= i < n - 1 ==> !Overshoots(blocks, budget, slack, i)) &&
             !Overshoots(blocks, budget, slack, n - 1);
      match blocks[n - 1]
      case Text(source) => TextFits(l, source, budget, slack);
      case Fence(source, lang) => FenceFits(l, lang, FenceBody(source), budget, slack);
    }
  }

  lemma NothingLaid(budget: nat, slack: nat)
    ensures LayBlocks([], budget) == Layout([], "") && AllFit([], budget + slack) && Units("") == 0
  {
  }

  /** Every chunk of a message stays within the budget plus a slack if and only if no fence of it is
      opened behind text that leaves room for its opener while its closer goes over by more. */
  lemma ChunksFitWithinIff(source: string, budget: Budget, slack: nat)
    requires AllChunkable(Blocks(source, 0), budget)
    ensures AllFit(PiecesOf(source, budget), budget + slack) <==>
            forall i :: 0 <= i < |Blocks(source, 0)| ==> !Overshoots(Blocks(source, 0), budget, slack, i)
  {
    hide Blocks;
    hide Overshoots;
    hide LayBlocks;
    hide AllFit;
    var blocks := Blocks(source, 0);
    BlocksAlternate(source, 0);
    LaidFits(blocks, |blocks|, budget, slack);
    assert blocks[..|blocks|] == blocks;
    var l := LayBlocks(blocks, budget);
    ShowUnits(Piece(l.text, None));
    AllFitSnoc(l.pieces, Piece(l.text, None), budget + slack);
  }

  /** Every chunk of a message fits the budget if and only if no fence of it is opened behind text
      that leaves room for the opener but not for the closer; and none overshoots by more than
      the closer. */
  lemma OvershootIsTheCloser(source: string, budget: Budget)
    requires AllChunkable(Blocks(source, 0), budget)
    ensures AllFit(PiecesOf(source, budget), budget) <==>
            forall i :: 0 <= i < |Blocks(source, 0)| ==> !Overshoots(Blocks(source, 0), budget, 0, i)
    ensures AllFit(PiecesOf(source, budget), budget + 4)
  {
    hide Blocks;
    hide LayBlocks;
    hide AllFit;
    hide PiecesOf;
    hide Overshoots;
    ChunksFitWithinIff(source, budget, 0);
    ChunksFitWithinIff(source, budget, 4);
    forall i | 0 <= i < |Blocks(source, 0)|
      ensures !Overshoots(Blocks(source, 0), budget, 4, i)
    {
      AtMostTheCloser(Blocks(source, 0), budget, i);
    }
  }

  lemma AtMostTheCloser(blocks: seq<Block>, budget: nat, i: nat)
    requires i < |blocks|
    ensures !Overshoots(blocks, budget, 4, i)
  {
    hide LayBlocks;
    hide Units;
  }

  /** Fence-free text with room for the numbering stays within the limit, numbering included. */
  lemma NumberedTextFits(source: string, limit: int, i: nat)
    requires limit >= MINIMUM_BUDGET + INDICATOR_RESERVE && TextOnly(Blocks(source, 0))
    requires |ChunksOf(source, limit, true)| <= 999 && i < |ChunksOf(source, limit, true)|
    ensures Units(ChunksOf(source, limit, true)[i]) <= limit
  {
    hide Blocks;
    hide PiecesOf;
    hide LayBlocks;
    hide Units;
    var budget := BudgetFor(limit, true);
    var pieces := PiecesOf(source, budget);
    OvershootIsTheCloser(source, budget);
    IndicatorFits(i + 1, |pieces|);
    UnitsConcat(pieces[i].Show(), Indicator(i + 1, |pieces|));
    assert pieces[i].Show() + "" == pieces[i].Show();
  }

  // ---------------------------------------------------------------------------------------
  // Two messages
  // ---------------------------------------------------------------------------------------

  lemma {:induction false} SkipTagTo(s: string, i: nat, j: nat)
    requires i <= j < |s| && (forall k :: i <= k < j ==> IsTagChar(s[k])) && !IsTagChar(s[j])
    ensures SkipTag(s, i) == j
    decreases j - i
  {
    if i < j {
      SkipTagTo(s, i + 1, j);
    }
  }

  lemma MatchHere(s: string, p: nat, n: nat, close: nat)
    requires p + 3 <= n < close && close + 3 == |s|
    requires OccursAt(s, FENCE, p) && OccursAt(s, FENCE, close) && s[n] == '\n'
    requires forall k :: p + 3 <= k < n ==> IsTagChar(s[k])
    requires forall k :: n + 1 <= k < close ==> s[k] != '`'
    ensures MatchAt(s, p) == Some(Match(p, n, n, close, |s|))
  {
    hide OccursAt;
    SkipTagTo(s, p + 3, n);
    forall k | n + 1 <= k < close
      ensures !OccursAt(s, FENCE, k)
    {
      if OccursAt(s, FENCE, k) {
        FenceStarts(s, k);
      }
    }
  }

  lemma FenceStarts(s: string, i: nat)
    requires OccursAt(s, FENCE, i)
    ensures i < |s| && s[i] == '`'
  {
    assert s[i] == s[i..i + 3][0];
  }

  lemma FirstMatchIs(s: string, p: nat)
    requires p < |s| && MatchAt(s, p).Some? && forall q :: 0 <= q < p ==> s[q] != '`'
    ensures FirstMatch(s, 0) == MatchAt(s, p)
  {
    hide OccursAt;
    forall q: nat | q < p
      ensures MatchAt(s, q).None?
    {
      if OccursAt(s, FENCE, q) {
        FenceStarts(s, q);
      }
    }
  }

  /** Where the parts of a written fence stand. */
  lemma WrittenAt(text: string, lang: string, body: string)
    ensures var fence := FENCE + lang + "\n" + body + FENCE;
            var s, p := text + fence, |text|;
            var n, close := p + 3 + |lang|, p + 4 + |lang| + |body|;
            |s| == close + 3 && s[0..p] == text && s[p..] == fence && s[p + 3..n] == lang && s[n + 1..close] == body &&
            OccursAt(s, FENCE, p) && OccursAt(s, FENCE, close) && s[n] == '\n'
  {
  }

  /** The fence pattern's first match is the written fence. */
  lemma WrittenFenceMatches(text: string, lang: string, body: string)
    requires '`' !in text && '`' !in body && TagChars(lang)
    ensures var s := text + (FENCE + lang + "\n" + body + FENCE);
            var n := |text| + 3 + |lang|;
            FirstMatch(s, 0) == MatchAt(s, |text|) == Some(Match(|text|, n, n, n + 1 + |body|, |s|))
  {
    hide MatchAt;
    hide FirstMatch;
    hide OccursAt;
    hide IsTagChar;
    hide TagChars;
    var s, p := text + (FENCE + lang + "\n" + body + FENCE), |text|;
    var n, close := p + 3 + |lang|, p + 4 + |lang| + |body|;
    WrittenAt(text, lang, body);
    TagCharsMeans(lang);
    SameAt(s, 0, p, text);
    SameAt(s, p + 3, n, lang);
    SameAt(s, n + 1, close, body);
    MatchHere(s, p, n, close);
    FirstMatchIs(s, p);
  }

  lemma OneMatch(s: string, start: nat, tagEnd: nat, m: Match)
    requires start + 3 <= tagEnd <= |s| && m.start == start && m.tagEnd == tagEnd && m.end == |s|
    requires FirstMatch(s, 0) == Some(m)
    ensures Blocks(s, 0) == TextRun(s[0..start]) + [Fence(s[start..], s[start + 3..tagEnd])]
  {
    hide MatchAt;
    hide FirstMatch;
    hide TextRun;
    hide OccursAt;
    assert s[start..|s|] == s[start..];
    NoMoreBlocks(s);
    var two := TextRun(s[0..start]) + [Fence(s[start..], s[start + 3..tagEnd])];
    calc {
      Blocks(s, 0);
      TextRun(s[0..m.start]) + [Fence(s[m.start..m.end], s[m.start + 3..m.tagEnd])] + Blocks(s, m.end);
      two + [];
      two;
    }
  }

  /** A written fence behind text is segmented back into that text and that fence. */
  lemma WrittenFenceIsFound(text: string, lang: string, body: string)
    requires '`' !in text && '`' !in body && TagChars(lang)
    ensures var fence := FENCE + lang + "\n" + body + FENCE;
            Blocks(text + fence, 0) == TextRun(text) + [Fence(fence, lang)] && FenceBody(fence) == body
  {
    hide FenceBody;
    hide MatchAt;
    hide FirstMatch;
    hide OccursAt;
    hide IsTagChar;
    hide TagChars;
    hide Blocks;
    hide TextRun;
    var fence := FENCE + lang + "\n" + body + FENCE;
    var s, p := text + fence, |text|;
    var n := p + 3 + |lang|;
    WrittenFenceMatches(text, lang, body);
    WrittenAt(text, lang, body);
    FenceBodyIsTheGroup(s, p);
    OneMatch(s, p, n, Match(p, n, n, n + 1 + |body|, |s|));
    assert s[p..|s|] == s[p..];
  }

  lemma SameAt(s: string, from: nat, to: nat, part: string)
    requires from <= to <= |s| && s[from..to] == part
    ensures forall k :: from <= k < to ==> s[k] in part
  {
    forall k | from <= k < to
      ensures s[k] in part
    {
      assert s[k] == part[k - from];
    }
  }

  lemma NoMoreBlocks(s: string)
    ensures Blocks(s, |s|) == []
  {
    assert s[|s|..] == "";
  }

  lemma {:induction false} SameCharacters(c: char, n: nat)
    requires c as int <= 0xFFFF
    ensures Units(seq(n, _ => c)) == n
  {
    NarrowUnits(seq(n, _ => c));
  }

  const SIXTY := seq(60, _ => 'a')

  /** The closer overshoots: sixty characters and a fence, at limit 64, make a chunk of 68 units. */
  lemma ACloserOvershoots()
    ensures var source := SIXTY + (FENCE + "" + "\n" + "b\n" + FENCE);
            var pieces := PiecesOf(source, BudgetFor(64, false));
            AllChunkable(Blocks(source, 0), BudgetFor(64, false)) && |pieces| == 2 &&
            pieces[0] == Piece(SIXTY, Some(FencePiece("", ""))) && Units(pieces[0].Show()) == 68 &&
            pieces[1] == Piece("", Some(FencePiece("", "b\n")))
  {
    hide Blocks;
    hide FenceBody;
    hide LayBlocks;
    hide Units;
    hide Chunkable;
    var fence := FENCE + "" + "\n" + "b\n" + FENCE;
    WrittenFenceIsFound(SIXTY, "", "b\n");
    TwoBlocks(fence);
    SameCharacters('a', 60);
    OvershootLayout(fence);
    ShowUnits(Piece(SIXTY, Some(FencePiece("", ""))));
    ShortTagIsChunkable("", "b\n", 64);
    OpenerUnits("");
    NoUnits();
  }

  lemma TwoBlocks(fence: string)
    ensures TextRun(SIXTY) + [Fence(fence, "")] == [Text(SIXTY), Fence(fence, "")]
  {
    assert |SIXTY| == 60;
  }

  lemma OvershootLayout(fence: string)
    requires FenceBody(fence) == "b\n" && Units(SIXTY) == 60
    ensures LayBlocks([Text(SIXTY), Fence(fence, "")], 64) ==
            Layout([Piece(SIXTY, Some(FencePiece("", ""))), Piece("", Some(FencePiece("", "b\n")))], "")
  {
    hide FenceBody;
    hide LayFence;
    hide Cut;
    hide Units;
    var blocks := [Text(SIXTY), Fence(fence, "")];
    assert Front(blocks) == [Text(SIXTY)] && Front([Text(SIXTY)]) == [];
    var l := Layout([], SIXTY);
    assert LayBlocks([Text(SIXTY)], 64) == l;
    OpenerUnits("");
    NoUnits();
    ShortUnits();
    LayFenceStep(l, "", "b\n", 64);
    CutKeepsInk("b\n", Usable(l, "", 64), Some(""));
    var m := CloseWith(l, "", "");
    LayFenceStep(m, "", "b\n", 64);
    assert m.pieces + [Piece("", Some(FencePiece("", "b\n")))] ==
           [Piece(SIXTY, Some(FencePiece("", ""))), Piece("", Some(FencePiece("", "b\n")))];
  }

  lemma ShortUnits()
    ensures Units("b\n") == 2
  {
    NarrowUnits("b\n");
  }

  const LONG_TAG := seq(57, _ => 'a')

  /** The chunking of this message does not end: its tag leaves no unit for the body. */
  lemma ALongTagIsStuck()
    ensures !AllChunkable(Blocks(FENCE + LONG_TAG + "\n" + "b" + FENCE, 0), BudgetFor(64, false))
  {
    var fence := FENCE + LONG_TAG + "\n" + "b" + FENCE;
    WrittenFenceIsFound("", LONG_TAG, "b");
    assert "" + fence == fence;
    assert TextRun("") + [Fence(fence, LONG_TAG)] == [Fence(fence, LONG_TAG)];
    OpenerUnits(LONG_TAG);
    MaxWidthBound("b");
    assert !Chunkable(LONG_TAG, "b", 64);
    assert [Fence(fence, LONG_TAG)][0] == Fence(fence, LONG_TAG);
  }

  // ---------------------------------------------------------------------------------------
  // The bounded renderer
  // ---------------------------------------------------------------------------------------

  /** The next source budget: scaled by the observed expansion, at least 5% smaller, never
      below the minimum. */
  function NextBudget(budget: nat, bound: nat, units: nat): (next: nat)
    requires MINIMUM_BUDGET < budget && bound < units
    ensures MINIMUM_BUDGET <= next < budget
  {
    Max(MINIMUM_BUDGET, Min(budget * bound / units, budget - budget / 20))
  }

  function FirstChunk(source: string, budget: nat): string {
    var pieces := PiecesOf(source, budget);
    if pieces == [] then "" else pieces[0].Show()
  }

  /** The budget the shrinking stops at. */
  function FinalBudget(source: string, bound: nat, render: string -> string, budget: Budget): (r: Budget)
    ensures r <= budget
    decreases budget
  {
    var units := Units(render(FirstChunk(source, budget)));
    if units <= bound || budget == MINIMUM_BUDGET then budget
    else FinalBudget(source, bound, render, NextBudget(budget, bound, units))
  }

  /** html renders the first chunk of a chunking of the source at the given budget, and it fits
      the bound unless that budget was the smallest. */
  ghost predicate BoundedRendering(html: string, source: string, pieces: seq<Piece>, budget: Budget,
                                   bound: nat, render: string -> string) {
    pieces != [] && html == render(pieces[0].Show()) && budget <= bound && AllSized(pieces, budget) &&
    PiecesInk(pieces) == BlocksInk(Blocks(source, 0)) && (Units(html) <= bound || budget == MINIMUM_BUDGET)
  }

  /** A message that can be chunked at one budget can be chunked at every larger one. */
  lemma RoomGrows(blocks: seq<Block>, budget: nat, larger: nat)
    requires budget <= larger
    ensures AllChunkable(blocks, budget) ==> AllChunkable(blocks, larger)
  {
  }

  lemma NothingToChunk()
    ensures forall budget :: AllChunkable(Blocks("", 0), budget)
  {
  }

  /** `render_telegram_html_bounded`, for any renderer. It stops since the budget only shrinks;
      it comes back empty-handed exactly where the chunking at the final budget would not end. */
  method RenderBounded(source: string, limit: int, render: string -> string)
    returns (html: Option<string>, ghost pieces: seq<Piece>, ghost budget: Budget)
    ensures source == "" ==> html == Some("")
    ensures html.Some? && source != "" ==>
              BoundedRendering(html.value, source, pieces, budget, Max(MINIMUM_BUDGET, limit), render) &&
              budget == FinalBudget(source, Max(MINIMUM_BUDGET, limit), render, Max(MINIMUM_BUDGET, limit)) &&
              html.value == render(FirstChunk(source, budget))
    ensures var bound := Max(MINIMUM_BUDGET, limit);
            html.Some? <==> AllChunkable(Blocks(source, 0), FinalBudget(source, bound, render, bound))
    ensures html.None? ==> !AllChunkable(Blocks(source, 0), budget)
    ensures AllChunkable(Blocks(source, 0), MINIMUM_BUDGET) ==> html.Some?
  {
    hide Units;
    hide Blocks;
    hide AllChunkable;
    hide TextOnly;
    hide SizeOk;
    hide PiecesInk;
    hide BlocksInk;
    hide PiecesOf;
    pieces, budget := [], MINIMUM_BUDGET;
    if source == "" {
      NothingToChunk();
      html := Some("");
      return;
    }
    var bound := Max(MINIMUM_BUDGET, limit);
    RoomGrows(Blocks(source, 0), MINIMUM_BUDGET, FinalBudget(source, bound, render, bound));
    var tried: Budget := bound;
    while true
      invariant tried <= bound && FinalBudget(source, bound, render, tried) == FinalBudget(source, bound, render, bound)
      decreases tried
    {
      var chunks;
      chunks, pieces := ChunkText(source, tried, false);
      budget := tried;
      assert BudgetFor(tried, false) == tried;
      if chunks.None? {
        RoomGrows(Blocks(source, 0), FinalBudget(source, bound, render, bound), tried);
        html := None;
        return;
      }
      assert chunks.value[0] == pieces[0].Show() + "" == FirstChunk(source, tried);
      var rendered := render(chunks.value[0]);
      var units := Units(rendered);
      if units <= bound || tried <= MINIMUM_BUDGET {
        html := Some(rendered);
        return;
      }
      tried := NextBudget(tried, bound, units);
    }
  }

  lemma {:induction false} FinalBudgetFits(source: string, bound: nat, render: string -> string, budget: Budget)
    ensures var final := FinalBudget(source, bound, render, budget);
            Units(render(FirstChunk(source, final))) <= bound || final == MINIMUM_BUDGET
    decreases budget
  {
    hide FirstChunk;
    hide Units;
    var units := Units(render(FirstChunk(source, budget)));
    if units > bound && budget != MINIMUM_BUDGET {
      FinalBudgetFits(source, bound, render, NextBudget(budget, bound, units));
    }
  }

  /** The result is within the bound for every message that can be chunked at the smallest budget
      and every renderer that keeps sources of at most 68 units within it. */
  lemma BoundHolds(source: string, limit: int, render: string -> string)
    requires AllChunkable(Blocks(source, 0), MINIMUM_BUDGET)
    requires forall s :: Units(s) <= MINIMUM_BUDGET + 4 ==> Units(render(s)) <= Max(MINIMUM_BUDGET, limit)
    ensures var bound := Max(MINIMUM_BUDGET, limit);
            Units(render(FirstChunk(source, FinalBudget(source, bound, render, bound)))) <= bound
  {
    hide Blocks;
    hide PiecesOf;
    hide Units;
    hide FinalBudget;
    var bound: Budget := Max(MINIMUM_BUDGET, limit);
    FinalBudgetFits(source, bound, render, bound);
    OvershootIsTheCloser(source, MINIMUM_BUDGET);
    NoUnits();
    assert Units(FirstChunk(source, MINIMUM_BUDGET)) <= MINIMUM_BUDGET + 4;
  }
}
