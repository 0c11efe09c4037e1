/**
 Outbound Telegram text: width in UTF-16 code units, the cut that fits a budget, the chunker
 that keeps code fences balanced, and the bounded renderer on top of it.

 Characters are Unicode scalar values; a character above U+FFFF takes two code units
 (section 2.1 of RFC 2781). The HTML renderer itself is a parameter.
*/
module TelegramRender {
  import opened Prelude

  const INDICATOR_RESERVE := 10
  const MINIMUM_BUDGET := 64
  const FENCE := "```"
  const CLOSER := "\n```"

  function Width(c: char): (w: nat)
    ensures 1 <= w <= 2
  {
    if c as int > 0xFFFF then 2 else 1
  }

  /** Length in UTF-16 code units. */
  function Units(s: string): nat {
    if s == "" then 0 else Width(s[0]) + Units(s[1..])
  }

  lemma {:induction false} UnitsConcat(a: string, b: string)
    ensures Units(a + b) == Units(a) + Units(b)
  {
    if a == "" {
      assert a + b == b;
    } else {
      assert (a + b)[0] == a[0] && (a + b)[1..] == a[1..] + b;
      UnitsConcat(a[1..], b);
    }
  }

  lemma {:induction false} UnitsBounds(s: string)
    ensures |s| <= Units(s) <= 2 * |s|
  {
    if s != "" {
      UnitsBounds(s[1..]);
    }
  }

  // ---------------------------------------------------------------------------------------
  // The cut
  // ---------------------------------------------------------------------------------------

  /** The number of leading characters of s that fit the limit. */
  function Fitting(s: string, limit: int): (k: nat)
    ensures k <= |s|
  {
    if s == "" || Width(s[0]) > limit then 0 else 1 + Fitting(s[1..], limit - Width(s[0]))
  }

  /** Fitting is the longest prefix within the limit. */
  lemma {:induction false} FittingIsLongest(s: string, limit: int, k: nat)
    requires 0 <= limit && k <= |s|
    ensures Units(s[..k]) <= limit <==> k <= Fitting(s, limit)
  {
    if k > 0 {
      var w := Width(s[0]);
      assert s[..k][0] == s[0] && s[..k][1..] == s[1..][..k - 1];
      if w <= limit {
        FittingIsLongest(s[1..], limit - w, k - 1);
      }
    }
  }

  predicate OccursAt(s: string, pattern: string, i: int) {
    0 <= i && i + |pattern| <= |s| && s[i..i + |pattern|] == pattern
  }

  /** Python's `rfind`: the last index at which pattern occurs, or -1. */
  function RFind(s: string, pattern: string): (i: int)
    ensures i == -1 || OccursAt(s, pattern, i)
    ensures forall j :: OccursAt(s, pattern, j) ==> j <= i
  {
    RFindFrom(s, pattern, |s|)
  }

  function RFindFrom(s: string, pattern: string, n: nat): (i: int)
    requires n <= |s|
    ensures i == -1 || OccursAt(s, pattern, i)
    ensures forall j :: j <= n && OccursAt(s, pattern, j) ==> j <= i
  {
    if OccursAt(s, pattern, n) then n else if n == 0 then -1 else RFindFrom(s, pattern, n - 1)
  }

  predicate IsBreak(c: char) {
    c == '\n' || c == ' '
  }

  /** The last newline or space of the window, or -1. */
  function LastBreak(s: string): (i: int)
    ensures -1 <= i < |s|
    ensures 0 <= i ==> IsBreak(s[i])
    ensures forall j :: i < j < |s| ==> !IsBreak(s[j])
  {
    if s == "" then -1 else if IsBreak(Last(s)) then |s| - 1 else LastBreak(Front(s))
  }

  /** Whatever the three searches prefer, the maximum of them is the last newline or space:
      a paragraph break never wins over a later space. */
  lemma ParagraphsAreNotPreferred(window: string)
    ensures Max(RFind(window, "\n\n"), Max(RFind(window, "\n"), RFind(window, " "))) == LastBreak(window)
  {
    var p, n, b, last := RFind(window, "\n\n"), RFind(window, "\n"), RFind(window, " "), LastBreak(window);
    if p != -1 {
      assert window[p..p + 2][1] == '\n' && window[p + 1..p + 2] == [window[p + 1]];
      assert OccursAt(window, "\n", p + 1);
    }
    OccursOne(window, '\n');
    OccursOne(window, ' ');
    if last >= 0 {
      assert OccursAt(window, [window[last]], last);
    }
    assert n >= 0 ==> window[n] == '\n';
    assert b >= 0 ==> window[b] == ' ';
  }

  lemma OccursOne(s: string, c: char)
    ensures forall j :: OccursAt(s, [c], j) <==> 0 <= j < |s| && s[j] == c
  {
    forall j | 0 <= j < |s|
      ensures OccursAt(s, [c], j) <==> s[j] == c
    {
      assert s[j..j + 1] == [s[j]];
    }
  }

  function TrimSpaces(s: string): string {
    if s != "" && s[0] == ' ' then TrimSpaces(s[1..]) else s
  }

  /** Head and rest of a text that does not fit the limit. */
  function Cut(text: string, limit: int): (string, string) {
    var hard := Fitting(text, limit);
    var soft := LastBreak(text[..hard]);
    if soft <= 0 then (text[..hard], text[hard..]) else (text[..soft], TrimSpaces(text[soft..]))
  }

  /** `_split_at`: the whole text when it fits, otherwise a cut. */
  method SplitAt(text: string, limit: int) returns (head: string, rest: string)
    ensures (head, rest) == if Units(text) <= limit then (text, "") else Cut(text, limit)
    ensures Units(text) > limit ==> ProperCut(text, limit, head, rest)
  {
    hide ProperCut;
    CutExactly(text, limit, Cut(text, limit).0, Cut(text, limit).1);
    if Units(text) <= limit {
      return text, "";
    }
    var units, hard := 0, 0;
    while hard < |text| && units + Width(text[hard]) <= limit
      invariant 0 <= hard <= |text|
      invariant Fitting(text, limit) == hard + Fitting(text[hard..], limit - units)
    {
      assert text[hard..][1..] == text[hard + 1..];
      units := units + Width(text[hard]);
      hard := hard + 1;
    }
    var window := text[..hard];
    var cut := Max(RFind(window, "\n\n"), Max(RFind(window, "\n"), RFind(window, " ")));
    ParagraphsAreNotPreferred(window);
    if cut <= 0 {
      return text[..hard], text[hard..];
    }
    return text[..cut], TrimSpaces(text[cut..]);
  }

  ghost predicate AllSpaces(s: string) {
    forall i :: 0 <= i < |s| ==> s[i] == ' '
  }

  lemma {:induction false} TrimSpacesSplits(s: string) returns (gap: string)
    ensures s == gap + TrimSpaces(s) && AllSpaces(gap)
  {
    if s != "" && s[0] == ' ' {
      var g := TrimSpacesSplits(s[1..]);
      gap := " " + g;
      OneMoreSpace(s, g, TrimSpaces(s[1..]));
    } else {
      gap := "";
    }
  }

  lemma OneMoreSpace(s: string, gap: string, rest: string)
    requires s != "" && s[0] == ' ' && s[1..] == gap + rest && AllSpaces(gap)
    ensures s == " " + gap + rest && AllSpaces(" " + gap)
  {
    assert s == " " + s[1..];
    assert " " + gap + rest == " " + (gap + rest);
  }

  /** The cut loses only spaces at the cut, never overfills, and moves forward exactly when
      the first character fits. */
  lemma CutConserves(text: string, limit: int) returns (gap: string)
    requires limit < Units(text)
    ensures var (head, rest) := Cut(text, limit);
            text == head + gap + rest && AllSpaces(gap) && Units(head) <= Max(0, limit) &&
            (head == "" ==> gap == "" && rest == text) &&
            (gap != "" ==> limit >= 2) &&
            (head == "" <==> text == "" || limit < Width(text[0]))
  {
    hide LastBreak;
    hide TrimSpaces;
    var hard := Fitting(text, limit);
    var soft := LastBreak(text[..hard]);
    assert soft < hard || hard == 0;
    if limit >= 0 {
      FittingIsLongest(text, limit, hard);
    } else {
      assert hard == 0;
    }
    gap := "";
    if soft > 0 {
      gap := TrimSpacesSplits(text[soft..]);
      FittingIsLongest(text, limit, soft);
      UnitsBounds(text[..hard]);
      Rejoin(text, soft, gap, TrimSpaces(text[soft..]));
    } else {
      assert text == text[..hard] + "" + text[hard..];
    }
  }

  lemma Rejoin(text: string, at: nat, gap: string, rest: string)
    requires at <= |text| && text[at..] == gap + rest
    ensures text == text[..at] + gap + rest
  {
    assert text == text[..at] + text[at..];
    assert text[..at] + gap + rest == text[..at] + (gap + rest);
  }

  /** h is the length of the longest prefix that fits; nothing fits a negative limit. */
  ghost predicate IsHardLimit(text: string, limit: int, h: nat) {
    h <= |text| && (h > 0 ==> Units(text[..h]) <= limit) && (h < |text| ==> Units(text[..h + 1]) > limit)
  }

  /** Some newline or space lies inside the text, before position h and not at its start. */
  ghost predicate HasBreak(text: string, h: nat) {
    exists i :: 0 < i < h && i < |text| && (text[i] == '\n' || text[i] == ' ')
  }

  /** Where a text is to be cut: before the last newline or space inside what fits, where the spaces
      then go, or, if there is none, behind what fits. */
  ghost predicate IsCut(text: string, h: nat, head: string, rest: string) {
    h <= |text| &&
    if HasBreak(text, h) then
      0 < |head| < h && head == text[..|head|] && (text[|head|] == '\n' || text[|head|] == ' ') &&
      (forall j :: |head| < j < h ==> text[j] != '\n' && text[j] != ' ') &&
      |head| + |rest| <= |text| && rest == text[|text| - |rest|..] &&
      (forall j :: |head| <= j < |text| - |rest| ==> text[j] == ' ') && (rest != "" ==> rest[0] != ' ')
    else head == text[..h] && rest == text[h..]
  }

  ghost predicate ProperCut(text: string, limit: int, head: string, rest: string) {
    exists h :: IsHardLimit(text, limit, h) && IsCut(text, h, head, rest)
  }

  lemma {:induction false} FittingIsHardLimit(text: string, limit: int)
    ensures IsHardLimit(text, limit, Fitting(text, limit))
  {
    var h := Fitting(text, limit);
    if text != "" && Width(text[0]) <= limit {
      FittingIsHardLimit(text[1..], limit - Width(text[0]));
      assert text[..h][1..] == text[1..][..h - 1];
      if h < |text| {
        assert text[..h + 1][1..] == text[1..][..h];
      }
      if h == 1 {
        assert text[..1][1..] == "";
      }
    } else if text != "" {
      assert text[..1][1..] == "";
    }
  }

  lemma {:induction false} WiderPrefix(text: string, a: nat, b: nat)
    requires a <= b <= |text|
    ensures Units(text[..a]) <= Units(text[..b])
  {
    assert text[..b] == text[..a] + text[a..b];
    UnitsConcat(text[..a], text[a..b]);
  }

  lemma OneHardLimit(text: string, limit: int, g: nat, h: nat)
    requires IsHardLimit(text, limit, g) && IsHardLimit(text, limit, h)
    ensures g == h
  {
    if g < h {
      WiderPrefix(text, g + 1, h);
    } else if h < g {
      WiderPrefix(text, h + 1, g);
    }
  }

  lemma {:induction false} TrimmedIs(s: string)
    ensures var rest := TrimSpaces(s);
            |rest| <= |s| && rest == s[|s| - |rest|..] && (rest != "" ==> rest[0] != ' ') &&
            forall j :: 0 <= j < |s| - |rest| ==> s[j] == ' '
  {
    if s != "" && s[0] == ' ' {
      TrimmedIs(s[1..]);
      var rest := TrimSpaces(s[1..]);
      assert s[|s| - |rest|..] == s[1..][|s| - 1 - |rest|..];
      assert forall j :: 1 <= j < |s| ==> s[j] == s[1..][j - 1];
    }
  }

  /** The cut is the one that ought to be made, and there is no other. */
  lemma CutExactly(text: string, limit: int, head: string, rest: string)
    ensures ProperCut(text, limit, head, rest) <==> (head, rest) == Cut(text, limit)
  {
    hide IsHardLimit;
    hide IsCut;
    hide Cut;
    FittingIsHardLimit(text, limit);
    var h := Fitting(text, limit);
    CutIsCut(text, limit);
    if ProperCut(text, limit, head, rest) {
      var g :| IsHardLimit(text, limit, g) && IsCut(text, g, head, rest);
      OneHardLimit(text, limit, g, h);
      OnlyCut(text, h, head, rest, Cut(text, limit).0, Cut(text, limit).1);
    }
  }

  lemma CutIsCut(text: string, limit: int)
    ensures IsCut(text, Fitting(text, limit), Cut(text, limit).0, Cut(text, limit).1)
  {
    hide TrimSpaces;
    hide IsCut;
    var h := Fitting(text, limit);
    var soft := LastBreak(text[..h]);
    assert forall j :: soft < j < h ==> text[..h][j] == text[j];
    if soft > 0 {
      SoftIsCut(text, h, soft);
    } else {
      HardIsCut(text, h);
    }
  }

  lemma SoftIsCut(text: string, h: nat, soft: nat)
    requires 0 < soft < h <= |text| && IsBreak(text[soft]) && forall j :: soft < j < h ==> !IsBreak(text[j])
    ensures IsCut(text, h, text[..soft], TrimSpaces(text[soft..]))
  {
    hide TrimSpaces;
    var tail, rest := text[soft..], TrimSpaces(text[soft..]);
    TrimmedIs(tail);
    assert tail[|tail| - |rest|..] == text[|text| - |rest|..];
    forall j | soft <= j < |text| - |rest|
      ensures text[j] == ' '
    {
      assert tail[j - soft] == ' ';
    }
  }

  lemma HardIsCut(text: string, h: nat)
    requires h <= |text| && forall j :: 0 < j < h ==> !IsBreak(text[j])
    ensures IsCut(text, h, text[..h], text[h..])
  {
  }

  lemma OnlyCut(text: string, h: nat, a: string, b: string, c: string, d: string)
    requires IsCut(text, h, a, b) && IsCut(text, h, c, d)
    ensures a == c && b == d
  {
    if HasBreak(text, h) {
      assert |a| == |c|;
      var m, n := |text| - |b|, |text| - |d|;
      assert m < |text| ==> text[m] == b[0];
      assert n < |text| ==> text[n] == d[0];
      TrimmedOnce(text, |a|, m, n);
    }
  }

  lemma TrimmedOnce(text: string, from: nat, m: nat, n: nat)
    requires from <= m <= |text| && from <= n <= |text|
    requires (forall j :: from <= j < m ==> text[j] == ' ') && (m < |text| ==> text[m] != ' ')
    requires (forall j :: from <= j < n ==> text[j] == ' ') && (n < |text| ==> text[n] != ' ')
    ensures m == n
  {
  }

  // ---------------------------------------------------------------------------------------
  // UTF-16
  // ---------------------------------------------------------------------------------------

  /** The code units of a character: itself, or a surrogate pair. */
  function CodeUnits(c: char): seq<nat> {
    var u := c as int;
    if u < 0x1_0000 then [u] else [0xD800 + (u - 0x1_0000) / 0x400, 0xDC00 + (u - 0x1_0000) % 0x400]
  }

  function Utf16(s: string): seq<nat> {
    if s == "" then [] else CodeUnits(s[0]) + Utf16(s[1..])
  }

  /** Reads UTF-16: a high surrogate and the unit after it are one character. */
  function CodePoints(units: seq<nat>): seq<int> {
    if units == [] then []
    else if 0xD800 <= units[0] < 0xDC00 && |units| > 1 then
      [0x1_0000 + (units[0] - 0xD800) * 0x400 + units[1] - 0xDC00] + CodePoints(units[2..])
    else [units[0]] + CodePoints(units[1..])
  }

  /** The width of a text is the length of its UTF-16 form, which can be read back. */
  lemma {:induction false} UnitsAreUtf16(s: string)
    ensures Units(s) == |Utf16(s)|
    ensures CodePoints(Utf16(s)) == seq(|s|, i requires 0 <= i < |s| => s[i] as int)
  {
    if s != "" {
      UnitsAreUtf16(s[1..]);
      var units, rest := Utf16(s), Utf16(s[1..]);
      if s[0] as int < 0x1_0000 {
        assert units[1..] == rest;
      } else {
        assert units[2..] == rest;
      }
    }
  }
}
