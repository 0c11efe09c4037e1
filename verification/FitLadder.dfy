/**
 The two text stages of a compaction: fitting the conversation into the summarizer's budget by a
 ladder of five rungs, and choosing a summary that covers every required section.

 Costs are token counts: never negative, otherwise unknown.
*/
module FitLadder {
  import opened Prelude

  /** `rest` stands for the message's other fields. */
  datatype Message = Message(role: string, content: string, rest: string)

  datatype Rung = Verbatim | HistorySelected | ToolTruncated | StepSelected | Emergency

  const TRUNCATED := "\n[...truncated...]"

  function Total(cost: Message -> nat, ms: seq<Message>): nat {
    if ms == [] then 0 else cost(ms[0]) + Total(cost, ms[1..])
  }

  /** Python's `s[:n]`, which counts from the end for a negative n. */
  function PyPrefix(s: string, n: int): string {
    if n >= 0 then s[..Min(n, |s|)] else s[..Max(0, |s| + n)]
  }

  function Utf8Width(c: char): nat {
    if c as int < 0x80 then 1 else if c as int < 0x800 then 2 else if c as int < 0x1_0000 then 3 else 4
  }

  function Utf8Length(s: string): nat {
    if s == "" then 0 else Utf8Length(Front(s)) + Utf8Width(Last(s))
  }

  /** The first `bytes` bytes decoded again, a character cut in two being dropped. */
  function Utf8Prefix(s: string, bytes: nat): (r: string)
    ensures r <= s && Utf8Length(r) <= bytes
    ensures |r| < |s| ==> Utf8Length(s[..|r| + 1]) > bytes
  {
    if Utf8Length(s) <= bytes then s
    else
      var r := Utf8Prefix(Front(s), bytes);
      assert |r| < |s| - 1 ==> Front(s)[..|r| + 1] == s[..|r| + 1];
      assert r == Front(s) ==> s[..|r| + 1] == s;
      r
  }

  /** An oversized tool result, cut. */
  function CutTool(contentCost: string -> nat, budget: int, m: Message): Message {
    if m.role == "tool" && contentCost(m.content) > budget / 2
    then m.(content := PyPrefix(m.content, budget / 4) + TRUNCATED)
    else m
  }

  function CutTools(contentCost: string -> nat, budget: int, ms: seq<Message>): (r: seq<Message>)
    ensures |r| == |ms| && forall i :: 0 <= i < |ms| ==> r[i] == CutTool(contentCost, budget, ms[i])
  {
    seq(|ms|, i requires 0 <= i < |ms| => CutTool(contentCost, budget, ms[i]))
  }

  function CutHard(budget: int, m: Message): Message {
    m.(content := Utf8Prefix(m.content, Max(1, budget) * 4))
  }

  /** The first message and the suffix from k on. */
  function Selection(ms: seq<Message>, k: nat): seq<Message>
    requires 1 <= k <= |ms|
  {
    [ms[0]] + ms[k..]
  }

  /** What is left when no further history may go: the first message and the newest. */
  function Essential(ms: seq<Message>): seq<Message>
    requires ms != []
  {
    if |ms| <= 2 then ms else Selection(ms, |ms| - 1)
  }

  /** The rung a conversation lands on: the first one that fits. */
  ghost predicate LandsOn(cost: Message -> nat, contentCost: string -> nat, ms: seq<Message>, budget: int, rung: Rung)
    requires ms != []
  {
    var cut := CutTools(contentCost, budget, Essential(ms));
    match rung
    case Verbatim => Total(cost, ms) <= budget
    case HistorySelected => Total(cost, ms) > budget >= Total(cost, Essential(ms))
    case ToolTruncated => Total(cost, Essential(ms)) > budget >= Total(cost, cut)
    case StepSelected =>
      Total(cost, Essential(ms)) > budget && Total(cost, cut) > budget && Total(cost, [Last(cut)]) <= budget
    case Emergency =>
      Total(cost, Essential(ms)) > budget && Total(cost, cut) > budget && Total(cost, [Last(cut)]) > budget
  }

  /** What the rung keeps. */
  ghost predicate Keeps(cost: Message -> nat, contentCost: string -> nat, ms: seq<Message>, budget: int,
                        rung: Rung, kept: seq<Message>)
    requires ms != []
  {
    var cut := CutTools(contentCost, budget, Essential(ms));
    match rung
    case Verbatim => kept == ms
    case HistorySelected => IsLongestSelection(cost, ms, budget, kept)
    case ToolTruncated => kept == cut
    case StepSelected => kept == [Last(cut)]
    case Emergency => kept == [CutHard(budget, Last(cut))]
  }

  /** The first message and the longest non-empty suffix of the others that fits with it. */
  ghost predicate IsLongestSelection(cost: Message -> nat, ms: seq<Message>, budget: int, kept: seq<Message>) {
    exists k :: 1 <= k < |ms| && LongestAt(cost, ms, budget, kept, k)
  }

  ghost predicate LongestAt(cost: Message -> nat, ms: seq<Message>, budget: int, kept: seq<Message>, k: nat)
    requires 1 <= k < |ms|
  {
    kept == Selection(ms, k) && Total(cost, kept) <= budget &&
    forall j :: 1 <= j < k ==> Total(cost, Selection(ms, j)) > budget
  }

  lemma LongestIsUnique(cost: Message -> nat, ms: seq<Message>, budget: int, x: seq<Message>, y: seq<Message>,
                        k: nat, l: nat)
    requires 1 <= k < |ms| && 1 <= l < |ms| && LongestAt(cost, ms, budget, x, k) && LongestAt(cost, ms, budget, y, l)
    ensures k == l && x == y
  {
    if k != l {
      assert false;
    }
  }

  lemma {:induction false} DropCosts(cost: Message -> nat, ms: seq<Message>, i: nat)
    requires i < |ms|
    ensures Total(cost, ms[..i] + ms[i + 1..]) == Total(cost, ms) - cost(ms[i])
  {
    var less := ms[..i] + ms[i + 1..];
    if i == 0 {
      assert less == ms[1..];
    } else {
      DropCosts(cost, ms[1..], i - 1);
      assert less[1..] == ms[1..][..i - 1] + ms[1..][i..];
      assert less[0] == ms[0];
    }
  }

  lemma SelectionShrinks(cost: Message -> nat, ms: seq<Message>, k: nat)
    requires 1 <= k < |ms|
    ensures Total(cost, Selection(ms, k)) == Total(cost, Selection(ms, k + 1)) + cost(ms[k])
  {
    var s := Selection(ms, k);
    DropCosts(cost, s, 1);
    assert s[..1] + s[2..] == Selection(ms, k + 1);
  }

  /** Longer selections cost at least as much. */
  lemma {:induction false} SelectionIsMonotone(cost: Message -> nat, ms: seq<Message>, j: nat, k: nat)
    requires 1 <= j <= k <= |ms|
    ensures Total(cost, Selection(ms, k)) <= Total(cost, Selection(ms, j))
    decreases k - j
  {
    if j < k {
      SelectionShrinks(cost, ms, j);
      SelectionIsMonotone(cost, ms, j + 1, k);
    }
  }

  /** A conversation lands on exactly one rung, and the rung fixes what is kept. */
  lemma ExactlyOneRung(cost: Message -> nat, contentCost: string -> nat, ms: seq<Message>, budget: int, a: Rung,
                       b: Rung)
    requires ms != [] && LandsOn(cost, contentCost, ms, budget, a) && LandsOn(cost, contentCost, ms, budget, b)
    ensures a == b
    ensures forall x, y ::
              Keeps(cost, contentCost, ms, budget, a, x) && Keeps(cost, contentCost, ms, budget, b, y) ==> x == y
  {
    if |ms| > 1 {
      SelectionIsMonotone(cost, ms, 1, |ms| - 1);
      assert Selection(ms, 1) == ms;
    }
    forall x, y | Keeps(cost, contentCost, ms, budget, a, x) && Keeps(cost, contentCost, ms, budget, a, y)
      ensures x == y
    {
      if a == HistorySelected {
        var k :| 1 <= k < |ms| && LongestAt(cost, ms, budget, x, k);
        var l :| 1 <= l < |ms| && LongestAt(cost, ms, budget, y, l);
        LongestIsUnique(cost, ms, budget, x, y, k, l);
      }
    }
  }

  lemma CutKeepsIdentity(contentCost: string -> nat, budget: int, m: Message)
    ensures var cut := CutTool(contentCost, budget, m);
            cut.role == CutHard(budget, cut).role == m.role && cut.rest == CutHard(budget, cut).rest == m.rest
  {
  }

  /** Every rung but the emergency one fits the budget, and the newest message always survives,
      last, with its role: whole, as a cut tool result, or as a prefix. */
  lemma WhatEveryRungGuarantees(cost: Message -> nat, contentCost: string -> nat, ms: seq<Message>,
                                budget: int, rung: Rung, kept: seq<Message>)
    requires ms != [] && LandsOn(cost, contentCost, ms, budget, rung) &&
             Keeps(cost, contentCost, ms, budget, rung, kept)
    ensures rung != Emergency ==> Total(cost, kept) <= budget
    ensures kept != [] && Last(kept).role == Last(ms).role && Last(kept).rest == Last(ms).rest
    ensures rung == Verbatim || rung == HistorySelected ==> Last(kept) == Last(ms)
    ensures Last(kept) == Last(ms) || Last(kept) == CutTool(contentCost, budget, Last(ms)) ||
            (rung == Emergency && Last(kept) == CutHard(budget, CutTool(contentCost, budget, Last(ms))))
    ensures rung == Verbatim || rung == HistorySelected ==> kept[0] == ms[0]
    ensures rung == ToolTruncated ==> kept[0] == CutTool(contentCost, budget, ms[0])
  {
    hide Total;
    hide CutTool;
    hide CutHard;
    hide CutTools;
    hide Essential;
    hide Selection;
    EssentialEnds(ms);
    CutKeepsIdentity(contentCost, budget, Last(ms));
    if rung == HistorySelected {
      var k :| 1 <= k < |ms| && LongestAt(cost, ms, budget, kept, k);
      SelectionEnds(ms, k);
    }
  }

  lemma SelectionEnds(ms: seq<Message>, k: nat)
    requires 1 <= k < |ms|
    ensures Selection(ms, k) != [] && Last(Selection(ms, k)) == Last(ms) && Selection(ms, k)[0] == ms[0]
  {
  }

  lemma EssentialEnds(ms: seq<Message>)
    requires ms != []
    ensures Essential(ms) != [] && Last(Essential(ms)) == Last(ms) && Essential(ms)[0] == ms[0]
    ensures |Essential(ms)| == Min(2, |ms|)
  {
  }

  /** A tool result whose content costs more than half the budget keeps its first characters, a
      quarter of the budget of them, and a mark; any other message stays. */
  lemma WhatACutToolKeeps(contentCost: string -> nat, budget: nat, m: Message)
    ensures CutTool(contentCost, budget, m) ==
            if m.role == "tool" && contentCost(m.content) > budget / 2
            then Message(m.role, m.content[..Min(budget / 4, |m.content|)] + "\n[...truncated...]", m.rest)
            else m
  {
  }

  /** The UTF-8 form of a character. */
  function Utf8Bytes(c: char): seq<nat> {
    var u := c as int;
    if u < 0x80 then [u]
    else if u < 0x800 then [0xC0 + u / 0x40, 0x80 + u % 0x40]
    else if u < 0x1_0000 then [0xE0 + u / 0x1000, 0x80 + u / 0x40 % 0x40, 0x80 + u % 0x40]
    else [0xF0 + u / 0x4_0000, 0x80 + u / 0x1000 % 0x40, 0x80 + u / 0x40 % 0x40, 0x80 + u % 0x40]
  }

  function Utf8(s: string): seq<nat> {
    if s == "" then [] else Utf8(Front(s)) + Utf8Bytes(Last(s))
  }

  lemma {:induction false} LengthIsUtf8(s: string)
    ensures Utf8Length(s) == |Utf8(s)|
  {
    if s != "" {
      LengthIsUtf8(Front(s));
    }
  }

  /** The emergency cut keeps the longest prefix whose UTF-8 form has at most four bytes for each token
      of the budget, of which there is at least one. */
  lemma WhatTheEmergencyKeeps(budget: int, m: Message, n: nat)
    requires n <= |m.content|
    ensures var kept, bytes := CutHard(budget, m), 4 * if budget >= 1 then budget else 1;
            kept.role == m.role && kept.rest == m.rest && kept.content <= m.content &&
            (n <= |kept.content| <==> |Utf8(m.content[..n])| <= bytes)
  {
    var kept, bytes := CutHard(budget, m).content, Max(1, budget) * 4;
    assert m.content[..|kept|] == kept;
    LengthIsUtf8(m.content[..n]);
    if n <= |kept| {
      LongerPrefix(m.content, n, |kept|);
    } else {
      LongerPrefix(m.content, |kept| + 1, n);
    }
  }

  lemma {:induction false} LongerPrefix(s: string, a: nat, b: nat)
    requires a <= b <= |s|
    ensures Utf8Length(s[..a]) <= Utf8Length(s[..b])
    decreases b
  {
    if a < b {
      LongerPrefix(s, a, b - 1);
      assert Front(s[..b]) == s[..b - 1];
    }
  }

  /** The rung is the first on which what is kept fits: the whole conversation; its first and newest
      message; those with tool results cut; the newest alone, cut; and the last rung otherwise. */
  lemma WhenEachRungIsReached(cost: Message -> nat, contentCost: string -> nat, ms: seq<Message>, budget: int,
                              rung: Rung)
    requires ms != []
    ensures var ends := if |ms| <= 2 then ms else [ms[0], ms[|ms| - 1]];
            var cut := seq(|ends|, i requires 0 <= i < |ends| => CutTool(contentCost, budget, ends[i]));
            LandsOn(cost, contentCost, ms, budget, rung) <==>
            match rung
            case Verbatim => Total(cost, ms) <= budget
            case HistorySelected => Total(cost, ms) > budget && Total(cost, ends) <= budget
            case ToolTruncated => Total(cost, ends) > budget && Total(cost, cut) <= budget
            case StepSelected =>
              Total(cost, ends) > budget && Total(cost, cut) > budget && Total(cost, [cut[|cut| - 1]]) <= budget
            case Emergency =>
              Total(cost, ends) > budget && Total(cost, cut) > budget && Total(cost, [cut[|cut| - 1]]) > budget
  {
    hide Total;
    hide CutTool;
    hide CutTools;
    hide Essential;
    EndsAreEssential(ms);
    CutAllIsCutTools(contentCost, budget, Essential(ms));
  }

  lemma EndsAreEssential(ms: seq<Message>)
    requires ms != []
    ensures Essential(ms) == if |ms| <= 2 then ms else [ms[0], ms[|ms| - 1]]
  {
  }

  lemma CutAllIsCutTools(contentCost: string -> nat, budget: int, ms: seq<Message>)
    ensures CutTools(contentCost, budget, ms) ==
            seq(|ms|, i requires 0 <= i < |ms| => CutTool(contentCost, budget, ms[i]))
  {
    hide CutTool;
  }

  /** What is kept on each rung, message by message. */
  lemma WhatEachRungKeeps(cost: Message -> nat, contentCost: string -> nat, ms: seq<Message>, budget: nat, rung: Rung,
                          kept: seq<Message>)
    requires ms != [] && Keeps(cost, contentCost, ms, budget, rung, kept)
    ensures rung == Verbatim ==> kept == ms
    ensures rung == HistorySelected ==>
              exists k :: 1 <= k < |ms| && kept == [ms[0]] + ms[k..] && Total(cost, kept) <= budget &&
                          forall j :: 1 <= j < k ==> Total(cost, [ms[0]] + ms[j..]) > budget
    ensures rung == ToolTruncated ==>
              |kept| == Min(2, |ms|) && kept[0] == CutTool(contentCost, budget, ms[0]) &&
              kept[|kept| - 1] == CutTool(contentCost, budget, ms[|ms| - 1])
    ensures rung == StepSelected ==> kept == [CutTool(contentCost, budget, ms[|ms| - 1])]
    ensures rung == Emergency ==> kept == [CutHard(budget, CutTool(contentCost, budget, ms[|ms| - 1]))]
  {
    hide Total;
    hide CutTool;
    hide CutHard;
    hide CutTools;
    hide Essential;
    hide IsLongestSelection;
    EssentialEnds(ms);
    if rung == HistorySelected {
      LongestIsSuffix(cost, ms, budget, kept);
    }
  }

  lemma LongestIsSuffix(cost: Message -> nat, ms: seq<Message>, budget: nat, kept: seq<Message>)
    requires ms != [] && IsLongestSelection(cost, ms, budget, kept)
    ensures exists k :: 1 <= k < |ms| && kept == [ms[0]] + ms[k..] && Total(cost, kept) <= budget &&
                        forall j :: 1 <= j < k ==> Total(cost, [ms[0]] + ms[j..]) > budget
  {
    hide Total;
    var k :| 1 <= k < |ms| && LongestAt(cost, ms, budget, kept, k);
    forall j | 1 <= j < k
      ensures Total(cost, [ms[0]] + ms[j..]) > budget
    {
      assert Selection(ms, j) == [ms[0]] + ms[j..];
    }
  }

  /** Maximality: no longer suffix of the history would have fitted. */
  lemma NoLongerSelectionFits(cost: Message -> nat, contentCost: string -> nat, ms: seq<Message>, budget: int,
                              kept: seq<Message>, j: nat)
    requires ms != [] && Keeps(cost, contentCost, ms, budget, HistorySelected, kept)
    requires 1 <= j <= |ms| && |Selection(ms, j)| > |kept|
    ensures Total(cost, Selection(ms, j)) > budget
  {
    var k :| 1 <= k < |ms| && LongestAt(cost, ms, budget, kept, k);
    assert j < k;
  }

  lemma EssentialIsSelection(ms: seq<Message>)
    requires |ms| >= 2
    ensures Essential(ms) == Selection(ms, |ms| - 1)
  {
  }

  method SumCosts(cost: Message -> nat, ms: seq<Message>) returns (sum: nat)
    ensures sum == Total(cost, ms)
  {
    sum := 0;
    for i := 0 to |ms|
      invariant sum + Total(cost, ms[i..]) == Total(cost, ms)
    {
      assert ms[i..][1..] == ms[i + 1..];
      sum := sum + cost(ms[i]);
    }
  }

  /** Rung 2: drops the oldest messages but the first while more than two are left. */
  method DropHistory(cost: Message -> nat, messages: seq<Message>, budget: int) returns (kept: seq<Message>)
    requires messages != [] && Total(cost, messages) > budget
    ensures Total(cost, kept) <= budget ==> IsLongestSelection(cost, messages, budget, kept)
    ensures Total(cost, kept) > budget ==> kept == Essential(messages)
    ensures Total(cost, kept) <= budget ==> Total(cost, Essential(messages)) <= budget
  {
    kept := messages;
    if |messages| == 1 {
      return;
    }
    ghost var k := 1;
    assert kept == Selection(messages, 1);
    var total := SumCosts(cost, kept);
    while |kept| > 2 && total > budget
      invariant 1 <= k < |messages| && kept == Selection(messages, k) && total == Total(cost, kept)
      invariant forall j :: 1 <= j < k ==> Total(cost, Selection(messages, j)) > budget
      decreases |kept|
    {
      SelectionShrinks(cost, messages, k);
      kept := kept[..1] + kept[2..];
      k := k + 1;
      assert kept == Selection(messages, k);
      total := SumCosts(cost, kept);
    }
    EssentialIsSelection(messages);
    SelectionIsMonotone(cost, messages, k, |messages| - 1);
    assert total <= budget ==> LongestAt(cost, messages, budget, kept, k);
  }

  /** Rung 3: cuts the oversized tool results, in place. */
  method CutToolResults(contentCost: string -> nat, budget: int, messages: seq<Message>) returns (kept: seq<Message>)
    ensures kept == CutTools(contentCost, budget, messages)
  {
    kept := messages;
    for i := 0 to |kept|
      invariant |kept| == |messages|
      invariant forall j :: 0 <= j < |kept| ==>
                  kept[j] == if j < i then CutTool(contentCost, budget, messages[j]) else messages[j]
    {
      if kept[i].role == "tool" && contentCost(kept[i].content) > budget / 2 {
        kept := kept[i := kept[i].(content := PyPrefix(kept[i].content, budget / 4) + TRUNCATED)];
      }
    }
  }

  /** The ladder, rung by rung. An empty conversation is kept as it is. */
  method FitMessages(cost: Message -> nat, contentCost: string -> nat, messages: seq<Message>, budget: int)
    returns (rung: Rung, kept: seq<Message>)
    ensures messages == [] ==> rung == Verbatim && kept == []
    ensures messages != [] ==>
              LandsOn(cost, contentCost, messages, budget, rung) &&
              Keeps(cost, contentCost, messages, budget, rung, kept)
  {
    hide Total;
    hide IsLongestSelection;
    hide CutTool;
    if messages == [] {
      return Verbatim, [];
    }
    var total := SumCosts(cost, messages);
    if total <= budget {
      return Verbatim, messages;
    }
    kept := DropHistory(cost, messages, budget);
    total := SumCosts(cost, kept);
    if total <= budget {
      return HistorySelected, kept;
    }
    kept := CutToolResults(contentCost, budget, kept);
    total := SumCosts(cost, kept);
    if total <= budget {
      return ToolTruncated, kept;
    }
    if |kept| > 1 {
      kept := [kept[|kept| - 1]];
    }
    assert kept == [Last(CutTools(contentCost, budget, Essential(messages)))];
    total := SumCosts(cost, kept);
    if total <= budget {
      return StepSelected, kept;
    }
    kept := kept[0 := kept[0].(content := Utf8Prefix(kept[0].content, Max(1, budget) * 4))];
    rung := Emergency;
  }

  // ---------------------------------------------------------------------------------------
  // The summary
  // ---------------------------------------------------------------------------------------

  const SECTIONS := [
    "Current goal", "Accepted decisions", "Modified artifacts",
    "Unresolved tasks", "Blockers or failures", "Next safe action"]

  /** Lower-casing character by character. */
  function Lower(lower: char -> string, s: string): string {
    if s == "" then "" else Lower(lower, Front(s)) + lower(Last(s))
  }

  ghost predicate Contains(text: string, part: string) {
    exists i :: 0 <= i <= |text| - |part| && OccursAt(text, part, i)
  }

  ghost predicate OccursAt(text: string, part: string, i: nat)
    requires i <= |text| - |part|
  {
    text[i..i + |part|] == part
  }

  ghost predicate IsValid(lower: char -> string, summary: string) {
    |Strip(summary)| >= 10 && forall k :: 0 <= k < |SECTIONS| ==> Covers(lower, summary, k)
  }

  ghost predicate Covers(lower: char -> string, summary: string, k: nat)
    requires k < |SECTIONS|
  {
    Contains(Lower(lower, summary), Lower(lower, SECTIONS[k]))
  }

  /** The fallback template: a heading for each section, with any text after each, and a digest. */
  function Template(texts: seq<string>, digest: string): string
    requires |texts| == |SECTIONS|
  {
    "Compaction summary\n" + Sections(texts, |SECTIONS|) + "\nSource digest:\n" + digest
  }

  function Sections(texts: seq<string>, n: nat): string
    requires n <= |SECTIONS| == |texts|
  {
    if n == 0 then "" else Sections(texts, n - 1) + "- " + SECTIONS[n - 1] + ": " + texts[n - 1] + "\n"
  }

  lemma {:induction false} LowerConcat(lower: char -> string, a: string, b: string)
    ensures Lower(lower, a + b) == Lower(lower, a) + Lower(lower, b)
  {
    if b == "" {
      assert a + b == a;
    } else {
      LowerConcat(lower, a, Front(b));
      assert Front(a + b) == a + Front(b);
      assert Lower(lower, a) + (Lower(lower, Front(b)) + lower(Last(b))) ==
             (Lower(lower, a) + Lower(lower, Front(b))) + lower(Last(b));
    }
  }

  lemma LowerKeepsParts(lower: char -> string, a: string, part: string, b: string)
    ensures Contains(Lower(lower, a + part + b), Lower(lower, part))
  {
    LowerConcat(lower, a + part, b);
    LowerConcat(lower, a, part);
    var la, lp, lb := Lower(lower, a), Lower(lower, part), Lower(lower, b);
    assert OccursAt(la + lp + lb, lp, |la|);
  }

  lemma {:induction false} SectionStands(texts: seq<string>, n: nat, k: nat) returns (before: string, rest: string)
    requires k < n <= |SECTIONS| == |texts|
    ensures Sections(texts, n) == before + SECTIONS[k] + rest
  {
    if k == n - 1 {
      before, rest := Sections(texts, n - 1) + "- ", ": " + texts[n - 1] + "\n";
    } else {
      var r;
      before, r := SectionStands(texts, n - 1, k);
      rest := r + ("- " + SECTIONS[n - 1] + ": " + texts[n - 1] + "\n");
      Extend(before + SECTIONS[k], r, "- ", SECTIONS[n - 1], ": ", texts[n - 1], "\n");
    }
  }

  lemma Extend(a: string, r: string, b: string, c: string, d: string, e: string, f: string)
    ensures (a + r) + b + c + d + e + f == a + (r + (b + c + d + e + f))
  {
  }

  lemma {:induction false} StripRightKeeps(s: string, i: nat)
    requires i < |s| && !IsSpace(s[i])
    ensures |StripRight(s)| > i
  {
    if IsSpace(Last(s)) {
      StripRightKeeps(Front(s), i);
    }
  }

  /** The fallback summary passes validation whatever the conversation was. */
  lemma TemplateIsValid(lower: char -> string, texts: seq<string>, digest: string)
    requires |texts| == |SECTIONS|
    ensures IsValid(lower, Template(texts, digest))
  {
    hide Sections;
    var t := Template(texts, digest);
    forall k | 0 <= k < |SECTIONS|
      ensures Covers(lower, t, k)
    {
      var before, rest := SectionStands(texts, |SECTIONS|, k);
      var a, b := "Compaction summary\n" + before, rest + "\nSource digest:\n" + digest;
      assert t == a + SECTIONS[k] + b;
      LowerKeepsParts(lower, a, SECTIONS[k], b);
    }
    var head := "Compaction summary\n";
    assert t[0] == head[0] && t[17] == head[17] && !IsSpace(t[0]) && !IsSpace(t[17]);
    assert StripLeft(t) == t;
    StripRightKeeps(t, 17);
  }

  function Line(texts: seq<string>, k: nat): string
    requires k < |SECTIONS| == |texts|
  {
    "- " + SECTIONS[k] + ": " + texts[k] + "\n"
  }

  /** The deterministic summary, line by line. */
  lemma WhatTheTemplateSays(texts: seq<string>, digest: string)
    requires |texts| == |SECTIONS|
    ensures Template(texts, digest) ==
            "Compaction summary\n" +
            (Line(texts, 0) + Line(texts, 1) + Line(texts, 2) + Line(texts, 3) + Line(texts, 4) + Line(texts, 5)) +
            "\nSource digest:\n" + digest
  {
    SixLines(texts);
    hide Sections;
    hide Line;
  }

  lemma SixLines(texts: seq<string>)
    requires |texts| == |SECTIONS|
    ensures Sections(texts, 6) ==
            Line(texts, 0) + Line(texts, 1) + Line(texts, 2) + Line(texts, 3) + Line(texts, 4) + Line(texts, 5)
  {
    hide Line;
    OneMoreLine(texts, 0);
    OneMoreLine(texts, 1);
    OneMoreLine(texts, 2);
    OneMoreLine(texts, 3);
    OneMoreLine(texts, 4);
    OneMoreLine(texts, 5);
    hide Sections;
    assert "" + Line(texts, 0) == Line(texts, 0);
  }

  lemma OneMoreLine(texts: seq<string>, k: nat)
    requires k < |SECTIONS| == |texts|
    ensures Sections(texts, 0) == "" && Sections(texts, k + 1) == Sections(texts, k) + Line(texts, k)
  {
    var title := SECTIONS[k];
    Grouped(Sections(texts, k), title, texts[k]);
  }

  lemma Grouped(before: string, title: string, text: string)
    ensures before + "- " + title + ": " + text + "\n" == before + ("- " + title + ": " + text + "\n")
  {
  }

  /** The part stands in the text, with something before it and something behind it. */
  ghost predicate StandsIn(text: string, part: string) {
    exists before: string, behind: string :: text == before + part + behind
  }

  lemma ContainsMeans(text: string, part: string)
    ensures Contains(text, part) <==> StandsIn(text, part)
  {
    if Contains(text, part) {
      var i :| 0 <= i <= |text| - |part| && OccursAt(text, part, i);
      assert text == text[..i] + part + text[i + |part|..];
    }
    if StandsIn(text, part) {
      var before: string, behind: string :| text == before + part + behind;
      assert text[|before|..|before| + |part|] == part;
      assert OccursAt(text, part, |before|);
    }
  }

  /** A summary is valid if it has at least ten characters beside surrounding white space and, letter
      case aside, holds each section's title. */
  lemma WhatValidMeans(lower: char -> string, summary: string)
    ensures IsValid(lower, summary) <==>
            |Strip(summary)| >= 10 &&
            forall k :: 0 <= k < |SECTIONS| ==> StandsIn(Lower(lower, summary), Lower(lower, SECTIONS[k]))
  {
    hide Strip;
    hide Lower;
    hide Contains;
    hide StandsIn;
    forall k | 0 <= k < |SECTIONS|
      ensures Covers(lower, summary, k) <==> StandsIn(Lower(lower, summary), Lower(lower, SECTIONS[k]))
    {
      ContainsMeans(Lower(lower, summary), Lower(lower, SECTIONS[k]));
    }
  }

  /** The summary used: the candidate if it is valid, the template otherwise. */
  function Choose(valid: bool, candidate: Option<string>, fallback: string): string {
    if candidate.Some? && valid then candidate.value else fallback
  }

  /** Whatever the summarizer produced, the chosen summary is valid: the blocker raised for an
      invalid one cannot be reached. A valid candidate is used unchanged. */
  lemma ChosenSummaryIsValid(lower: char -> string, candidate: Option<string>, valid: bool, texts: seq<string>,
                             digest: string)
    requires |texts| == |SECTIONS|
    requires valid <==> candidate.Some? && IsValid(lower, candidate.value)
    ensures var summary := Choose(valid, candidate, Template(texts, digest));
            IsValid(lower, summary) && (valid ==> summary == candidate.value)
  {
    TemplateIsValid(lower, texts, digest);
  }
}
