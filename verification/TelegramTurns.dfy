/** What the turns of a batch are, field by field: which messages make one turn, which do not, in
    which order turns leave, and what is dispatched for one. */
module TelegramTurns {
  import opened Prelude
  import opened TelegramPolling

  // ---------------------------------------------------------------------------------------
  // What is dispatched for a turn
  // ---------------------------------------------------------------------------------------

  /** Where the text of part i starts in the text of the turn. */
  function StartOf(parts: seq<Event>, i: nat): nat
    requires i <= |parts|
  {
    if i == 0 then 0 else StartOf(parts, i - 1) + |parts[i - 1].content| + 1
  }

  lemma {:induction false} StartOfPrefix(parts: seq<Event>, n: nat, i: nat)
    requires i <= n <= |parts|
    ensures StartOf(parts[..n], i) == StartOf(parts, i)
  {
    if i > 0 {
      StartOfPrefix(parts, n, i - 1);
    }
  }

  /** The text of a turn is that of its parts in order, with one newline between neighbours. */
  lemma {:induction false} PartsAreJoined(parts: seq<Event>, i: nat)
    requires i < |parts|
    ensures var text, at, n := JoinContents(parts), StartOf(parts, i), |parts[i].content|;
            |text| + 1 == StartOf(parts, |parts|) && at + n <= |text| && text[at..at + n] == parts[i].content &&
            (i + 1 < |parts| ==> at + n < |text| && text[at + n] == '\n')
  {
    hide JoinContents;
    if |parts| == 1 {
      OneText(parts);
    } else {
      var pre, m := Front(parts), if i < |parts| - 1 then i else 0;
      PartsAreJoined(pre, m);
      StartOfPrefix(parts, |pre|, |pre|);
      StartOfPrefix(parts, |pre|, m);
      OneMoreText(parts);
      Glue(JoinContents(pre), Last(parts).content, StartOf(pre, m), |pre[m].content|);
    }
  }

  lemma OneText(parts: seq<Event>)
    requires |parts| == 1
    ensures JoinContents(parts) == parts[0].content
  {
  }

  lemma OneMoreText(parts: seq<Event>)
    requires |parts| > 1
    ensures JoinContents(parts) == JoinContents(Front(parts)) + "\n" + Last(parts).content
  {
  }

  lemma Glue(before: string, last: string, at: nat, n: nat)
    requires at + n <= |before|
    ensures var text := before + "\n" + last;
            |text| == |before| + 1 + |last| && text[at..at + n] == before[at..at + n] && text[|before|] == '\n' &&
            text[|before| + 1..|before| + 1 + |last|] == last &&
            (at + n < |before| ==> text[at + n] == before[at + n])
  {
  }

  /** A turn of one message is that message; a turn of several is a plain message from the same
      actor to the same place, with the ids of the first one, and all their texts. */
  lemma WhatIsDispatched(us: seq<Update>, i: nat)
    requires i < |Turns(us)|
    ensures var t, e := Turns(us)[i], Dispatches(Turns(us))[i];
            var head := t.head.event;
            (t.tail == [] ==> e == head) &&
            (t.tail != [] ==>
              e == Event(head.externalId, head.actorId, head.chatId, head.topicId, Message,
                         JoinContents(EventsOf(t.Items())), [], head.messageId, head.replyTo, None))
  {
    hide Turns;
    hide JoinContents;
  }

  /** A poll completes exactly if no dispatch that runs inline raises: all do without a background
      sink, and button presses always do. */
  lemma WhenAPollCompletes(p: Poll)
    ensures Completes(p) <==>
            forall i :: 0 <= i < |Turns(p.updates)| && p.raises(i) ==>
              p.background && Dispatches(Turns(p.updates))[i].kind != CallbackQuery
  {
    hide Turns;
    hide Render;
    var sent := Dispatches(Turns(p.updates));
    if Completes(p) {
      forall i | 0 <= i < |sent| && p.raises(i)
        ensures p.background && sent[i].kind != CallbackQuery
      {
        assert !RaisesAt(sent, i, p.background, p.raises);
      }
    }
  }

  // ---------------------------------------------------------------------------------------
  // Which messages make one turn
  // ---------------------------------------------------------------------------------------

  predicate IsPlainText(e: Event) {
    e.kind == Message && e.media == [] && Strip(e.content) != ""
  }

  function TopicText(e: Event): string {
    if e.topicId.Some? then e.topicId.value else "None"
  }

  predicate SameScope(a: Event, b: Event) {
    a.chatId == b.chatId && a.actorId == b.actorId && TopicText(a) == TopicText(b)
  }

  /** d is the latest date among the items. */
  ghost predicate IsLatest(items: seq<Item>, d: int) {
    (exists i :: 0 <= i < |items| && items[i].date == Some(d)) &&
    forall i :: 0 <= i < |items| && items[i].date.Some? ==> items[i].date.value <= d
  }

  lemma {:induction false} LatestIsLatest(items: seq<Item>)
    ensures Latest(items).Some? ==> IsLatest(items, Latest(items).value)
    ensures Latest(items).None? ==> forall i :: 0 <= i < |items| ==> items[i].date.None?
  {
    if items != [] {
      LatestIsLatest(Front(items));
      assert forall i :: 0 <= i < |items| - 1 ==> items[i] == Front(items)[i];
      assert items[|items| - 1] == Last(items);
      if Latest(items).Some? {
        var d := Latest(items).value;
        if Last(items).date == Some(d) {
          assert items[|items| - 1].date == Some(d);
        } else {
          var i :| 0 <= i < |items| - 1 && Front(items)[i].date == Some(d);
          assert items[i].date == Some(d);
        }
      }
    }
  }

  /** The item can be merged behind those: plain text of the same actor in the same place, dated, and
      at most two minutes from their latest date. */
  ghost predicate Follows(items: seq<Item>, x: Item)
    requires items != []
  {
    IsPlainText(items[0].event) && IsPlainText(x.event) && x.date.Some? &&
    exists d :: IsLatest(items, d) && -120 <= x.date.value - d <= 120
  }

  lemma ExtendsMeans(t: Turn, x: Item)
    ensures Extends(t, x) <==> Follows(t.Items(), x)
  {
    hide Strip;
    hide Latest;
    LatestIsLatest(t.Items());
    assert t.Items()[0] == t.head;
    if Follows(t.Items(), x) {
      var d :| IsLatest(t.Items(), d) && -120 <= x.date.value - d <= 120;
      assert Latest(t.Items()) == Some(d);
    }
  }

  /** Every later part of a turn is of the same actor in the same place as the first, and could be
      merged behind all parts before it. */
  lemma PartsFollow(us: seq<Update>, i: nat, j: nat)
    requires i < |Turns(us)| && 0 < j < |Turns(us)[i].Items()|
    ensures var parts := Turns(us)[i].Items();
            SameScope(parts[0].event, parts[j].event) && Follows(parts[..j], parts[j])
  {
    hide Turns;
    hide Follows;
    hide Extends;
    hide IsGreedy;
    var turns, items := Turns(us), Eligible(us);
    var t := turns[i];
    var k := ScopeOf(t.head.event);
    TurnsAreScopewiseGreedy(us, k);
    SegmentIsGreedy(ItemsOf(items, k));
    TurnPosition(turns, i);
    var own, at := TurnsOf(turns, k), |TurnsOf(turns[..i], k)|;
    BurstOf(own, ItemsOf(items, k), at, j);
    EligibleDistinct(us);
    ItemsOfMembers(items, k);
    MemberOfTurn(own, at, t.Items()[j]);
    GreedyHasItems(own, ItemsOf(items, k));
    assert ScopeOf(t.Items()[j].event) == k;
  }

  lemma GreedyHasItems(turns: seq<Turn>, items: seq<Item>)
    requires IsGreedy(turns, items)
    ensures AllItems(turns) == items
  {
  }

  lemma BurstOf(turns: seq<Turn>, items: seq<Item>, i: nat, j: nat)
    requires IsGreedy(turns, items) && i < |turns| && 0 < j < |turns[i].Items()|
    ensures Follows(turns[i].Items()[..j], turns[i].Items()[j])
  {
    hide Follows;
    hide Extends;
    var t := turns[i];
    assert IsBurst(t);
    assert Extends(Turn(t.head, t.tail[..j - 1]), t.tail[j - 1]);
    ExtendsMeans(Turn(t.head, t.tail[..j - 1]), t.tail[j - 1]);
    assert Turn(t.head, t.tail[..j - 1]).Items() == t.Items()[..j];
  }

  /** A turn is as long as it can be: of two turns of one scope with none of that scope in between,
      the first message of the second could not be merged behind the first. */
  lemma TurnsAreMaximal(us: seq<Update>, i: nat, j: nat)
    requires i < j < |Turns(us)| && SameScope(Turns(us)[i].head.event, Turns(us)[j].head.event)
    requires forall m :: i < m < j ==> !SameScope(Turns(us)[i].head.event, Turns(us)[m].head.event)
    ensures !Follows(Turns(us)[i].Items(), Turns(us)[j].head)
  {
    hide Segment;
    hide IsGreedy;
    hide Eligible;
    hide IsPlainText;
    hide Turns;
    hide Follows;
    hide Extends;
    var turns := Turns(us);
    var k := ScopeOf(turns[i].head.event);
    TurnsAreScopewiseGreedy(us, k);
    SegmentIsGreedy(ItemsOf(Eligible(us), k));
    TurnPosition(turns, i);
    TurnPosition(turns, j);
    var own, at := TurnsOf(turns, k), |TurnsOf(turns[..i], k)|;
    hide TurnsOf;
    NoneBetween(turns, i, j, k);
    assert own[at] == turns[i] && own[at + 1] == turns[j];
    GreedyIsSeparated(own, ItemsOf(Eligible(us), k), at);
  }

  lemma GreedyIsSeparated(turns: seq<Turn>, items: seq<Item>, i: nat)
    requires IsGreedy(turns, items) && i + 1 < |turns|
    ensures !Follows(turns[i].Items(), turns[i + 1].head)
  {
    hide Follows;
    hide Extends;
    assert Apart(turns, i);
    ExtendsMeans(turns[i], turns[i + 1].head);
  }

  lemma {:induction false} NoneBetween(turns: seq<Turn>, i: nat, j: nat, k: Scope)
    requires i < j <= |turns| && ScopeOf(turns[i].head.event) == k
    requires forall m :: i < m < j ==> ScopeOf(turns[m].head.event) != k
    ensures |TurnsOf(turns[..j], k)| == |TurnsOf(turns[..i], k)| + 1
    decreases j
  {
    hide ScopeOf;
    assert Front(turns[..j]) == turns[..j - 1] && Last(turns[..j]) == turns[j - 1];
    if i < j - 1 {
      NoneBetween(turns, i, j - 1, k);
    }
  }

  // ---------------------------------------------------------------------------------------
  // In which order turns leave
  // ---------------------------------------------------------------------------------------

  /** One admitted event sends first its scope's open burst, unless it joins that, and then itself,
      unless it is plain text. */
  lemma WhatAnEventSends(p: Pending, x: Item)
    requires InStep(p)
    ensures var k := ScopeOf(x.event);
            var joins := k in p.open && Follows(p.open[k].Items(), x);
            Take(p, x).turns ==
            p.turns + (if k in p.open && !joins then [p.open[k]] else []) +
            (if IsPlainText(x.event) then [] else [Turn(x, [])])
  {
    hide Follows;
    hide Extends;
    var k := ScopeOf(x.event);
    if k in p.open {
      ExtendsMeans(p.open[k], x);
      if Follows(p.open[k].Items(), x) {
        FollowersArePlain(p.open[k].Items(), x);
      }
    }
  }

  lemma FollowersArePlain(items: seq<Item>, x: Item)
    requires items != [] && Follows(items, x)
    ensures IsPlainText(x.event)
  {
  }

  lemma {:induction false} AllOpenLeave(p: Pending)
    requires InStep(p)
    ensures |FlushAll(p)| == |p.turns| + |p.order|
    decreases |p.order|
  {
    hide InStep;
    if p.order != [] {
      FlushFirst(p);
      AllOpenLeave(Flush(p, p.order[0]));
    }
  }

  lemma FlushFirst(p: Pending)
    requires InStep(p) && p.order != []
    ensures p.order[0] in p.open
    ensures var q := Flush(p, p.order[0]);
            InStep(q) && FlushAll(p) == FlushAll(q) && q.order == p.order[1..] &&
            q.turns == p.turns + [p.open[p.order[0]]] && q.open == p.open - {p.order[0]}
  {
    FlushInStep(p, p.order[0]);
  }

  /** The bursts left open at the end leave last, in the order they are listed. */
  lemma {:induction false} OpenBurstsLeaveLast(p: Pending, i: nat)
    requires InStep(p) && i < |p.order|
    ensures var sent := FlushAll(p);
            |sent| == |p.turns| + |p.order| && p.turns <= sent && p.order[i] in p.open &&
            sent[|p.turns| + i] == p.open[p.order[i]]
    decreases |p.order|
  {
    hide InStep;
    hide FlushAll;
    AllOpenLeave(p);
    FlushAllExtends(p);
    FlushFirst(p);
    var q := Flush(p, p.order[0]);
    FlushAllExtends(q);
    if i > 0 {
      OpenBurstsLeaveLast(q, i - 1);
    }
  }

  ghost predicate Before(items: seq<Item>, x: Item, y: Item) {
    exists a, b :: 0 <= a < b < |items| && items[a] == x && items[b] == y
  }

  /** The open bursts are listed in the order of their first messages. */
  ghost predicate AsOpened(p: Pending, items: seq<Item>) {
    (forall k :: k in p.order <==> k in p.open) &&
    (forall k :: k in p.open ==> p.open[k].head in items) &&
    forall i, j :: 0 <= i < j < |p.order| ==> Before(items, p.open[p.order[i]].head, p.open[p.order[j]].head)
  }

  lemma RemoveAt<T>(s: seq<T>, x: T) returns (a: nat)
    requires x in s
    ensures a < |s| && s[a] == x && Remove(s, x) == s[..a] + s[a + 1..]
  {
    a := 0;
    if s[0] != x {
      var rest := RemoveAt(s[1..], x);
      a := rest + 1;
    }
  }

  lemma SkipIndex<T>(s: seq<T>, a: nat, i: nat, j: nat)
    requires a < |s| && i < j < |s| - 1
    ensures var i', j' := if i < a then i else i + 1, if j < a then j else j + 1;
            i' < j' < |s| && (s[..a] + s[a + 1..])[i] == s[i'] && (s[..a] + s[a + 1..])[j] == s[j']
  {
  }

  lemma InStepMeans(p: Pending)
    requires InStep(p)
    ensures forall k :: k in p.order <==> k in p.open
  {
  }

  lemma FlushedAsOpened(p: Pending, items: seq<Item>, k: Scope)
    requires AsOpened(p, items) && InStep(p)
    ensures AsOpened(Flush(p, k), items)
  {
    hide Before;
    hide InStep;
    hide Remove;
    FlushInStep(p, k);
    InStepMeans(Flush(p, k));
    if k in p.open {
      var a := RemoveAt(p.order, k);
      var q := Flush(p, k);
      forall i, j | 0 <= i < j < |q.order|
        ensures Before(items, q.open[q.order[i]].head, q.open[q.order[j]].head)
      {
        SkipIndex(p.order, a, i, j);
        var i', j' := if i < a then i else i + 1, if j < a then j else j + 1;
        assert Before(items, p.open[p.order[i']].head, p.open[p.order[j']].head);
      }
    }
  }

  lemma BeforeStays(items: seq<Item>, x: Item, y: Item, z: Item)
    ensures Before(items, x, y) ==> Before(items + [z], x, y)
    ensures x in items ==> Before(items + [z], x, z)
  {
    var more := items + [z];
    assert forall i :: 0 <= i < |items| ==> more[i] == items[i];
    if x in items {
      var a :| 0 <= a < |items| && items[a] == x;
      assert more[a] == x && more[|items|] == z;
    }
  }

  lemma MoreAsOpened(p: Pending, items: seq<Item>, x: Item)
    requires AsOpened(p, items)
    ensures AsOpened(p, items + [x])
  {
    hide Before;
    forall i, j | 0 <= i < j < |p.order|
      ensures Before(items + [x], p.open[p.order[i]].head, p.open[p.order[j]].head)
    {
      BeforeStays(items, p.open[p.order[i]].head, p.open[p.order[j]].head, x);
    }
  }

  /** A burst opened now is listed last. */
  lemma OpenedAsOpened(p: Pending, items: seq<Item>, k: Scope, x: Item)
    requires AsOpened(p, items) && k !in p.open
    ensures AsOpened(p.(open := p.open[k := Turn(x, [])], order := p.order + [k]), items + [x])
  {
    hide Before;
    var q := p.(open := p.open[k := Turn(x, [])], order := p.order + [k]);
    MoreAsOpened(p, items, x);
    forall i, j | 0 <= i < j < |q.order|
      ensures Before(items + [x], q.open[q.order[i]].head, q.open[q.order[j]].head)
    {
      assert q.order[i] in p.open;
      if j < |p.order| {
        assert q.order[j] in p.open;
        assert Before(items + [x], p.open[p.order[i]].head, p.open[p.order[j]].head);
      } else {
        BeforeStays(items, p.open[p.order[i]].head, x, x);
      }
    }
  }

  lemma GrownAsOpened(p: Pending, items: seq<Item>, k: Scope, t: Turn)
    requires AsOpened(p, items) && k in p.open && t.head == p.open[k].head
    ensures AsOpened(p.(open := p.open[k := t]), items)
  {
    hide Before;
    var q := p.(open := p.open[k := t]);
    assert forall l :: l in p.open ==> q.open[l].head == p.open[l].head;
  }

  lemma TakenAsOpened(p: Pending, items: seq<Item>, x: Item)
    requires AsOpened(p, items) && InStep(p)
    ensures AsOpened(Take(p, x), items + [x])
  {
    hide AsOpened;
    hide Extends;
    hide Mergeable;
    var k := ScopeOf(x.event);
    FlushedAsOpened(p, items, k);
    FlushInStep(p, k);
    MoreAsOpened(Flush(p, k), items, x);
    OpenedAsOpened(Flush(p, k), items, k, x);
    MoreAsOpened(p, items, x);
    if k in p.open {
      GrownAsOpened(p, items + [x], k, Turn(p.open[k].head, p.open[k].tail + [x]));
    }
    Reordered(Flush(p, k), items + [x], Flush(p, k).turns + [Turn(x, [])]);
  }

  lemma Reordered(p: Pending, items: seq<Item>, turns: seq<Turn>)
    requires AsOpened(p, items)
    ensures AsOpened(p.(turns := turns), items)
  {
  }

  /** After any admitted events the open bursts are listed in the order they were opened. */
  lemma {:induction false} ListedAsOpened(items: seq<Item>)
    ensures AsOpened(TakeAll(items), items)
  {
    if items != [] {
      ListedAsOpened(Front(items));
      TakeAllInStep(Front(items));
      TakenAsOpened(TakeAll(Front(items)), Front(items), Last(items));
      assert items == Front(items) + [Last(items)];
    }
  }

  /** So of two bursts of a batch that are still open at its end, the one opened first leaves first. */
  lemma OpenedFirstLeavesFirst(us: seq<Update>, i: nat, j: nat)
    requires i < j < |TakeAll(Eligible(us)).order|
    ensures var n := |TakeAll(Eligible(us)).turns|;
            n + j < |Turns(us)| && Before(Eligible(us), Turns(us)[n + i].head, Turns(us)[n + j].head)
  {
    hide TakeAll;
    hide FlushAll;
    hide Before;
    var items := Eligible(us);
    var p := TakeAll(items);
    TakeAllInStep(items);
    ListedAsOpened(items);
    OpenBurstsLeaveLast(p, i);
    OpenBurstsLeaveLast(p, j);
  }
}
