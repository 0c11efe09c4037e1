/**
 The Telegram polling coalescer: one pass over an update batch that drops
 same-batch replays, merges bursts of plain text per (chat, topic, actor),
 dispatches the resulting turns and advances the durable offset.

 The adapter keeps a buffer table, a date table and a buffer order in step.
 Against it stands `Segment`: the greedy cut of one sender's own messages,
 which knows nothing about the other senders in the batch.
 */
module TelegramPolling {
  import opened Prelude

  datatype Kind = Message | Command | CallbackQuery | Other

  datatype Event = Event(
    externalId: string,
    actorId: string,
    chatId: string,
    topicId: Option<string>,
    kind: Kind,
    content: string,
    media: seq<string>,
    messageId: Option<string>,
    replyTo: Option<string>,
    callbackQueryId: Option<string>)

  /** What `normalize_update` made of one update. */
  datatype Normalized = Malformed | Ignored | Accepted(event: Event)

  /** One element of `getUpdates`' result list. `date` is the message date when it parses. */
  datatype Update =
    | NotAnObject
    | NoUsableId
    | Update(updateId: int, outcome: Normalized, date: Option<int>)

  datatype Scope = Scope(chat: string, topic: string, actor: string)

  /** An event admitted to the batch, with its message date. */
  datatype Item = Item(event: Event, date: Option<int>)

  /** A maximal burst: a head and the fragments merged behind it. */
  datatype Turn = Turn(head: Item, tail: seq<Item>) {
    function Items(): (r: seq<Item>) {
      [head] + tail
    }
  }

  const BURST_WINDOW_SECONDS := 120

  function ScopeOf(e: Event): Scope {
    Scope(e.chatId, if e.topicId.Some? then e.topicId.value else "None", e.actorId)
  }

  predicate Mergeable(e: Event) {
    e.kind == Message && e.media == [] && Strip(e.content) != ""
  }

  /** The latest date among items, ignoring undated ones. */
  function Latest(items: seq<Item>): Option<int> {
    if items == [] then None
    else
      match (Latest(Front(items)), Last(items).date)
      case (before, None) => before
      case (None, Some(d)) => Some(d)
      case (Some(b), Some(d)) => Some(Max(b, d))
  }

  /** x belongs to the burst t: both plain text, both dated, at most two minutes apart. */
  predicate Extends(t: Turn, x: Item) {
    Mergeable(t.head.event) && Mergeable(x.event) && x.date.Some? && Latest(t.Items()).Some? &&
    Abs(x.date.value - Latest(t.Items()).value) <= BURST_WINDOW_SECONDS
  }

  function EventsOf(items: seq<Item>): (r: seq<Event>)
    ensures |r| == |items| && forall i :: 0 <= i < |items| ==> r[i] == items[i].event
  {
    seq(|items|, i requires 0 <= i < |items| => items[i].event)
  }

  /** Newline-joined message contents, in order. */
  function JoinContents(parts: seq<Event>): string {
    if parts == [] then ""
    else if |parts| == 1 then parts[0].content
    else JoinContents(Front(parts)) + "\n" + Last(parts).content
  }

  /** The event dispatched for a turn: the head itself, or the head carrying all the text. */
  function Render(t: Turn): (e: Event)
    ensures e.externalId == t.head.event.externalId
    ensures ScopeOf(e) == ScopeOf(t.head.event)
  {
    if t.tail == [] then t.head.event
    else
      var h := t.head.event;
      Event(h.externalId, h.actorId, h.chatId, h.topicId, Message, JoinContents(EventsOf(t.Items())), [],
            h.messageId, h.replyTo, None)
  }

  // ---------------------------------------------------------------------------------------
  // Admission: the first event of each external id, in arrival order
  // ---------------------------------------------------------------------------------------

  function Ids(items: seq<Item>): set<string> {
    set i | 0 <= i < |items| :: items[i].event.externalId
  }

  function Admit(items: seq<Item>, u: Update): seq<Item> {
    if u.Update? && u.outcome.Accepted? && u.outcome.event.externalId !in Ids(items)
    then items + [Item(u.outcome.event, u.date)]
    else items
  }

  function Eligible(us: seq<Update>): seq<Item> {
    if us == [] then [] else Admit(Eligible(Front(us)), Last(us))
  }

  ghost predicate DistinctIds(items: seq<Item>) {
    forall i, j :: 0 <= i < j < |items| ==> items[i].event.externalId != items[j].event.externalId
  }

  /** Every event the batch carries, replays included, in arrival order. */
  function Offered(us: seq<Update>): seq<Item> {
    if us == [] then []
    else
      Offered(Front(us)) +
      if Last(us).Update? && Last(us).outcome.Accepted? then [Item(Last(us).outcome.event, Last(us).date)] else []
  }

  /** Admission drops replays and keeps arrival order. */
  lemma {:induction false} EligibleDistinct(us: seq<Update>)
    ensures DistinctIds(Eligible(us))
    ensures Subsequence(Eligible(us), Offered(us))
  {
    hide DistinctIds;
    hide Subsequence;
    hide Ids;
    NoneAdmitted();
    if us != [] {
      EligibleDistinct(Front(us));
      var u := Last(us);
      AdmitDistinct(Eligible(Front(us)), u);
      if u.Update? && u.outcome.Accepted? {
        SubsequenceSnoc(Eligible(Front(us)), Offered(Front(us)), Item(u.outcome.event, u.date));
      } else {
        assert Offered(us) == Offered(Front(us));
      }
    }
  }

  lemma NoneAdmitted()
    ensures DistinctIds([]) && Subsequence<Item>([], [])
  {
  }

  lemma AdmitDistinct(items: seq<Item>, u: Update)
    requires DistinctIds(items)
    ensures DistinctIds(Admit(items, u))
  {
  }

  predicate Carries(u: Update, id: string) {
    u.Update? && u.outcome.Accepted? && u.outcome.event.externalId == id
  }

  lemma {:induction false} SeenIffCarried(us: seq<Update>, id: string)
    ensures id in Ids(Eligible(us)) <==> exists i :: 0 <= i < |us| && Carries(us[i], id)
  {
    if us != [] {
      SeenIffCarried(Front(us), id);
      assert us == Front(us) + [Last(us)];
      AdmitUnseen(Front(us), Last(us));
      if Carries(Last(us), id) {
        assert Carries(us[|us| - 1], id);
      } else if exists i :: 0 <= i < |us| && Carries(us[i], id) {
        var i :| 0 <= i < |us| && Carries(us[i], id);
        assert Carries(Front(us)[i], id);
      }
    }
  }

  /** us[i] carries the item, and no earlier update carries its id. */
  ghost predicate FirstAt(us: seq<Update>, i: nat, item: Item)
    requires i < |us|
  {
    Carries(us[i], item.event.externalId) && us[i].outcome == Accepted(item.event) && us[i].date == item.date &&
    forall j :: 0 <= j < i ==> !Carries(us[j], item.event.externalId)
  }

  /** Exactly the first accepted event of every external id is admitted. */
  lemma {:induction false} EligibleIsFirstOccurrences(us: seq<Update>, item: Item)
    ensures item in Eligible(us) <==> exists i :: 0 <= i < |us| && FirstAt(us, i, item)
  {
    if us != [] {
      var pre, u, n := Front(us), Last(us), |us| - 1;
      EligibleIsFirstOccurrences(pre, item);
      SeenIffCarried(pre, item.event.externalId);
      assert us == pre + [u];
      forall i | 0 <= i < n
        ensures FirstAt(us, i, item) <==> FirstAt(pre, i, item)
      {
      }
      if item in Eligible(us) && item !in Eligible(pre) {
        assert FirstAt(us, n, item);
      } else if item in Eligible(pre) {
        var i :| 0 <= i < n && FirstAt(pre, i, item);
        assert FirstAt(us, i, item);
      }
    }
  }

  // ---------------------------------------------------------------------------------------
  // The whole batch: buffers of all scopes at once
  // ---------------------------------------------------------------------------------------

  /** Open bursts, the order they were opened in, and the turns dispatched so far. */
  datatype Pending = Pending(open: map<Scope, Turn>, order: seq<Scope>, turns: seq<Turn>)

  const EMPTY := Pending(map[], [], [])

  function Flush(p: Pending, k: Scope): Pending {
    if k in p.open
    then Pending(p.open - {k}, Remove(p.order, k), p.turns + [p.open[k]])
    else p
  }

  function Take(p: Pending, x: Item): Pending {
    var k := ScopeOf(x.event);
    if Mergeable(x.event) then
      if k in p.open && Extends(p.open[k], x)
      then p.(open := p.open[k := Turn(p.open[k].head, p.open[k].tail + [x])])
      else
        var q := Flush(p, k);
        q.(open := q.open[k := Turn(x, [])], order := q.order + [k])
    else
      var q := Flush(p, k);
      q.(turns := q.turns + [Turn(x, [])])
  }

  function TakeAll(items: seq<Item>): Pending {
    if items == [] then EMPTY else Take(TakeAll(Front(items)), Last(items))
  }

  function FlushAll(p: Pending): seq<Turn>
    decreases |p.order|
  {
    if p.order == [] || p.order[0] !in p.open then p.turns
    else FlushAll(Pending(p.open - {p.order[0]}, p.order[1..], p.turns + [p.open[p.order[0]]]))
  }

  /** The turns of a batch, in dispatch order. */
  function Turns(us: seq<Update>): seq<Turn> {
    FlushAll(TakeAll(Eligible(us)))
  }

  function Dispatches(turns: seq<Turn>): (r: seq<Event>)
    ensures |r| == |turns| && forall i :: 0 <= i < |turns| ==> r[i] == Render(turns[i])
  {
    seq(|turns|, i requires 0 <= i < |turns| => Render(turns[i]))
  }

  ghost predicate InStep(p: Pending) {
    Distinct(p.order) &&
    (forall k :: k in p.order <==> k in p.open) &&
    (forall k :: k in p.open ==> ScopeOf(p.open[k].head.event) == k && Mergeable(p.open[k].head.event))
  }

  lemma FlushInStep(p: Pending, k: Scope)
    requires InStep(p)
    ensures InStep(Flush(p, k)) && k !in Flush(p, k).open
  {
    RemoveDistinct(p.order, k);
  }

  lemma OpenInStep(q: Pending, t: Turn)
    requires InStep(q) && Mergeable(t.head.event) && ScopeOf(t.head.event) !in q.open
    ensures var k := ScopeOf(t.head.event);
            InStep(q.(open := q.open[k := t], order := q.order + [k]))
  {
    hide Mergeable;
    hide ScopeOf;
  }

  lemma GrowInStep(p: Pending, k: Scope, t: Turn)
    requires InStep(p) && k in p.open && t.head == p.open[k].head
    ensures InStep(p.(open := p.open[k := t]))
  {
    hide Mergeable;
    hide ScopeOf;
  }

  lemma TakeInStep(p: Pending, x: Item)
    requires InStep(p)
    ensures InStep(Take(p, x))
    ensures p.turns <= Take(p, x).turns
  {
    hide Extends;
    hide Mergeable;
    hide ScopeOf;
    var k := ScopeOf(x.event);
    FlushInStep(p, k);
    if Mergeable(x.event) {
      if k in p.open && Extends(p.open[k], x) {
        GrowInStep(p, k, Turn(p.open[k].head, p.open[k].tail + [x]));
      } else {
        OpenInStep(Flush(p, k), Turn(x, []));
      }
    }
  }

  lemma {:induction false} TakeAllInStep(items: seq<Item>)
    ensures InStep(TakeAll(items))
  {
    hide Extends;
    hide Mergeable;
    hide ScopeOf;
    if items != [] {
      TakeAllInStep(Front(items));
      TakeInStep(TakeAll(Front(items)), Last(items));
    }
  }

  lemma {:induction false} FlushAllExtends(p: Pending)
    ensures p.turns <= FlushAll(p)
    decreases |p.order|
  {
    if p.order != [] && p.order[0] in p.open {
      FlushAllExtends(Pending(p.open - {p.order[0]}, p.order[1..], p.turns + [p.open[p.order[0]]]));
    }
  }

  /** Turns only accumulate, so a run cut short has dispatched a prefix of the batch's turns. */
  lemma {:induction false} TurnsExtend(us: seq<Update>, n: nat)
    requires n <= |us|
    ensures TakeAll(Eligible(us[..n])).turns <= Turns(us)
    decreases |us| - n
  {
    hide Extends;
    hide Mergeable;
    hide ScopeOf;
    hide Take;
    if n == |us| {
      assert us[..n] == us;
      FlushAllExtends(TakeAll(Eligible(us)));
    } else {
      TurnsExtend(us, n + 1);
      var items := Eligible(us[..n]);
      assert Front(us[..n + 1]) == us[..n];
      var next := Eligible(us[..n + 1]);
      if next != items {
        assert Front(next) == items;
        TakeAllInStep(items);
        TakeInStep(TakeAll(items), Last(next));
      }
    }
  }

  // ---------------------------------------------------------------------------------------
  // One scope on its own: greedy segmentation
  // ---------------------------------------------------------------------------------------

  datatype Cut = Cut(done: seq<Turn>, open: Option<Turn>) {
    function Close(): seq<Turn> {
      if open.Some? then done + [open.value] else done
    }
  }

  function CutStep(c: Cut, x: Item): Cut {
    if c.open.Some? && Extends(c.open.value, x) then
      Cut(c.done, Some(Turn(c.open.value.head, c.open.value.tail + [x])))
    else if Mergeable(x.event) then
      Cut(c.Close(), Some(Turn(x, [])))
    else
      Cut(c.Close() + [Turn(x, [])], None)
  }

  function CutAll(items: seq<Item>): Cut {
    if items == [] then Cut([], None) else CutStep(CutAll(Front(items)), Last(items))
  }

  /** The greedy segmentation of one sender's messages. */
  function Segment(items: seq<Item>): seq<Turn> {
    CutAll(items).Close()
  }

  function ItemsOf(items: seq<Item>, k: Scope): seq<Item> {
    if items == [] then []
    else ItemsOf(Front(items), k) + if ScopeOf(Last(items).event) == k then [Last(items)] else []
  }

  function TurnsOf(turns: seq<Turn>, k: Scope): seq<Turn> {
    if turns == [] then []
    else TurnsOf(Front(turns), k) + if ScopeOf(Last(turns).head.event) == k then [Last(turns)] else []
  }

  lemma TurnsOfSnoc(turns: seq<Turn>, t: Turn, k: Scope)
    ensures TurnsOf(turns + [t], k) ==
            TurnsOf(turns, k) + if ScopeOf(t.head.event) == k then [t] else []
  {
    assert Front(turns + [t]) == turns;
  }

  /** What one scope sees of the batch state. */
  function View(p: Pending, k: Scope): Cut {
    Cut(TurnsOf(p.turns, k), if k in p.open then Some(p.open[k]) else None)
  }

  lemma FlushView(p: Pending, j: Scope, k: Scope)
    requires InStep(p)
    ensures View(Flush(p, j), k) == if j == k then Cut(View(p, k).Close(), None) else View(p, k)
  {
    hide Extends;
    hide Mergeable;
    hide ScopeOf;
    if j in p.open {
      TurnsOfSnoc(p.turns, p.open[j], k);
    }
  }

  /** A step of the batch is a step of the event's own scope and nothing to any other. */
  lemma TakeView(p: Pending, x: Item, k: Scope)
    requires InStep(p)
    ensures View(Take(p, x), k) ==
            if ScopeOf(x.event) == k then CutStep(View(p, k), x) else View(p, k)
  {
    hide Mergeable;
    hide ScopeOf;
    hide Latest;
    var j := ScopeOf(x.event);
    FlushView(p, j, k);
    if !Mergeable(x.event) {
      TurnsOfSnoc(Flush(p, j).turns, Turn(x, []), k);
    }
  }

  lemma {:induction false} TakeAllView(items: seq<Item>, k: Scope)
    ensures View(TakeAll(items), k) == CutAll(ItemsOf(items, k))
  {
    if items != [] {
      var pre, x := Front(items), Last(items);
      TakeAllView(pre, k);
      TakeAllInStep(pre);
      TakeView(TakeAll(pre), x, k);
      if ScopeOf(x.event) == k {
        assert Front(ItemsOf(items, k)) == ItemsOf(pre, k);
      } else {
        assert ItemsOf(items, k) == ItemsOf(pre, k);
      }
    }
  }

  lemma {:induction false} FlushAllView(p: Pending, k: Scope)
    requires InStep(p)
    ensures TurnsOf(FlushAll(p), k) == View(p, k).Close()
    decreases |p.order|
  {
    hide Extends;
    hide Mergeable;
    hide ScopeOf;
    if p.order != [] {
      var j := p.order[0];
      assert Flush(p, j) == Pending(p.open - {j}, p.order[1..], p.turns + [p.open[j]]);
      FlushInStep(p, j);
      FlushView(p, j, k);
      FlushAllView(Flush(p, j), k);
    } else {
      assert k !in p.open;
    }
  }

  /** The refinement: each scope's turns are the greedy segmentation of its own admitted
      events, whatever the other scopes of the batch contain and however they interleave. */
  lemma TurnsAreScopewiseGreedy(us: seq<Update>, k: Scope)
    ensures TurnsOf(Turns(us), k) == Segment(ItemsOf(Eligible(us), k))
  {
    var items := Eligible(us);
    TakeAllView(items, k);
    TakeAllInStep(items);
    FlushAllView(TakeAll(items), k);
  }

  /** Two batches that agree on one scope's admitted events give that scope the same turns. */
  lemma OtherScopesDoNotMatter(us: seq<Update>, vs: seq<Update>, k: Scope)
    requires ItemsOf(Eligible(us), k) == ItemsOf(Eligible(vs), k)
    ensures TurnsOf(Turns(us), k) == TurnsOf(Turns(vs), k)
  {
    TurnsAreScopewiseGreedy(us, k);
    TurnsAreScopewiseGreedy(vs, k);
  }

  // ---------------------------------------------------------------------------------------
  // What greedy segmentation means
  // ---------------------------------------------------------------------------------------

  function ItemLists(turns: seq<Turn>): (r: seq<seq<Item>>)
    ensures |r| == |turns| && forall i :: 0 <= i < |turns| ==> r[i] == turns[i].Items()
  {
    seq(|turns|, i requires 0 <= i < |turns| => turns[i].Items())
  }

  function AllItems(turns: seq<Turn>): seq<Item> {
    Flatten(ItemLists(turns))
  }

  lemma AllItemsSnoc(turns: seq<Turn>, t: Turn)
    ensures AllItems(turns + [t]) == AllItems(turns) + t.Items()
  {
    assert Front(ItemLists(turns + [t])) == ItemLists(turns);
  }

  /** Every fragment of a turn extends the fragments before it. */
  ghost predicate IsBurst(t: Turn) {
    forall i :: 0 <= i < |t.tail| ==> Extends(Turn(t.head, t.tail[..i]), t.tail[i])
  }

  ghost predicate Bursts(turns: seq<Turn>) {
    forall i :: 0 <= i < |turns| ==> IsBurst(turns[i])
  }

  ghost predicate Apart(turns: seq<Turn>, i: nat)
    requires i + 1 < |turns|
  {
    !Extends(turns[i], turns[i + 1].head)
  }

  /** No turn could have swallowed the head of the next one. */
  ghost predicate Separated(turns: seq<Turn>) {
    forall i :: 0 <= i < |turns| - 1 ==> Apart(turns, i)
  }

  /** turns cut items into bursts, none of which could have swallowed the next turn's head. */
  ghost predicate IsGreedy(turns: seq<Turn>, items: seq<Item>) {
    AllItems(turns) == items && Bursts(turns) && Separated(turns)
  }

  lemma BurstSnoc(t: Turn, x: Item)
    ensures IsBurst(Turn(t.head, t.tail + [x])) <==> IsBurst(t) && Extends(t, x)
  {
    var t' := Turn(t.head, t.tail + [x]);
    assert forall i :: 0 <= i <= |t.tail| ==> t'.tail[..i] == t.tail[..i];
    assert t'.tail[|t.tail|] == x && t.tail[..|t.tail|] == t.tail;
    forall i | 0 <= i < |t.tail|
      ensures Extends(Turn(t'.head, t'.tail[..i]), t'.tail[i]) <==> Extends(Turn(t.head, t.tail[..i]), t.tail[i])
    {
    }
  }

  lemma SeparatedSnoc(turns: seq<Turn>, t: Turn)
    ensures Separated(turns + [t]) <==> Separated(turns) && (turns == [] || !Extends(Last(turns), t.head))
  {
    var ts := turns + [t];
    forall i | 0 <= i < |turns| - 1
      ensures Apart(ts, i) <==> Apart(turns, i)
    {
      assert ts[i] == turns[i] && ts[i + 1] == turns[i + 1];
    }
    if turns != [] {
      assert Apart(ts, |turns| - 1) <==> !Extends(Last(turns), t.head);
    }
  }

  /** A greedy cut grows at its end exactly by a burst the last turn could not swallow. */
  lemma GreedySnoc(turns: seq<Turn>, t: Turn)
    ensures IsGreedy(turns + [t], AllItems(turns) + t.Items()) <==>
            IsGreedy(turns, AllItems(turns)) && IsBurst(t) &&
            (turns == [] || !Extends(Last(turns), t.head))
  {
    hide Extends;
    hide IsBurst;
    AllItemsSnoc(turns, t);
    SeparatedSnoc(turns, t);
    assert Bursts(turns + [t]) <==> Bursts(turns) && IsBurst(t) by {
      var ts := turns + [t];
      assert forall i :: 0 <= i < |turns| ==> ts[i] == turns[i];
      assert ts[|turns|] == t;
    }
  }

  ghost predicate CutInvariant(c: Cut, items: seq<Item>) {
    IsGreedy(c.Close(), items) &&
    (c.open.None? && c.done != [] ==> !Mergeable(Last(c.done).head.event))
  }

  /** Merging into the open burst keeps the cut greedy. */
  lemma CutGrow(c: Cut, x: Item, items: seq<Item>)
    requires CutInvariant(c, items)
    requires c.open.Some? && Extends(c.open.value, x)
    ensures CutInvariant(CutStep(c, x), items + [x])
  {
    hide Extends;
    hide IsBurst;
    var t := c.open.value;
    var t' := Turn(t.head, t.tail + [x]);
    AllItemsSnoc(c.done, t);
    GreedySnoc(c.done, t);
    BurstSnoc(t, x);
    GreedySnoc(c.done, t');
    assert AllItems(c.done) + t'.Items() == items + [x];
  }

  /** Starting a new turn keeps the cut greedy. */
  lemma CutStart(c: Cut, x: Item, items: seq<Item>)
    requires CutInvariant(c, items)
    requires !(c.open.Some? && Extends(c.open.value, x))
    ensures CutInvariant(CutStep(c, x), items + [x])
  {
    var t := Turn(x, []);
    GreedySnoc(c.Close(), t);
    assert IsBurst(t);
    assert CutStep(c, x).Close() == c.Close() + [t];
    assert t.Items() == [x];
    if c.Close() != [] {
      assert !Extends(Last(c.Close()), x);
    }
  }

  lemma {:induction false} CutAllIsGreedy(items: seq<Item>)
    ensures CutInvariant(CutAll(items), items)
  {
    hide Extends;
    hide Mergeable;
    hide IsBurst;
    if items == [] {
      assert CutAll(items) == Cut([], None);
    } else {
      var x := Last(items);
      var c := CutAll(Front(items));
      CutAllIsGreedy(Front(items));
      assert items == Front(items) + [x];
      if c.open.Some? && Extends(c.open.value, x) {
        CutGrow(c, x, Front(items));
      } else {
        CutStart(c, x, Front(items));
      }
    }
  }

  /** Nothing is lost, duplicated or reordered within a scope; every turn is a burst; and no
      burst stops early. */
  lemma SegmentIsGreedy(items: seq<Item>)
    ensures IsGreedy(Segment(items), items)
  {
    CutAllIsGreedy(items);
  }

  lemma AllItemsFront(turns: seq<Turn>)
    requires turns != []
    ensures AllItems(turns) == AllItems(Front(turns)) + Last(turns).Items()
  {
    AllItemsSnoc(Front(turns), Last(turns));
    assert Front(turns) + [Last(turns)] == turns;
  }

  /** Taking the last item off a greedy cut leaves a greedy cut. */
  lemma GreedyPeel(done: seq<Turn>, t: Turn, items: seq<Item>)
    requires IsGreedy(done + [t], items)
    ensures items != []
    ensures t.tail == [] ==>
              t == Turn(Last(items), []) && IsGreedy(done, Front(items)) &&
              (done == [] || !Extends(Last(done), t.head))
    ensures t.tail != [] ==>
              var t' := Turn(t.head, Front(t.tail));
              t == Turn(t.head, t'.tail + [Last(items)]) && IsGreedy(done + [t'], Front(items)) &&
              Extends(t', Last(items))
  {
    hide Extends;
    hide IsBurst;
    hide Bursts;
    hide Separated;
    AllItemsSnoc(done, t);
    GreedySnoc(done, t);
    if t.tail == [] {
      assert Front(items) == AllItems(done);
    } else {
      var t' := Turn(t.head, Front(t.tail));
      assert t == Turn(t'.head, t'.tail + [Last(items)]);
      BurstSnoc(t', Last(items));
      GreedySnoc(done, t');
      assert Front(items) == AllItems(done) + t'.Items();
    }
  }

  /** The greedy cut is the only one with those properties. */
  lemma {:induction false} GreedyIsUnique(turns: seq<Turn>, items: seq<Item>)
    requires IsGreedy(turns, items)
    ensures turns == Segment(items)
    decreases |items|
  {
    hide Extends;
    hide IsBurst;
    if turns == [] {
      assert CutAll(items) == Cut([], None);
    } else {
      var done, t := Front(turns), Last(turns);
      assert turns == done + [t];
      GreedyPeel(done, t, items);
      var c := CutAll(Front(items));
      if t.tail == [] {
        GreedyIsUnique(done, Front(items));
        UniqueStart(c, t);
      } else {
        var t' := Turn(t.head, Front(t.tail));
        GreedyIsUnique(done + [t'], Front(items));
        CutAllIsGreedy(Front(items));
        UniqueGrow(c, done, t', Last(items));
      }
    }
  }

  lemma UniqueStart(c: Cut, t: Turn)
    requires t.tail == []
    requires c.Close() == [] || !Extends(Last(c.Close()), t.head)
    ensures CutStep(c, t.head).Close() == c.Close() + [t]
  {
    assert t == Turn(t.head, []);
    if c.open.Some? {
      assert Last(c.Close()) == c.open.value;
    }
  }

  lemma UniqueGrow(c: Cut, done: seq<Turn>, t: Turn, x: Item)
    requires c.Close() == done + [t]
    requires c.open.None? && c.done != [] ==> !Mergeable(Last(c.done).head.event)
    requires Extends(t, x)
    ensures CutStep(c, x).Close() == done + [Turn(t.head, t.tail + [x])]
  {
    assert Last(c.Close()) == t;
    assert c.open == Some(t);
    assert Front(c.Close()) == done == c.done;
  }

  // ---------------------------------------------------------------------------------------
  // Turn ids
  // ---------------------------------------------------------------------------------------

  /** The items before turn i: turn i's head sits right behind them in the flattened list. */
  lemma {:induction false} HeadPosition(turns: seq<Turn>, i: nat)
    requires i < |turns|
    ensures |AllItems(turns[..i])| < |AllItems(turns)|
    ensures AllItems(turns)[|AllItems(turns[..i])|] == turns[i].head
  {
    AllItemsFront(turns);
    if i == |turns| - 1 {
      assert turns[..i] == Front(turns);
    } else {
      HeadPosition(Front(turns), i);
      assert Front(turns)[..i] == turns[..i];
    }
  }

  lemma {:induction false} HeadPositionsGrow(turns: seq<Turn>, i: nat, j: nat)
    requires i < j <= |turns|
    ensures |AllItems(turns[..i])| < |AllItems(turns[..j])|
  {
    AllItemsFront(turns[..j]);
    assert Front(turns[..j]) == turns[..j - 1];
    if i < j - 1 {
      HeadPositionsGrow(turns, i, j - 1);
    }
  }

  lemma {:induction false} ItemsOfMembers(items: seq<Item>, k: Scope)
    requires DistinctIds(items)
    ensures DistinctIds(ItemsOf(items, k))
    ensures forall x :: x in ItemsOf(items, k) <==> x in items && ScopeOf(x.event) == k
  {
    if items != [] {
      ItemsOfMembers(Front(items), k);
      assert forall x :: x in items <==> x in Front(items) || x == Last(items);
      assert forall x :: x in ItemsOf(Front(items), k) ==> x in Front(items);
      forall i, j | 0 <= i < j < |ItemsOf(items, k)|
        ensures ItemsOf(items, k)[i].event.externalId != ItemsOf(items, k)[j].event.externalId
      {
        var f := ItemsOf(Front(items), k);
        if j == |f| {
          assert f[i] in Front(items);
          var n :| 0 <= n < |Front(items)| && Front(items)[n] == f[i];
          assert items[n] == f[i] && items[|items| - 1] == Last(items);
        }
      }
    }
  }

  /** Position of turn i within its own scope's turn list. */
  lemma {:induction false} TurnPosition(turns: seq<Turn>, i: nat)
    requires i < |turns|
    ensures var k := ScopeOf(turns[i].head.event);
            |TurnsOf(turns[..i], k)| < |TurnsOf(turns, k)| &&
            TurnsOf(turns, k)[|TurnsOf(turns[..i], k)|] == turns[i] &&
            (forall j :: i < j <= |turns| ==> |TurnsOf(turns[..i], k)| < |TurnsOf(turns[..j], k)|)
  {
    hide Extends;
    hide Mergeable;
    hide ScopeOf;
    var k := ScopeOf(turns[i].head.event);
    if i == |turns| - 1 {
      assert turns[..i] == Front(turns);
      assert turns[..|turns|] == turns;
    } else {
      TurnPosition(Front(turns), i);
      assert Front(turns)[..i] == turns[..i];
      forall j | i < j <= |turns|
        ensures |TurnsOf(turns[..i], k)| < |TurnsOf(turns[..j], k)|
      {
        if j < |turns| {
          assert Front(turns)[..j] == turns[..j];
        } else {
          assert turns[..j] == turns;
          assert Front(turns)[..|turns| - 1] == Front(turns);
        }
      }
    }
  }

  /** Two turns of one batch never carry the same external id, so the durable claim made
      under a turn's id is unique. */
  lemma TurnIdsDistinct(us: seq<Update>, i: nat, j: nat)
    requires i < j < |Turns(us)|
    ensures Turns(us)[i].head.event.externalId != Turns(us)[j].head.event.externalId
  {
    var turns, items := Turns(us), Eligible(us);
    var ki, kj := ScopeOf(turns[i].head.event), ScopeOf(turns[j].head.event);
    EligibleDistinct(us);
    TurnHeadIsAdmitted(us, i);
    TurnHeadIsAdmitted(us, j);
    if ki == kj {
      TurnsAreScopewiseGreedy(us, ki);
      var own := TurnsOf(turns, ki);
      SegmentIsGreedy(ItemsOf(items, ki));
      ItemsOfMembers(items, ki);
      TurnPosition(turns, i);
      TurnPosition(turns, j);
      var a, b := |TurnsOf(turns[..i], ki)|, |TurnsOf(turns[..j], ki)|;
      HeadPosition(own, a);
      HeadPosition(own, b);
      HeadPositionsGrow(own, a, b);
    }
  }

  lemma TurnHeadIsAdmitted(us: seq<Update>, i: nat)
    requires i < |Turns(us)|
    ensures Turns(us)[i].head in Eligible(us)
  {
    var turns, items := Turns(us), Eligible(us);
    var k := ScopeOf(turns[i].head.event);
    EligibleDistinct(us);
    TurnsAreScopewiseGreedy(us, k);
    SegmentIsGreedy(ItemsOf(items, k));
    ItemsOfMembers(items, k);
    TurnPosition(turns, i);
    HeadPosition(TurnsOf(turns, k), |TurnsOf(turns[..i], k)|);
  }

  lemma {:induction false} MemberOfTurn(turns: seq<Turn>, i: nat, x: Item)
    requires i < |turns| && x in turns[i].Items()
    ensures x in AllItems(turns)
  {
    assert turns == Front(turns) + [Last(turns)];
    AllItemsSnoc(Front(turns), Last(turns));
    if i < |turns| - 1 {
      MemberOfTurn(Front(turns), i, x);
    }
  }

  /** Every part of a turn is an admitted event, and so came with some update of the batch. */
  lemma TurnPartsAreAdmitted(us: seq<Update>, i: nat, x: Item)
    requires i < |Turns(us)| && x in Turns(us)[i].Items()
    ensures x in Eligible(us)
    ensures exists a :: 0 <= a < |us| && FirstAt(us, a, x)
  {
    hide Turns;
    hide FirstAt;
    var turns, items := Turns(us), Eligible(us);
    var k := ScopeOf(turns[i].head.event);
    EligibleDistinct(us);
    TurnsAreScopewiseGreedy(us, k);
    SegmentIsGreedy(ItemsOf(items, k));
    ItemsOfMembers(items, k);
    TurnPosition(turns, i);
    MemberOfTurn(TurnsOf(turns, k), |TurnsOf(turns[..i], k)|, x);
    EligibleIsFirstOccurrences(us, x);
  }

  // ---------------------------------------------------------------------------------------
  // The offset
  // ---------------------------------------------------------------------------------------

  function UpdateIds(us: seq<Update>): seq<int> {
    if us == [] then []
    else UpdateIds(Front(us)) + if Last(us).Update? then [Last(us).updateId] else []
  }

  /** `max(n, max_update_id or n)`: a running maximum of 0 counts as no maximum. */
  function TrackMax(current: Option<int>, n: int): int {
    Max(n, if current.Some? && current.value != 0 then current.value else n)
  }

  function TrackedMax(ids: seq<int>): Option<int> {
    if ids == [] then None else Some(TrackMax(TrackedMax(Front(ids)), Last(ids)))
  }

  ghost predicate IsMaximum(m: int, ids: seq<int>) {
    m in ids && forall n :: n in ids ==> n <= m
  }

  /** The running maximum is the true maximum exactly unless the maximum is 0 and the batch
      does not end with it. */
  lemma {:induction false} TrackedMaxExact(ids: seq<int>, m: int)
    requires IsMaximum(m, ids)
    ensures TrackedMax(ids) == Some(m) <==> (m != 0 || Last(ids) == 0)
    ensures TrackedMax(ids).value in ids
  {
    var pre, x := Front(ids), Last(ids);
    assert ids == pre + [x];
    if pre != [] {
      var n := MaximumOf(pre);
      TrackedMaxExact(pre, n);
      assert n in ids && x in ids && m == Max(n, x);
      assert TrackedMax(pre).value <= n;
    } else {
      assert ids == [x];
    }
  }

  lemma {:induction false} MaximumOf(ids: seq<int>) returns (m: int)
    requires ids != []
    ensures IsMaximum(m, ids)
  {
    assert ids == Front(ids) + [Last(ids)];
    if |ids| == 1 {
      m := ids[0];
    } else {
      var n := MaximumOf(Front(ids));
      m := Max(n, Last(ids));
    }
  }

  /** The failing family is inhabited: after update 0 comes update -5, and 0 is not covered. */
  lemma TrackedMaxCanMiss()
    ensures TrackedMax([0, -5]) == Some(-5)
  {
    assert Front([0, -5]) == [0];
    assert Front([0]) == [];
    assert TrackedMax([0]) == Some(0);
  }

  function Advance(cursor: Option<int>, ids: seq<int>): Option<int> {
    match TrackedMax(ids)
    case None => cursor
    case Some(m) => if cursor.None? || m + 1 > cursor.value then Some(m + 1) else cursor
  }

  /** `getUpdates` with an offset returns only ids at or above it. */
  ghost predicate Served(cursor: Option<int>, ids: seq<int>) {
    forall n :: n in ids && cursor.Some? ==> cursor.value <= n
  }

  /** The batch does not fall in the failing family of TrackedMaxExact. */
  ghost predicate ZeroOnlyLast(ids: seq<int>) {
    ids != [] && IsMaximum(0, ids) ==> Last(ids) == 0
  }

  lemma AdvanceCovers(cursor: Option<int>, ids: seq<int>)
    ensures cursor.Some? ==> Advance(cursor, ids).Some? && cursor.value <= Advance(cursor, ids).value
    ensures ZeroOnlyLast(ids) ==>
              forall n :: n in ids ==> Advance(cursor, ids).Some? && n < Advance(cursor, ids).value
  {
    if ids != [] {
      var m := MaximumOf(ids);
      TrackedMaxExact(ids, m);
    }
  }

  /** n lies above every id and not below the offset. */
  ghost predicate Beyond(cursor: Option<int>, ids: seq<int>, n: int) {
    (cursor.Some? ==> cursor.value <= n) && forall m :: m in ids ==> m < n
  }

  /** The offset goes no further than it must: it is at most any bound that lies above the batch and
      not below the old offset. */
  lemma AdvanceIsLeast(cursor: Option<int>, ids: seq<int>, n: int)
    requires Beyond(cursor, ids, n)
    ensures Advance(cursor, ids).Some? ==> Advance(cursor, ids).value <= n
    ensures ids == [] ==> Advance(cursor, ids) == cursor
  {
    if ids != [] {
      var m := MaximumOf(ids);
      TrackedMaxExact(ids, m);
    }
  }

  // ---------------------------------------------------------------------------------------
  // The adapter
  // ---------------------------------------------------------------------------------------

  /** A dispatch may raise only when it runs inline; `raises` says which attempts do. */
  predicate Inline(e: Event, background: bool) {
    !background || e.kind == CallbackQuery
  }

  predicate RaisesAt(events: seq<Event>, i: nat, background: bool, raises: nat -> bool)
    requires i < |events|
  {
    Inline(events[i], background) && raises(i)
  }

  ghost predicate NoneRaises(events: seq<Event>, background: bool, raises: nat -> bool) {
    forall i :: 0 <= i < |events| ==> !RaisesAt(events, i, background, raises)
  }

  /** events ends at the first dispatch that raises. */
  ghost predicate StoppedByRaise(events: seq<Event>, background: bool, raises: nat -> bool) {
    events != [] && RaisesAt(events, |events| - 1, background, raises) &&
    forall i :: 0 <= i < |events| - 1 ==> !RaisesAt(events, i, background, raises)
  }

  lemma RaisesPrefix(events: seq<Event>, e: Event, background: bool, raises: nat -> bool)
    requires NoneRaises(events, background, raises)
    ensures if RaisesAt(events + [e], |events|, background, raises)
            then StoppedByRaise(events + [e], background, raises)
            else NoneRaises(events + [e], background, raises)
  {
    var more := events + [e];
    forall i | 0 <= i < |events|
      ensures !RaisesAt(more, i, background, raises)
    {
      assert !RaisesAt(events, i, background, raises);
    }
  }

  function Get<K, V>(m: map<K, V>, k: K): Option<V> {
    if k in m then Some(m[k]) else None
  }

  /** What the tables hold for one scope, against its open burst. */
  ghost predicate Row(parts: Option<seq<Event>>, date: Option<int>, open: Option<Turn>) {
    match open
    case None => parts == None && date == None
    case Some(t) => parts == Some(EventsOf(t.Items())) && date == Latest(t.Items())
  }

  /** The adapter's three tables hold exactly the open bursts of p. */
  ghost predicate Tables(merged: map<Scope, seq<Event>>, dates: map<Scope, int>, order: seq<Scope>, p: Pending) {
    InStep(p) && order == p.order &&
    forall k :: Row(Get(merged, k), Get(dates, k), Get(p.open, k))
  }

  lemma TablesFlush(merged: map<Scope, seq<Event>>, dates: map<Scope, int>, order: seq<Scope>, p: Pending, k: Scope)
    requires Tables(merged, dates, order, p)
    ensures Tables(merged - {k}, dates - {k}, if k in merged then Remove(order, k) else order, Flush(p, k))
    ensures InStep(Flush(p, k)) && k !in Flush(p, k).open
    ensures k in merged <==> k in p.open
  {
    FlushInStep(p, k);
    assert Row(Get(merged, k), Get(dates, k), Get(p.open, k));
    forall j
      ensures Row(Get(merged - {k}, j), Get(dates - {k}, j), Get(Flush(p, k).open, j))
    {
      assert Row(Get(merged, j), Get(dates, j), Get(p.open, j));
    }
  }

  lemma RowGrow(t: Turn, x: Item)
    requires Extends(t, x)
    ensures Row(Some(EventsOf(t.Items()) + [x.event]), Some(Max(x.date.value, Latest(t.Items()).value)),
                Some(Turn(t.head, t.tail + [x])))
  {
    assert Turn(t.head, t.tail + [x]).Items() == t.Items() + [x];
    LatestSnoc(t.Items(), x);
    assert EventsOf(t.Items() + [x]) == EventsOf(t.Items()) + [x.event];
  }

  lemma RowStart(x: Item)
    ensures Row(Some([x.event]), x.date, Some(Turn(x, [])))
  {
    LatestSnoc([], x);
    assert Turn(x, []).Items() == [] + [x];
    assert EventsOf([x]) == [x.event];
  }

  lemma TablesGrow(merged: map<Scope, seq<Event>>, dates: map<Scope, int>, order: seq<Scope>, p: Pending, x: Item)
    requires Tables(merged, dates, order, p)
    requires var k := ScopeOf(x.event); k in p.open && Extends(p.open[k], x)
    ensures var k := ScopeOf(x.event);
            k in merged && k in dates && x.date.Some? &&
            Tables(merged[k := merged[k] + [x.event]], dates[k := Max(x.date.value, dates[k])], order, Take(p, x))
  {
    hide Mergeable;
    hide ScopeOf;
    hide Latest;
    var k := ScopeOf(x.event);
    assert Row(Get(merged, k), Get(dates, k), Get(p.open, k));
    var merged', dates' := merged[k := merged[k] + [x.event]], dates[k := Max(x.date.value, dates[k])];
    RowGrow(p.open[k], x);
    TakeInStep(p, x);
    forall j
      ensures Row(Get(merged', j), Get(dates', j), Get(Take(p, x).open, j))
    {
      assert Row(Get(merged, j), Get(dates, j), Get(p.open, j));
    }
  }

  lemma TablesStart(merged: map<Scope, seq<Event>>, dates: map<Scope, int>, order: seq<Scope>, p: Pending, x: Item)
    requires Tables(merged, dates, order, p)
    requires Mergeable(x.event) && ScopeOf(x.event) !in p.open
    ensures var k := ScopeOf(x.event);
            Tables(merged[k := [x.event]], if x.date.Some? then dates[k := x.date.value] else dates,
                   order + [k], Take(p, x))
  {
    hide Extends;
    hide Mergeable;
    hide ScopeOf;
    hide Latest;
    var k := ScopeOf(x.event);
    assert Row(Get(merged, k), Get(dates, k), Get(p.open, k));
    var merged', dates' := merged[k := [x.event]], if x.date.Some? then dates[k := x.date.value] else dates;
    RowStart(x);
    TakeInStep(p, x);
    forall j
      ensures Row(Get(merged', j), Get(dates', j), Get(Take(p, x).open, j))
    {
      assert Row(Get(merged, j), Get(dates, j), Get(p.open, j));
    }
  }

  /** The date test the adapter makes is the burst test of the specification. */
  lemma BurstTest(merged: map<Scope, seq<Event>>, dates: map<Scope, int>, order: seq<Scope>, p: Pending, x: Item)
    requires Tables(merged, dates, order, p)
    requires Mergeable(x.event)
    ensures var k := ScopeOf(x.event);
            (k in merged && k in dates && x.date.Some? && Abs(x.date.value - dates[k]) <= 120) <==>
            (k in p.open && Extends(p.open[k], x))
    ensures var k := ScopeOf(x.event);
            !(k in p.open && Extends(p.open[k], x)) ==>
              Take(p, x) == Take(Flush(p, k), x) && k !in Flush(p, k).open
  {
    var k := ScopeOf(x.event);
    assert Row(Get(merged, k), Get(dates, k), Get(p.open, k));
    FlushInStep(p, k);
  }

  lemma AdmitUnseen(us: seq<Update>, u: Update)
    ensures Eligible(us + [u]) == Admit(Eligible(us), u)
    ensures Ids(Eligible(us + [u])) ==
            Ids(Eligible(us)) + if u.Update? && u.outcome.Accepted? then {u.outcome.event.externalId} else {}
  {
    assert Front(us + [u]) == us;
    var a, b := Eligible(us), Eligible(us + [u]);
    if b != a {
      assert b[|a|].event == u.outcome.event;
      assert forall i :: 0 <= i < |a| ==> b[i] == a[i];
    }
  }

  lemma TrackedMaxSnoc(us: seq<Update>, u: Update)
    ensures TrackedMax(UpdateIds(us + [u])) ==
            if u.Update? then Some(TrackMax(TrackedMax(UpdateIds(us)), u.updateId)) else TrackedMax(UpdateIds(us))
  {
    assert Front(us + [u]) == us;
    assert UpdateIds(us) + [] == UpdateIds(us);
    if u.Update? {
      assert Front(UpdateIds(us) + [u.updateId]) == UpdateIds(us);
    }
  }

  /** One more update: what it does to the batch state and to the ids seen. */
  lemma ConsumeOne(us: seq<Update>, u: Update)
    ensures var isNew := u.Update? && u.outcome.Accepted? && u.outcome.event.externalId !in Ids(Eligible(us));
            var before, after := Eligible(us), Eligible(us + [u]);
            if isNew then
              TakeAll(after) == Take(TakeAll(before), Item(u.outcome.event, u.date)) &&
              Ids(after) == Ids(before) + {u.outcome.event.externalId}
            else after == before
  {
    hide Take;
    AdmitUnseen(us, u);
    if Eligible(us + [u]) != Eligible(us) {
      assert Front(Eligible(us + [u])) == Eligible(us);
    }
  }

  lemma DispatchesPrefix(a: seq<Turn>, b: seq<Turn>)
    requires a <= b
    ensures Dispatches(a) <= Dispatches(b)
  {
  }

  /** A batch that stops has sent a prefix of what the whole batch sends. */
  lemma StoppedEarly(us: seq<Update>, n: nat, sent: seq<Event>, background: bool, raises: nat -> bool)
    requires n <= |us|
    requires sent <= Dispatches(TakeAll(Eligible(us[..n])).turns)
    requires StoppedByRaise(sent, background, raises)
    ensures sent <= Dispatches(Turns(us))
    ensures !NoneRaises(Dispatches(Turns(us)), background, raises)
  {
    TurnsExtend(us, n);
    DispatchesPrefix(TakeAll(Eligible(us[..n])).turns, Turns(us));
    StoppedMeansRaise(sent, Dispatches(Turns(us)), background, raises);
  }

  lemma StoppedMeansRaise(sent: seq<Event>, all: seq<Event>, background: bool, raises: nat -> bool)
    requires sent <= all
    requires StoppedByRaise(sent, background, raises)
    ensures !NoneRaises(all, background, raises)
  {
    assert RaisesAt(all, |sent| - 1, background, raises);
  }

  /** The locals one `poll_once` call shares with its nested closures. */
  class PollBatch {
    var merged: map<Scope, seq<Event>>
    var mergedDates: map<Scope, int>
    var mergedOrder: seq<Scope>
    var seenEventIds: set<string>
    var sent: seq<Event>
    var maxUpdateId: Option<int>
    const background: bool
    const raises: nat -> bool

    constructor (background: bool, raises: nat -> bool)
      ensures Consumed([])
      ensures this.background == background && this.raises == raises
    {
      merged, mergedDates, mergedOrder, seenEventIds := map[], map[], [], {};
      sent, maxUpdateId := [], None;
      this.background, this.raises := background, raises;
    }

    /** The tables hold p's open bursts, p's turns have been sent, and none of them raised. */
    ghost predicate Holds(p: Pending)
      reads this
    {
      Tables(merged, mergedDates, mergedOrder, p) && sent == Dispatches(p.turns) &&
      NoneRaises(sent, background, raises)
    }

    /** The batch was cut short by a raising dispatch on its way to p. */
    ghost predicate Stopped(p: Pending)
      reads this
    {
      sent <= Dispatches(p.turns) && StoppedByRaise(sent, background, raises)
    }

    method DispatchEvent(event: Event) returns (ok: bool)
      requires NoneRaises(sent, background, raises)
      modifies this`sent
      ensures sent == old(sent) + [event]
      ensures if ok then NoneRaises(sent, background, raises) else StoppedByRaise(sent, background, raises)
    {
      RaisesPrefix(sent, event, background, raises);
      sent := sent + [event];
      ok := (background && event.kind != CallbackQuery) || !raises(|sent| - 1);
    }

    method FlushMerge(key: Scope, ghost p: Pending) returns (ok: bool)
      requires Holds(p)
      modifies this`merged, this`mergedDates, this`mergedOrder, this`sent
      ensures if ok then Holds(Flush(p, key)) else Stopped(Flush(p, key))
    {
      hide Extends;
      hide Mergeable;
      hide Latest;
      hide InStep;
      hide ScopeOf;
      hide NoneRaises;
      hide StoppedByRaise;
      TablesFlush(merged, mergedDates, mergedOrder, p, key);
      if key !in merged {
        mergedDates := mergedDates - {key};
        assert merged - {key} == merged;
        return true;
      }
      var parts := merged[key];
      ghost var t := p.open[key];
      assert parts == EventsOf(t.Items()) by {
        assert Row(Get(old(merged), key), Get(old(mergedDates), key), Get(p.open, key));
      }
      merged := merged - {key};
      mergedDates := mergedDates - {key};
      mergedOrder := Remove(mergedOrder, key);
      var head := parts[0];
      var event := head;
      if |parts| != 1 {
        event := Event(head.externalId, head.actorId, head.chatId, head.topicId, Message,
                       JoinContents(parts), [], head.messageId, head.replyTo, None);
      }
      assert event == Render(t) by {
        assert |t.Items()| == |parts|;
      }
      assert Dispatches(Flush(p, key).turns) == Dispatches(p.turns) + [event];
      ok := DispatchEvent(event);
    }

    /** One admitted plain-text event: start a burst or extend the scope's open one. */
    method Buffer(event: Event, date: Option<int>, ghost p: Pending) returns (ok: bool)
      requires Holds(p) && Mergeable(event)
      modifies this`merged, this`mergedDates, this`mergedOrder, this`sent
      ensures if ok then Holds(Take(p, Item(event, date))) else Stopped(Take(p, Item(event, date)))
    {
      hide Extends;
      hide Mergeable;
      hide Latest;
      hide ScopeOf;
      hide Render;
      hide Row;
      hide InStep;
      hide Tables;
      hide NoneRaises;
      hide StoppedByRaise;
      var key := ScopeOf(event);
      ghost var x := Item(event, date);
      BurstTest(merged, mergedDates, mergedOrder, p, x);
      var sameBurst := key in mergedDates && date.Some? && Abs(date.value - mergedDates[key]) <= 120;
      if key in merged && sameBurst {
        TablesGrow(merged, mergedDates, mergedOrder, p, x);
        merged := merged[key := merged[key] + [event]];
        mergedDates := mergedDates[key := Max(date.value, mergedDates[key])];
        return true;
      }
      ok := FlushMerge(key, p);
      ghost var q := Flush(p, key);
      if !ok {
        return false;
      }
      assert Flush(q, key) == q;
      TablesStart(merged, mergedDates, mergedOrder, q, x);
      merged := merged[key := [event]];
      mergedOrder := mergedOrder + [key];
      if date.Some? {
        mergedDates := mergedDates[key := date.value];
      }
    }

    /** One admitted event of any kind. */
    method Process(event: Event, date: Option<int>, ghost p: Pending) returns (ok: bool)
      requires Holds(p)
      modifies this`merged, this`mergedDates, this`mergedOrder, this`sent
      ensures if ok then Holds(Take(p, Item(event, date))) else Stopped(Take(p, Item(event, date)))
    {
      hide Extends;
      hide Mergeable;
      hide Latest;
      hide ScopeOf;
      if Mergeable(event) {
        ok := Buffer(event, date, p);
        return;
      }
      ghost var x := Item(event, date);
      ghost var q := Flush(p, ScopeOf(event));
      assert Dispatches(Take(p, x).turns) == Dispatches(q.turns) + [Render(Turn(x, []))];
      ok := FlushMerge(ScopeOf(event), p);
      if ok {
        TakeInStep(p, x);
        ok := DispatchEvent(event);
      }
    }

    /** The batch has consumed the updates us. */
    ghost predicate Consumed(us: seq<Update>)
      reads this
    {
      Holds(TakeAll(Eligible(us))) && seenEventIds == Ids(Eligible(us)) &&
      maxUpdateId == TrackedMax(UpdateIds(us))
    }

    /** One iteration of the batch loop. */
    method TakeUpdate(update: Update, ghost us: seq<Update>) returns (ok: bool)
      requires Consumed(us)
      modifies this
      ensures if ok then Consumed(us + [update]) else Stopped(TakeAll(Eligible(us + [update])))
    {
      hide Take;
      hide TakeAll;
      hide Eligible;
      hide Ids;
      hide TrackedMax;
      hide UpdateIds;
      hide TrackMax;
      hide Tables;
      hide NoneRaises;
      hide StoppedByRaise;
      ConsumeOne(us, update);
      TrackedMaxSnoc(us, update);
      if update.NotAnObject? || update.NoUsableId? {
        return true;
      }
      maxUpdateId := Some(TrackMax(maxUpdateId, update.updateId));
      if !update.outcome.Accepted? || update.outcome.event.externalId in seenEventIds {
        return true;
      }
      seenEventIds := seenEventIds + {update.outcome.event.externalId};
      ok := Process(update.outcome.event, update.date, TakeAll(Eligible(us)));
    }

    /** The final loop over the buffer order. */
    method FlushRemaining(ghost start: Pending) returns (ok: bool)
      requires Holds(start)
      modifies this`merged, this`mergedDates, this`mergedOrder, this`sent
      ensures if ok then sent == Dispatches(FlushAll(start)) && NoneRaises(sent, background, raises)
              else sent <= Dispatches(FlushAll(start)) && StoppedByRaise(sent, background, raises)
    {
      ghost var p := start;
      ok := true;
      while ok && mergedOrder != []
        invariant FlushAll(p) == FlushAll(start)
        invariant if ok then Holds(p)
                  else sent <= Dispatches(FlushAll(start)) && StoppedByRaise(sent, background, raises)
        decreases ok, |mergedOrder|
      {
        var key := mergedOrder[0];
        ghost var q := Flush(p, key);
        assert q.order == p.order[1..];
        FlushAllExtends(q);
        DispatchesPrefix(q.turns, FlushAll(q));
        ok := FlushMerge(key, p);
        p := q;
      }
    }

    /** The whole batch. */
    method Run(updates: seq<Update>) returns (ok: bool)
      requires Consumed([])
      modifies this
      ensures ok <==> NoneRaises(Dispatches(Turns(updates)), background, raises)
      ensures if ok then sent == Dispatches(Turns(updates)) && maxUpdateId == TrackedMax(UpdateIds(updates))
              else sent <= Dispatches(Turns(updates)) && StoppedByRaise(sent, background, raises)
    {
      for i := 0 to |updates|
        invariant Consumed(updates[..i])
      {
        assert updates[..i + 1] == updates[..i] + [updates[i]];
        ok := TakeUpdate(updates[i], updates[..i]);
        if !ok {
          StoppedEarly(updates, i + 1, sent, background, raises);
          return;
        }
      }
      assert updates[..|updates|] == updates;
      ok := FlushRemaining(TakeAll(Eligible(updates)));
      if !ok {
        StoppedMeansRaise(sent, Dispatches(Turns(updates)), background, raises);
      }
    }
  }

  lemma LatestSnoc(items: seq<Item>, x: Item)
    ensures Latest(items + [x]) ==
            match (Latest(items), x.date)
            case (before, None) => before
            case (None, Some(d)) => Some(d)
            case (Some(b), Some(d)) => Some(Max(b, d))
  {
    assert Front(items + [x]) == items;
  }

  // ---------------------------------------------------------------------------------------
  // Over many polls
  // ---------------------------------------------------------------------------------------

  /** One poll: the batch the server gave and which of its dispatches raise. */
  datatype Poll = Poll(updates: seq<Update>, background: bool, raises: nat -> bool)

  ghost predicate Completes(p: Poll) {
    NoneRaises(Dispatches(Turns(p.updates)), p.background, p.raises)
  }

  /** Only a completed poll moves the offset. */
  ghost function NextCursor(cursor: Option<int>, p: Poll): Option<int> {
    if Completes(p) then Advance(cursor, UpdateIds(p.updates)) else cursor
  }

  ghost function CursorAfterPolls(start: Option<int>, polls: seq<Poll>): Option<int> {
    if polls == [] then start else NextCursor(CursorAfterPolls(start, Front(polls)), Last(polls))
  }

  /** The server answers every poll with ids at or above the offset, and no batch falls in the
      family the running maximum misses. */
  ghost predicate ServedPolls(start: Option<int>, polls: seq<Poll>) {
    forall i :: 0 <= i < |polls| ==>
      Served(CursorAfterPolls(start, polls[..i]), UpdateIds(polls[i].updates)) &&
      ZeroOnlyLast(UpdateIds(polls[i].updates))
  }

  /** Over any run of polls, completed or not, the offset never decreases. */
  lemma {:induction false} CursorNeverDecreases(start: Option<int>, polls: seq<Poll>, i: nat)
    requires i <= |polls|
    ensures CursorAfterPolls(start, polls[..i]).Some? ==>
              CursorAfterPolls(start, polls).Some? &&
              CursorAfterPolls(start, polls[..i]).value <= CursorAfterPolls(start, polls).value
  {
    hide Completes;
    if i == |polls| {
      assert polls[..i] == polls;
    } else {
      CursorNeverDecreases(start, Front(polls), i);
      assert Front(polls)[..i] == polls[..i];
      AdvanceCovers(CursorAfterPolls(start, Front(polls)), UpdateIds(Last(polls).updates));
    }
  }

  /** Whatever polls fail in between, every update of a completed poll has a smaller id than every
      update of a later poll. */
  lemma LaterPollsServeLaterUpdates(start: Option<int>, polls: seq<Poll>, i: nat, j: nat, m: int, n: int)
    requires ServedPolls(start, polls) && i < j < |polls| && Completes(polls[i])
    requires m in UpdateIds(polls[i].updates) && n in UpdateIds(polls[j].updates)
    ensures m < n
  {
    hide Completes;
    hide ZeroOnlyLast;
    var pre := polls[..i + 1];
    assert Front(pre) == polls[..i] && Last(pre) == polls[i];
    AdvanceCovers(CursorAfterPolls(start, polls[..i]), UpdateIds(polls[i].updates));
    CursorNeverDecreases(start, polls[..j], i + 1);
    assert polls[..j][..i + 1] == pre;
    assert Served(CursorAfterPolls(start, polls[..j]), UpdateIds(polls[j].updates));
  }

  /** Every update received in the polls has an id below n. */
  ghost predicate AllBelow(polls: seq<Poll>, n: int) {
    forall i :: 0 <= i < |polls| ==> forall m :: m in UpdateIds(polls[i].updates) ==> m < n
  }

  /** No update is skipped: one that is above all updates received so far, and not below the offset
      polling started with, is still at or above the offset. */
  lemma {:induction false} NothingIsSkipped(start: Option<int>, polls: seq<Poll>, n: int)
    requires (start.Some? ==> start.value <= n) && AllBelow(polls, n)
    ensures CursorAfterPolls(start, polls).Some? ==> CursorAfterPolls(start, polls).value <= n
  {
    hide Completes;
    hide Advance;
    if polls != [] {
      assert AllBelow(Front(polls), n);
      assert forall m :: m in UpdateIds(Last(polls).updates) ==> m < n;
      NothingIsSkipped(start, Front(polls), n);
      AdvanceIsLeast(CursorAfterPolls(start, Front(polls)), UpdateIds(Last(polls).updates), n);
    }
  }

  lemma {:induction false} IdIsListed(us: seq<Update>, a: nat)
    requires a < |us| && us[a].Update?
    ensures us[a].updateId in UpdateIds(us)
  {
    if a < |us| - 1 {
      IdIsListed(Front(us), a);
    }
  }

  /** No update is dispatched by two polls: any part x of a turn of a completed poll came with an
      update of a smaller id than any part y of a turn of a later poll. */
  lemma NoUpdateInTwoBatches(start: Option<int>, polls: seq<Poll>, i: nat, j: nat, s: nat, t: nat, x: Item, y: Item)
    requires ServedPolls(start, polls) && i < j < |polls| && Completes(polls[i])
    requires s < |Turns(polls[i].updates)| && x in Turns(polls[i].updates)[s].Items()
    requires t < |Turns(polls[j].updates)| && y in Turns(polls[j].updates)[t].Items()
    ensures exists a, b ::
              0 <= a < |polls[i].updates| && FirstAt(polls[i].updates, a, x) &&
              0 <= b < |polls[j].updates| && FirstAt(polls[j].updates, b, y) &&
              polls[i].updates[a].updateId < polls[j].updates[b].updateId
  {
    hide ServedPolls;
    hide Completes;
    hide Turns;
    var us, vs := polls[i].updates, polls[j].updates;
    TurnPartsAreAdmitted(us, s, x);
    TurnPartsAreAdmitted(vs, t, y);
    var a :| 0 <= a < |us| && FirstAt(us, a, x);
    var b :| 0 <= b < |vs| && FirstAt(vs, b, y);
    IdIsListed(us, a);
    IdIsListed(vs, b);
    LaterPollsServeLaterUpdates(start, polls, i, j, us[a].updateId, vs[b].updateId);
  }

  class TelegramAdapter {
    var cursor: Option<int>
    var dispatched: seq<Event>

    constructor ()
      ensures cursor == None && dispatched == []
    {
      cursor, dispatched := None, [];
    }

    /** One polling batch. Without a raising dispatch exactly the batch's turns go out, in
        order, and the offset moves past every update. A raising dispatch stops the batch
        behind a prefix of those turns and leaves the offset, so a redelivery of the batch
        reproduces them. */
    method PollOnce(updates: seq<Update>, background: bool, raises: nat -> bool) returns (completed: bool)
      modifies this
      ensures completed <==> NoneRaises(Dispatches(Turns(updates)), background, raises)
      ensures cursor == NextCursor(old(cursor), Poll(updates, background, raises))
      ensures forall n :: Beyond(old(cursor), UpdateIds(updates), n) ==> cursor.Some? ==> cursor.value <= n
      ensures completed && ZeroOnlyLast(UpdateIds(updates)) ==>
                forall n :: n in UpdateIds(updates) ==> cursor.Some? && n < cursor.value
      ensures completed ==>
                dispatched == old(dispatched) + Dispatches(Turns(updates)) &&
                cursor == Advance(old(cursor), UpdateIds(updates))
      ensures !completed ==>
                cursor == old(cursor) &&
                exists sent :: sent <= Dispatches(Turns(updates)) && StoppedByRaise(sent, background, raises) &&
                               dispatched == old(dispatched) + sent
    {
      AdvanceCovers(cursor, UpdateIds(updates));
      forall n | Beyond(cursor, UpdateIds(updates), n)
        ensures Advance(cursor, UpdateIds(updates)).Some? ==> Advance(cursor, UpdateIds(updates)).value <= n
      {
        AdvanceIsLeast(cursor, UpdateIds(updates), n);
      }
      var batch := new PollBatch(background, raises);
      completed := batch.Run(updates);
      dispatched := dispatched + batch.sent;
      if !completed {
        return;
      }
      if batch.maxUpdateId.Some? {
        var next := batch.maxUpdateId.value + 1;
        if cursor.None? || next > cursor.value {
          cursor := Some(next);
        }
      }
    }
  }
}
