/** What the tool loop makes of the calls, field by field, and two runs in which a tool's answer
    reaches the model that asked for it: the task's own, and a delegated child. */
module ToolLoopEffects {
  import opened Prelude
  import opened ToolLoop

  // ---------------------------------------------------------------------------------------
  // Failures, counted
  // ---------------------------------------------------------------------------------------

  /** Invocation k, made before request n + 1, was the loop's own call of that tool and failed like
      that: with an error of its own or, for lack of one, its text, or refused by its handler. Only the
      first 120 characters tell failures apart. Denials are no failures. */
  predicate FailedLike(w: World, invoked: seq<Invocation>, k: nat, n: nat, s: Signature) {
    k < |invoked| && invoked[k].Own? && invoked[k].at <= n && invoked[k].call.name == s.tool &&
    match w.tool(k)
    case Failed(text, error) => s.detail == if error != "" then error[..Min(120, |error|)] else text[..Min(120, |text|)]
    case Refused(detail) => s.detail == detail[..Min(120, |detail|)]
    case _ => false
  }

  function FailuresLike(w: World, invoked: seq<Invocation>, n: nat, s: Signature): set<nat> {
    set k: nat | k < |invoked| && FailedLike(w, invoked, k, n, s)
  }

  /** The breaker counts exactly those. */
  lemma {:induction false} FailsAreFailures(w: World, invoked: seq<Invocation>, n: nat, s: Signature)
    ensures Fails(FailuresOf(w, invoked), n, s) == |FailuresLike(w, invoked, n, s)|
  {
    hide FailedLike;
    hide FailuresLike;
    if invoked == [] {
      NothingLike(w, n, s);
    } else {
      FailsAreFailures(w, Front(invoked), n, s);
      FailsSnoc(w, invoked, n, s);
      LikeSnoc(w, invoked, n, s);
    }
  }

  lemma NothingLike(w: World, n: nat, s: Signature)
    ensures |FailuresLike(w, [], n, s)| == 0 && Fails(FailuresOf(w, []), n, s) == 0
  {
  }

  lemma LikeSnoc(w: World, invoked: seq<Invocation>, n: nat, s: Signature)
    requires invoked != []
    ensures |FailuresLike(w, invoked, n, s)| ==
            |FailuresLike(w, Front(invoked), n, s)| + if FailedLike(w, invoked, |invoked| - 1, n, s) then 1 else 0
  {
    hide FailedLike;
    SameBefore(w, invoked, n, s);
    var all, before, last := FailuresLike(w, invoked, n, s), FailuresLike(w, Front(invoked), n, s), |invoked| - 1;
    var more: set<nat> := if FailedLike(w, invoked, last, n, s) then {last} else {};
    forall k: nat
      ensures k in all <==> k in before || k in more
    {
    }
    assert all == before + more && before !! more;
  }

  lemma SameBefore(w: World, invoked: seq<Invocation>, n: nat, s: Signature)
    requires invoked != []
    ensures forall k: nat :: k < |invoked| - 1 ==>
              (FailedLike(w, invoked, k, n, s) <==> FailedLike(w, Front(invoked), k, n, s))
  {
  }

  lemma FailsSnoc(w: World, invoked: seq<Invocation>, n: nat, s: Signature)
    requires invoked != []
    ensures Fails(FailuresOf(w, invoked), n, s) ==
            Fails(FailuresOf(w, Front(invoked)), n, s) + if FailedLike(w, invoked, |invoked| - 1, n, s) then 1 else 0
  {
    var before := FailuresOf(w, Front(invoked));
    if Last(invoked).Own? {
      var found := SignatureOf(Last(invoked).call, w.tool(|invoked| - 1));
      if found.Some? {
        var f := Failure(found.value, Last(invoked).at);
        assert Front(before + [f]) == before;
      } else {
        assert before + [] == before;
      }
    } else {
      assert before + [] == before;
    }
  }

  // ---------------------------------------------------------------------------------------
  // What a call comes to
  // ---------------------------------------------------------------------------------------

  /** The text a call is answered with when its tool is invoked: what the tool gave, with a warning at
      the third failure of a kind; or that it was denied, or refused. */
  ghost predicate ReadsOutcome(w: World, invoked: seq<Invocation>, call: Call, at: nat, text: string) {
    invoked != [] &&
    match w.tool(|invoked| - 1)
    case Done(result) => text == result
    case Failed(result, error) =>
      var detail := if error != "" then error[..Min(120, |error|)] else result[..Min(120, |result|)];
      text == if |FailuresLike(w, invoked, at, Signature(call.name, detail))| == 3 then result + WARNING else result
    case Denied => text == "tool_denied"
    case Refused(_) => text == "tool_execution_failed"
    case Crashed => false
  }

  /** Every call dealt with that is not delegated was answered for the first of these reasons: its
      arguments are no JSON object, its tool is not declared, the gate leaves it pending, the gate does
      not allow it; and if none holds its tool was invoked, just once, and the answer is what it gave. */
  lemma HowACallIsAnswered(w: World, job: Job, invoked: seq<Invocation>, childLog: seq<seq<Message>>, h: Handled)
    requires DealtWith(w, job, invoked, childLog, h) && !(h.call.name == "delegate" && job.delegates)
    ensures var was, now := h.before, h.after;
            now.sent == was.sent && now.ran <= |invoked| &&
            if w.parse(h.call.arguments) != Object then h.text == "invalid_tool_arguments" && now.ran == was.ran
            else if h.call.name !in job.declared then h.text == "undeclared_tool" && now.ran == was.ran
            else if job.hasGate && w.verdict(was.asked, h.call) == Pending then
              h.text == "approval_pending" && now.ran == was.ran
            else if job.hasGate && w.verdict(was.asked, h.call) == NotAllowed then
              h.text == "approval_denied" && now.ran == was.ran
            else
              job.hasTools && now.ran == was.ran + 1 && invoked[was.ran] == Own(h.call, was.asked, h.at) &&
              ReadsOutcome(w, invoked[..now.ran], h.call, h.at, h.text)
  {
    hide FailuresOf;
    hide Fails;
    hide FailuresLike;
    hide Delegated;
    if Screen(w, job, h.call, h.before.asked) == ToInvoke {
      var ran := invoked[..h.after.ran];
      var s := SignatureOf(h.call, w.tool(|ran| - 1));
      if s.Some? {
        FailsAreFailures(w, ran, h.at, s.value);
      }
    }
  }

  /** A delegation goes ahead with JSON arguments and an objective of one to 8192 characters beside
      surrounding white space, at a depth below three. */
  lemma WhenADelegationGoesAhead(job: Job, asked: Delegation)
    ensures Accepts(job, asked) <==>
            asked.Given? && 1 <= |Strip(asked.objective)| <= 8192 && job.depth < 3
  {
    hide Strip;
  }

  /** A child's arguments are JSON if they parse to anything, or are empty; its tools are those asked for
      among the first 32 that the parent declares, or without a request the parent's that do not touch
      the workspace. */
  lemma WhatAChildMayUse(w: World, job: Job, requested: seq<string>, call: Call)
    ensures ChildRuns(w, job, ChildTools(job.declared, requested), call) <==>
            job.hasTools && call.name in job.declared &&
            (if requested == []
             then call.name != "read_file" && call.name != "write_file" && call.name != "run_command" &&
                  call.name != "capture_diff"
             else call.name in requested[..Min(32, |requested|)]) &&
            (call.arguments == "" || w.parse(call.arguments) != NotJson)
  {
  }

  /** No request but the final nudge follows the fifth failure of a kind. */
  lemma FewerThanFive(w: World, log: seq<Request>, invoked: seq<Invocation>, n: nat, s: Signature)
    requires BreakerHeld(log, FailuresOf(w, invoked)) && n < |log| && log[n].kind != FinalNudge
    ensures |FailuresLike(w, invoked, n, s)| < 5
  {
    hide FailuresLike;
    hide FailuresOf;
    FailsAreFailures(w, invoked, n, s);
  }

  /** A response is empty if it has no calls and nothing but white space. */
  lemma WhatEmptyMeans(response: Response)
    ensures IsEmpty(response) <==>
            response.calls == [] && forall i :: 0 <= i < |response.content| ==> IsSpace(response.content[i])
  {
    hide Strip;
    BlankIsWhite(response.content);
  }

  lemma BlankIsWhite(s: string)
    ensures Strip(s) == "" <==> forall i :: 0 <= i < |s| ==> IsSpace(s[i])
  {
    LeftIsWhite(s);
    RightIsWhite(StripLeft(s));
    if StripLeft(s) != "" {
      StartsInk(s);
    }
  }

  lemma {:induction false} LeftIsWhite(s: string)
    ensures StripLeft(s) == "" <==> forall i :: 0 <= i < |s| ==> IsSpace(s[i])
  {
    if s != "" {
      LeftIsWhite(s[1..]);
      assert forall i :: 1 <= i < |s| ==> s[i] == s[1..][i - 1];
    }
  }

  lemma {:induction false} RightIsWhite(s: string)
    ensures StripRight(s) == "" <==> forall i :: 0 <= i < |s| ==> IsSpace(s[i])
  {
    if s != "" {
      RightIsWhite(Front(s));
      assert forall i :: 0 <= i < |s| - 1 ==> s[i] == Front(s)[i];
      assert s[|s| - 1] == Last(s);
    }
  }

  lemma {:induction false} StartsInk(s: string)
    requires StripLeft(s) != ""
    ensures !IsSpace(StripLeft(s)[0])
  {
    if s != "" && IsSpace(s[0]) {
      StartsInk(s[1..]);
    }
  }

  /** A response calls for a boost if the output cap ended it, some call's arguments are no JSON object,
      it is not itself the answer to a boost, and fewer than two boosts were sent. */
  lemma WhenABoostIsDue(w: World, job: Job, log: seq<Request>, n: nat)
    requires n <= |log|
    ensures BoostDue(w, job, log, n) <==>
            var response := Answer(w, job, n);
            response.truncated && (exists call :: call in response.calls && w.parse(call.arguments) != Object) &&
            (n > 0 ==> log[n - 1].kind != Boost) && CountKind(log[..n], Boost) < 2
  {
    hide Answer;
    hide CountKind;
    var calls := Answer(w, job, n).calls;
    if call :| call in calls && w.parse(call.arguments) != Object {
      var i :| 0 <= i < |calls| && calls[i] == call;
      assert w.parse(calls[i].arguments) != Object;
    }
  }

  /** A boost drops that response and asks again with twice the output cap, at most 32768. */
  lemma WhatABoostAsks(w: World, job: Job, log: seq<Request>, n: nat)
    requires AllJustified(w, job, log) && n < |log| && log[n].kind == Boost
    ensures log[n].messages == (if n == 0 then job.initial else log[n - 1].messages) && log[n].offersTools
    ensures log[n].maxTokens == if job.maxTokens * 2 <= 32768 then job.maxTokens * 2 else 32768
  {
    hide HasBadArguments;
    assert Justified(w, job, log, n);
  }

  // ---------------------------------------------------------------------------------------
  // A task reads what its tool answered
  // ---------------------------------------------------------------------------------------

  const ASKS := Call("t", "1", "")
  const DONE := Response("done", [], false)

  /** A model that calls a declared tool, and then is done. */
  const TASK := Job([], Response("", [ASKS], false), ["t"], 1, 100, true, false, false, 0, false)

  const ANSWERING := World(
    n => Some(DONE), n => Some(DONE), n => ToolOutcome.Done("42"), (n, call) => Allowed, n => true, text => Object,
    text => BadArguments)

  lemma {:induction false} NothingFails(w: World, invoked: seq<Invocation>)
    requires forall k :: w.tool(k).Done?
    ensures FailuresOf(w, invoked) == []
  {
    if invoked != [] {
      NothingFails(w, Front(invoked));
    }
  }

  /** A run whose first response has one call, and whose second has none, sends one request at most. */
  lemma OneRequest(w: World, job: Job, log: seq<Request>, handled: seq<Handled>, invoked: seq<Invocation>)
    requires AllJustified(w, job, log) && AllTurnsDone(w, job, log, handled)
    requires |job.first.calls| == 1 && !job.first.truncated && job.maxRounds == 1
    requires w.reply(0) == Some(DONE) && FailuresOf(w, invoked) == []
    requires log != [] && Last(log).kind == FinalNudge ==>
               CountKind(log, Round) == 1 || exists s :: Fails(FailuresOf(w, invoked), |log|, s) >= ABORT_THRESHOLD
    ensures |log| <= 1
    ensures |log| == 1 ==>
              log[0].kind == Round && CallsOf(HandledFor(handled, 0)) == job.first.calls &&
              log[0].messages == job.initial + TurnOf(job.first, HandledFor(handled, 0))
  {
    hide Appends;
    hide HandledFor;
    hide CallsOf;
    hide TurnOf;
    hide FailuresOf;
    hide HasBadArguments;
    if |log| > 1 {
      NoSecondRequest(w, job, log);
    }
    if |log| == 1 {
      assert Justified(w, job, log, 0) && TurnDone(w, job, log, handled, 0);
      assert Front(log) == [];
    }
  }

  lemma NoSecondRequest(w: World, job: Job, log: seq<Request>)
    requires AllJustified(w, job, log) && w.reply(0) == Some(DONE)
    ensures |log| <= 1
  {
    hide Appends;
    DoneIsNotEmpty();
    assert Answer(w, job, 1) == DONE;
    assert |log| > 1 ==> Justified(w, job, log, 1);
  }

  lemma DoneIsNotEmpty()
    ensures !IsEmpty(DONE) && !HasBadArguments(ANSWERING, DONE.calls)
  {
    assert Strip("done") == "done" by {
      assert !IsSpace("done"[0]) && !IsSpace(Last("done"));
    }
  }

  lemma {:induction false} HandledWithin(handled: seq<Handled>, n: nat)
    ensures forall h :: h in HandledFor(handled, n) ==> h.at == n && exists k :: 0 <= k < |handled| && handled[k] == h
  {
    if handled != [] {
      HandledWithin(Front(handled), n);
      assert forall k :: 0 <= k < |handled| - 1 ==> handled[k] == Front(handled)[k];
    }
  }

  /** The one call of the first response, as it was dealt with. */
  lemma TheOneCall(w: World, job: Job, invoked: seq<Invocation>, childLog: seq<seq<Message>>, handled: seq<Handled>)
    returns (h: Handled)
    requires AllDealtWith(w, job, invoked, childLog, handled)
    requires |job.first.calls| == 1 && CallsOf(HandledFor(handled, 0)) == job.first.calls
    ensures h.call == job.first.calls[0] && DealtWith(w, job, invoked, childLog, h) && h in handled
    ensures HandledFor(handled, 0) != [] && h == HandledFor(handled, 0)[0]
    ensures TurnOf(job.first, HandledFor(handled, 0)) ==
            [Assistant(job.first.content, job.first.calls), Tool(h.text, h.call.id)]
  {
    hide DealtWith;
    var hs := HandledFor(handled, 0);
    h := hs[0];
    assert CallsOf(hs)[0] == h.call;
    HandledWithin(handled, 0);
    assert h in hs;
    var k :| 0 <= k < |handled| && handled[k] == h;
    assert TurnOf(job.first, hs) == [Assistant(job.first.content, job.first.calls), Tool(h.text, h.call.id)];
  }

  /** The task's second request carries what the tool answered, and its response is the outcome. */
  method ATaskReadsItsTool() returns (outcome: Outcome, history: seq<Message>)
    ensures outcome == Returned(DONE)
    ensures history == [Assistant("", [ASKS]), Tool("42", "1")]
  {
    hide AllDealtWith;
    hide AllJustified;
    hide AllTurnsDone;
    hide AllLegitimate;
    hide Paced;
    hide Fails;
    hide CountKind;
    hide HandledFor;
    hide CallsOf;
    hide TurnOf;
    hide Broke;
    var rounds := new ToolRounds(ANSWERING, TASK);
    outcome := rounds.Run();
    NothingFails(ANSWERING, rounds.invoked);
    OneRequest(ANSWERING, TASK, rounds.log, rounds.handled, rounds.invoked);
    Unbroken(rounds.log, rounds.invoked, rounds.childLog, rounds.handled, rounds.Here());
    assert rounds.renewed != [] ==> ANSWERING.leaseHeld(|rounds.renewed| - 1);
    assert rounds.log != [];
    ghost var h := TheOneCall(ANSWERING, TASK, rounds.invoked, rounds.childLog, rounds.handled);
    HowACallIsAnswered(ANSWERING, TASK, rounds.invoked, rounds.childLog, h);
    history := rounds.log[0].messages;
  }

  /** Nothing of that task raises. */
  lemma Unbroken(log: seq<Request>, invoked: seq<Invocation>, childLog: seq<seq<Message>>, handled: seq<Handled>,
                 now: Mark)
    requires |log| <= 1
    ensures !BatchBroke(ANSWERING, TASK, log, invoked, childLog, handled, now)
  {
    hide HandledFor;
    hide CallsOf;
  }

  // ---------------------------------------------------------------------------------------
  // A child reads what its tool answered
  // ---------------------------------------------------------------------------------------

  const CHILD_ASKS := Call("t", "c", "{}")

  const DELEGATING := Job([], Response("", [DELEGATION], false), ["t"], 1, 100, true, false, true, 0, false)

  /** A child that calls its tool once and then answers. */
  const CHILD_ANSWERING := World(
    n => Some(DONE),
    n => Some(if n == 0 then Response("", [CHILD_ASKS], false) else Response("ok", [], false)),
    n => ToolOutcome.Done("42"), (n, call) => Allowed, n => true, text => Object, text => Given("x", Some(["t"])))

  /** The first call dealt with after no request is the first of all. */
  lemma {:induction false} FirstOfAll(handled: seq<Handled>)
    requires HandledFor(handled, 0) != [] && forall j, k :: 0 <= j < k < |handled| ==> handled[j].at <= handled[k].at
    ensures handled != [] && HandledFor(handled, 0)[0] == handled[0]
  {
    var pre := Front(handled);
    if HandledFor(pre, 0) == [] {
      if pre != [] {
        assert handled[0].at <= Last(handled).at;
        FirstIsListed(pre);
      }
    } else {
      FirstOfAll(pre);
    }
  }

  lemma {:induction false} FirstIsListed(handled: seq<Handled>)
    requires handled != [] && handled[0].at == 0
    ensures HandledFor(handled, 0) != []
  {
    if |handled| > 1 {
      FirstIsListed(Front(handled));
    }
  }

  lemma ChildIsAccepted()
    ensures Accepts(DELEGATING, Given("x", Some(["t"]))) && Strip("x") == "x"
    ensures "t" in ChildTools(["t"], ["t"])
  {
    assert Strip("x") == "x";
  }

  /** The child's conversation in that world. */
  lemma TheChild(invoked: seq<Invocation>, childLog: seq<seq<Message>>, now: Mark, text: string)
    requires Delegated(CHILD_ANSWERING, DELEGATING, "", invoked, childLog, Mark(0, 0, 0), now, text)
    ensures now.sent == 2 && text == "ok" && now.ran == 1 && invoked[0] == ByChild(CHILD_ASKS)
    ensures childLog[..2] == [[User("x")], [User("x"), Assistant("", [CHILD_ASKS]), Tool("42", "c")]]
  {
    hide Accepts;
    hide ChildTools;
    hide Strip;
    ChildIsAccepted();
    var w, job, allowed, log := CHILD_ANSWERING, DELEGATING, ChildTools(["t"], ["t"]), childLog[..now.sent];
    assert ChildChained(w, job, allowed, log, 0, 0) && ChildEnded(w, log, 0, text, false);
    TwoRequests(w, job, allowed, log, text);
    TheFirstTurn(w, job, allowed, log);
    assert childLog[..2] == log;
    TheOneInvocation(w, job, allowed);
    assert invoked[0..now.ran] == [ByChild(CHILD_ASKS)];
    assert invoked[0..now.ran][0] == invoked[0];
  }

  lemma TwoRequests(w: World, job: Job, allowed: seq<string>, log: seq<seq<Message>>, text: string)
    requires w == CHILD_ANSWERING && log != [] && ChildChained(w, job, allowed, log, 0, 0) &&
             ChildEnded(w, log, 0, text, false)
    ensures |log| == 2 && text == "ok"
  {
    hide ChildTurnOf;
    hide ChildInvocations;
    assert Take("ok", 4000) == "ok";
    forall n | 0 <= n < |log| - 1
      ensures w.childReply(n).value.calls != []
    {
      assert ChildChainedAt(w, job, allowed, log, n, 0 + |ChildInvocations(w, job, allowed, 0, n)|);
    }
    assert w.childReply(1).value.calls == [];
  }

  lemma TheFirstTurn(w: World, job: Job, allowed: seq<string>, log: seq<seq<Message>>)
    requires w == CHILD_ANSWERING && job == DELEGATING && "t" in allowed
    requires |log| == 2 && log[0] == [User("x")] && ChildChained(w, job, allowed, log, 0, 0)
    ensures log == [[User("x")], [User("x"), Assistant("", [CHILD_ASKS]), Tool("42", "c")]]
  {
    assert ChildChainedAt(w, job, allowed, log, 0, 0 + |ChildInvocations(w, job, allowed, 0, 0)|);
    var turn, reply := log[1][1..], w.childReply(0).value;
    var calls := reply.calls;
    assert calls == [CHILD_ASKS] && calls[..0] == [] && |turn| == 2 && turn[0] == Assistant("", calls);
    assert ChildReads(w, job, allowed, calls[0], 0 + |ChildCalls(w, job, allowed, calls[..0])|, turn[1 + 0]);
    assert "42"[..Min(2000, |"42"|)] == "42";
    assert turn[1] == Tool("42", "c");
    assert turn == [Assistant("", calls), Tool("42", "c")];
    assert log[1][0] == log[0][0] == User("x");
    assert log[1] == [User("x")] + turn;
    assert log[1] == [User("x"), Assistant("", [CHILD_ASKS]), Tool("42", "c")];
  }

  lemma TheOneInvocation(w: World, job: Job, allowed: seq<string>)
    requires w == CHILD_ANSWERING && job == DELEGATING && "t" in allowed
    ensures ChildInvocations(w, job, allowed, 0, 2) == [ByChild(CHILD_ASKS)]
  {
    assert ChildInvocations(w, job, allowed, 0, 0) == [];
    assert Front([CHILD_ASKS]) == [];
    assert ChildCalls(w, job, allowed, [CHILD_ASKS]) == [ByChild(CHILD_ASKS)];
    assert ChildInvocations(w, job, allowed, 0, 1) == [ByChild(CHILD_ASKS)];
  }

  lemma DelegationIsNotBroken(log: seq<Request>, invoked: seq<Invocation>, childLog: seq<seq<Message>>,
                              handled: seq<Handled>, now: Mark)
    requires |log| <= 1
    ensures !BatchBroke(CHILD_ANSWERING, DELEGATING, log, invoked, childLog, handled, now)
  {
    hide HandledFor;
    hide CallsOf;
    hide Accepts;
    hide ChildChained;
    hide ChildInvocations;
  }

  /** The child's second request carries what its tool answered, and the task's second request what
      the child answered. */
  method AChildReadsItsTool() returns (outcome: Outcome, history: seq<Message>, child: seq<seq<Message>>)
    ensures outcome == Returned(DONE)
    ensures history == [Assistant("", [DELEGATION]), Tool("ok", "1")]
    ensures |child| >= 2 && child[0] == [User("x")] &&
            child[1] == [User("x"), Assistant("", [CHILD_ASKS]), Tool("42", "c")]
  {
    hide AllJustified;
    hide AllTurnsDone;
    hide AllLegitimate;
    hide DealtWith;
    hide Paced;
    hide Fails;
    hide CountKind;
    hide HandledFor;
    hide CallsOf;
    hide TurnOf;
    hide Broke;
    var rounds := new ToolRounds(CHILD_ANSWERING, DELEGATING);
    outcome := rounds.Run();
    NothingFails(CHILD_ANSWERING, rounds.invoked);
    OneRequest(CHILD_ANSWERING, DELEGATING, rounds.log, rounds.handled, rounds.invoked);
    DelegationIsNotBroken(rounds.log, rounds.invoked, rounds.childLog, rounds.handled, rounds.Here());
    assert rounds.renewed != [] ==> CHILD_ANSWERING.leaseHeld(|rounds.renewed| - 1);
    assert rounds.log != [];
    ghost var h := TheOneCall(CHILD_ANSWERING, DELEGATING, rounds.invoked, rounds.childLog, rounds.handled);
    FirstOfAll(rounds.handled);
    TheDelegation(rounds.invoked, rounds.childLog, rounds.handled);
    history := rounds.log[0].messages;
    child := rounds.childLog;
  }

  lemma TheDelegation(invoked: seq<Invocation>, childLog: seq<seq<Message>>, handled: seq<Handled>)
    requires AllDealtWith(CHILD_ANSWERING, DELEGATING, invoked, childLog, handled)
    requires handled != [] && handled[0].call == DELEGATION
    ensures handled[0].text == "ok" && |childLog| >= 2
    ensures childLog[0] == [User("x")] && childLog[1] == [User("x"), Assistant("", [CHILD_ASKS]), Tool("42", "c")]
  {
    hide Delegated;
    var h := handled[0];
    assert DealtWith(CHILD_ANSWERING, DELEGATING, invoked, childLog, h);
    assert handled[..0] == [] && h.before == Mark(0, 0, 0);
    TheChild(invoked, childLog, h.after, h.text);
    assert childLog[..2][0] == childLog[0] && childLog[..2][1] == childLog[1];
  }

  // ---------------------------------------------------------------------------------------
  // The chat turn
  // ---------------------------------------------------------------------------------------

  /** The prior turns with a known role and a text, in order. */
  function PlainTurns(history: seq<Turn>): (plain: seq<Turn>)
    ensures forall t :: t in plain <==> t in history && (t.role == "user" || t.role == "assistant") && t.content != ""
  {
    if history == [] then []
    else
      var t := Last(history);
      PlainTurns(Front(history)) + if (t.role == "user" || t.role == "assistant") && t.content != "" then [t] else []
  }

  lemma {:induction false} PlainTurnsKeepOrder(history: seq<Turn>)
    ensures Subsequence(PlainTurns(history), history)
  {
    if history != [] {
      hide Subsequence;
      hide PlainTurns;
      hide Sanitized;
      hide OnTheWire;
      var pre, t := Front(history), Last(history);
      PlainTurnsKeepOrder(pre);
      LastReachesTheWire(history);
      SubsequenceSnoc(PlainTurns(pre), pre, t);
      assert history == pre + [t];
    } else {
      assert PlainTurns(history) == [];
    }
  }

  /** A plain turn on the wire. */
  predicate OnTheWire(t: Turn, m: Message) {
    m == if t.role == "user" then User(t.content) else Assistant(t.content, [])
  }

  /** Those turns reach the wire, in their order, each with its own role, and nothing else does. */
  lemma {:induction false} PlainTurnsReachTheWire(history: seq<Turn>)
    ensures |Sanitized(history)| == |PlainTurns(history)|
    ensures forall i :: 0 <= i < |PlainTurns(history)| ==> OnTheWire(PlainTurns(history)[i], Sanitized(history)[i])
  {
    if history != [] {
      hide OnTheWire;
      var pre := Front(history);
      PlainTurnsReachTheWire(pre);
      LastReachesTheWire(history);
      var wire, plain := Sanitized(pre), PlainTurns(pre);
      assert forall i :: 0 <= i < |plain| ==> PlainTurns(history)[i] == plain[i] && Sanitized(history)[i] == wire[i];
    }
  }

  lemma LastReachesTheWire(history: seq<Turn>)
    requires history != []
    ensures var wire, plain := Sanitized(Front(history)), PlainTurns(Front(history));
            (Sanitized(history) == wire && PlainTurns(history) == plain) ||
            (exists m :: Sanitized(history) == wire + [m] && PlainTurns(history) == plain + [Last(history)] &&
                         OnTheWire(Last(history), m))
  {
    var wire, plain, t := Sanitized(Front(history)), PlainTurns(Front(history)), Last(history);
    assert wire + [] == wire && plain + [] == plain;
    if IsPlain(t) {
      var m := if t.role == "user" then User(t.content) else Assistant(t.content, []);
      assert Sanitized(history) == wire + [m] && OnTheWire(t, m);
    }
  }

  /** What a reply and its tools add to a chat: under the native protocol the reply and one message for
      each call, under the text protocol the reply without its markers and one message. */
  ghost predicate AddsToChat(c: Chat, reply: Response, k: nat, added: seq<Message>) {
    if c.textProtocol then added == [Assistant(c.strip(reply.content), []), User(c.result(k))]
    else
      |added| == 1 + |reply.calls| && added[0] == Assistant(reply.content, reply.calls) &&
      forall i :: 0 <= i < |reply.calls| ==> added[1 + i] == Tool(c.result(k + i), reply.calls[i].id)
  }

  lemma AddedAdds(c: Chat, reply: Response, k: nat)
    ensures AddsToChat(c, reply, k, Added(c, reply, k))
  {
  }

  /** Request n + 1 of a chat turn is request n and what reply n and its tools add. */
  lemma WhatAChatRequestAdds(c: Chat, start: seq<Message>, maxRounds: int, log: seq<ChatRequest>, n: nat)
    requires n + 1 < |log| && WentOn(c, n)
    requires IsChatRequest(c, start, maxRounds, log[n], n) && IsChatRequest(c, start, maxRounds, log[n + 1], n + 1)
    ensures if c.textProtocol then c.hasTextCall(c.reply(n).value.content) else c.reply(n).value.calls != []
    ensures log[n].messages <= log[n + 1].messages
    ensures AddsToChat(c, c.reply(n).value, ResultsBefore(c, n), log[n + 1].messages[|log[n].messages|..])
  {
    hide AddsToChat;
    hide Added;
    hide ChatHistory;
    hide ResultsBefore;
    hide Paired;
    OneMoreReply(c, start, n);
    AddedAdds(c, c.reply(n).value, ResultsBefore(c, n));
    var before, more := log[n].messages, Added(c, c.reply(n).value, ResultsBefore(c, n));
    assert log[n + 1].messages == before + more;
    assert (before + more)[|before|..] == more;
  }

  /** The results given before request n: one for each call of the replies before, or one for each of
      those replies. */
  lemma {:induction false} ResultsAreCounted(c: Chat, n: nat)
    requires forall m :: 0 <= m < n ==> c.reply(m).Some?
    ensures c.textProtocol ==> ResultsBefore(c, n) == n
    ensures !c.textProtocol ==>
              ResultsBefore(c, n) == if n == 0 then 0 else ResultsBefore(c, n - 1) + |c.reply(n - 1).value.calls|
  {
    if n > 0 {
      ResultsAreCounted(c, n - 1);
    }
  }

  /** The first request is the plain prior turns and the message. */
  lemma HowAChatStarts(c: Chat, history: seq<Turn>, message: string, maxRounds: int, request: ChatRequest)
    requires IsChatRequest(c, ChatStart(history, message), maxRounds, request, 0)
    ensures request.messages == Sanitized(history) + [User(message)]
  {
  }
}
