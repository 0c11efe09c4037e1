/**
 The bounded model/tool loops: the execution runtime's native loop with its retry ladders and
 failure breaker, the loop of a delegated child, and the chat turn's loop.

 The provider, the registry, the approval gate, the lease and the JSON parser are oracles: the
 nth question put to each has a fixed answer, unknown to the loop.
*/
module ToolLoop {
  import opened Prelude

  datatype Call = Call(name: string, id: string, arguments: string)

  datatype Message =
    | User(content: string)
    | Assistant(content: string, calls: seq<Call>)
    | Tool(content: string, callId: string)

  /** `truncated` says that the output cap ended the response. */
  datatype Response = Response(content: string, calls: seq<Call>, truncated: bool)

  datatype Kind = EmptyNudge | Boost | Round | FinalNudge

  datatype Request = Request(kind: Kind, messages: seq<Message>, offersTools: bool, maxTokens: nat)

  datatype Parsed = NotJson | NotObject | Object

  /** What delegation makes of a call's arguments. `tools` is None for a value that cannot be
      sliced, such as a number. */
  datatype Delegation = BadArguments | Given(objective: string, tools: Option<seq<string>>)

  datatype ToolOutcome =
    | Done(text: string)                 // status "success" or "unknown"
    | Failed(text: string, error: string) // any other status
    | Denied
    | Refused(detail: string)            // ToolError
    | Crashed                            // any other exception

  /** GateFailed is an exception of the gate. */
  datatype Verdict = Allowed | Pending | NotAllowed | GateFailed

  /** The answers of everything outside. None is an exception. */
  datatype World = World(
    reply: nat -> Option<Response>,
    childReply: nat -> Option<Response>,
    tool: nat -> ToolOutcome,
    verdict: (nat, Call) -> Verdict,
    leaseHeld: nat -> bool,
    parse: string -> Parsed,
    delegation: string -> Delegation)

  /** One task's call of the loop. `declared` are the task's tool names. */
  datatype Job = Job(
    initial: seq<Message>,
    first: Response,
    declared: seq<string>,
    maxRounds: nat,
    maxTokens: nat,
    hasTools: bool,
    hasGate: bool,
    delegates: bool,
    depth: nat,
    nativeUnsupported: bool)

  const DELEGATE := "delegate"
  const MAX_BOOSTS := 2
  const MAX_BOOSTED_TOKENS := 32768
  const WARN_THRESHOLD := 3
  const ABORT_THRESHOLD := 5
  const MAX_EMPTY_RETRIES := 2
  const MAX_DELEGATION_DEPTH := 3
  const MAX_CHILD_ROUNDS := 4
  const WORKSPACE_TOOLS := {"read_file", "write_file", "run_command", "capture_diff"}
  const EMPTY_NUDGE := "your previous response was empty"
  const FINAL_NUDGE := "maximum number of tool-calling rounds reached"
  const CHILD_UNAVAILABLE := "tool unavailable to sub-agents"
  const CHILD_TOOL_ERROR := "error executing tool"
  const CHILD_EXHAUSTED := "(sub-agent exhausted its round budget)"
  const DELEGATION_ERROR := "delegation error"
  const WARNING := "tool loop warning: identical failure"

  // ---------------------------------------------------------------------------------------
  // Pairing
  // ---------------------------------------------------------------------------------------

  /** One tool message per call, same ids, same order. */
  ghost predicate Answers(results: seq<Message>, calls: seq<Call>) {
    |results| == |calls| &&
    forall i :: 0 <= i < |calls| ==> results[i].Tool? && results[i].callId == calls[i].id
  }

  /** A history in which every assistant turn with calls is directly followed by exactly the
      answers to its calls, and no tool message stands anywhere else. */
  ghost predicate Paired(messages: seq<Message>) {
    if messages == [] then true
    else
      match messages[0]
      case User(_) => Paired(messages[1..])
      case Tool(_, _) => false
      case Assistant(_, calls) =>
        |calls| < |messages| && Answers(messages[1..1 + |calls|], calls) && Paired(messages[1 + |calls|..])
  }

  lemma {:induction false} PairedConcat(a: seq<Message>, b: seq<Message>)
    requires Paired(a) && Paired(b)
    ensures Paired(a + b)
  {
    if a == [] {
      assert a + b == b;
    } else {
      var n := Group(a);
      PairedConcat(a[n..], b);
      SplitConcat(a, b, n);
      GroupIsPaired(a + b);
    }
  }

  lemma SplitConcat(a: seq<Message>, b: seq<Message>, n: nat)
    requires 1 <= n <= |a|
    ensures (a + b)[n..] == a[n..] + b && (a + b)[1..n] == a[1..n] && (a + b)[0] == a[0]
  {
  }

  /** How many messages the first message takes up, with the answers to its calls. */
  function Group(messages: seq<Message>): nat
    requires messages != []
  {
    if messages[0].Assistant? then 1 + |messages[0].calls| else 1
  }

  lemma GroupIsPaired(messages: seq<Message>)
    requires messages != [] && !messages[0].Tool? && Group(messages) <= |messages|
    requires messages[0].Assistant? ==> Answers(messages[1..Group(messages)], messages[0].calls)
    requires Paired(messages[Group(messages)..])
    ensures Paired(messages)
  {
  }

  /** A turn: an assistant message with the response's calls and their answers. */
  ghost predicate IsTurn(messages: seq<Message>, response: Response) {
    messages != [] && messages[0] == Assistant(response.content, response.calls) &&
    Answers(messages[1..], response.calls)
  }

  lemma TurnIsPaired(messages: seq<Message>, response: Response)
    requires IsTurn(messages, response)
    ensures Paired(messages)
  {
    var n := |response.calls|;
    assert messages[1..1 + n] == messages[1..];
    assert messages[1 + n..] == [];
  }

  // ---------------------------------------------------------------------------------------
  // What each request may be
  // ---------------------------------------------------------------------------------------

  predicate IsBlank(s: string) {
    Strip(s) == ""
  }

  predicate IsEmpty(response: Response) {
    response.calls == [] && IsBlank(response.content)
  }

  predicate HasBadArguments(w: World, calls: seq<Call>) {
    exists i :: 0 <= i < |calls| && w.parse(calls[i].arguments) != Object
  }

  /** The response in hand once `n` requests have been answered. */
  function Answer(w: World, job: Job, n: nat): Response {
    if n == 0 then job.first
    else if w.reply(n - 1).Some? then w.reply(n - 1).value
    else Response("", [], false)
  }

  /** The history the n-th request starts from. */
  function Base(job: Job, log: seq<Request>, n: nat): seq<Message>
    requires n <= |log|
  {
    if n == 0 then job.initial else log[n - 1].messages
  }

  ghost predicate Appends(messages: seq<Message>, base: seq<Message>, response: Response, tail: seq<Message>) {
    |base| + |tail| <= |messages| && messages[..|base|] == base && messages[|messages| - |tail|..] == tail &&
    IsTurn(messages[|base|..|messages| - |tail|], response)
  }

  /** Request n is the one its kind stands for, given the history so far and the response it
      follows:
      - an empty-response nudge follows a response without calls and content, and adds the
        placeholder and the nudge;
      - a boost follows a truncated response with an unusable call, drops that response from the
        history, and asks again with twice the output cap, at most 32768;
      - a round follows a response with calls and adds its whole turn;
      - the final nudge offers no tools and adds the nudge to the history, after the last turn
        if that turn was executed. */
  ghost predicate Justified(w: World, job: Job, log: seq<Request>, n: nat)
    requires n < |log|
  {
    var base, prev, request := Base(job, log, n), Answer(w, job, n), log[n];
    (n > 0 ==> w.reply(n - 1).Some?) &&
    (request.kind != Boost ==> request.maxTokens == job.maxTokens) &&
    (request.offersTools <==> request.kind != FinalNudge) &&
    match request.kind
    case EmptyNudge =>
      IsEmpty(prev) && request.messages == base + [Assistant("(empty)", []), User(EMPTY_NUDGE)]
    case Boost =>
      prev.truncated && HasBadArguments(w, prev.calls) && request.messages == base &&
      request.maxTokens == Min(job.maxTokens * 2, MAX_BOOSTED_TOKENS)
    case Round =>
      prev.calls != [] && Appends(request.messages, base, prev, [])
    case FinalNudge =>
      n == |log| - 1 && prev.calls != [] &&
      (request.messages == base + [User(FINAL_NUDGE)] || Appends(request.messages, base, prev, [User(FINAL_NUDGE)]))
  }

  ghost predicate AllJustified(w: World, job: Job, log: seq<Request>) {
    forall n :: 0 <= n < |log| ==> Justified(w, job, log, n)
  }

  lemma TurnAppends(base: seq<Message>, turn: seq<Message>, response: Response)
    requires IsTurn(turn, response)
    ensures Appends(base + turn, base, response, [])
  {
    hide IsTurn;
    var all := base + turn;
    assert all[|base|..|all|] == turn;
  }

  function CountKind(log: seq<Request>, kind: Kind): nat {
    if log == [] then 0 else CountKind(Front(log), kind) + if Last(log).kind == kind then 1 else 0
  }

  /** The history of every request of a justified log starts with the task's own and goes on
      well paired. */
  lemma {:induction false} EveryRequestIsPaired(w: World, job: Job, log: seq<Request>, n: nat)
    requires AllJustified(w, job, log) && n < |log|
    ensures job.initial <= log[n].messages && Paired(log[n].messages[|job.initial|..])
  {
    hide Paired;
    hide IsTurn;
    var k, base := |job.initial|, Base(job, log, n);
    if n == 0 {
      EmptyIsPaired();
      assert base[k..] == [];
    } else {
      EveryRequestIsPaired(w, job, log, n - 1);
    }
    assert job.initial <= base && Paired(base[k..]);
    assert Justified(w, job, log, n);
    StepIsPaired(w, job, log, n);
  }

  lemma EmptyIsPaired()
    ensures Paired([])
  {
  }

  lemma NudgesArePaired(content: string, nudge: string)
    ensures Paired([User(nudge)]) && Paired([Assistant(content, []), User(nudge)])
  {
    var two := [Assistant(content, []), User(nudge)];
    assert two[1..1] == [] && two[1..] == [User(nudge)] && [User(nudge)][1..] == [];
  }

  lemma StepIsPaired(w: World, job: Job, log: seq<Request>, n: nat)
    requires n < |log| && Justified(w, job, log, n)
    requires job.initial <= Base(job, log, n) && Paired(Base(job, log, n)[|job.initial|..])
    ensures job.initial <= log[n].messages && Paired(log[n].messages[|job.initial|..])
  {
    hide Paired;
    hide Appends;
    var k, base, ms := |job.initial|, Base(job, log, n), log[n].messages;
    var prev := Answer(w, job, n);
    EmptyIsPaired();
    NudgesArePaired("(empty)", EMPTY_NUDGE);
    NudgesArePaired("(empty)", FINAL_NUDGE);
    match log[n].kind
    case EmptyNudge =>
      PairedConcat(base[k..], [Assistant("(empty)", []), User(EMPTY_NUDGE)]);
      assert ms[k..] == base[k..] + [Assistant("(empty)", []), User(EMPTY_NUDGE)];
    case Boost =>
    case Round =>
      AppendsIsPaired(ms, base, prev, [], k);
    case FinalNudge =>
      if ms == base + [User(FINAL_NUDGE)] {
        PairedConcat(base[k..], [User(FINAL_NUDGE)]);
        assert ms[k..] == base[k..] + [User(FINAL_NUDGE)];
      } else {
        AppendsIsPaired(ms, base, prev, [User(FINAL_NUDGE)], k);
      }
  }

  lemma AppendsIsPaired(messages: seq<Message>, base: seq<Message>, response: Response, tail: seq<Message>, k: nat)
    requires Appends(messages, base, response, tail)
    requires k <= |base| && Paired(base[k..]) && Paired(tail)
    ensures base <= messages && Paired(messages[k..])
  {
    hide Paired;
    hide IsTurn;
    var turn := messages[|base|..|messages| - |tail|];
    TurnIsPaired(turn, response);
    PairedConcat(base[k..], turn);
    PairedConcat(base[k..] + turn, tail);
    ThreeParts(messages, |base|, |messages| - |tail|, k);
    assert messages[k..] == base[k..] + turn + tail;
  }

  lemma ThreeParts(messages: seq<Message>, a: nat, b: nat, k: nat)
    requires k <= a <= b <= |messages|
    ensures messages[k..] == messages[..a][k..] + messages[a..b] + messages[b..]
  {
  }

  /** A history that was paired to begin with is paired in every request. */
  lemma PairedHistoryStaysPaired(w: World, job: Job, log: seq<Request>, n: nat)
    requires AllJustified(w, job, log) && n < |log| && Paired(job.initial)
    ensures Paired(log[n].messages)
  {
    hide Paired;
    hide AllJustified;
    EveryRequestIsPaired(w, job, log, n);
    PairedConcat(job.initial, log[n].messages[|job.initial|..]);
    assert log[n].messages == job.initial + log[n].messages[|job.initial|..];
  }

  lemma {:induction false} KindsAddUp(log: seq<Request>)
    ensures |log| ==
            CountKind(log, EmptyNudge) + CountKind(log, Boost) + CountKind(log, Round) + CountKind(log, FinalNudge)
  {
    if log != [] {
      KindsAddUp(Front(log));
    }
  }

  // ---------------------------------------------------------------------------------------
  // Failures and invocations
  // ---------------------------------------------------------------------------------------

  datatype Signature = Signature(tool: string, detail: string)

  /** A counted failure, and how many requests had been sent when it happened. */
  datatype Failure = Failure(signature: Signature, at: nat)

  /** How often a signature had failed when request `n` was sent. */
  function Fails(failed: seq<Failure>, n: nat, s: Signature): nat {
    if failed == [] then 0
    else Fails(Front(failed), n, s) + if Last(failed).signature == s && Last(failed).at <= n then 1 else 0
  }

  function Tally(failures: map<Signature, nat>, s: Signature): nat {
    if s in failures then failures[s] else 0
  }

  /** The running counts agree with the failures so far. */
  ghost predicate Tallied(failures: map<Signature, nat>, failed: seq<Failure>, now: nat) {
    (forall s :: Tally(failures, s) == Fails(failed, now, s)) &&
    forall k :: 0 <= k < |failed| ==> failed[k].at <= now
  }

  ghost predicate Quiet(failures: map<Signature, nat>) {
    forall s :: Tally(failures, s) < ABORT_THRESHOLD
  }

  /** Whenever a request other than the final nudge was sent, no signature had failed five times. */
  ghost predicate BreakerHeld(log: seq<Request>, failed: seq<Failure>) {
    forall n, s :: 0 <= n < |log| && log[n].kind != FinalNudge ==> Fails(failed, n, s) < ABORT_THRESHOLD
  }

  lemma {:induction false} FailsLater(failed: seq<Failure>, n: nat, m: nat, s: Signature)
    requires n <= m && forall k :: 0 <= k < |failed| ==> failed[k].at <= n
    ensures Fails(failed, m, s) == Fails(failed, n, s)
  {
    if failed != [] {
      FailsLater(Front(failed), n, m, s);
    }
  }

  /** `at` is the number of requests sent before; `eval` the question put to the gate. */
  datatype Invocation = Own(call: Call, eval: nat, at: nat) | ByChild(call: Call)

  function ChildParse(w: World, arguments: string): Parsed {
    if arguments == "" then Object else w.parse(arguments)
  }

  /** The loop itself invokes only declared tools, with a JSON object, allowed by the gate if
      there is one, and only calls of a response that stayed in the history; a delegated child
      invokes only declared tools. */
  ghost predicate Legitimate(w: World, job: Job, log: seq<Request>, inv: Invocation) {
    match inv
    case Own(call, eval, at) =>
      call.name in job.declared && w.parse(call.arguments) == Object &&
      (job.hasGate ==> w.verdict(eval, call) == Allowed) &&
      at <= |log| && call in Answer(w, job, at).calls &&
      (at < |log| ==> log[at].kind == Round || log[at].kind == FinalNudge)
    case ByChild(call) =>
      call.name in job.declared && ChildParse(w, call.arguments) != NotJson
  }

  ghost predicate AllLegitimate(w: World, job: Job, log: seq<Request>, invoked: seq<Invocation>) {
    forall k :: 0 <= k < |invoked| ==> Legitimate(w, job, log, invoked[k])
  }

  /** Nothing was invoked yet for the response in hand. */
  ghost predicate Settled(log: seq<Request>, invoked: seq<Invocation>) {
    forall k :: 0 <= k < |invoked| && invoked[k].Own? ==> invoked[k].at < |log|
  }

  /** What was added was invoked by delegated children. */
  ghost predicate OnlyByChild(before: seq<Invocation>, after: seq<Invocation>) {
    forall i :: |before| <= i < |after| ==> after[i].ByChild?
  }

  ghost predicate AllPaired(histories: seq<seq<Message>>) {
    forall k :: 0 <= k < |histories| ==> Paired(histories[k])
  }

  /** The arguments a delegation goes ahead with. */
  predicate Accepts(job: Job, asked: Delegation) {
    asked.Given? && !IsBlank(asked.objective) && |Strip(asked.objective)| <= 8192 && job.depth < MAX_DELEGATION_DEPTH
  }

  /** A child's call is run: there is a tool service, the tool is one of the child's, and the
      arguments are JSON. */
  predicate ChildRuns(w: World, job: Job, allowed: seq<string>, call: Call) {
    job.hasTools && call.name in allowed && ChildParse(w, call.arguments) != NotJson
  }

  /** The invocations of a child's reply: one for each call that is run, in order. */
  function ChildCalls(w: World, job: Job, allowed: seq<string>, calls: seq<Call>): (run: seq<Invocation>)
    ensures forall i :: 0 <= i < |run| ==> run[i].ByChild?
  {
    if calls == [] then []
    else
      ChildCalls(w, job, allowed, Front(calls)) +
      if ChildRuns(w, job, allowed, Last(calls)) then [ByChild(Last(calls))] else []
  }

  /** What a child reads of its call, when so many invocations were made before: the start of what the
      tool gave, or why it gave nothing. */
  ghost predicate ChildReads(w: World, job: Job, allowed: seq<string>, call: Call, ran: nat, answer: Message) {
    answer.Tool? && answer.callId == call.id &&
    if !job.hasTools || call.name !in allowed then answer.content == CHILD_UNAVAILABLE
    else if ChildParse(w, call.arguments) == NotJson then answer.content == CHILD_TOOL_ERROR
    else
      match w.tool(ran)
      case Done(text) => answer.content == text[..Min(2000, |text|)]
      case Failed(text, _) => answer.content == text[..Min(2000, |text|)]
      case _ => answer.content == CHILD_TOOL_ERROR
  }

  /** The turn of a child's reply: its calls, and what the child reads of each. */
  ghost predicate ChildTurnOf(w: World, job: Job, allowed: seq<string>, reply: Response, ran: nat, turn: seq<Message>) {
    |turn| == 1 + |reply.calls| && turn[0] == Assistant(reply.content, reply.calls) &&
    forall k :: 0 <= k < |reply.calls| ==>
      ChildReads(w, job, allowed, reply.calls[k], ran + |ChildCalls(w, job, allowed, reply.calls[..k])|, turn[1 + k])
  }

  lemma ChildTurnIsTurn(w: World, job: Job, allowed: seq<string>, reply: Response, ran: nat, turn: seq<Message>)
    requires ChildTurnOf(w, job, allowed, reply, ran, turn)
    ensures IsTurn(turn, reply)
  {
    hide ChildCalls;
    hide ChildParse;
    var results := turn[1..];
    forall k | 0 <= k < |reply.calls|
      ensures results[k].Tool? && results[k].callId == reply.calls[k].id
    {
      assert results[k] == turn[1 + k];
      assert ChildReads(w, job, allowed, reply.calls[k], ran + |ChildCalls(w, job, allowed, reply.calls[..k])|,
                        turn[1 + k]);
    }
  }

  /** The turn with the answers to the first k calls. */
  ghost predicate ReadFirst(w: World, job: Job, allowed: seq<string>, reply: Response, ran: nat, turn: seq<Message>,
                            k: nat) {
    k <= |reply.calls| && |turn| == 1 + k && turn[0] == Assistant(reply.content, reply.calls) &&
    forall i :: 0 <= i < k ==>
      ChildReads(w, job, allowed, reply.calls[i], ran + |ChildCalls(w, job, allowed, reply.calls[..i])|, turn[1 + i])
  }

  lemma ReadOneMore(w: World, job: Job, allowed: seq<string>, reply: Response, ran: nat, turn: seq<Message>, k: nat,
                    answer: Message)
    requires ReadFirst(w, job, allowed, reply, ran, turn, k) && k < |reply.calls|
    requires ChildReads(w, job, allowed, reply.calls[k], ran + |ChildCalls(w, job, allowed, reply.calls[..k])|, answer)
    ensures ReadFirst(w, job, allowed, reply, ran, turn + [answer], k + 1)
  {
    hide ChildReads;
    hide ChildCalls;
    var more := turn + [answer];
    forall i | 0 <= i < k + 1
      ensures ChildReads(w, job, allowed, reply.calls[i], ran + |ChildCalls(w, job, allowed, reply.calls[..i])|,
                         more[1 + i])
    {
      if i < k {
        assert more[1 + i] == turn[1 + i];
      }
    }
  }

  lemma NothingRead(w: World, job: Job, allowed: seq<string>, reply: Response, ran: nat)
    ensures ReadFirst(w, job, allowed, reply, ran, [Assistant(reply.content, reply.calls)], 0)
  {
  }

  lemma ReadAll(w: World, job: Job, allowed: seq<string>, reply: Response, ran: nat, turn: seq<Message>)
    requires ReadFirst(w, job, allowed, reply, ran, turn, |reply.calls|)
    ensures ChildTurnOf(w, job, allowed, reply, ran, turn)
  {
    hide ChildReads;
    hide ChildCalls;
  }

  lemma ChildCallsSnoc(w: World, job: Job, allowed: seq<string>, calls: seq<Call>, k: nat)
    requires k < |calls|
    ensures ChildCalls(w, job, allowed, calls[..k + 1]) ==
            ChildCalls(w, job, allowed, calls[..k]) +
            if ChildRuns(w, job, allowed, calls[k]) then [ByChild(calls[k])] else []
  {
    hide ChildRuns;
    assert Front(calls[..k + 1]) == calls[..k];
  }

  lemma NoCallsNoRuns(w: World, job: Job, allowed: seq<string>)
    ensures ChildCalls(w, job, allowed, []) == []
  {
  }

  function RepliedCalls(w: World, n: nat): seq<Call> {
    if w.childReply(n).Some? then w.childReply(n).value.calls else []
  }

  /** The invocations of the replies to child requests first to last - 1. */
  function ChildInvocations(w: World, job: Job, allowed: seq<string>, first: nat, last: nat): (run: seq<Invocation>)
    ensures forall i :: 0 <= i < |run| ==> run[i].ByChild?
    decreases last
  {
    if last <= first then []
    else ChildInvocations(w, job, allowed, first, last - 1) + ChildCalls(w, job, allowed, RepliedCalls(w, last - 1))
  }

  ghost predicate ChildAnswered(w: World, childLog: seq<seq<Message>>) {
    childLog != [] && w.childReply(|childLog| - 1).Some? && w.childReply(|childLog| - 1).value.calls != []
  }

  /** From request `first` on, each child request is the one before plus the whole turn of its
      reply; `ran` invocations were made before. */
  ghost predicate ChildChained(w: World, job: Job, allowed: seq<string>, childLog: seq<seq<Message>>, first: nat,
                               ran: nat) {
    forall n :: first <= n < |childLog| - 1 ==>
      ChildChainedAt(w, job, allowed, childLog, n, ran + |ChildInvocations(w, job, allowed, first, n)|)
  }

  ghost predicate ChildChainedAt(w: World, job: Job, allowed: seq<string>, childLog: seq<seq<Message>>, n: nat,
                                 ran: nat)
    requires n + 1 < |childLog|
  {
    w.childReply(n).Some? && w.childReply(n).value.calls != [] && childLog[n] <= childLog[n + 1] &&
    ChildTurnOf(w, job, allowed, w.childReply(n).value, ran, childLog[n + 1][|childLog[n]|..])
  }

  /** How a child ends: its provider raises, it answers without calls, or it has used up its
      four requests. */
  ghost predicate ChildEnded(w: World, childLog: seq<seq<Message>>, first: nat, text: string, raised: bool)
    requires childLog != []
  {
    var reply := w.childReply(|childLog| - 1);
    (raised <==> reply.None?) &&
    (reply.Some? && reply.value.calls == [] ==> text == Take(reply.value.content, 4000)) &&
    (reply.Some? && reply.value.calls != [] ==> |childLog| == first + 4 && text == CHILD_EXHAUSTED)
  }

  lemma SplitAt(before: seq<Invocation>, after: seq<Invocation>)
    requires before <= after
    ensures after[|before|..|after|] == after[|before|..]
  {
  }

  lemma AfterAll(before: seq<Invocation>, more: seq<Invocation>)
    ensures (before + more)[|before|..] == more
  {
  }

  lemma InvocationsSnoc(w: World, job: Job, allowed: seq<string>, first: nat, last: nat)
    requires first <= last
    ensures ChildInvocations(w, job, allowed, first, last + 1) ==
            ChildInvocations(w, job, allowed, first, last) + ChildCalls(w, job, allowed, RepliedCalls(w, last))
  {
  }

  lemma GoesOnWith(w: World, job: Job, allowed: seq<string>, childLog: seq<seq<Message>>, turn: seq<Message>,
                   first: nat, ran: nat)
    requires ChildAnswered(w, childLog)
    requires ChildTurnOf(w, job, allowed, w.childReply(|childLog| - 1).value,
                         ran + |ChildInvocations(w, job, allowed, first, |childLog| - 1)|, turn)
    ensures ChildGoesOn(w, job, allowed, childLog, Last(childLog) + turn, first, ran)
  {
    hide ChildTurnOf;
    hide ChildInvocations;
    assert (Last(childLog) + turn)[|Last(childLog)|..] == turn;
  }

  lemma ChildStarts(w: World, job: Job, allowed: seq<string>, childLog: seq<seq<Message>>, ran: nat)
    ensures ChildChained(w, job, allowed, childLog, |childLog|, ran)
    ensures ChildInvocations(w, job, allowed, |childLog|, |childLog|) == []
  {
  }

  /** The next history goes on from the last with the turn of its reply. */
  ghost predicate ChildGoesOn(w: World, job: Job, allowed: seq<string>, childLog: seq<seq<Message>>,
                              history: seq<Message>, first: nat, ran: nat) {
    ChildAnswered(w, childLog) && Last(childLog) <= history &&
    ChildTurnOf(w, job, allowed, w.childReply(|childLog| - 1).value,
                ran + |ChildInvocations(w, job, allowed, first, |childLog| - 1)|, history[|Last(childLog)|..])
  }

  lemma ChildChainedSnoc(w: World, job: Job, allowed: seq<string>, childLog: seq<seq<Message>>, history: seq<Message>,
                         first: nat, ran: nat)
    requires first <= |childLog| && ChildChained(w, job, allowed, childLog, first, ran)
    requires |childLog| > first ==> ChildGoesOn(w, job, allowed, childLog, history, first, ran)
    ensures ChildChained(w, job, allowed, childLog + [history], first, ran)
    ensures AllPaired(childLog) && Paired(history) ==> AllPaired(childLog + [history])
  {
    hide ChildTurnOf;
    hide ChildInvocations;
    hide Paired;
    var more := childLog + [history];
    forall n | first <= n < |more| - 1
      ensures ChildChainedAt(w, job, allowed, more, n, ran + |ChildInvocations(w, job, allowed, first, n)|)
    {
      if n < |childLog| - 1 {
        assert ChildChainedAt(w, job, allowed, childLog, n, ran + |ChildInvocations(w, job, allowed, first, n)|);
      }
    }
  }

  function Take(s: string, n: nat): string {
    s[..Min(n, |s|)]
  }

  datatype Outcome =
    | Returned(response: Response)
    | TextProtocol    // handed over, with the history, to the text-protocol loop
    | Unresolved      // the loop's own error: calls left after the final nudge
    | NoToolService
    | LeaseLost
    | Raised          // an exception of the provider, a tool or a delegation
    | BadLimit

  /** What becomes of one call of the loop's own, before anything is invoked. Raises stands for an
      exception of the gate, or of a tool service that is not there. */
  datatype Screening = ToDelegate | Rejected(text: string) | Raises | ToInvoke

  function Screen(w: World, job: Job, call: Call, eval: nat): Screening {
    if call.name == DELEGATE && job.delegates then ToDelegate
    else if w.parse(call.arguments) != Object then Rejected("invalid_tool_arguments")
    else if call.name !in job.declared then Rejected("undeclared_tool")
    else if job.hasGate && w.verdict(eval, call) == Pending then Rejected("approval_pending")
    else if job.hasGate && w.verdict(eval, call) == NotAllowed then Rejected("approval_denied")
    else if job.hasGate && w.verdict(eval, call) == GateFailed then Raises
    else if !job.hasTools then Raises
    else ToInvoke
  }

  /** The call gets as far as a question to the gate. */
  predicate AsksGate(w: World, job: Job, call: Call) {
    job.hasGate && !(call.name == DELEGATE && job.delegates) && w.parse(call.arguments) == Object &&
    call.name in job.declared
  }

  /** The signature a failing outcome is counted under: the tool's name and the start of the
      error. Denials are not counted. */
  function SignatureOf(call: Call, outcome: ToolOutcome): Option<Signature> {
    match outcome
    case Refused(detail) => Some(Signature(call.name, Take(detail, 120)))
    case Failed(text, error) => Some(Signature(call.name, Take(if error != "" then error else text, 120)))
    case _ => None
  }

  function CountUp(failures: map<Signature, nat>, s: Option<Signature>): map<Signature, nat> {
    if s.None? then failures else failures[s.value := Tally(failures, s.value) + 1]
  }

  lemma QuietAfter(failures: map<Signature, nat>, s: Option<Signature>)
    ensures var after := CountUp(failures, s);
            !Quiet(after) <==> !Quiet(failures) || (s.Some? && Tally(after, s.value) >= ABORT_THRESHOLD)
  {
    var after := CountUp(failures, s);
    assert forall other :: s != Some(other) ==> Tally(after, other) == Tally(failures, other);
    if other :| Tally(failures, other) >= ABORT_THRESHOLD {
      assert Tally(after, other) >= ABORT_THRESHOLD;
    }
  }

  /** The tool message; the third failure of a kind carries a warning. */
  function ToolText(outcome: ToolOutcome, count: nat): string {
    match outcome
    case Done(text) => text
    case Failed(text, _) => if count == WARN_THRESHOLD then text + WARNING else text
    case Denied => "tool_denied"
    case Refused(_) => "tool_execution_failed"
    case Crashed => ""
  }

  /** The counted failures: those of the loop's own invocations, read off what the tools answered. */
  function FailuresOf(w: World, invoked: seq<Invocation>): seq<Failure> {
    if invoked == [] then []
    else
      FailuresOf(w, Front(invoked)) +
      match Last(invoked)
      case ByChild(_) => []
      case Own(call, _, at) =>
        var s := SignatureOf(call, w.tool(|invoked| - 1));
        if s.Some? then [Failure(s.value, at)] else []
  }

  lemma {:induction false} ChildrenDoNotFail(w: World, before: seq<Invocation>, after: seq<Invocation>)
    requires before <= after && forall i :: |before| <= i < |after| ==> after[i].ByChild?
    ensures FailuresOf(w, after) == FailuresOf(w, before)
  {
    if |after| == |before| {
      assert after == before;
    } else {
      ChildrenDoNotFail(w, before, Front(after));
    }
  }

  lemma FailuresSnoc(w: World, invoked: seq<Invocation>, call: Call, eval: nat, at: nat)
    ensures var s := SignatureOf(call, w.tool(|invoked|));
            FailuresOf(w, invoked + [Own(call, eval, at)]) ==
            FailuresOf(w, invoked) + if s.Some? then [Failure(s.value, at)] else []
  {
    hide SignatureOf;
    assert Front(invoked + [Own(call, eval, at)]) == invoked;
  }

  /** Counting a failure keeps the counts in step with the failures. */
  lemma CountedIsTallied(failures: map<Signature, nat>, failed: seq<Failure>, log: seq<Request>, s: Option<Signature>)
    requires Tallied(failures, failed, |log|) && BreakerHeld(log, failed)
    ensures var more := failed + if s.Some? then [Failure(s.value, |log|)] else [];
            Tallied(CountUp(failures, s), more, |log|) && BreakerHeld(log, more)
  {
    if s.None? {
      assert failed + [] == failed;
    } else {
      var f := Failure(s.value, |log|);
      assert Front(failed + [f]) == failed;
    }
  }

  lemma TallyIsFails(failures: map<Signature, nat>, failed: seq<Failure>, now: nat)
    requires Tallied(failures, failed, now)
    ensures forall s :: Tally(failures, s) == Fails(failed, now, s)
  {
  }

  // ---------------------------------------------------------------------------------------
  // How the calls are dealt with
  // ---------------------------------------------------------------------------------------

  /** How many questions were put to the gate, invocations made and child requests sent. */
  datatype Mark = Mark(asked: nat, ran: nat, sent: nat)

  /** A call dealt with, after so many requests, between two marks, and the text of its answer. */
  datatype Handled = Handled(call: Call, at: nat, before: Mark, after: Mark, text: string)

  function LastMark(handled: seq<Handled>): Mark {
    if handled == [] then Mark(0, 0, 0) else Last(handled).after
  }

  /** A delegated call that came back: refused without a request, or a child's whole conversation
      of at most four requests, the invocations it made, and its answer. */
  ghost predicate Delegated(w: World, job: Job, arguments: string, invoked: seq<Invocation>,
                            childLog: seq<seq<Message>>, was: Mark, now: Mark, text: string) {
    var asked := w.delegation(arguments);
    was.sent <= now.sent <= |childLog| && was.ran <= now.ran <= |invoked| &&
    if !Accepts(job, asked) then now.sent == was.sent && now.ran == was.ran && text == DELEGATION_ERROR
    else
      asked.tools.Some? && was.sent < now.sent <= was.sent + MAX_CHILD_ROUNDS &&
      childLog[was.sent] == [User(Strip(asked.objective))] &&
      var allowed := ChildTools(job.declared, asked.tools.value);
      ChildChained(w, job, allowed, childLog[..now.sent], was.sent, was.ran) &&
      ChildEnded(w, childLog[..now.sent], was.sent, text, false) &&
      invoked[was.ran..now.ran] == ChildInvocations(w, job, allowed, was.sent, now.sent)
  }

  /** The call was delegated; or rejected with its reason, without being run; or invoked, once and
      as that question of the gate allowed, and answered with what its tool gave. The next
      question, invocation and child request are new ones. */
  ghost predicate DealtWith(w: World, job: Job, invoked: seq<Invocation>, childLog: seq<seq<Message>>, h: Handled) {
    var was, now := h.before, h.after;
    was.ran <= now.ran <= |invoked| && was.sent <= now.sent <= |childLog| &&
    now.asked == was.asked + (if AsksGate(w, job, h.call) then 1 else 0) &&
    match Screen(w, job, h.call, was.asked)
    case ToDelegate => Delegated(w, job, h.call.arguments, invoked, childLog, was, now, h.text)
    case Rejected(why) => h.text == why && now.ran == was.ran && now.sent == was.sent
    case Raises => false
    case ToInvoke =>
      now.ran == was.ran + 1 && now.sent == was.sent && invoked[was.ran] == Own(h.call, was.asked, h.at) &&
      !w.tool(was.ran).Crashed? &&
      h.text == AnswerOf(w, h.call, h.at, invoked[..now.ran])
  }

  /** The answer to the last of the invocations, given how often its failure was counted by then. */
  function AnswerOf(w: World, call: Call, at: nat, invoked: seq<Invocation>): string
    requires invoked != []
  {
    var outcome := w.tool(|invoked| - 1);
    var s := SignatureOf(call, outcome);
    ToolText(outcome, if s.Some? then Fails(FailuresOf(w, invoked), at, s.value) else 0)
  }

  /** Every call was dealt with, in order, and each one starts where the one before ended. */
  ghost predicate AllDealtWith(w: World, job: Job, invoked: seq<Invocation>, childLog: seq<seq<Message>>,
                               handled: seq<Handled>) {
    (forall k :: 0 <= k < |handled| ==> DealtWith(w, job, invoked, childLog, handled[k])) &&
    (forall k :: 0 <= k < |handled| ==> handled[k].before == LastMark(handled[..k])) &&
    (forall j, k :: 0 <= j < k < |handled| ==> handled[j].at <= handled[k].at)
  }

  /** A delegation that raised: its `tools` cannot be sliced, or the child's provider raised. */
  ghost predicate DelegationRaised(w: World, job: Job, arguments: string, invoked: seq<Invocation>,
                                   childLog: seq<seq<Message>>, was: Mark) {
    var asked := w.delegation(arguments);
    Accepts(job, asked) && was.sent <= |childLog| && was.ran <= |invoked| &&
    if asked.tools.None? then |childLog| == was.sent && |invoked| == was.ran
    else
      was.sent < |childLog| <= was.sent + MAX_CHILD_ROUNDS && childLog[was.sent] == [User(Strip(asked.objective))] &&
      var allowed := ChildTools(job.declared, asked.tools.value);
      ChildChained(w, job, allowed, childLog, was.sent, was.ran) && w.childReply(|childLog| - 1).None? &&
      invoked[was.ran..] == ChildInvocations(w, job, allowed, was.sent, |childLog|)
  }

  /** The call raised: its delegation did, the gate did, there is no tool service, or its tool
      crashed. Such a call is not dealt with. */
  ghost predicate Broke(w: World, job: Job, invoked: seq<Invocation>, childLog: seq<seq<Message>>, call: Call, at: nat,
                        was: Mark, now: Mark) {
    was.ran <= now.ran == |invoked| && was.sent <= now.sent == |childLog| &&
    now.asked == was.asked + (if AsksGate(w, job, call) then 1 else 0) &&
    match Screen(w, job, call, was.asked)
    case ToDelegate => DelegationRaised(w, job, call.arguments, invoked, childLog, was)
    case Rejected(_) => false
    case Raises => now.ran == was.ran && now.sent == was.sent
    case ToInvoke =>
      now.ran == was.ran + 1 && now.sent == was.sent && invoked[was.ran] == Own(call, was.asked, at) &&
      w.tool(was.ran).Crashed?
  }

  /** The calls of the response in hand were dealt with up to one that raised. */
  ghost predicate BatchBroke(w: World, job: Job, log: seq<Request>, invoked: seq<Invocation>,
                             childLog: seq<seq<Message>>, handled: seq<Handled>, now: Mark) {
    var calls, hs := Answer(w, job, |log|).calls, HandledFor(handled, |log|);
    |hs| < |calls| && CallsOf(hs) == calls[..|hs|] &&
    Broke(w, job, invoked, childLog, calls[|hs|], |log|, LastMark(handled), now)
  }

  /** The calls dealt with between request n - 1 and request n. */
  function HandledFor(handled: seq<Handled>, n: nat): seq<Handled> {
    if handled == [] then []
    else HandledFor(Front(handled), n) + if Last(handled).at == n then [Last(handled)] else []
  }

  function CallsOf(hs: seq<Handled>): (calls: seq<Call>)
    ensures |calls| == |hs| && forall k :: 0 <= k < |hs| ==> calls[k] == hs[k].call
  {
    seq(|hs|, k requires 0 <= k < |hs| => hs[k].call)
  }

  function AnswersOf(hs: seq<Handled>): (answers: seq<Message>)
    ensures |answers| == |hs| && forall k :: 0 <= k < |hs| ==> answers[k] == Tool(hs[k].text, hs[k].call.id)
  {
    seq(|hs|, k requires 0 <= k < |hs| => Tool(hs[k].text, hs[k].call.id))
  }

  /** A response's turn with the answers its calls were given. */
  function TurnOf(response: Response, hs: seq<Handled>): seq<Message> {
    [Assistant(response.content, response.calls)] + AnswersOf(hs)
  }

  /** What request n adds is the turn of the response before it, with exactly its calls dealt with
      in their order; a response that a nudge or a boost drops has no call dealt with. */
  ghost predicate TurnDone(w: World, job: Job, log: seq<Request>, handled: seq<Handled>, n: nat)
    requires n < |log|
  {
    var base, prev, hs, messages := Base(job, log, n), Answer(w, job, n), HandledFor(handled, n), log[n].messages;
    match log[n].kind
    case EmptyNudge => hs == []
    case Boost => hs == []
    case Round => CallsOf(hs) == prev.calls && messages == base + TurnOf(prev, hs)
    case FinalNudge =>
      (hs == [] && messages == base + [User(FINAL_NUDGE)]) ||
      (CallsOf(hs) == prev.calls && messages == base + TurnOf(prev, hs) + [User(FINAL_NUDGE)])
  }

  ghost predicate AllTurnsDone(w: World, job: Job, log: seq<Request>, handled: seq<Handled>) {
    forall n :: 0 <= n < |log| ==> TurnDone(w, job, log, handled, n)
  }

  lemma TurnOpens(base: seq<Message>, response: Response)
    ensures base + [Assistant(response.content, response.calls)] == base + TurnOf(response, [])
    ensures CallsOf([]) == []
  {
  }

  lemma TurnGoesOn(base: seq<Message>, response: Response, hs: seq<Handled>, h: Handled)
    ensures base + TurnOf(response, hs) + [Tool(h.text, h.call.id)] == base + TurnOf(response, hs + [h])
    ensures CallsOf(hs + [h]) == CallsOf(hs) + [h.call]
  {
    assert AnswersOf(hs + [h]) == AnswersOf(hs) + [Tool(h.text, h.call.id)];
  }

  lemma TurnOfIsTurn(response: Response, hs: seq<Handled>)
    requires CallsOf(hs) == response.calls
    ensures IsTurn(TurnOf(response, hs), response)
  {
    assert TurnOf(response, hs)[1..] == AnswersOf(hs);
    assert forall k :: 0 <= k < |hs| ==> response.calls[k] == CallsOf(hs)[k];
  }

  lemma FinalAppends(base: seq<Message>, response: Response, hs: seq<Handled>)
    requires CallsOf(hs) == response.calls
    ensures Appends(base + TurnOf(response, hs) + [User(FINAL_NUDGE)], base, response, [User(FINAL_NUDGE)])
  {
    hide TurnOf;
    hide IsTurn;
    TurnOfIsTurn(response, hs);
    var turn := TurnOf(response, hs);
    var all := base + turn + [User(FINAL_NUDGE)];
    assert all[|base|..|all| - 1] == turn && all[..|base|] == base && all[|all| - 1..] == [User(FINAL_NUDGE)];
  }

  ghost predicate NoneLater(handled: seq<Handled>, n: nat) {
    forall k :: 0 <= k < |handled| ==> handled[k].at <= n
  }

  lemma {:induction false} NoneYet(handled: seq<Handled>, n: nat)
    requires NoneLater(handled, n)
    ensures HandledFor(handled, n + 1) == []
  {
    if handled != [] {
      NoneYet(Front(handled), n);
    }
  }

  ghost predicate AtOnly(handled: seq<Handled>, first: nat, n: nat) {
    forall k :: first <= k < |handled| ==> handled[k].at == n
  }

  lemma HandledSnoc(handled: seq<Handled>, h: Handled, n: nat)
    ensures HandledFor(handled + [h], n) == HandledFor(handled, n) + if h.at == n then [h] else []
  {
    assert Front(handled + [h]) == handled;
  }

  lemma {:induction false} HandledBefore(handled: seq<Handled>, more: seq<Handled>, n: nat)
    requires handled <= more && forall k :: |handled| <= k < |more| ==> more[k].at != n
    ensures HandledFor(more, n) == HandledFor(handled, n)
  {
    if |more| == |handled| {
      assert more == handled;
    } else {
      HandledBefore(handled, Front(more), n);
      assert HandledFor(Front(more), n) + [] == HandledFor(Front(more), n);
    }
  }

  lemma TurnsStayDone(w: World, job: Job, log: seq<Request>, before: seq<Handled>, after: seq<Handled>)
    requires AllTurnsDone(w, job, log, before) && before <= after
    requires AtOnly(after, |before|, |log|)
    ensures AllTurnsDone(w, job, log, after)
  {
    hide TurnOf;
    hide Answer;
    forall n | 0 <= n < |log|
      ensures TurnDone(w, job, log, after, n)
    {
      assert TurnDone(w, job, log, before, n);
      HandledBefore(before, after, n);
    }
  }

  lemma TurnsDoneSnoc(w: World, job: Job, log: seq<Request>, handled: seq<Handled>, request: Request)
    requires AllTurnsDone(w, job, log, handled) && TurnDone(w, job, log + [request], handled, |log|)
    ensures AllTurnsDone(w, job, log + [request], handled)
  {
    hide TurnOf;
    hide Answer;
    hide HandledFor;
    var more := log + [request];
    forall n | 0 <= n < |more|
      ensures TurnDone(w, job, more, handled, n)
    {
      if n < |log| {
        assert TurnDone(w, job, log, handled, n);
        assert Base(job, more, n) == Base(job, log, n);
      }
    }
  }

  lemma DelegatedStays(w: World, job: Job, arguments: string, invoked: seq<Invocation>, childLog: seq<seq<Message>>,
                       invoked': seq<Invocation>, childLog': seq<seq<Message>>, was: Mark, now: Mark, text: string)
    requires Delegated(w, job, arguments, invoked, childLog, was, now, text)
    requires invoked <= invoked' && childLog <= childLog'
    ensures Delegated(w, job, arguments, invoked', childLog', was, now, text)
  {
    hide ChildChained;
    hide ChildEnded;
    hide ChildInvocations;
    hide ChildTools;
    hide Accepts;
    hide Strip;
    assert childLog'[..now.sent] == childLog[..now.sent];
    assert invoked'[was.ran..now.ran] == invoked[was.ran..now.ran];
  }

  lemma DealtWithStays(w: World, job: Job, invoked: seq<Invocation>, childLog: seq<seq<Message>>,
                       invoked': seq<Invocation>, childLog': seq<seq<Message>>, h: Handled)
    requires DealtWith(w, job, invoked, childLog, h) && invoked <= invoked' && childLog <= childLog'
    ensures DealtWith(w, job, invoked', childLog', h)
  {
    hide Screen;
    hide Delegated;
    hide AnswerOf;
    assert invoked'[..h.after.ran] == invoked[..h.after.ran];
    if Screen(w, job, h.call, h.before.asked) == ToDelegate {
      DelegatedStays(w, job, h.call.arguments, invoked, childLog, invoked', childLog', h.before, h.after, h.text);
    }
  }

  lemma AllDealtWithGrows(w: World, job: Job, invoked: seq<Invocation>, childLog: seq<seq<Message>>,
                          invoked': seq<Invocation>, childLog': seq<seq<Message>>, handled: seq<Handled>)
    requires AllDealtWith(w, job, invoked, childLog, handled) && invoked <= invoked' && childLog <= childLog'
    ensures AllDealtWith(w, job, invoked', childLog', handled)
  {
    hide DealtWith;
    forall k | 0 <= k < |handled|
      ensures DealtWith(w, job, invoked', childLog', handled[k])
    {
      DealtWithStays(w, job, invoked, childLog, invoked', childLog', handled[k]);
    }
  }

  lemma AllDealtWithSnoc(w: World, job: Job, invoked: seq<Invocation>, childLog: seq<seq<Message>>,
                         handled: seq<Handled>, h: Handled)
    requires AllDealtWith(w, job, invoked, childLog, handled)
    requires DealtWith(w, job, invoked, childLog, h) && h.before == LastMark(handled) && NoneLater(handled, h.at)
    ensures AllDealtWith(w, job, invoked, childLog, handled + [h]) && LastMark(handled + [h]) == h.after
  {
    hide DealtWith;
    var more := handled + [h];
    forall k | 0 <= k < |more|
      ensures more[k].before == LastMark(more[..k])
    {
      assert k < |handled| ==> more[..k] == handled[..k];
      assert k == |handled| ==> more[..k] == handled;
    }
  }

  function DelegatedCalls(job: Job, handled: seq<Handled>): nat {
    if handled == [] then 0
    else
      DelegatedCalls(job, Front(handled)) +
      if Last(handled).call.name == DELEGATE && job.delegates then 1 else 0
  }

  lemma FourAtMost(w: World, job: Job, invoked: seq<Invocation>, childLog: seq<seq<Message>>, h: Handled)
    requires DealtWith(w, job, invoked, childLog, h)
    ensures h.after.sent <= h.before.sent + if h.call.name == DELEGATE && job.delegates then MAX_CHILD_ROUNDS else 0
  {
    hide AnswerOf;
    hide ChildChained;
    hide ChildEnded;
  }

  /** Delegated children send at most four requests per delegated call. */
  lemma {:induction false} FourPerDelegation(w: World, job: Job, invoked: seq<Invocation>, childLog: seq<seq<Message>>,
                                             handled: seq<Handled>)
    requires AllDealtWith(w, job, invoked, childLog, handled)
    ensures LastMark(handled).sent <= MAX_CHILD_ROUNDS * DelegatedCalls(job, handled)
  {
    hide DealtWith;
    if handled != [] {
      var pre := Front(handled);
      assert forall k :: 0 <= k < |pre| ==> pre[k] == handled[k] && pre[..k] == handled[..k];
      FourPerDelegation(w, job, invoked, childLog, pre);
      FourAtMost(w, job, invoked, childLog, Last(handled));
      assert handled[..|handled| - 1] == pre;
    }
  }

  // ---------------------------------------------------------------------------------------
  // Leases and boosts
  // ---------------------------------------------------------------------------------------

  /** How many requests had been sent when the lease was renewed for request n, or for the calls
      dealt with before it: a boost and what follows it share one renewal. */
  function LeaseTime(log: seq<Request>, n: nat): nat
    requires n <= |log|
  {
    if n > 0 && log[n - 1].kind == Boost then n - 1 else n
  }

  /** After n requests the response in hand calls for a boost: it is truncated with an unusable
      call, it is not itself the answer to a boost, and fewer than two were sent. */
  ghost predicate BoostDue(w: World, job: Job, log: seq<Request>, n: nat)
    requires n <= |log|
  {
    Answer(w, job, n).truncated && HasBadArguments(w, Answer(w, job, n).calls) &&
    CountKind(log[..n], Boost) < MAX_BOOSTS && LeaseTime(log, n) == n
  }

  /** The calls of the response in hand after n requests may be dealt with. */
  ghost predicate Cleared(w: World, job: Job, log: seq<Request>, renewed: seq<nat>, n: nat)
    requires n <= |log|
  {
    LeaseTime(log, n) in renewed && !BoostDue(w, job, log, n)
  }

  /** Every request but the final nudge, and every call dealt with, had its lease renewed; boosts
      were sent when due, and no call of a response that called for one was dealt with. `renewed`
      lists how many requests had been sent at each renewal. */
  ghost predicate Paced(w: World, job: Job, log: seq<Request>, handled: seq<Handled>, renewed: seq<nat>) {
    (forall n :: 0 <= n < |log| && log[n].kind != FinalNudge ==> LeaseTime(log, n) in renewed) &&
    (forall n :: 0 <= n < |log| && log[n].kind == Boost ==> BoostDue(w, job, log, n)) &&
    (forall k :: 0 <= k < |handled| ==> handled[k].at <= |log| && Cleared(w, job, log, renewed, handled[k].at)) &&
    (forall i, j :: 0 <= i < j < |renewed| ==> renewed[i] < renewed[j]) &&
    (forall i :: 0 <= i < |renewed| ==> renewed[i] <= |log|)
  }

  /** Every renewal found the lease held, except the last one if the lease was lost. */
  ghost predicate LeasesHeld(w: World, renewed: seq<nat>, lost: bool) {
    (lost ==> renewed != []) &&
    forall k :: 0 <= k < |renewed| ==> (w.leaseHeld(k) <==> !(lost && k == |renewed| - 1))
  }

  lemma SamePace(w: World, job: Job, log: seq<Request>, renewed: seq<nat>, request: Request, n: nat)
    requires n <= |log|
    ensures var more := log + [request];
            LeaseTime(more, n) == LeaseTime(log, n) && (BoostDue(w, job, more, n) <==> BoostDue(w, job, log, n)) &&
            (Cleared(w, job, more, renewed, n) <==> Cleared(w, job, log, renewed, n))
  {
    hide Answer;
    hide HasBadArguments;
    hide CountKind;
    assert (log + [request])[..n] == log[..n];
  }

  lemma PacedSend(w: World, job: Job, log: seq<Request>, handled: seq<Handled>, renewed: seq<nat>, request: Request)
    requires Paced(w, job, log, handled, renewed)
    requires request.kind != FinalNudge ==> LeaseTime(log, |log|) in renewed
    requires request.kind == Boost ==> BoostDue(w, job, log, |log|)
    ensures Paced(w, job, log + [request], handled, renewed)
  {
    hide LeaseTime;
    hide BoostDue;
    hide Cleared;
    var more := log + [request];
    forall n | 0 <= n < |more|
      ensures more[n].kind != FinalNudge ==> LeaseTime(more, n) in renewed
      ensures more[n].kind == Boost ==> BoostDue(w, job, more, n)
    {
      SamePace(w, job, log, renewed, request, n);
    }
    forall k | 0 <= k < |handled|
      ensures Cleared(w, job, more, renewed, handled[k].at)
    {
      SamePace(w, job, log, renewed, request, handled[k].at);
    }
  }

  /** A request that is no boost needs the lease to be renewed after it. */
  lemma SentSinceRenewal(w: World, job: Job, log: seq<Request>, handled: seq<Handled>, renewed: seq<nat>,
                         request: Request)
    requires Paced(w, job, log, handled, renewed) && request.kind != Boost
    ensures LeaseTime(log + [request], |log| + 1) == |log| + 1 && (renewed != [] ==> Last(renewed) < |log| + 1)
  {
    hide Cleared;
    hide BoostDue;
  }

  lemma PacedHandled(w: World, job: Job, log: seq<Request>, before: seq<Handled>, after: seq<Handled>,
                     renewed: seq<nat>)
    requires Paced(w, job, log, before, renewed) && Cleared(w, job, log, renewed, |log|)
    requires before <= after && AtOnly(after, |before|, |log|)
    ensures Paced(w, job, log, after, renewed)
  {
    hide Cleared;
  }

  lemma PacedRenewal(w: World, job: Job, log: seq<Request>, handled: seq<Handled>, renewed: seq<nat>)
    requires Paced(w, job, log, handled, renewed) && (renewed != [] ==> Last(renewed) < |log|)
    ensures Paced(w, job, log, handled, renewed + [|log|])
  {
    hide BoostDue;
    var more := renewed + [|log|];
    assert forall n :: n in renewed ==> n in more;
    assert forall i, j :: 0 <= i < j < |more| ==> more[i] < more[j];
  }

  /** The tools a delegated child may use. */
  function ChildTools(declared: seq<string>, requested: seq<string>): (tools: seq<string>)
    ensures forall name :: name in tools ==> name in declared
    ensures forall name :: name in tools <==>
              name in declared &&
              if requested == [] then name !in WORKSPACE_TOOLS else name in requested[..Min(32, |requested|)]
  {
    if requested == [] then Filter(declared, name => name !in WORKSPACE_TOOLS)
    else Filter(requested[..Min(32, |requested|)], name => name in declared)
  }

  function Filter(names: seq<string>, keep: string -> bool): (kept: seq<string>)
    ensures forall name :: name in kept <==> name in names && keep(name)
  {
    if names == [] then []
    else Filter(Front(names), keep) + if keep(Last(names)) then [Last(names)] else []
  }

  ghost predicate NoFinal(log: seq<Request>) {
    forall n :: 0 <= n < |log| ==> log[n].kind != FinalNudge
  }

  lemma {:induction false} NoFinalCount(log: seq<Request>)
    requires NoFinal(log)
    ensures CountKind(log, FinalNudge) == 0
  {
    if log != [] {
      NoFinalCount(Front(log));
    }
  }

  lemma FirstAnswer(w: World, job: Job)
    ensures Answer(w, job, 0) == job.first
  {
  }

  lemma JustifiedSnoc(w: World, job: Job, log: seq<Request>, request: Request)
    requires AllJustified(w, job, log) && NoFinal(log) && Justified(w, job, log + [request], |log|)
    ensures AllJustified(w, job, log + [request])
  {
    hide Appends;
    hide Answer;
    hide HasBadArguments;
    var more := log + [request];
    forall n | 0 <= n < |more|
      ensures Justified(w, job, more, n)
    {
      if n < |log| {
        assert Justified(w, job, log, n);
        assert Base(job, more, n) == Base(job, log, n);
      }
    }
  }

  lemma SentIsLegitimate(w: World, job: Job, log: seq<Request>, invoked: seq<Invocation>, request: Request)
    requires AllLegitimate(w, job, log, invoked)
    requires request.kind == EmptyNudge || request.kind == Boost ==> Settled(log, invoked)
    ensures AllLegitimate(w, job, log + [request], invoked) && Settled(log + [request], invoked)
  {
    hide Answer;
    forall k | 0 <= k < |invoked|
      ensures Legitimate(w, job, log + [request], invoked[k])
      ensures invoked[k].Own? ==> invoked[k].at < |log| + 1
    {
      assert Legitimate(w, job, log, invoked[k]);
    }
  }

  lemma SentIsTallied(failures: map<Signature, nat>, failed: seq<Failure>, log: seq<Request>, request: Request)
    requires Tallied(failures, failed, |log|) && BreakerHeld(log, failed)
    requires request.kind != FinalNudge ==> Quiet(failures)
    ensures Tallied(failures, failed, |log| + 1) && BreakerHeld(log + [request], failed)
  {
    forall s
      ensures Fails(failed, |log| + 1, s) == Fails(failed, |log|, s) == Tally(failures, s)
    {
      FailsLater(failed, |log|, |log| + 1, s);
    }
  }

  // ---------------------------------------------------------------------------------------
  // The loop
  // ---------------------------------------------------------------------------------------

  class ToolRounds {
    const w: World
    const job: Job
    var messages: seq<Message>
    var log: seq<Request>
    var childLog: seq<seq<Message>>
    var invoked: seq<Invocation>
    var failures: map<Signature, nat>
    var boostBudget: nat
    var renewed: seq<nat>
    var evaluations: nat
    ghost var handled: seq<Handled>

    constructor (w: World, job: Job)
      ensures this.w == w && this.job == job
      ensures messages == job.initial && log == [] && childLog == [] && invoked == [] && failures == map[]
      ensures boostBudget == MAX_BOOSTS && evaluations == 0 && renewed == [] && handled == []
    {
      this.w, this.job := w, job;
      messages, log, childLog, invoked, failures := job.initial, [], [], [], map[];
      boostBudget, renewed, evaluations, handled := MAX_BOOSTS, [], 0, [];
    }

    /** One call of a child, and what the child is told. */
    method InvokeAsChild(call: Call, allowed: seq<string>) returns (text: string)
      requires AllLegitimate(w, job, log, invoked) && forall name :: name in allowed ==> name in job.declared
      modifies this`invoked
      ensures AllLegitimate(w, job, log, invoked) && (Settled(log, old(invoked)) ==> Settled(log, invoked))
      ensures invoked == old(invoked) + if ChildRuns(w, job, allowed, call) then [ByChild(call)] else []
      ensures ChildReads(w, job, allowed, call, |old(invoked)|, Tool(Take(text, 2000), call.id))
    {
      text := CHILD_UNAVAILABLE;
      if job.hasTools && call.name in allowed {
        if ChildParse(w, call.arguments) == NotJson {
          text := CHILD_TOOL_ERROR;
        } else {
          var outcome := w.tool(|invoked|);
          invoked := invoked + [ByChild(call)];
          match outcome
          case Done(result) => text := result;
          case Failed(result, _) => text := result;
          case Denied => text := CHILD_TOOL_ERROR;
          case Refused(_) => text := CHILD_TOOL_ERROR;
          case Crashed => text := CHILD_TOOL_ERROR;
        }
      }
    }

    method ChildTurn(response: Response, allowed: seq<string>) returns (turn: seq<Message>)
      requires AllLegitimate(w, job, log, invoked) && forall name :: name in allowed ==> name in job.declared
      modifies this`invoked
      ensures ChildTurnOf(w, job, allowed, response, |old(invoked)|, turn)
      ensures invoked == old(invoked) + ChildCalls(w, job, allowed, response.calls)
      ensures AllLegitimate(w, job, log, invoked) && (Settled(log, old(invoked)) ==> Settled(log, invoked))
    {
      hide AllLegitimate;
      hide Settled;
      hide ChildRuns;
      hide ChildReads;
      hide ReadFirst;
      hide ChildCalls;
      hide Take;
      turn := [Assistant(response.content, response.calls)];
      NoCallsNoRuns(w, job, allowed);
      NothingRead(w, job, allowed, response, |invoked|);
      for k := 0 to |response.calls|
        invariant ReadFirst(w, job, allowed, response, |old(invoked)|, turn, k)
        invariant invoked == old(invoked) + ChildCalls(w, job, allowed, response.calls[..k])
        invariant AllLegitimate(w, job, log, invoked) && (Settled(log, old(invoked)) ==> Settled(log, invoked))
      {
        ChildCallsSnoc(w, job, allowed, response.calls, k);
        var text := InvokeAsChild(response.calls[k], allowed);
        var answer := Tool(Take(text, 2000), response.calls[k].id);
        ReadOneMore(w, job, allowed, response, |old(invoked)|, turn, k, answer);
        turn := turn + [answer];
      }
      assert response.calls[..|response.calls|] == response.calls;
      ReadAll(w, job, allowed, response, |old(invoked)|, turn);
    }

    /** The child's conversation: at most four requests, starting from the objective. */
    method RunChild(objective: string, allowed: seq<string>) returns (text: string, raised: bool)
      requires AllLegitimate(w, job, log, invoked) && AllPaired(childLog)
      requires forall name :: name in allowed ==> name in job.declared
      modifies this`invoked, this`childLog
      ensures AllLegitimate(w, job, log, invoked) && (Settled(log, old(invoked)) ==> Settled(log, invoked))
      ensures AllPaired(childLog) && old(childLog) <= childLog
      ensures |old(childLog)| < |childLog| <= |old(childLog)| + MAX_CHILD_ROUNDS
      ensures childLog[|old(childLog)|] == [User(objective)]
      ensures ChildChained(w, job, allowed, childLog, |old(childLog)|, |old(invoked)|)
      ensures ChildEnded(w, childLog, |old(childLog)|, text, raised)
      ensures invoked == old(invoked) + ChildInvocations(w, job, allowed, |old(childLog)|, |childLog|)
    {
      hide AllLegitimate;
      hide Settled;
      hide Paired;
      hide AllPaired;
      hide IsTurn;
      hide ChildChained;
      hide ChildTurnOf;
      hide ChildGoesOn;
      hide ChildInvocations;
      hide ChildCalls;
      hide Take;
      var history := [User(objective)];
      NudgesArePaired("", objective);
      text, raised := CHILD_EXHAUSTED, false;
      ChildStarts(w, job, allowed, childLog, |invoked|);
      for k := 0 to MAX_CHILD_ROUNDS
        invariant Paired(history) && AllPaired(childLog)
        invariant old(childLog) <= childLog && |childLog| == |old(childLog)| + k
        invariant AllLegitimate(w, job, log, invoked) && (Settled(log, old(invoked)) ==> Settled(log, invoked))
        invariant ChildChained(w, job, allowed, childLog, |old(childLog)|, |old(invoked)|)
        invariant if k == 0 then history == [User(objective)] else childLog[|old(childLog)|] == [User(objective)]
        invariant k > 0 ==> ChildAnswered(w, childLog)
        invariant k > 0 ==> ChildGoesOn(w, job, allowed, childLog, history, |old(childLog)|, |old(invoked)|)
        invariant invoked == old(invoked) + ChildInvocations(w, job, allowed, |old(childLog)|, |childLog|)
      {
        ChildChainedSnoc(w, job, allowed, childLog, history, |old(childLog)|, |old(invoked)|);
        childLog := childLog + [history];
        var reply := w.childReply(|childLog| - 1);
        NoCallsNoRuns(w, job, allowed);
        InvocationsSnoc(w, job, allowed, |old(childLog)|, |childLog| - 1);
        if reply.None? {
          raised := true;
          return;
        }
        if reply.value.calls == [] {
          text := Take(reply.value.content, 4000);
          return;
        }
        var turn := ChildTurn(reply.value, allowed);
        ChildTurnIsTurn(w, job, allowed, reply.value,
                        |old(invoked)| + |ChildInvocations(w, job, allowed, |old(childLog)|, |childLog| - 1)|, turn);
        TurnIsPaired(turn, reply.value);
        PairedConcat(history, turn);
        GoesOnWith(w, job, allowed, childLog, turn, |old(childLog)|, |old(invoked)|);
        history := history + turn;
      }
    }

    /** A delegated subtask. It sends nothing if its arguments are refused or it is nested too deep;
        it raises for a `tools` value that cannot be sliced and when its provider does. */
    method ExecuteDelegation(arguments: string) returns (text: string, raised: bool)
      requires AllLegitimate(w, job, log, invoked) && AllPaired(childLog)
      modifies this`invoked, this`childLog
      ensures AllLegitimate(w, job, log, invoked) && (Settled(log, old(invoked)) ==> Settled(log, invoked))
      ensures old(invoked) <= invoked && OnlyByChild(old(invoked), invoked)
      ensures AllPaired(childLog) && old(childLog) <= childLog && |childLog| <= |old(childLog)| + MAX_CHILD_ROUNDS
      ensures var asked, was := w.delegation(arguments), |old(childLog)|;
              if !Accepts(job, asked) then
                !raised && childLog == old(childLog) && invoked == old(invoked) && text == DELEGATION_ERROR
              else if asked.tools.None? then raised && childLog == old(childLog) && invoked == old(invoked)
              else
                var allowed := ChildTools(job.declared, asked.tools.value);
                |childLog| > was && childLog[was] == [User(Strip(asked.objective))] &&
                ChildChained(w, job, allowed, childLog, was, |old(invoked)|) &&
                ChildEnded(w, childLog, was, text, raised) &&
                invoked == old(invoked) + ChildInvocations(w, job, allowed, was, |childLog|)
    {
      hide AllLegitimate;
      hide Settled;
      hide AllPaired;
      hide ChildChained;
      hide ChildInvocations;
      hide ChildEnded;
      hide Strip;
      text, raised := DELEGATION_ERROR, false;
      var asked := w.delegation(arguments);
      if asked.BadArguments? || IsBlank(asked.objective) || |Strip(asked.objective)| > 8192 {
        return;
      }
      if job.depth >= MAX_DELEGATION_DEPTH {
        return;
      }
      if asked.tools.None? {
        raised := true;
        return;
      }
      text, raised := RunChild(Strip(asked.objective), ChildTools(job.declared, asked.tools.value));
    }

    /** What the handling of calls may rely on and keeps. */
    ghost predicate Bookkept()
      reads this`log, this`invoked, this`childLog, this`failures, this`handled
    {
      AllLegitimate(w, job, log, invoked) && AllPaired(childLog) && Tallied(failures, FailuresOf(w, invoked), |log|) &&
      BreakerHeld(log, FailuresOf(w, invoked)) && AllDealtWith(w, job, invoked, childLog, handled) &&
      NoneLater(handled, |log|)
    }

    /** At most one call, and so four child requests, goes beyond the last call dealt with. */
    ghost predicate ChildBound()
      reads this`handled, this`childLog
    {
      LastMark(handled).sent <= |childLog| <= LastMark(handled).sent + MAX_CHILD_ROUNDS
    }

    /** The last call dealt with accounts for every question, invocation and child request so far. */
    ghost predicate Marked()
      reads this`handled, this`evaluations, this`invoked, this`childLog
    {
      LastMark(handled) == Here()
    }

    ghost function Here(): Mark
      reads this`evaluations, this`invoked, this`childLog
    {
      Mark(evaluations, |invoked|, |childLog|)
    }

    method CountFailure(s: Signature) returns (count: nat)
      modifies this`failures
      ensures count == Tally(failures, s) && count == Tally(old(failures), s) + 1
      ensures failures == CountUp(old(failures), Some(s))
    {
      count := (if s in failures then failures[s] else 0) + 1;
      failures := failures[s := count];
    }

    /** What an invocation of a screened call leaves behind. */
    ghost predicate Invoked(call: Call, was: seq<Invocation>, eval: nat, counted: map<Signature, nat>,
                            text: string, abort: bool, raised: bool)
      reads this`invoked, this`failures, this`log
    {
      var outcome := w.tool(|was|);
      var s := SignatureOf(call, outcome);
      invoked == was + [Own(call, eval, |log|)] && failures == CountUp(counted, s) &&
      (raised <==> outcome.Crashed?) &&
      (!raised ==> text == ToolText(outcome, if s.Some? then Tally(failures, s.value) else 0)) &&
      (abort <==> s.Some? && Tally(failures, s.value) >= ABORT_THRESHOLD)
    }

    method Invoke(call: Call, eval: nat) returns (text: string, abort: bool, raised: bool)
      requires Bookkept() && call in Answer(w, job, |log|).calls && Screen(w, job, call, eval) == ToInvoke
      modifies this`invoked, this`failures
      ensures Bookkept() && Invoked(call, old(invoked), eval, old(failures), text, abort, raised)
      ensures !raised ==> text == AnswerOf(w, call, |log|, invoked)
    {
      hide Answer;
      hide Paired;
      hide Fails;
      hide BreakerHeld;
      hide Tallied;
      hide AllPaired;
      hide AllDealtWith;
      hide FailuresOf;
      hide Take;
      ghost var was, counted := invoked, failures;
      var outcome := w.tool(|invoked|);
      invoked := invoked + [Own(call, eval, |log|)];
      AllDealtWithGrows(w, job, was, childLog, invoked, childLog, handled);
      FailuresSnoc(w, was, call, eval, |log|);
      CountedIsTallied(counted, FailuresOf(w, was), log, SignatureOf(call, outcome));
      text, abort, raised := "", false, false;
      match outcome {
        case Done(result) =>
          text := result;
        case Denied =>
          text := "tool_denied";
        case Crashed =>
          raised := true;
        case Refused(detail) =>
          text := "tool_execution_failed";
          var count := CountFailure(Signature(call.name, Take(detail, 120)));
          abort := count >= ABORT_THRESHOLD;
        case Failed(result, error) =>
          var count := CountFailure(Signature(call.name, Take(if error != "" then error else result, 120)));
          abort := count >= ABORT_THRESHOLD;
          text := if count == WARN_THRESHOLD then result + WARNING else result;
      }
      TallyIsFails(failures, FailuresOf(w, invoked), |log|);
    }

    method Delegate(arguments: string) returns (text: string, raised: bool)
      requires Bookkept()
      modifies this`invoked, this`childLog
      ensures Bookkept() && old(invoked) <= invoked
      ensures old(childLog) <= childLog && |childLog| <= |old(childLog)| + MAX_CHILD_ROUNDS
      ensures !raised ==> Delegated(w, job, arguments, invoked, childLog, old(Here()), Here(), text)
      ensures raised ==> DelegationRaised(w, job, arguments, invoked, childLog, old(Here()))
    {
      hide AllLegitimate;
      hide Settled;
      hide AllPaired;
      hide Tallied;
      hide BreakerHeld;
      hide AllDealtWith;
      hide ChildChained;
      hide ChildInvocations;
      hide ChildTools;
      hide Strip;
      text, raised := ExecuteDelegation(arguments);
      ChildrenDoNotFail(w, old(invoked), invoked);
      AllDealtWithGrows(w, job, old(invoked), old(childLog), invoked, childLog, handled);
      assert childLog[..|childLog|] == childLog;
      SplitAt(old(invoked), invoked);
      var asked := w.delegation(arguments);
      if Accepts(job, asked) && asked.tools.Some? {
        AfterAll(old(invoked),
                 ChildInvocations(w, job, ChildTools(job.declared, asked.tools.value), |old(childLog)|, |childLog|));
      }
    }

    /** Appends the answer to a call that was dealt with and notes it. */
    method Reply(call: Call, text: string, ghost before: Mark)
      requires Bookkept() && before == LastMark(handled)
      requires DealtWith(w, job, invoked, childLog, Handled(call, |log|, before, Here(), text))
      modifies this`messages, this`handled
      ensures Bookkept() && Marked()
      ensures messages == old(messages) + [Tool(text, call.id)]
      ensures handled == old(handled) + [Handled(call, |log|, before, Here(), text)]
    {
      hide AllLegitimate;
      hide AllPaired;
      hide Tallied;
      hide BreakerHeld;
      hide AllDealtWith;
      hide DealtWith;
      messages := messages + [Tool(text, call.id)];
      ghost var h := Handled(call, |log|, before, Here(), text);
      AllDealtWithSnoc(w, job, invoked, childLog, handled, h);
      handled := handled + [h];
    }

    /** A call that is delegated. */
    method HandleDelegation(call: Call) returns (text: string, raised: bool)
      requires Bookkept() && Marked() && Screen(w, job, call, evaluations) == ToDelegate
      modifies this`messages, this`childLog, this`invoked, this`handled
      ensures Bookkept() && old(invoked) <= invoked && old(childLog) <= childLog
      ensures |childLog| <= |old(childLog)| + MAX_CHILD_ROUNDS
      ensures raised ==>
                messages == old(messages) && handled == old(handled) &&
                Broke(w, job, invoked, childLog, call, |log|, old(Here()), Here())
      ensures !raised ==>
                Marked() && messages == old(messages) + [Tool(text, call.id)] &&
                handled == old(handled) + [Handled(call, |log|, old(Here()), Here(), text)]
    {
      hide Bookkept;
      hide Delegated;
      hide DelegationRaised;
      ghost var before := Here();
      text, raised := Delegate(call.arguments);
      if !raised {
        Reply(call, text, before);
      }
    }

    /** A call that passed the screening, up to the question put to the gate. */
    method HandleInvocation(call: Call, eval: nat, ghost before: Mark) returns (text: string, abort: bool, raised: bool)
      requires Bookkept() && call in Answer(w, job, |log|).calls && Screen(w, job, call, eval) == ToInvoke
      requires before == LastMark(handled) && before.asked == eval && before.ran == |invoked| &&
               before.sent == |childLog|
      requires evaluations == eval + if AsksGate(w, job, call) then 1 else 0
      modifies this`messages, this`invoked, this`failures, this`handled
      ensures Bookkept() && Invoked(call, old(invoked), eval, old(failures), text, abort, raised)
      ensures old(invoked) <= invoked
      ensures raised ==>
                messages == old(messages) && handled == old(handled) &&
                Broke(w, job, invoked, childLog, call, |log|, before, Here())
      ensures !raised ==>
                Marked() && messages == old(messages) + [Tool(text, call.id)] &&
                handled == old(handled) + [Handled(call, |log|, before, Here(), text)]
      ensures !abort && Quiet(old(failures)) ==> Quiet(failures)
      ensures abort || !Quiet(old(failures)) ==> !Quiet(failures)
    {
      hide Bookkept;
      hide Answer;
      hide Take;
      hide ToolText;
      hide Quiet;
      hide CountUp;
      hide SignatureOf;
      hide AnswerOf;
      hide AsksGate;
      QuietAfter(failures, SignatureOf(call, w.tool(|invoked|)));
      text, abort, raised := Invoke(call, eval);
      if !raised {
        assert invoked[..|invoked|] == invoked;
        Reply(call, text, before);
      }
    }

    /** Runs one call of the response in hand and appends its answer: a rejected call is answered
        without being run, and a call that passes the screening is invoked exactly once. */
    method HandleCall(response: Response, call: Call) returns (text: string, abort: bool, raised: bool)
      requires Bookkept() && Marked() && response == Answer(w, job, |log|) && call in response.calls
      modifies this`messages, this`childLog, this`invoked, this`failures, this`handled, this`evaluations
      ensures Bookkept() && old(invoked) <= invoked
      ensures old(childLog) <= childLog && |childLog| <= |old(childLog)| + MAX_CHILD_ROUNDS
      ensures raised ==>
                messages == old(messages) && handled == old(handled) &&
                Broke(w, job, invoked, childLog, call, |log|, old(Here()), Here())
      ensures !raised ==> Marked() && messages == old(messages) + [Tool(text, call.id)]
      ensures !raised ==> handled == old(handled) + [Handled(call, |log|, old(Here()), Here(), text)]
      ensures match Screen(w, job, call, old(evaluations))
              case ToDelegate => failures == old(failures) && !abort
              case Rejected(why) => !raised && text == why && failures == old(failures) && invoked == old(invoked)
              case Raises => raised && failures == old(failures) && invoked == old(invoked)
              case ToInvoke => Invoked(call, old(invoked), old(evaluations), old(failures), text, abort, raised)
      ensures !abort && Quiet(old(failures)) ==> Quiet(failures)
      ensures abort || !Quiet(old(failures)) ==> !Quiet(failures)
    {
      hide Bookkept;
      hide Answer;
      hide Quiet;
      hide Invoked;
      hide Delegated;
      hide DelegationRaised;
      hide AnswerOf;
      hide HandledFor;
      abort, raised := false, false;
      ghost var before := Here();
      if call.name == DELEGATE && job.delegates {
        text, raised := HandleDelegation(call);
        return;
      }
      if w.parse(call.arguments) != Object {
        text := "invalid_tool_arguments";
        Reply(call, text, before);
        return;
      }
      if call.name !in job.declared {
        text := "undeclared_tool";
        Reply(call, text, before);
        return;
      }
      var eval := evaluations;
      if job.hasGate {
        evaluations := evaluations + 1;
        var verdict := w.verdict(eval, call);
        if verdict == GateFailed {
          text, raised := "", true;
          return;
        }
        if verdict != Allowed {
          text := if verdict == Pending then "approval_pending" else "approval_denied";
          Reply(call, text, before);
          return;
        }
      }
      if !job.hasTools {
        text, raised := "", true;
        return;
      }
      text, abort, raised := HandleInvocation(call, eval, before);
    }

    /** Deals with every call of the response, in order, and appends its whole turn, unless
        something raises. */
    method HandleBatch(response: Response) returns (abort: bool, raised: bool)
      requires Bookkept() && Marked() && response == Answer(w, job, |log|)
      requires AllTurnsDone(w, job, log, handled) && HandledFor(handled, |log|) == []
      requires Paced(w, job, log, handled, renewed) && Cleared(w, job, log, renewed, |log|)
      modifies this`messages, this`childLog, this`invoked, this`failures, this`handled, this`evaluations
      ensures Bookkept() && AllTurnsDone(w, job, log, handled)
      ensures ChildBound() && Paced(w, job, log, handled, renewed)
      ensures raised ==> BatchBroke(w, job, log, invoked, childLog, handled, Here())
      ensures !raised ==>
                Marked() && CallsOf(HandledFor(handled, |log|)) == response.calls &&
                messages == old(messages) + TurnOf(response, HandledFor(handled, |log|))
      ensures !abort && Quiet(old(failures)) ==> Quiet(failures)
      ensures abort ==> !Quiet(failures)
    {
      hide Bookkept;
      hide Answer;
      hide Quiet;
      hide Screen;
      hide Invoked;
      hide AllTurnsDone;
      hide HandledFor;
      hide LastMark;
      hide Paced;
      hide Cleared;
      hide Broke;
      messages := messages + [Assistant(response.content, response.calls)];
      abort, raised := false, false;
      ghost var turn: seq<Handled> := [];
      TurnOpens(old(messages), response);
      for k := 0 to |response.calls|
        invariant Bookkept() && Marked()
        invariant turn == HandledFor(handled, |log|) && CallsOf(turn) == response.calls[..k]
        invariant messages == old(messages) + TurnOf(response, turn)
        invariant old(handled) <= handled && AtOnly(handled, |old(handled)|, |log|)
        invariant !abort && Quiet(old(failures)) ==> Quiet(failures)
        invariant abort ==> !Quiet(failures)
      {
        ghost var before := handled;
        var text, stop, failing := HandleCall(response, response.calls[k]);
        abort := abort || stop;
        if failing {
          raised := true;
          TurnsStayDone(w, job, log, old(handled), handled);
          PacedHandled(w, job, log, old(handled), handled, renewed);
          return;
        }
        ghost var h := Last(handled);
        HandledSnoc(before, h, |log|);
        TurnGoesOn(old(messages), response, turn, h);
        turn := turn + [h];
        assert response.calls[..k + 1] == response.calls[..k] + [response.calls[k]];
      }
      assert response.calls[..|response.calls|] == response.calls;
      TurnsStayDone(w, job, log, old(handled), handled);
      PacedHandled(w, job, log, old(handled), handled, renewed);
    }

    /** Sends a request that is justified, and notes it. */
    method Send(request: Request) returns (reply: Option<Response>)
      requires Bookkept() && AllJustified(w, job, log) && NoFinal(log)
      requires Justified(w, job, log + [request], |log|)
      requires AllTurnsDone(w, job, log, handled) && TurnDone(w, job, log + [request], handled, |log|)
      requires request.kind != FinalNudge ==> Quiet(failures)
      requires request.kind == EmptyNudge || request.kind == Boost ==> Settled(log, invoked)
      modifies this`log
      ensures Bookkept() && AllJustified(w, job, log) && Settled(log, invoked)
      ensures AllTurnsDone(w, job, log, handled) && HandledFor(handled, |log|) == []
      ensures log == old(log) + [request] && reply == w.reply(|log| - 1)
      ensures request.kind != FinalNudge ==> NoFinal(log)
      ensures forall kind :: CountKind(log, kind) == CountKind(old(log), kind) + if request.kind == kind then 1 else 0
    {
      hide Justified;
      hide Answer;
      hide Paired;
      hide TurnDone;
      hide AllTurnsDone;
      hide AllDealtWith;
      hide HandledFor;
      hide FailuresOf;
      ghost var n := |log|;
      assert Front(log + [request]) == log;
      SentIsLegitimate(w, job, log, invoked, request);
      SentIsTallied(failures, FailuresOf(w, invoked), log, request);
      NoneYet(handled, |log|);
      JustifiedSnoc(w, job, log, request);
      TurnsDoneSnoc(w, job, log, handled, request);
      log := log + [request];
      reply := w.reply(|log| - 1);
    }

    /** What holds after a request that was not the final nudge, whatever came back. */
    ghost predicate Sound()
      reads this`log, this`invoked, this`childLog, this`failures, this`handled, this`renewed
    {
      Bookkept() && AllJustified(w, job, log) && AllTurnsDone(w, job, log, handled) && NoFinal(log) && ChildBound() &&
      Paced(w, job, log, handled, renewed)
    }

    /** Between requests: the history is that of the last request, no call of the response in
        hand was dealt with, and the breaker is quiet. */
    ghost predicate Ready()
      reads this`messages, this`log, this`invoked, this`childLog, this`failures, this`handled, this`evaluations,
            this`boostBudget, this`renewed
    {
      Sound() && messages == Base(job, log, |log|) && Settled(log, invoked) && HandledFor(handled, |log|) == [] &&
      Marked() &&
      Quiet(failures) && (|log| > 0 ==> w.reply(|log| - 1).Some?) && CountKind(log, Boost) + boostBudget == MAX_BOOSTS
    }

    /** The calls of the response in hand were all dealt with and its turn was appended. */
    ghost predicate Executed()
      reads this`messages, this`log, this`handled
    {
      var response, hs := Answer(w, job, |log|), HandledFor(handled, |log|);
      CallsOf(hs) == response.calls && messages == Base(job, log, |log|) + TurnOf(response, hs)
    }

    /** The lease was not renewed since the last request, which was no boost. */
    ghost predicate Unrenewed()
      reads this`log, this`renewed
    {
      (renewed != [] ==> Last(renewed) < |log|) && LeaseTime(log, |log|) == |log| && LeasesHeld(w, renewed, false)
    }

    /** The lease is renewed before every nudge and every round. */
    method RenewLease() returns (held: bool)
      requires Ready() && Unrenewed()
      modifies this`renewed
      ensures Ready() && renewed == old(renewed) + [|log|] && LeasesHeld(w, renewed, !held)
    {
      hide Bookkept;
      hide AllJustified;
      hide AllTurnsDone;
      hide HandledFor;
      hide LastMark;
      hide NoFinal;
      hide Settled;
      hide Quiet;
      hide CountKind;
      hide Paced;
      hide ChildBound;
      hide Base;
      held := w.leaseHeld(|renewed|);
      PacedRenewal(w, job, log, handled, renewed);
      renewed := renewed + [|log|];
    }

    method SendNudge() returns (reply: Option<Response>)
      requires Ready() && IsEmpty(Answer(w, job, |log|)) && LeaseTime(log, |log|) in renewed
      modifies this`messages, this`log
      ensures Sound() && |log| == |old(log)| + 1 && Last(log).kind == EmptyNudge
      ensures forall kind :: CountKind(log, kind) == CountKind(old(log), kind) + if kind == EmptyNudge then 1 else 0
      ensures LeasesHeld(w, renewed, false) ==> Unrenewed()
      ensures reply == w.reply(|log| - 1) && (reply.Some? ==> Ready() && reply.value == Answer(w, job, |log|))
    {
      hide Bookkept;
      hide AllJustified;
      hide AllTurnsDone;
      hide HandledFor;
      hide LastMark;
      hide NoFinal;
      hide Settled;
      hide Quiet;
      hide IsEmpty;
      hide CountKind;
      hide Paced;
      hide LeaseTime;
      hide LeasesHeld;
      messages := messages + [Assistant("(empty)", [])];
      messages := messages + [User(EMPTY_NUDGE)];
      var request := Request(EmptyNudge, messages, true, job.maxTokens);
      assert Base(job, log + [request], |log|) == Base(job, log, |log|);
      assert messages == Base(job, log, |log|) + [Assistant("(empty)", []), User(EMPTY_NUDGE)];
      SentSinceRenewal(w, job, log, handled, renewed, request);
      PacedSend(w, job, log, handled, renewed, request);
      reply := Send(request);
    }

    /** Discards a truncated response with an unusable call and asks again with more room. */
    method SendBoost() returns (reply: Option<Response>)
      requires Ready() && boostBudget > 0
      requires BoostDue(w, job, log, |log|) && LeaseTime(log, |log|) in renewed
      modifies this`boostBudget, this`log
      ensures Sound() && |log| == |old(log)| + 1 && Last(log).kind == Boost
      ensures forall kind :: CountKind(log, kind) == CountKind(old(log), kind) + if kind == Boost then 1 else 0
      ensures reply == w.reply(|log| - 1) && (reply.Some? ==> Ready() && reply.value == Answer(w, job, |log|))
    {
      hide Bookkept;
      hide AllJustified;
      hide AllTurnsDone;
      hide HandledFor;
      hide LastMark;
      hide NoFinal;
      hide Settled;
      hide Quiet;
      hide HasBadArguments;
      hide CountKind;
      hide Paced;
      hide LeaseTime;
      var request := Request(Boost, messages, true, Min(job.maxTokens * 2, MAX_BOOSTED_TOKENS));
      assert Base(job, log + [request], |log|) == Base(job, log, |log|);
      boostBudget := boostBudget - 1;
      PacedSend(w, job, log, handled, renewed, request);
      reply := Send(request);
    }

    /** Asks for the next response after a whole turn was appended. */
    method SendRound() returns (reply: Option<Response>)
      requires Sound() && Quiet(failures) && (|log| > 0 ==> w.reply(|log| - 1).Some?)
      requires CountKind(log, Boost) + boostBudget == MAX_BOOSTS
      requires Answer(w, job, |log|).calls != []
      requires Marked() && Executed() && LeaseTime(log, |log|) in renewed
      modifies this`log
      ensures Sound() && |log| == |old(log)| + 1 && Last(log).kind == Round
      ensures forall kind :: CountKind(log, kind) == CountKind(old(log), kind) + if kind == Round then 1 else 0
      ensures LeasesHeld(w, renewed, false) ==> Unrenewed()
      ensures reply == w.reply(|log| - 1) && (reply.Some? ==> Ready() && reply.value == Answer(w, job, |log|))
    {
      hide Bookkept;
      hide AllJustified;
      hide AllTurnsDone;
      hide HandledFor;
      hide LastMark;
      hide NoFinal;
      hide Settled;
      hide Quiet;
      hide Appends;
      hide CountKind;
      hide Paced;
      hide LeaseTime;
      hide LeasesHeld;
      hide TurnOf;
      TurnOfIsTurn(Answer(w, job, |log|), HandledFor(handled, |log|));
      TurnAppends(Base(job, log, |log|), TurnOf(Answer(w, job, |log|), HandledFor(handled, |log|)),
                  Answer(w, job, |log|));
      var request := Request(Round, messages, true, job.maxTokens);
      assert Base(job, log + [request], |log|) == Base(job, log, |log|);
      SentSinceRenewal(w, job, log, handled, renewed, request);
      PacedSend(w, job, log, handled, renewed, request);
      reply := Send(request);
    }

    /** The toolless request for a summary, once the rounds are used up or the breaker tripped. */
    method SendFinalNudge(executed: bool) returns (reply: Option<Response>)
      requires Sound() && (|log| > 0 ==> w.reply(|log| - 1).Some?) && Answer(w, job, |log|).calls != []
      requires if executed then Executed()
               else messages == Base(job, log, |log|) && HandledFor(handled, |log|) == []
      modifies this`log
      ensures Bookkept() && AllJustified(w, job, log) && AllTurnsDone(w, job, log, handled) && ChildBound()
      ensures Paced(w, job, log, handled, renewed)
      ensures |log| == |old(log)| + 1 && Last(log).kind == FinalNudge
      ensures forall kind :: CountKind(log, kind) == CountKind(old(log), kind) + if kind == FinalNudge then 1 else 0
      ensures reply == w.reply(|log| - 1) && (reply.Some? ==> reply.value == Answer(w, job, |log|))
    {
      hide Bookkept;
      hide AllJustified;
      hide AllTurnsDone;
      hide HandledFor;
      hide LastMark;
      hide NoFinal;
      hide Settled;
      hide Quiet;
      hide CountKind;
      hide Paced;
      hide LeaseTime;
      hide IsTurn;
      var request := Request(FinalNudge, messages + [User(FINAL_NUDGE)], false, job.maxTokens);
      assert Base(job, log + [request], |log|) == Base(job, log, |log|);
      if executed {
        FinalAppends(Base(job, log, |log|), Answer(w, job, |log|), HandledFor(handled, |log|));
      }
      PacedSend(w, job, log, handled, renewed, request);
      reply := Send(request);
    }

    /** A request failed that was not the final nudge. */
    ghost predicate RequestFailed()
      reads this`log
    {
      log != [] && Last(log).kind != FinalNudge && w.reply(|log| - 1).None?
    }

    /** Why the loop was broken off, if it was: the lease was not held at the last renewal, or an
        exception, of the last request or of a call of the response in hand. */
    ghost predicate Interrupted(stopped: Option<Outcome>)
      reads this
    {
      LeasesHeld(w, renewed, stopped == Some(LeaseLost)) &&
      (RequestFailed() ==> stopped == Some(Raised)) &&
      (stopped == Some(Raised) ==>
        RequestFailed() ||
        (BatchBroke(w, job, log, invoked, childLog, handled, Here()) && Cleared(w, job, log, renewed, |log|))) &&
      (stopped != Some(Raised) ==> Marked())
    }

    lemma GoesOn(stopped: Option<Outcome>)
      requires Marked() && !RequestFailed() && LeasesHeld(w, renewed, stopped == Some(LeaseLost)) &&
               stopped != Some(Raised)
      ensures Interrupted(stopped)
    {
    }

    lemma ReadyGoesOn(stopped: Option<Outcome>)
      requires Ready() && LeasesHeld(w, renewed, stopped == Some(LeaseLost)) && stopped != Some(Raised)
      ensures Interrupted(stopped)
    {
    }

    lemma InterruptedMeans(stopped: Option<Outcome>)
      requires Interrupted(stopped)
      ensures stopped != Some(Raised) ==> Marked() && !RequestFailed()
      ensures LeasesHeld(w, renewed, stopped == Some(LeaseLost))
    {
    }

    lemma RequestRaised()
      requires RequestFailed() && LeasesHeld(w, renewed, false)
      ensures Interrupted(Some(Raised))
    {
    }

    lemma BatchRaised()
      requires BatchBroke(w, job, log, invoked, childLog, handled, Here()) && Cleared(w, job, log, renewed, |log|)
      requires LeasesHeld(w, renewed, false)
      ensures Interrupted(Some(Raised))
    {
    }

    /** The empty-response ladder: up to two nudges. */
    method NudgeWhileEmpty() returns (current: Response, stopped: Option<Outcome>)
      requires Ready() && Unrenewed() && log == []
      modifies this`messages, this`log, this`renewed
      ensures stopped.None? ==> Ready() && Unrenewed() && current == Answer(w, job, |log|)
      ensures stopped.None? ==> !IsEmpty(current) || |log| == MAX_EMPTY_RETRIES
      ensures stopped.Some? ==> stopped.value == LeaseLost || stopped.value == Raised
      ensures Sound() && Interrupted(stopped)
      ensures CountKind(log, EmptyNudge) == |log| <= MAX_EMPTY_RETRIES && CountKind(log, Boost) == 0 &&
              CountKind(log, Round) == 0
    {
      hide Bookkept;
      hide Interrupted;
      hide LeasesHeld;
      hide BatchBroke;
      hide Cleared;
      hide Paced;
      hide AllJustified;
      hide AllTurnsDone;
      hide HandledFor;
      hide LastMark;
      hide Settled;
      hide Quiet;
      hide Answer;
      hide IsEmpty;
      hide NoFinal;
      current, stopped := job.first, None;
      FirstAnswer(w, job);
      while IsEmpty(current) && |log| < MAX_EMPTY_RETRIES
        invariant Ready() && Unrenewed() && current == Answer(w, job, |log|)
        invariant CountKind(log, EmptyNudge) == |log| <= MAX_EMPTY_RETRIES && CountKind(log, Boost) == 0 &&
                  CountKind(log, Round) == 0
        decreases MAX_EMPTY_RETRIES - |log|
      {
        var held := RenewLease();
        if !held {
          stopped := Some(LeaseLost);
          GoesOn(stopped);
          return;
        }
        var reply := SendNudge();
        if reply.None? {
          stopped := Some(Raised);
          RequestRaised();
          return;
        }
        current := reply.value;
      }
      GoesOn(None);
    }

    method AnyBadArguments(calls: seq<Call>) returns (bad: bool)
      ensures bad <==> HasBadArguments(w, calls)
    {
      for i := 0 to |calls|
        invariant forall k :: 0 <= k < i ==> w.parse(calls[k].arguments) == Object
      {
        if w.parse(calls[i].arguments) != Object {
          return true;
        }
      }
      bad := false;
    }

    method BoostIfTruncated(response: Response) returns (now: Option<Response>)
      requires Ready() && response == Answer(w, job, |log|) && response.calls != []
      requires LeaseTime(log, |log|) == |log| && |log| in renewed
      modifies this`boostBudget, this`log
      ensures Sound() && CountKind(log, Boost) <= MAX_BOOSTS
      ensures CountKind(log, EmptyNudge) == CountKind(old(log), EmptyNudge)
      ensures CountKind(log, Round) == CountKind(old(log), Round)
      ensures CountKind(log, FinalNudge) == CountKind(old(log), FinalNudge)
      ensures |log| == |old(log)| +
                       if response.truncated && old(boostBudget) > 0 && HasBadArguments(w, response.calls) then 1 else 0
      ensures now.None? ==> RequestFailed()
      ensures now.Some? ==> Ready() && now.value == Answer(w, job, |log|) && Cleared(w, job, log, renewed, |log|)
      ensures LeaseTime(log, |log|) in renewed
      ensures now.Some? && now.value.calls == [] ==> |log| > |old(log)|
    {
      hide Bookkept;
      hide Paced;
      hide LeasesHeld;
      hide AllJustified;
      hide AllTurnsDone;
      hide HandledFor;
      hide LastMark;
      hide NoFinal;
      hide Settled;
      hide Quiet;
      hide CountKind;
      hide Answer;
      hide HasBadArguments;
      assert log[..|log|] == log;
      var bad := AnyBadArguments(response.calls);
      if response.truncated && boostBudget > 0 && bad {
        now := SendBoost();
      } else {
        now := Some(response);
      }
    }

    /** The calls of the response in hand and the request after them. */
    method ExecuteRound(response: Response) returns (next: Response, stopped: Option<Outcome>, tripped: bool)
      requires Ready() && response == Answer(w, job, |log|) && response.calls != []
      requires LeasesHeld(w, renewed, false) && Cleared(w, job, log, renewed, |log|) && LeaseTime(log, |log|) in renewed
      modifies this
      ensures Sound() && CountKind(log, EmptyNudge) == CountKind(old(log), EmptyNudge) && |log| >= |old(log)|
      ensures CountKind(log, Boost) == CountKind(old(log), Boost)
      ensures CountKind(log, FinalNudge) == CountKind(old(log), FinalNudge)
      ensures CountKind(log, Round) == CountKind(old(log), Round) + |log| - |old(log)| <= CountKind(old(log), Round) + 1
      ensures Interrupted(stopped)
      ensures tripped ==>
                stopped.None? && Answer(w, job, |log|) == response && !Quiet(failures) && Executed() && log == old(log)
      ensures stopped.Some? ==> stopped == Some(Raised) || (stopped == Some(Returned(next)) && next.calls == [])
      ensures stopped.Some? && stopped.value.Returned? ==> |log| > |old(log)| && next == Answer(w, job, |log|)
      ensures stopped.None? && !tripped ==>
                Ready() && Unrenewed() && next == Answer(w, job, |log|) && next.calls != [] && |log| > |old(log)|
    {
      hide Bookkept;
      hide Interrupted;
      hide LeasesHeld;
      hide BatchBroke;
      hide Cleared;
      hide Paced;
      hide LeaseTime;
      hide AllJustified;
      hide AllTurnsDone;
      hide HandledFor;
      hide LastMark;
      hide NoFinal;
      hide Settled;
      hide Quiet;
      hide Appends;
      hide TurnOf;
      hide Base;
      hide ChildBound;
      hide CountKind;
      hide Answer;
      hide HasBadArguments;
      next, stopped := response, None;
      var raised;
      tripped, raised := HandleBatch(response);
      if raised {
        stopped, tripped := Some(Raised), false;
        BatchRaised();
        return;
      }
      if tripped {
        GoesOn(None);
        return;
      }
      var reply := SendRound();
      if reply.None? {
        stopped := Some(Raised);
        RequestRaised();
        return;
      }
      next := reply.value;
      if next.calls == [] {
        stopped := Some(Returned(next));
      }
      GoesOn(stopped);
    }

    /** The rounds. None means that the rounds are used up or the breaker tripped: `executed`
        tells whether the last response's calls were. */
    method RunRounds(response: Response) returns (stopped: Option<Outcome>, executed: bool)
      requires Ready() && Unrenewed() && response == Answer(w, job, |log|) && response.calls != []
      requires CountKind(log, EmptyNudge) <= MAX_EMPTY_RETRIES && CountKind(log, Boost) == 0 &&
               CountKind(log, Round) == 0
      modifies this
      ensures Sound() && CountKind(log, EmptyNudge) == CountKind(old(log), EmptyNudge) && |log| >= |old(log)|
      ensures CountKind(log, Boost) <= MAX_BOOSTS && CountKind(log, Round) <= job.maxRounds
      ensures CountKind(log, FinalNudge) == CountKind(old(log), FinalNudge)
      ensures stopped.Some? ==> stopped.value.Returned? || stopped.value == LeaseLost || stopped.value == Raised
      ensures Interrupted(stopped)
      ensures stopped.Some? && stopped.value.Returned? ==>
                |log| > |old(log)| && stopped.value.response == Answer(w, job, |log|) &&
                stopped.value.response.calls == []
      ensures stopped.None? ==>
                (|log| > 0 ==> w.reply(|log| - 1).Some?) && Answer(w, job, |log|).calls != [] &&
                (if executed then !Quiet(failures) && Executed()
                 else
                   CountKind(log, Round) == job.maxRounds && messages == Base(job, log, |log|) &&
                   HandledFor(handled, |log|) == [])
    {
      hide Bookkept;
      hide Interrupted;
      hide LeasesHeld;
      hide BatchBroke;
      hide Cleared;
      hide Paced;
      hide LeaseTime;
      hide Executed;
      hide Marked;
      hide RequestFailed;
      hide AllJustified;
      hide AllTurnsDone;
      hide HandledFor;
      hide LastMark;
      hide NoFinal;
      hide Settled;
      hide Quiet;
      hide Appends;
      hide TurnOf;
      hide Base;
      hide ChildBound;
      hide CountKind;
      hide Answer;
      hide HasBadArguments;
      stopped, executed := None, false;
      var current := response;
      for round := 0 to job.maxRounds
        invariant Ready() && Unrenewed() && current == Answer(w, job, |log|) && current.calls != [] &&
                  |log| >= |old(log)|
        invariant stopped.None? && !executed
        invariant CountKind(log, Round) == round && CountKind(log, EmptyNudge) == CountKind(old(log), EmptyNudge)
        invariant CountKind(log, FinalNudge) == CountKind(old(log), FinalNudge)
      {
        var held := RenewLease();
        if !held {
          stopped := Some(LeaseLost);
          ReadyGoesOn(stopped);
          return;
        }
        var boosted := BoostIfTruncated(current);
        if boosted.None? {
          stopped := Some(Raised);
          RequestRaised();
          return;
        }
        current := boosted.value;
        if current.calls == [] {
          stopped := Some(Returned(current));
          ReadyGoesOn(stopped);
          return;
        }
        current, stopped, executed := ExecuteRound(current);
        if stopped.Some? || executed {
          return;
        }
      }
      ReadyGoesOn(None);
    }

    /** The loop as it is constructed. */
    ghost predicate Initial()
      reads this
    {
      messages == job.initial && log == [] && childLog == [] && invoked == [] && failures == map[] &&
      handled == [] && evaluations == 0 && renewed == [] && boostBudget == MAX_BOOSTS
    }

    /** What holds at the end, whatever came of it. */
    ghost predicate Concluded(outcome: Outcome)
      reads this
    {
      Bookkept() && AllJustified(w, job, log) && AllTurnsDone(w, job, log, handled) && ChildBound() &&
      Paced(w, job, log, handled, renewed) && Interrupted(Some(outcome)) &&
      CountKind(log, EmptyNudge) <= MAX_EMPTY_RETRIES && CountKind(log, Boost) <= MAX_BOOSTS &&
      CountKind(log, Round) <= job.maxRounds && CountKind(log, FinalNudge) <= 1 &&
      (outcome == Unresolved <==>
        log != [] && Last(log).kind == FinalNudge &&
        (w.reply(|log| - 1).None? || w.reply(|log| - 1).value.calls != [])) &&
      (log != [] && Last(log).kind == FinalNudge ==> CountKind(log, Round) == job.maxRounds || !Quiet(failures))
    }

    lemma StartIsReady()
      requires Initial()
      ensures Ready() && Unrenewed() && Answer(w, job, |log|) == job.first
      ensures CountKind(log, EmptyNudge) == CountKind(log, Boost) == 0
      ensures CountKind(log, Round) == CountKind(log, FinalNudge) == 0
    {
    }

    lemma ConcludedMeans(outcome: Outcome)
      requires Concluded(outcome)
      ensures |childLog| <= MAX_CHILD_ROUNDS * (DelegatedCalls(job, handled) + if outcome == Raised then 1 else 0)
      ensures AllLegitimate(w, job, log, invoked) && AllPaired(childLog) && BreakerHeld(log, FailuresOf(w, invoked))
      ensures AllDealtWith(w, job, invoked, childLog, handled)
      ensures !Quiet(failures) ==> exists s :: Fails(FailuresOf(w, invoked), |log|, s) >= ABORT_THRESHOLD
      ensures |log| ==
            CountKind(log, EmptyNudge) + CountKind(log, Boost) + CountKind(log, Round) + CountKind(log, FinalNudge)
    {
      hide AllLegitimate;
      hide AllPaired;
      hide BreakerHeld;
      hide AllDealtWith;
      hide AllJustified;
      hide AllTurnsDone;
      hide Paced;
      hide Interrupted;
      InterruptedMeans(Some(outcome));
      KindsAddUp(log);
      FourPerDelegation(w, job, invoked, childLog, handled);
      if !Quiet(failures) {
        var s :| Tally(failures, s) >= ABORT_THRESHOLD;
        assert Fails(FailuresOf(w, invoked), |log|, s) >= ABORT_THRESHOLD;
      }
    }

    /** Before the rounds the loop can end only like this. */
    lemma EndsEarly(outcome: Outcome)
      requires Sound() && Interrupted(Some(outcome)) && outcome != Unresolved
      requires CountKind(log, EmptyNudge) == |log| <= MAX_EMPTY_RETRIES && CountKind(log, Boost) == 0 &&
               CountKind(log, Round) == 0
      ensures Concluded(outcome)
    {
      NoFinalMeans();
    }

    lemma NoFinalMeans()
      requires NoFinal(log)
      ensures log != [] ==> Last(log).kind != FinalNudge
      ensures CountKind(log, FinalNudge) == 0
    {
      NoFinalCount(log);
    }

    /** The rounds and, if they do not settle it, the final nudge. */
    method Finish(current: Response) returns (outcome: Outcome)
      requires Ready() && Unrenewed() && current == Answer(w, job, |log|) && current.calls != []
      requires CountKind(log, EmptyNudge) == |log| <= MAX_EMPTY_RETRIES && CountKind(log, Boost) == 0 &&
               CountKind(log, Round) == 0
      requires CountKind(log, FinalNudge) == 0
      modifies this
      ensures Concluded(outcome) && CountKind(log, EmptyNudge) == |old(log)|
      ensures outcome.Returned? || outcome == LeaseLost || outcome == Raised || outcome == Unresolved
      ensures outcome.Returned? ==>
                outcome.response == Answer(w, job, |log|) && outcome.response.calls == [] && |log| > |old(log)|
    {
      hide Bookkept;
      hide Interrupted;
      hide LeasesHeld;
      hide BatchBroke;
      hide Cleared;
      hide Paced;
      hide AllJustified;
      hide AllTurnsDone;
      hide HandledFor;
      hide LastMark;
      hide Settled;
      hide Appends;
      hide NoFinal;
      hide Quiet;
      hide CountKind;
      hide Answer;
      hide Base;
      var stopped, executed := RunRounds(current);
      NoFinalMeans();
      if stopped.Some? {
        return stopped.value;
      }
      InterruptedMeans(None);
      var reply := SendFinalNudge(executed);
      outcome := if reply.None? || reply.value.calls != [] then Unresolved else Returned(reply.value);
      GoesOn(Some(outcome));
    }

    method RunLoop() returns (outcome: Outcome)
      requires Initial()
      modifies this
      ensures Concluded(outcome)
      ensures outcome == BadLimit <==> job.maxRounds < 1 || job.maxRounds > 32
      ensures outcome == NoToolService <==> 1 <= job.maxRounds <= 32 && !job.hasTools && job.first.calls != []
      ensures outcome == BadLimit || outcome == NoToolService ==> log == []
      ensures outcome.Returned? ==>
                outcome.response == Answer(w, job, |log|) && outcome.response.calls == [] &&
                (IsEmpty(outcome.response) ==>
                  CountKind(log, EmptyNudge) == MAX_EMPTY_RETRIES || CountKind(log, EmptyNudge) < |log|)
      ensures outcome.Returned? && CountKind(log, EmptyNudge) == |log| && job.declared != [] &&
              job.nativeUnsupported ==>
                log == [] && !IsBlank(job.first.content)
      ensures outcome == TextProtocol ==>
                Answer(w, job, |log|).calls == [] && job.declared != [] && job.nativeUnsupported &&
                CountKind(log, EmptyNudge) == |log| && messages == Base(job, log, |log|)
    {
      hide Bookkept;
      hide AllJustified;
      hide AllTurnsDone;
      hide HandledFor;
      hide Concluded;
      hide Interrupted;
      hide LeasesHeld;
      hide Paced;
      hide ChildBound;
      hide Settled;
      hide IsBlank;
      hide NoFinal;
      hide Quiet;
      hide CountKind;
      hide Answer;
      hide Base;
      hide Marked;
      StartIsReady();
      if job.maxRounds < 1 || job.maxRounds > 32 {
        GoesOn(Some(BadLimit));
        EndsEarly(BadLimit);
        return BadLimit;
      }
      if job.first.calls == [] && !IsBlank(job.first.content) {
        GoesOn(Some(Returned(job.first)));
        EndsEarly(Returned(job.first));
        return Returned(job.first);
      }
      if !job.hasTools && job.first.calls != [] {
        GoesOn(Some(NoToolService));
        EndsEarly(NoToolService);
        return NoToolService;
      }
      var current, stopped := NudgeWhileEmpty();
      if stopped.Some? {
        EndsEarly(stopped.value);
        return stopped.value;
      }
      if current.calls == [] {
        outcome := if job.declared != [] && job.nativeUnsupported then TextProtocol else Returned(current);
        InterruptedMeans(None);
        GoesOn(Some(outcome));
        EndsEarly(outcome);
        return;
      }
      NoFinalMeans();
      outcome := Finish(current);
    }

    /** The loop. Whatever happens, every request was the one its kind stands for, no request but
        the final nudge was sent once a signature had failed five times, every call of every
        round was dealt with and only legitimate invocations were made, and the loop's own
        requests number at most the rounds plus five. */
    method Run() returns (outcome: Outcome)
      requires Initial()
      modifies this
      ensures AllJustified(w, job, log) && AllTurnsDone(w, job, log, handled)
      ensures AllDealtWith(w, job, invoked, childLog, handled)
      ensures BreakerHeld(log, FailuresOf(w, invoked))
      ensures AllLegitimate(w, job, log, invoked) && AllPaired(childLog)
      ensures |childLog| <= 4 * (DelegatedCalls(job, handled) + if outcome == Raised then 1 else 0)
      ensures Paced(w, job, log, handled, renewed) && Interrupted(Some(outcome))
      ensures |log| <= job.maxRounds + 5
      ensures CountKind(log, EmptyNudge) <= 2 && CountKind(log, Boost) <= 2
      ensures CountKind(log, Round) <= job.maxRounds && CountKind(log, FinalNudge) <= 1
      ensures outcome == BadLimit <==> job.maxRounds < 1 || job.maxRounds > 32
      ensures outcome == NoToolService <==> 1 <= job.maxRounds <= 32 && !job.hasTools && job.first.calls != []
      ensures outcome == BadLimit || outcome == NoToolService ==> log == []
      ensures outcome.Returned? ==>
                outcome.response == Answer(w, job, |log|) && outcome.response.calls == [] &&
                (IsEmpty(outcome.response) ==>
                  CountKind(log, EmptyNudge) == 2 || CountKind(log, EmptyNudge) < |log|)
      ensures outcome.Returned? && CountKind(log, EmptyNudge) == |log| && job.declared != [] &&
              job.nativeUnsupported ==>
                log == [] && !IsBlank(job.first.content)
      ensures outcome == TextProtocol ==>
                Answer(w, job, |log|).calls == [] && job.declared != [] && job.nativeUnsupported &&
                CountKind(log, EmptyNudge) == |log| && messages == Base(job, log, |log|)
      ensures outcome == Unresolved <==>
                log != [] && Last(log).kind == FinalNudge &&
                (w.reply(|log| - 1).None? || w.reply(|log| - 1).value.calls != [])
      ensures log != [] && Last(log).kind == FinalNudge ==>
                CountKind(log, Round) == job.maxRounds ||
                exists s :: Fails(FailuresOf(w, invoked), |log|, s) >= 5
    {
      hide Bookkept;
      hide AllJustified;
      hide AllTurnsDone;
      hide AllLegitimate;
      hide AllDealtWith;
      hide FailuresOf;
      hide DelegatedCalls;
      hide ChildBound;
      hide AllPaired;
      hide BreakerHeld;
      hide Interrupted;
      hide Paced;
      hide Fails;
      hide CountKind;
      hide Answer;
      hide Base;
      hide IsEmpty;
      outcome := RunLoop();
      ConcludedMeans(outcome);
    }
  }

  // ---------------------------------------------------------------------------------------
  // A delegation that takes its parent down
  // ---------------------------------------------------------------------------------------

  const DELEGATION := Call(DELEGATE, "1", "")

  /** A model that asks for one delegation, whose `tools` is a number. */
  const PARENT := Job([], Response("", [DELEGATION], false), [], 1, 100, true, false, true, 0, false)

  /** The provider, the tools and the lease would all do their part. */
  const SURROUNDINGS := World(
    n => Some(Response("done", [], false)), n => Some(Response("done", [], false)), n => Done(""), (n, call) => Allowed,
    n => true, text => Object, text => Given("x", None))

  lemma {:induction false} NoneFailed(invoked: seq<Invocation>)
    ensures FailuresOf(SURROUNDINGS, invoked) == []
  {
    if invoked != [] {
      NoneFailed(Front(invoked));
    }
  }

  lemma IsAccepted()
    ensures Accepts(PARENT, Given("x", None))
  {
    assert Strip("x") == "x";
  }

  lemma NotDealtWith(invoked: seq<Invocation>, childLog: seq<seq<Message>>, h: Handled)
    requires DealtWith(SURROUNDINGS, PARENT, invoked, childLog, h)
    ensures h.call != DELEGATION
  {
    hide Accepts;
    IsAccepted();
  }

  lemma {:induction false} OthersOnly(invoked: seq<Invocation>, childLog: seq<seq<Message>>, handled: seq<Handled>,
                                      n: nat)
    requires forall k :: 0 <= k < |handled| ==> DealtWith(SURROUNDINGS, PARENT, invoked, childLog, handled[k])
    ensures DELEGATION !in CallsOf(HandledFor(handled, n))
  {
    hide DealtWith;
    if handled != [] {
      OthersOnly(invoked, childLog, Front(handled), n);
      NotDealtWith(invoked, childLog, Last(handled));
      assert CallsOf(HandledFor(handled, n)) ==
             CallsOf(HandledFor(Front(handled), n)) + if Last(handled).at == n then [Last(handled).call] else [];
    }
  }

  lemma FirstIsFinal(log: seq<Request>, handled: seq<Handled>)
    requires log != [] && Justified(SURROUNDINGS, PARENT, log, 0) && TurnDone(SURROUNDINGS, PARENT, log, handled, 0)
    requires DELEGATION !in CallsOf(HandledFor(handled, 0))
    ensures |log| == 1 && log[0].kind == FinalNudge && CountKind(log, Round) == 0
  {
    hide Appends;
    hide HandledFor;
    hide CallsOf;
    hide TurnOf;
    FirstAnswer(SURROUNDINGS, PARENT);
    assert DELEGATION in PARENT.first.calls;
    assert log[0].kind == FinalNudge ==> Front(log) == [];
  }

  lemma NoRequestFollows(log: seq<Request>, invoked: seq<Invocation>, childLog: seq<seq<Message>>,
                         handled: seq<Handled>)
    requires AllJustified(SURROUNDINGS, PARENT, log) && AllTurnsDone(SURROUNDINGS, PARENT, log, handled)
    requires AllDealtWith(SURROUNDINGS, PARENT, invoked, childLog, handled)
    requires log != [] && Last(log).kind == FinalNudge ==>
               CountKind(log, Round) == 1 ||
               exists s :: Fails(FailuresOf(SURROUNDINGS, invoked), |log|, s) >= ABORT_THRESHOLD
    ensures log == []
  {
    hide Justified;
    hide TurnDone;
    hide DealtWith;
    hide FailuresOf;
    hide HandledFor;
    hide CallsOf;
    hide CountKind;
    NoneFailed(invoked);
    if log != [] {
      OthersOnly(invoked, childLog, handled, 0);
      FirstIsFinal(log, handled);
    }
  }

  /** The task fails on that one response, though nothing around it failed. */
  method ANumberCrashesTheParent() returns (outcome: Outcome, sent: nat)
    ensures outcome == Raised && sent == 0
  {
    hide AllDealtWith;
    hide AllJustified;
    hide AllTurnsDone;
    hide BatchBroke;
    hide Paced;
    hide Fails;
    hide CountKind;
    var rounds := new ToolRounds(SURROUNDINGS, PARENT);
    outcome := rounds.Run();
    NoRequestFollows(rounds.log, rounds.invoked, rounds.childLog, rounds.handled);
    sent := |rounds.log|;
    assert rounds.renewed != [] ==> SURROUNDINGS.leaseHeld(|rounds.renewed| - 1);
  }

  // ---------------------------------------------------------------------------------------
  // The chat turn
  // ---------------------------------------------------------------------------------------

  datatype Turn = Turn(role: string, content: string)

  predicate IsPlain(turn: Turn) {
    (turn.role == "user" || turn.role == "assistant") && turn.content != ""
  }

  /** Prior turns reach the wire only as plain user and assistant text. */
  function Sanitized(history: seq<Turn>): seq<Message> {
    if history == [] then []
    else
      Sanitized(Front(history)) +
      if !IsPlain(Last(history)) then []
      else if Last(history).role == "user" then [User(Last(history).content)]
      else [Assistant(Last(history).content, [])]
  }

  lemma {:induction false} SanitizedIsPaired(history: seq<Turn>)
    ensures Paired(Sanitized(history))
  {
    hide Paired;
    EmptyIsPaired();
    if history != [] {
      SanitizedIsPaired(Front(history));
      var content := Last(history).content;
      NudgesArePaired(content, content);
      PlainIsPaired(content);
      PairedConcat(Sanitized(Front(history)), [User(content)]);
      PairedConcat(Sanitized(Front(history)), [Assistant(content, [])]);
      assert Sanitized(Front(history)) + [] == Sanitized(Front(history));
    }
  }

  lemma PlainIsPaired(content: string)
    ensures Paired([Assistant(content, [])])
  {
    var one := [Assistant(content, [])];
    assert one[1..1] == [] && one[1..] == [];
  }

  datatype ChatRequest = ChatRequest(messages: seq<Message>, offersTools: bool)

  /** One chat turn's surroundings. `result` gives the text of the nth tool result. Under the text
      protocol a call is found in the response's text, and `strip` takes the markers out. */
  datatype Chat = Chat(
    reply: nat -> Option<Response>,
    result: nat -> string,
    textProtocol: bool,
    hasTextCall: string -> bool,
    strip: string -> string,
    hasTools: bool)

  datatype ChatOutcome = RefusedTurn | ProviderFailed | Answered(response: Response)

  const MAX_CHAT_ROUNDS := 8

  /** The response asks for a tool. */
  predicate AsksTool(c: Chat, response: Response) {
    if c.textProtocol then c.hasTextCall(response.content) else response.calls != []
  }

  /** The results of the response's calls, the first of them being result `k` of the turn. */
  function ResultsOf(c: Chat, response: Response, k: nat): (results: seq<Message>)
    ensures |results| == |response.calls|
    ensures forall i :: 0 <= i < |results| ==> results[i] == Tool(c.result(k + i), response.calls[i].id)
  {
    seq(|response.calls|, i requires 0 <= i < |response.calls| => Tool(c.result(k + i), response.calls[i].id))
  }

  /** What a response that asks for tools adds to the history. */
  function Added(c: Chat, response: Response, k: nat): seq<Message> {
    if c.textProtocol then [Assistant(c.strip(response.content), []), User(c.result(k))]
    else [Assistant(response.content, response.calls)] + ResultsOf(c, response, k)
  }

  function Ran(c: Chat, response: Response): nat {
    if c.textProtocol then 1 else |response.calls|
  }

  /** Tool results before request n. */
  function ResultsBefore(c: Chat, n: nat): nat {
    if n == 0 then 0
    else ResultsBefore(c, n - 1) + if c.reply(n - 1).Some? then Ran(c, c.reply(n - 1).value) else 0
  }

  /** The history of request n: the prior turns, the message, and what each response added. */
  function ChatHistory(c: Chat, start: seq<Message>, n: nat): seq<Message> {
    if n == 0 then start
    else
      ChatHistory(c, start, n - 1) +
      if c.reply(n - 1).Some? then Added(c, c.reply(n - 1).value, ResultsBefore(c, n - 1)) else []
  }

  function ChatStart(history: seq<Turn>, message: string): seq<Message> {
    Sanitized(history) + [User(message)]
  }

  lemma AddedIsPaired(c: Chat, response: Response, k: nat)
    ensures Paired(Added(c, response, k))
  {
    if c.textProtocol {
      NudgesArePaired(c.strip(response.content), c.result(k));
    } else {
      assert Added(c, response, k)[1..] == ResultsOf(c, response, k);
      TurnIsPaired(Added(c, response, k), response);
    }
  }

  /** Every request of a chat turn is well paired, under both protocols. */
  lemma {:induction false} ChatHistoryIsPaired(c: Chat, history: seq<Turn>, message: string, n: nat)
    ensures Paired(ChatHistory(c, ChatStart(history, message), n))
  {
    hide Paired;
    hide Added;
    hide Sanitized;
    if n == 0 {
      SanitizedIsPaired(history);
      NudgesArePaired("", message);
      PairedConcat(Sanitized(history), [User(message)]);
    } else {
      var before := ChatHistory(c, ChatStart(history, message), n - 1);
      ChatHistoryIsPaired(c, history, message, n - 1);
      if c.reply(n - 1).Some? {
        AddedIsPaired(c, c.reply(n - 1).value, ResultsBefore(c, n - 1));
        PairedConcat(before, Added(c, c.reply(n - 1).value, ResultsBefore(c, n - 1)));
      } else {
        assert before + [] == before;
      }
    }
  }

  /** Request n of a turn: the whole history so far, well paired, with tools unless it is the last
      possible one or the text protocol is in use. */
  ghost predicate IsChatRequest(c: Chat, start: seq<Message>, maxRounds: int, request: ChatRequest, n: nat) {
    request.messages == ChatHistory(c, start, n) && Paired(request.messages) &&
    (request.offersTools <==> n < maxRounds && !c.textProtocol)
  }

  /** The loop went on after response n, which asked for a tool. */
  predicate WentOn(c: Chat, n: nat) {
    c.reply(n).Some? && AsksTool(c, c.reply(n).value)
  }

  lemma OneMoreReply(c: Chat, start: seq<Message>, n: nat)
    requires c.reply(n).Some?
    ensures ChatHistory(c, start, n + 1) == ChatHistory(c, start, n) + Added(c, c.reply(n).value, ResultsBefore(c, n))
    ensures ResultsBefore(c, n + 1) == ResultsBefore(c, n) + Ran(c, c.reply(n).value)
  {
    hide Added;
    hide Ran;
  }

  /** The loop of one chat turn: at most maxRounds + 1 requests, each well paired and going on from
      the one before with exactly what its response added, the last possible one without tools.
      It ends with the first response that asks for no tool, when the rounds are used up, when
      no tool service is wired, or when the provider raises. */
  method CompleteTurn(c: Chat, history: seq<Turn>, message: string, maxRounds: int)
    returns (outcome: ChatOutcome, log: seq<ChatRequest>)
    ensures outcome == RefusedTurn <==> IsBlank(message) || maxRounds < 0 || maxRounds > 8
    ensures outcome == RefusedTurn ==> log == []
    ensures outcome != RefusedTurn ==> 1 <= |log| <= maxRounds + 1
    ensures forall n :: 0 <= n < |log| ==> IsChatRequest(c, ChatStart(history, message), maxRounds, log[n], n)
    ensures forall n :: 0 <= n < |log| - 1 ==> WentOn(c, n)
    ensures outcome == ProviderFailed ==> c.reply(|log| - 1).None?
    ensures outcome.Answered? ==>
              var last := c.reply(|log| - 1);
              last.Some? &&
              outcome.response == (if c.textProtocol then last.value.(content := c.strip(last.value.content))
                                   else last.value) &&
              (!AsksTool(c, last.value) || |log| == maxRounds + 1 || (!c.hasTools && !c.textProtocol))
  {
    hide Paired;
    hide ChatStart;
    hide ChatHistory;
    hide ResultsBefore;
    hide Added;
    hide IsBlank;
    log := [];
    if IsBlank(message) || maxRounds < 0 || maxRounds > MAX_CHAT_ROUNDS {
      return RefusedTurn, [];
    }
    var messages, executed, round := ChatStart(history, message), 0, 0;
    ChatBegins(c, messages);
    while true
      invariant |log| == round <= maxRounds && messages == ChatHistory(c, ChatStart(history, message), round)
      invariant executed == ResultsBefore(c, round)
      invariant forall n :: 0 <= n < |log| ==> IsChatRequest(c, ChatStart(history, message), maxRounds, log[n], n)
      invariant forall n :: 0 <= n < |log| ==> WentOn(c, n)
      decreases maxRounds - round
    {
      ChatHistoryIsPaired(c, history, message, round);
      log := log + [ChatRequest(messages, round < maxRounds && !c.textProtocol)];
      var reply := c.reply(round);
      if reply.None? {
        return ProviderFailed, log;
      }
      var response := reply.value;
      if c.textProtocol {
        if round == maxRounds || !c.hasTextCall(response.content) {
          return Answered(response.(content := c.strip(response.content))), log;
        }
      } else if response.calls == [] || round == maxRounds || !c.hasTools {
        return Answered(response), log;
      }
      OneMoreReply(c, ChatStart(history, message), round);
      var added;
      added, executed := RunTools(c, response, executed);
      messages := messages + added;
      round := round + 1;
    }
  }

  lemma ChatBegins(c: Chat, start: seq<Message>)
    ensures ChatHistory(c, start, 0) == start && ResultsBefore(c, 0) == 0
  {
  }

  /** Runs what the response asks for, and gives the messages it adds. */
  method RunTools(c: Chat, response: Response, executed: nat) returns (added: seq<Message>, now: nat)
    ensures added == Added(c, response, executed) && now == executed + Ran(c, response)
  {
    if c.textProtocol {
      return [Assistant(c.strip(response.content), []), User(c.result(executed))], executed + 1;
    }
    var results := ExecuteCalls(c, response, executed);
    return [Assistant(response.content, response.calls)] + results, executed + |response.calls|;
  }

  method ExecuteCalls(c: Chat, response: Response, executed: nat) returns (results: seq<Message>)
    ensures results == ResultsOf(c, response, executed)
  {
    results := [];
    for k := 0 to |response.calls|
      invariant |results| == k
      invariant forall i :: 0 <= i < k ==> results[i] == Tool(c.result(executed + i), response.calls[i].id)
    {
      results := results + [Tool(c.result(executed + k), response.calls[k].id)];
    }
  }
}
