/**
 The per-call tool approval gate: a hardline floor, session grants kept in the process, deny
 rules, standing allows and a queue of pending requests kept in a durable table.

 A row's id is its position in the table, which only grows. The argument hash, the hardline
 patterns and the read-only triage are parameters, and so is the local time zone: creation
 times are written in UTC and read back as local time.
*/
module ApprovalGate {
  import opened Prelude

  datatype Mode = Off | Manual | Auto

  datatype Grain = Once | Session | Always

  datatype Decision = Allow | Deny

  datatype Row = Row(
    project: string,
    execution: Option<string>,
    tool: string,
    argsHash: string,
    grain: Grain,
    decision: Option<Decision>,
    decidedBy: Option<string>,
    reason: Option<string>,
    createdAt: int,
    resolvedAt: Option<int>)

  datatype Call = Call(project: string, execution: Option<string>, tool: string, input: string)

  datatype Grant = Grant(project: string, execution: string, tool: string)

  /** What the gate takes as given. `zone` is the number of seconds local time is ahead of UTC. */
  datatype Rules = Rules(
    hash: string -> string,
    hardline: (string, string) -> bool,
    readOnly: (string, string) -> bool,
    zone: int)

  datatype Outcome = Allowed | Denied | Pending

  datatype Verdict = Verdict(outcome: Outcome, request: Option<nat>)

  datatype State = State(mode: Mode, ttl: real, rows: seq<Row>, grants: set<Grant>)

  // ---------------------------------------------------------------------------------------
  // Table queries
  // ---------------------------------------------------------------------------------------

  predicate DenyRule(r: Row, c: Call, h: string) {
    r.project == c.project && r.tool == c.tool && r.decision == Some(Deny) && r.grain != Session &&
    (r.argsHash == h || r.argsHash == "")
  }

  predicate StandingAllow(r: Row, c: Call, h: string) {
    r.project == c.project && r.tool == c.tool && r.decision == Some(Allow) && r.grain == Always && r.argsHash == h
  }

  predicate Waiting(r: Row, c: Call, h: string) {
    r.project == c.project && r.tool == c.tool && r.argsHash == h && r.decision == None && r.execution == c.execution
  }

  /** The three lookups of the decision table, for a call and an argument hash. */
  datatype Query = Denials(c: Call, h: string) | Allows(c: Call, h: string) | Requests(c: Call, h: string)

  predicate Matches(q: Query, r: Row) {
    match q
    case Denials(c, h) => DenyRule(r, c, h)
    case Allows(c, h) => StandingAllow(r, c, h)
    case Requests(c, h) => Waiting(r, c, h)
  }

  /** The matching row with the latest creation time. */
  function Newest(rows: seq<Row>, q: Query): (i: Option<nat>)
    ensures i.Some? ==> i.value < |rows| && Matches(q, rows[i.value])
    ensures i.Some? ==>
              forall j :: 0 <= j < |rows| && Matches(q, rows[j]) ==> rows[j].createdAt <= rows[i.value].createdAt
    ensures i.None? ==> forall j :: 0 <= j < |rows| ==> !Matches(q, rows[j])
  {
    if rows == [] then None
    else
      var before := Newest(Front(rows), q);
      if Matches(q, Last(rows)) && (before.None? || Front(rows)[before.value].createdAt <= Last(rows).createdAt)
      then Some(|rows| - 1)
      else before
  }

  /** An undecided request is fresh while its age, as the gate computes it, is below the TTL. */
  predicate Fresh(r: Row, rules: Rules, ttl: real, now: real) {
    now - (r.createdAt - rules.zone) as real < ttl
  }

  // ---------------------------------------------------------------------------------------
  // Operations
  // ---------------------------------------------------------------------------------------

  function Covering(c: Call): Grant {
    Grant(c.project, if c.execution.Some? then c.execution.value else "", c.tool)
  }

  function NewRequest(c: Call, h: string, now: real): Row {
    Row(c.project, c.execution, c.tool, h, Once, None, None, None, now.Floor, None)
  }

  /** `_resolve_stored` with no decision: what closes out an expired request. */
  function CloseOut(r: Row): Row {
    r.(grain := Once, decision := None, decidedBy := None, resolvedAt := None)
  }

  function Evaluate(st: State, rules: Rules, c: Call, now: real): (Verdict, State) {
    var h := rules.hash(c.input);
    var deny := Newest(st.rows, Denials(c, h));
    var exact := Newest(st.rows, Allows(c, h));
    var wide := Newest(st.rows, Allows(c, ""));
    if st.mode == Off then (Verdict(Allowed, None), st)
    else if rules.hardline(c.tool, c.input) then (Verdict(Denied, None), st)
    else if Covering(c) in st.grants then (Verdict(Allowed, None), st)
    else if deny.Some? then (Verdict(Denied, deny), st)
    else if st.mode == Auto then (Verdict(Allowed, None), st)
    else if rules.readOnly(c.tool, c.input) then (Verdict(Allowed, None), st)
    else if exact.Some? then (Verdict(Allowed, exact), st)
    else if wide.Some? then (Verdict(Allowed, wide), st)
    else Ask(st, rules, c, h, now)
  }

  /** Reuse the newest waiting request while it is fresh; otherwise close it out and ask anew. */
  function Ask(st: State, rules: Rules, c: Call, h: string, now: real): (Verdict, State) {
    var waiting := Newest(st.rows, Requests(c, h));
    if waiting.Some? && Fresh(st.rows[waiting.value], rules, st.ttl, now)
    then (Verdict(Pending, waiting), st)
    else
      var rows := if waiting.Some? then st.rows[waiting.value := CloseOut(st.rows[waiting.value])] else st.rows;
      (Verdict(Pending, Some(|rows|)), st.(rows := rows + [NewRequest(c, h, now)]))
  }

  /** A verdict a human gives on a request. */
  datatype Ruling = Ruling(decision: Decision, grain: Grain, actor: Option<string>, reason: Option<string>)

  datatype ResolveResult = NotFound | Conflict | Resolved(row: Row)

  function Rule(r: Row, v: Ruling, now: real): Row {
    r.(decision := Some(v.decision), decidedBy := v.actor, grain := if v.decision == Allow then v.grain else Once,
       reason := if v.reason.Some? then v.reason else r.reason, resolvedAt := Some(now.Floor))
  }

  function Wildcard(r: Row): Row {
    r.(execution := None, argsHash := "", grain := Always, decision := Some(Deny))
  }

  function Resolve(st: State, id: nat, v: Ruling, now: real): (ResolveResult, State) {
    if id >= |st.rows| then (NotFound, st)
    else
      var r := st.rows[id];
      if r.decision.Some? then (Resolved(r), st)
      else
        var ruled := Rule(r, v, now);
        if ruled.grain == Always && exists i | 0 <= i < |st.rows| ::
             StandingAllow(st.rows[i], Call(r.project, None, r.tool, ""), r.argsHash)
        then (Conflict, st)
        else
          var rows := st.rows[id := ruled];
          var grants := if v.decision == Allow && v.grain == Session
                        then st.grants + {Covering(Call(r.project, r.execution, r.tool, ""))} else st.grants;
          var tool := if v.decision == Deny && v.grain == Always then rows + [Wildcard(ruled)] else rows;
          (Resolved(ruled), st.(rows := tool, grants := grants))
  }

  datatype Op =
    | DoEvaluate(call: Call, now: real)
    | DoResolve(id: nat, ruling: Ruling, now: real)
    | DoSetMode(mode: Mode)
    | DoSetTtl(ttl: real)
    | DoRestart(mode: Mode, ttl: real)

  /** One step of the gate's life. A restart keeps only the durable table. */
  function Step(st: State, rules: Rules, op: Op): State {
    match op
    case DoEvaluate(c, now) => Evaluate(st, rules, c, now).1
    case DoResolve(id, v, now) => Resolve(st, id, v, now).1
    case DoSetMode(mode) => st.(mode := mode)
    case DoSetTtl(ttl) => if ttl <= 0.0 then st else st.(ttl := ttl)
    case DoRestart(mode, ttl) => State(mode, ttl, st.rows, {})
  }

  function Run(st: State, rules: Rules, ops: seq<Op>): State {
    if ops == [] then st else Step(Run(st, rules, Front(ops)), rules, Last(ops))
  }

  // ---------------------------------------------------------------------------------------
  // Decided rows are for ever
  // ---------------------------------------------------------------------------------------

  /** Later tables keep every row's identity, and every decided row as it is. */
  ghost predicate Keeps(before: seq<Row>, after: seq<Row>) {
    |before| <= |after| &&
    forall i :: 0 <= i < |before| ==>
      (before[i].decision.Some? ==> after[i] == before[i]) &&
      after[i].project == before[i].project && after[i].tool == before[i].tool &&
      after[i].argsHash == before[i].argsHash && after[i].execution == before[i].execution &&
      after[i].createdAt == before[i].createdAt
  }

  lemma StepKeeps(st: State, rules: Rules, op: Op)
    ensures Keeps(st.rows, Step(st, rules, op).rows)
  {
    hide Newest;
    hide DenyRule;
    hide StandingAllow;
  }

  lemma {:induction false} RunKeeps(st: State, rules: Rules, ops: seq<Op>)
    ensures Keeps(st.rows, Run(st, rules, ops).rows)
  {
    if ops != [] {
      RunKeeps(st, rules, Front(ops));
      StepKeeps(Run(st, rules, Front(ops)), rules, Last(ops));
    }
  }

  /** Once a deny rule matches a call, after any further run an evaluation of such a call is
      denied exactly when the mode is not off and no session grant covers it or the hardline
      floor catches it. Decided rows are never rewritten, and a restart does not lose them. */
  lemma DenyOutlivesEveryRun(st: State, rules: Rules, i: nat, ops: seq<Op>, c: Call, now: real)
    requires i < |st.rows| && DenyRule(st.rows[i], c, rules.hash(c.input))
    ensures var later := Run(st, rules, ops);
            Evaluate(later, rules, c, now).0.outcome == Denied <==>
            later.mode != Off && (rules.hardline(c.tool, c.input) || !Covered(later.grants, c))
  {
    hide Covered;
    RunKeeps(st, rules, ops);
    CoveringCovers(Run(st, rules, ops).grants, c);
    assert DenyRule(Run(st, rules, ops).rows[i], c, rules.hash(c.input));
  }

  /** The hardline floor holds in every state outside off mode. */
  lemma HardlineFloor(st: State, rules: Rules, c: Call, now: real)
    requires rules.hardline(c.tool, c.input)
    ensures Evaluate(st, rules, c, now).0.outcome == Denied <==> st.mode != Off
  {
  }

  const PLAIN_RULES := Rules(input => input, (tool, input) => false, (tool, input) => false, 0)
  const CALL_A := Call("p", Some("e"), "t", "a")
  const CALL_B := Call("p", Some("e"), "t", "b")
  const DENY_ONCE := Ruling(Deny, Once, None, None)
  const ALLOW_SESSION := Ruling(Allow, Session, None, None)
  const FRESH_GATE := State(Manual, 60.0, [], {})

  /** The gate after two calls were asked about, the first denied, the second allowed for the session. */
  function Contradicted(): State {
    var a, b := NewRequest(CALL_A, "a", 0.0), NewRequest(CALL_B, "b", 0.0);
    State(Manual, 60.0, [Rule(a, DENY_ONCE, 0.0), Rule(b, ALLOW_SESSION, 0.0)], {Grant("p", "e", "t")})
  }

  lemma TwoAsked()
    ensures Evaluate(Evaluate(FRESH_GATE, PLAIN_RULES, CALL_A, 0.0).1, PLAIN_RULES, CALL_B, 0.0).1 ==
            State(Manual, 60.0, [NewRequest(CALL_A, "a", 0.0), NewRequest(CALL_B, "b", 0.0)], {})
  {
    var a, b := NewRequest(CALL_A, "a", 0.0), NewRequest(CALL_B, "b", 0.0);
    assert Evaluate(FRESH_GATE, PLAIN_RULES, CALL_A, 0.0).1 == State(Manual, 60.0, [a], {});
    var mid := State(Manual, 60.0, [a], {});
    assert forall q :: !Matches(Denials(CALL_B, q), a) && !Matches(Allows(CALL_B, q), a);
    assert !Matches(Requests(CALL_B, "b"), a);
    assert [a] + [b] == [a, b];
  }

  lemma BothRuled()
    ensures var asked := State(Manual, 60.0, [NewRequest(CALL_A, "a", 0.0), NewRequest(CALL_B, "b", 0.0)], {});
            Resolve(Resolve(asked, 0, DENY_ONCE, 0.0).1, 1, ALLOW_SESSION, 0.0).1 == Contradicted()
  {
    var a, b := NewRequest(CALL_A, "a", 0.0), NewRequest(CALL_B, "b", 0.0);
    var asked := State(Manual, 60.0, [a, b], {});
    assert Resolve(asked, 0, DENY_ONCE, 0.0).1 == State(Manual, 60.0, [Rule(a, DENY_ONCE, 0.0), b], {});
  }

  /** A run after which a denied call is allowed: a session grant for the tool, given for another
      call of the same execution, is looked at before the deny row. */
  lemma AGrantOverridesADenial()
    ensures var ops := [DoEvaluate(CALL_A, 0.0), DoEvaluate(CALL_B, 0.0),
                        DoResolve(0, DENY_ONCE, 0.0), DoResolve(1, ALLOW_SESSION, 0.0)];
            var st := Run(FRESH_GATE, PLAIN_RULES, ops);
            |st.rows| == 2 && DenyRule(st.rows[0], CALL_A, "a") && st.mode == Manual &&
            Evaluate(st, PLAIN_RULES, CALL_A, 0.0).0 == Verdict(Allowed, None)
  {
    hide Evaluate;
    hide Resolve;
    var ops := [DoEvaluate(CALL_A, 0.0), DoEvaluate(CALL_B, 0.0), DoResolve(0, DENY_ONCE, 0.0),
                DoResolve(1, ALLOW_SESSION, 0.0)];
    var three := Front(ops);
    var two := Front(three);
    assert two == [ops[0], ops[1]] && Front(two) == [ops[0]] && Front([ops[0]]) == [];
    TwoAsked();
    BothRuled();
    GrantComesFirst();
    assert Run(FRESH_GATE, PLAIN_RULES, [ops[0]]) == Evaluate(FRESH_GATE, PLAIN_RULES, CALL_A, 0.0).1;
    var asked := Run(FRESH_GATE, PLAIN_RULES, two);
    assert asked == Evaluate(Evaluate(FRESH_GATE, PLAIN_RULES, CALL_A, 0.0).1, PLAIN_RULES, CALL_B, 0.0).1;
    var denied := Run(FRESH_GATE, PLAIN_RULES, three);
    assert Last(three) == DoResolve(0, DENY_ONCE, 0.0) && denied == Resolve(asked, 0, DENY_ONCE, 0.0).1;
    assert Run(FRESH_GATE, PLAIN_RULES, ops) == Resolve(denied, 1, ALLOW_SESSION, 0.0).1;
  }

  lemma GrantComesFirst()
    ensures Evaluate(Contradicted(), PLAIN_RULES, CALL_A, 0.0).0 == Verdict(Allowed, None)
    ensures DenyRule(Contradicted().rows[0], CALL_A, "a")
  {
  }

  /** A session grant for the tool in the call's project and execution; no execution is its own. */
  ghost predicate Covered(grants: set<Grant>, c: Call) {
    exists g :: g in grants && g.project == c.project && g.tool == c.tool &&
                (if c.execution.Some? then g.execution == c.execution.value else g.execution == "")
  }

  lemma CoveringCovers(grants: set<Grant>, c: Call)
    ensures Covering(c) in grants <==> Covered(grants, c)
  {
    if g :| g in grants && g.project == c.project && g.tool == c.tool &&
            (if c.execution.Some? then g.execution == c.execution.value else g.execution == "") {
      assert g == Covering(c);
    }
  }

  /** Some row decides the call. */
  ghost predicate Decided(rows: seq<Row>, q: Query) {
    exists i :: 0 <= i < |rows| && Matches(q, rows[i])
  }

  /** The layers, said of the table as a whole. */
  ghost predicate MayRun(st: State, rules: Rules, c: Call) {
    st.mode == Off ||
    (!rules.hardline(c.tool, c.input) &&
     (Covered(st.grants, c) ||
      (!Decided(st.rows, Denials(c, rules.hash(c.input))) &&
       (st.mode == Auto || rules.readOnly(c.tool, c.input) ||
        Decided(st.rows, Allows(c, rules.hash(c.input))) || Decided(st.rows, Allows(c, ""))))))
  }

  ghost predicate MustNotRun(st: State, rules: Rules, c: Call) {
    st.mode != Off &&
    (rules.hardline(c.tool, c.input) ||
     (!Covered(st.grants, c) && Decided(st.rows, Denials(c, rules.hash(c.input)))))
  }

  /** The verdict, from the table as a whole: allowed, denied, or pending on an undecided request of
      just this call. Only a pending verdict can change the table, and then it adds one row. */
  lemma VerdictExactly(st: State, rules: Rules, c: Call, now: real)
    ensures var (verdict, after) := Evaluate(st, rules, c, now);
            (verdict.outcome == Allowed <==> MayRun(st, rules, c)) &&
            (verdict.outcome == Denied <==> MustNotRun(st, rules, c)) &&
            (verdict.outcome != Pending ==> after == st) &&
            (verdict.outcome == Pending ==>
              verdict.request.Some? && verdict.request.value < |after.rows| &&
              Waiting(after.rows[verdict.request.value], c, rules.hash(c.input)) &&
              (after == st || |after.rows| == |st.rows| + 1)) &&
            after.grants == st.grants && after.mode == st.mode && after.ttl == st.ttl
  {
    hide DenyRule;
    hide StandingAllow;
    hide Waiting;
    hide Fresh;
    hide Covering;
    hide Covered;
    CoveringCovers(st.grants, c);
    var h := rules.hash(c.input);
    FoundIffDecided(st.rows, Denials(c, h));
    FoundIffDecided(st.rows, Allows(c, h));
    FoundIffDecided(st.rows, Allows(c, ""));
    AskedForThis(st, rules, c, h, now);
  }

  lemma FoundIffDecided(rows: seq<Row>, q: Query)
    ensures Newest(rows, q).Some? <==> Decided(rows, q)
  {
    if Newest(rows, q).Some? {
      assert Matches(q, rows[Newest(rows, q).value]);
    }
  }

  lemma AskedForThis(st: State, rules: Rules, c: Call, h: string, now: real)
    ensures var (verdict, after) := Ask(st, rules, c, h, now);
            verdict.outcome == Pending && verdict.request.Some? && verdict.request.value < |after.rows| &&
            Waiting(after.rows[verdict.request.value], c, h) && (after == st || |after.rows| == |st.rows| + 1) &&
            after.grants == st.grants && after.mode == st.mode && after.ttl == st.ttl
  {
    var waiting := Newest(st.rows, Requests(c, h));
    if waiting.Some? {
      assert Matches(Requests(c, h), st.rows[waiting.value]);
    }
  }

  /** A permanent denial of one request denies the tool for every argument shape at once. */
  lemma PermanentDenialIsToolWide(st: State, rules: Rules, id: nat, v: Ruling, at: real, ops: seq<Op>, c: Call,
                                  now: real)
    requires id < |st.rows| && st.rows[id].decision.None?
    requires v.decision == Deny && v.grain == Always
    requires c.project == st.rows[id].project && c.tool == st.rows[id].tool
    ensures var later := Run(Resolve(st, id, v, at).1, rules, ops);
            Evaluate(later, rules, c, now).0.outcome == Denied <==>
            later.mode != Off && (rules.hardline(c.tool, c.input) || !Covered(later.grants, c))
  {
    var after := Resolve(st, id, v, at).1;
    assert DenyRule(after.rows[|st.rows|], c, rules.hash(c.input));
    DenyOutlivesEveryRun(after, rules, |st.rows|, ops, c, now);
  }

  // ---------------------------------------------------------------------------------------
  // One request per window
  // ---------------------------------------------------------------------------------------

  predicate SameRequest(a: Row, b: Row) {
    a.project == b.project && a.execution == b.execution && a.tool == b.tool && a.argsHash == b.argsHash &&
    a.decision == None && b.decision == None
  }

  /** Of two undecided rows for the same request, the older one is stale. */
  ghost predicate OnlyNewestFresh(st: State, rules: Rules, now: real) {
    forall i, j :: 0 <= i < j < |st.rows| && SameRequest(st.rows[i], st.rows[j]) ==>
      !Fresh(st.rows[i], rules, st.ttl, now)
  }

  function Instant(op: Op, otherwise: real): real {
    match op
    case DoEvaluate(_, now) => now
    case DoResolve(_, _, now) => now
    case _ => otherwise
  }

  /** The TTL stays put and the clock does not run back past `clock`. */
  predicate Steady(op: Op, ttl: real, clock: real) {
    Instant(op, clock) >= clock && !op.DoSetTtl? && (op.DoRestart? ==> op.ttl == ttl)
  }

  lemma AskKeepsOneFresh(st: State, rules: Rules, c: Call, now: real)
    requires OnlyNewestFresh(st, rules, now)
    ensures var after := Ask(st, rules, c, rules.hash(c.input), now).1;
            OnlyNewestFresh(after, rules, now)
  {
    var h := rules.hash(c.input);
    var waiting := Newest(st.rows, Requests(c, h));
    var after := Ask(st, rules, c, h, now).1;
    if after != st {
      forall i, j | 0 <= i < j < |after.rows| && SameRequest(after.rows[i], after.rows[j])
        ensures !Fresh(after.rows[i], rules, st.ttl, now)
      {
        if j == |st.rows| {
          assert Waiting(st.rows[i], c, h);
          assert st.rows[i].createdAt <= st.rows[waiting.value].createdAt;
        } else {
          assert SameRequest(st.rows[i], st.rows[j]);
        }
      }
    }
  }

  lemma ResolveKeepsOneFresh(st: State, rules: Rules, id: nat, v: Ruling, at: real, now: real)
    requires OnlyNewestFresh(st, rules, now)
    ensures OnlyNewestFresh(Resolve(st, id, v, at).1, rules, now)
  {
    var after := Resolve(st, id, v, at).1;
    forall i, j | 0 <= i < j < |after.rows| && SameRequest(after.rows[i], after.rows[j])
      ensures !Fresh(after.rows[i], rules, st.ttl, now)
    {
      assert j < |st.rows| ==> SameRequest(st.rows[i], st.rows[j]);
    }
  }

  lemma StepKeepsOneFresh(st: State, rules: Rules, op: Op, clock: real)
    requires OnlyNewestFresh(st, rules, clock)
    requires Steady(op, st.ttl, clock)
    ensures OnlyNewestFresh(Step(st, rules, op), rules, Instant(op, clock))
    ensures Step(st, rules, op).ttl == st.ttl
  {
    hide Ask;
    var now := Instant(op, clock);
    assert OnlyNewestFresh(st, rules, now);
    match op
    case DoEvaluate(c, _) =>
      AskKeepsOneFresh(st, rules, c, now);
      AskKeepsTtl(st, rules, c, now);
    case DoResolve(id, v, _) =>
      ResolveKeepsOneFresh(st, rules, id, v, now, now);
    case _ =>
  }

  lemma AskKeepsTtl(st: State, rules: Rules, c: Call, now: real)
    ensures Ask(st, rules, c, rules.hash(c.input), now).1.ttl == st.ttl
  {
  }

  /** The clock after a run that starts at `clock`. */
  function ClockAfter(ops: seq<Op>, clock: real): real {
    if ops == [] then clock else Instant(Last(ops), ClockAfter(Front(ops), clock))
  }

  ghost predicate SteadyRun(ops: seq<Op>, ttl: real, clock: real) {
    forall i :: 0 <= i < |ops| ==> Steady(ops[i], ttl, ClockAfter(ops[..i], clock))
  }

  lemma {:induction false} RunKeepsOneFresh(st: State, rules: Rules, ops: seq<Op>, clock: real)
    requires OnlyNewestFresh(st, rules, clock)
    requires SteadyRun(ops, st.ttl, clock)
    ensures OnlyNewestFresh(Run(st, rules, ops), rules, ClockAfter(ops, clock))
    ensures Run(st, rules, ops).ttl == st.ttl
  {
    if ops != [] {
      var pre := Front(ops);
      assert forall i :: 0 <= i < |pre| ==> pre[..i] == ops[..i] && pre[i] == ops[i];
      RunKeepsOneFresh(st, rules, pre, clock);
      assert Steady(ops[|ops| - 1], st.ttl, ClockAfter(ops[..|ops| - 1], clock));
      StepKeepsOneFresh(Run(st, rules, pre), rules, Last(ops), ClockAfter(pre, clock));
    }
  }

  /** In every run from an empty table, at every later moment at most one undecided request per
      project, execution, tool and argument hash is fresh. */
  lemma AtMostOneFreshRequest(mode: Mode, ttl: real, rules: Rules, ops: seq<Op>, start: real, now: real, i: nat, j: nat)
    requires SteadyRun(ops, ttl, start) && now >= ClockAfter(ops, start)
    requires var rows := Run(State(mode, ttl, [], {}), rules, ops).rows;
             i < |rows| && j < |rows| && SameRequest(rows[i], rows[j]) &&
             Fresh(rows[i], rules, ttl, now) && Fresh(rows[j], rules, ttl, now)
    ensures i == j
  {
    RunKeepsOneFresh(State(mode, ttl, [], {}), rules, ops, start);
  }

  /** A repeated call reuses its request, and nothing changes, exactly while that is fresh. */
  lemma RepeatedCallReuses(st: State, rules: Rules, c: Call, now: real, again: real)
    requires OnlyNewestFresh(st, rules, now) && again >= now
    requires Evaluate(st, rules, c, now).0.outcome == Pending
    ensures var (first, mid) := Evaluate(st, rules, c, now);
            var (second, end) := Evaluate(mid, rules, c, again);
            first.request.Some? && first.request.value < |mid.rows| && second.outcome == Pending &&
            (second.request == first.request <==> Fresh(mid.rows[first.request.value], rules, st.ttl, again)) &&
            (second.request == first.request ==> end == mid)
  {
    hide Newest;
    hide DenyRule;
    hide StandingAllow;
    var h := rules.hash(c.input);
    var mid := Evaluate(st, rules, c, now).1;
    AskedStaysAsked(st, rules, c, now, again);
    var asked := Evaluate(st, rules, c, now).0.request.value;
    assert Matches(Requests(c, h), mid.rows[asked]);
    if mid != st && Fresh(mid.rows[asked], rules, st.ttl, again) {
      AskKeepsOneFresh(st, rules, c, now);
      forall k | 0 <= k < asked && Matches(Requests(c, h), mid.rows[k])
        ensures mid.rows[k].createdAt < mid.rows[asked].createdAt
      {
        assert SameRequest(mid.rows[k], mid.rows[asked]);
      }
    }
  }

  /** Asking adds undecided rows only, so the rule lookups still find nothing. */
  lemma AskAddsNoRule(st: State, rules: Rules, c: Call, h: string, now: real, q: Query)
    requires !q.Requests? && Newest(st.rows, q).None?
    ensures Newest(Ask(st, rules, c, h, now).1.rows, q).None?
  {
    var rows := Ask(st, rules, c, h, now).1.rows;
    forall k | 0 <= k < |rows|
      ensures !Matches(q, rows[k])
    {
      if k < |st.rows| {
        assert !Matches(q, st.rows[k]);
      }
    }
  }

  /** Asking changes nothing the earlier layers look at. */
  lemma AskedStaysAsked(st: State, rules: Rules, c: Call, now: real, again: real)
    requires Evaluate(st, rules, c, now).0.outcome == Pending
    ensures var mid := Evaluate(st, rules, c, now).1;
            Evaluate(mid, rules, c, again) == Ask(mid, rules, c, rules.hash(c.input), again)
  {
    hide Newest;
    hide Matches;
    var h := rules.hash(c.input);
    AskAddsNoRule(st, rules, c, h, now, Denials(c, h));
    AskAddsNoRule(st, rules, c, h, now, Allows(c, h));
    AskAddsNoRule(st, rules, c, h, now, Allows(c, ""));
  }

  /** A request just minted is fresh only if the time zone leaves it so: with local time ahead
      of UTC by the TTL or more no request is ever reused. */
  lemma FreshWhenMinted(rules: Rules, ttl: real, c: Call, h: string, now: real)
    ensures Fresh(NewRequest(c, h, now), rules, ttl, now) <==>
            (now - now.Floor as real) + rules.zone as real < ttl
    ensures rules.zone as real >= ttl ==> !Fresh(NewRequest(c, h, now), rules, ttl, now)
  {
  }

  /** What a ruling on an undecided request means for later calls: a denial matches that call from
      now on, a permanent one every call of the tool; a session allowance covers the tool for that
      execution and nothing else grants anything; a permanent one is a standing allowance. */
  ghost predicate Ruled(before: State, after: State, id: nat, v: Ruling, rules: Rules)
    requires id < |before.rows|
  {
    var r := before.rows[id];
    id < |after.rows| && after.mode == before.mode && after.ttl == before.ttl &&
    (v.decision == Deny ==>
      forall c: Call :: c.project == r.project && c.tool == r.tool && rules.hash(c.input) == r.argsHash ==>
        Decided(after.rows, Denials(c, rules.hash(c.input)))) &&
    (v.decision == Deny && v.grain == Always ==>
      forall c: Call :: c.project == r.project && c.tool == r.tool ==>
        Decided(after.rows, Denials(c, rules.hash(c.input)))) &&
    (v.decision == Allow && v.grain == Always ==>
      forall c: Call :: c.project == r.project && c.tool == r.tool && rules.hash(c.input) == r.argsHash ==>
        Decided(after.rows, Allows(c, rules.hash(c.input)))) &&
    (forall g: Grant :: g in before.grants ==> g in after.grants) &&
    (forall c: Call ::
      Covered(after.grants, c) <==>
      Covered(before.grants, c) ||
      (v.decision == Allow && v.grain == Session && c.project == r.project && c.tool == r.tool &&
       SameExecution(c.execution, r.execution)))
  }

  /** Executions are told apart by their text, and having none is like having an empty one. */
  predicate SameExecution(a: Option<string>, b: Option<string>) {
    (if a.Some? then a.value else "") == (if b.Some? then b.value else "")
  }

  lemma GrantedOneMore(grants: set<Grant>, r: Row, c: Call)
    ensures Covered(grants + {Covering(Call(r.project, r.execution, r.tool, ""))}, c) <==>
            Covered(grants, c) ||
            (c.project == r.project && c.tool == r.tool && SameExecution(c.execution, r.execution))
  {
    hide Covered;
    CoveringCovers(grants, c);
    CoveringCovers(grants + {Covering(Call(r.project, r.execution, r.tool, ""))}, c);
  }

  lemma ResolvedIsRuled(st: State, id: nat, v: Ruling, now: real, rules: Rules)
    requires id < |st.rows| && st.rows[id].decision.None? && Resolve(st, id, v, now).0.Resolved?
    ensures Ruled(st, Resolve(st, id, v, now).1, id, v, rules)
  {
    hide Covered;
    hide SameExecution;
    hide Covering;
    var r, after := st.rows[id], Resolve(st, id, v, now).1;
    assert after.rows[id] == Rule(r, v, now);
    forall c: Call | c.project == r.project && c.tool == r.tool && rules.hash(c.input) == r.argsHash
      ensures v.decision == Deny ==> Decided(after.rows, Denials(c, rules.hash(c.input)))
      ensures v.decision == Allow && v.grain == Always ==> Decided(after.rows, Allows(c, rules.hash(c.input)))
    {
      assert v.decision == Deny ==> Matches(Denials(c, rules.hash(c.input)), after.rows[id]);
      assert v.decision == Allow && v.grain == Always ==> Matches(Allows(c, rules.hash(c.input)), after.rows[id]);
    }
    forall c: Call
      ensures Covered(after.grants, c) <==>
              Covered(st.grants, c) ||
              (v.decision == Allow && v.grain == Session && c.project == r.project && c.tool == r.tool &&
               SameExecution(c.execution, r.execution))
    {
      GrantedOneMore(st.grants, r, c);
    }
    forall c: Call | c.project == r.project && c.tool == r.tool && v.decision == Deny && v.grain == Always
      ensures Decided(after.rows, Denials(c, rules.hash(c.input)))
    {
      assert Matches(Denials(c, rules.hash(c.input)), after.rows[|st.rows|]);
    }
  }

  // ---------------------------------------------------------------------------------------
  // The gate
  // ---------------------------------------------------------------------------------------

  class ToolApprovalGate {
    const rules: Rules
    var mode: Mode
    var ttl: real
    var rows: seq<Row>
    var sessionGrants: set<Grant>

    constructor (rules: Rules, mode: Mode, ttl: real, rows: seq<Row>)
      ensures this.rules == rules && Gate() == State(mode, ttl, rows, {})
    {
      this.rules, this.mode, this.ttl, this.rows := rules, mode, ttl, rows;
      sessionGrants := {};
    }

    ghost function Gate(): State
      reads this
    {
      State(mode, ttl, rows, sessionGrants)
    }

    method EvaluateCall(c: Call, now: real) returns (verdict: Verdict)
      modifies this`rows
      ensures (verdict, Gate()) == Evaluate(old(Gate()), rules, c, now)
      ensures verdict.outcome == Allowed <==> MayRun(old(Gate()), rules, c)
      ensures verdict.outcome == Denied <==> MustNotRun(old(Gate()), rules, c)
      ensures verdict.outcome == Pending ==>
                verdict.request.Some? && verdict.request.value < |rows| &&
                Waiting(rows[verdict.request.value], c, rules.hash(c.input))
      ensures Keeps(old(rows), rows) && (verdict.outcome != Pending ==> rows == old(rows))
      ensures OnlyNewestFresh(old(Gate()), rules, now) ==> OnlyNewestFresh(Gate(), rules, now)
    {
      hide Keeps;
      hide OnlyNewestFresh;
      hide MayRun;
      hide MustNotRun;
      hide Waiting;
      hide Newest;
      hide Fresh;
      VerdictExactly(Gate(), rules, c, now);
      StepKeeps(Gate(), rules, DoEvaluate(c, now));
      if OnlyNewestFresh(Gate(), rules, now) {
        StepKeepsOneFresh(Gate(), rules, DoEvaluate(c, now), now);
      }
      if mode == Off {
        return Verdict(Allowed, None);
      }
      if rules.hardline(c.tool, c.input) {
        return Verdict(Denied, None);
      }
      var h := rules.hash(c.input);
      if Covering(c) in sessionGrants {
        return Verdict(Allowed, None);
      }
      var deny := Newest(rows, Denials(c, h));
      if deny.Some? {
        return Verdict(Denied, deny);
      }
      if mode == Auto || rules.readOnly(c.tool, c.input) {
        return Verdict(Allowed, None);
      }
      var standing := Newest(rows, Allows(c, h));
      if standing.None? {
        standing := Newest(rows, Allows(c, ""));
      }
      if standing.Some? {
        return Verdict(Allowed, standing);
      }
      var waiting := Newest(rows, Requests(c, h));
      if waiting.Some? {
        if Fresh(rows[waiting.value], rules, ttl, now) {
          return Verdict(Pending, waiting);
        }
        rows := rows[waiting.value := CloseOut(rows[waiting.value])];
      }
      verdict := Verdict(Pending, Some(|rows|));
      rows := rows + [NewRequest(c, h, now)];
    }

    method ResolveRequest(id: nat, v: Ruling, now: real) returns (result: ResolveResult)
      modifies this`rows, this`sessionGrants
      ensures (result, Gate()) == Resolve(old(Gate()), id, v, now)
      ensures Keeps(old(rows), rows)
      ensures OnlyNewestFresh(old(Gate()), rules, now) ==> OnlyNewestFresh(Gate(), rules, now)
      ensures result == NotFound <==> id >= |old(rows)|
      ensures id < |old(rows)| && old(rows)[id].decision.Some? ==>
                result == Resolved(old(rows)[id]) && Gate() == old(Gate())
      ensures result == Conflict ==> Gate() == old(Gate()) && v.decision == Allow && v.grain == Always
      ensures result.Resolved? ==> id < |rows| && result.row == rows[id] && rows[id].decision.Some?
      ensures result.Resolved? && old(rows)[id].decision.None? ==> Ruled(old(Gate()), Gate(), id, v, rules)
    {
      hide Keeps;
      hide OnlyNewestFresh;
      StepKeeps(Gate(), rules, DoResolve(id, v, now));
      if OnlyNewestFresh(Gate(), rules, now) {
        ResolveKeepsOneFresh(Gate(), rules, id, v, now, now);
      }
      hide Ruled;
      if id < |rows| && rows[id].decision.None? && Resolve(Gate(), id, v, now).0.Resolved? {
        ResolvedIsRuled(Gate(), id, v, now, rules);
      }
      if id >= |rows| {
        return NotFound;
      }
      var request := rows[id];
      if request.decision.Some? {
        return Resolved(request);
      }
      var updated := Rule(request, v, now);
      if updated.grain == Always && exists i | 0 <= i < |rows| ::
           StandingAllow(rows[i], Call(request.project, None, request.tool, ""), request.argsHash) {
        return Conflict;
      }
      rows := rows[id := updated];
      if v.decision == Allow && v.grain == Session {
        sessionGrants := sessionGrants + {Covering(Call(updated.project, updated.execution, updated.tool, ""))};
      }
      if v.decision == Deny && v.grain == Always {
        rows := rows + [Wildcard(updated)];
      }
      return Resolved(updated);
    }

    /** Off lets everything run; auto lets everything run that no layer denies; and switching between
        the modes other than off neither lifts nor adds a denial. */
    method SetMode(mode: Mode)
      modifies this`mode
      ensures this.mode == mode && Gate() == Step(old(Gate()), rules, DoSetMode(mode))
      ensures mode == Off ==> forall c :: MayRun(Gate(), rules, c)
      ensures mode == Auto ==> forall c :: MayRun(Gate(), rules, c) <==> !MustNotRun(Gate(), rules, c)
      ensures mode != Off && old(this.mode) != Off ==>
                forall c :: MustNotRun(Gate(), rules, c) <==> MustNotRun(old(Gate()), rules, c)
    {
      if mode != this.mode {
        this.mode := mode;
      }
    }

    method SetPendingTtl(seconds: real) returns (ok: bool)
      modifies this`ttl
      ensures ok <==> seconds > 0.0
      ensures ttl == if seconds > 0.0 then seconds else old(ttl)
      ensures Gate() == Step(old(Gate()), rules, DoSetTtl(seconds))
    {
      if seconds <= 0.0 {
        return false;
      }
      ttl := seconds;
      return true;
    }
  }
}
