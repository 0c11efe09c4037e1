/** What the approval gate answers, from its history: every verdict is fixed by the mode, by the
    rulings given so far, and by the session rulings since the last restart. */
module GateHistory {
  import opened Prelude
  import opened ApprovalGate

  /** A ruling that took effect, with the request it was given on. */
  datatype Given = Given(project: string, execution: Option<string>, tool: string, argsHash: string, ruling: Ruling)

  /** A ruling takes effect on an undecided request, unless it is a standing allowance and there is
      one already for that project, tool and argument hash. */
  predicate TakesEffect(rows: seq<Row>, id: nat, v: Ruling) {
    id < |rows| && rows[id].decision == None &&
    !(v.decision == Allow && v.grain == Always &&
      exists i :: 0 <= i < |rows| && rows[i].project == rows[id].project && rows[i].tool == rows[id].tool &&
                  rows[i].argsHash == rows[id].argsHash && rows[i].decision == Some(Allow) && rows[i].grain == Always)
  }

  function NewRuling(st: State, op: Op): seq<Given> {
    if op.DoResolve? && TakesEffect(st.rows, op.id, op.ruling) then
      var r := st.rows[op.id];
      [Given(r.project, r.execution, r.tool, r.argsHash, op.ruling)]
    else []
  }

  /** All rulings of a run that took effect. */
  function Rulings(st: State, rules: Rules, ops: seq<Op>): seq<Given> {
    if ops == [] then []
    else Rulings(st, rules, Front(ops)) + NewRuling(Run(st, rules, Front(ops)), Last(ops))
  }

  /** Those since the last restart. */
  function SinceRestart(st: State, rules: Rules, ops: seq<Op>): seq<Given> {
    if ops == [] || Last(ops).DoRestart? then []
    else SinceRestart(st, rules, Front(ops)) + NewRuling(Run(st, rules, Front(ops)), Last(ops))
  }

  /** The mode set last. */
  function ModeAfter(mode: Mode, ops: seq<Op>): Mode {
    if ops == [] then mode
    else
      match Last(ops)
      case DoSetMode(m) => m
      case DoRestart(m, _) => m
      case _ => ModeAfter(mode, Front(ops))
  }

  // ---------------------------------------------------------------------------------------
  // What a ruling says about a call
  // ---------------------------------------------------------------------------------------

  /** A session allowance for the tool in that project and execution. */
  predicate Covers(g: Given, c: Call) {
    g.ruling.decision == Allow && g.ruling.grain == Session && g.project == c.project && g.tool == c.tool &&
    SameExecution(c.execution, g.execution)
  }

  /** A denial of the tool in that project: of those arguments, or a permanent one of any. */
  predicate Forbids(g: Given, project: string, tool: string, h: string) {
    g.ruling.decision == Deny && g.project == project && g.tool == tool &&
    (g.argsHash == h || g.argsHash == "" || g.ruling.grain == Always)
  }

  /** A permanent allowance of the tool with those arguments in that project. */
  predicate Permits(g: Given, project: string, tool: string, h: string) {
    g.ruling.decision == Allow && g.ruling.grain == Always && g.project == project && g.tool == tool && g.argsHash == h
  }

  ghost predicate IsCovered(gs: seq<Given>, c: Call) {
    exists i :: 0 <= i < |gs| && Covers(gs[i], c)
  }

  ghost predicate IsForbidden(gs: seq<Given>, project: string, tool: string, h: string) {
    exists i :: 0 <= i < |gs| && Forbids(gs[i], project, tool, h)
  }

  ghost predicate IsPermitted(gs: seq<Given>, project: string, tool: string, h: string) {
    exists i :: 0 <= i < |gs| && Permits(gs[i], project, tool, h)
  }

  // ---------------------------------------------------------------------------------------
  // The table and the grants mirror the rulings
  // ---------------------------------------------------------------------------------------

  ghost predicate ForbiddenBy(rows: seq<Row>, project: string, tool: string, h: string) {
    exists i :: 0 <= i < |rows| && DenyRule(rows[i], Call(project, None, tool, ""), h)
  }

  ghost predicate PermittedBy(rows: seq<Row>, project: string, tool: string, h: string) {
    exists i :: 0 <= i < |rows| && StandingAllow(rows[i], Call(project, None, tool, ""), h)
  }

  ghost predicate Mirrors(rows: seq<Row>, gs: seq<Given>) {
    (forall p, t, h :: ForbiddenBy(rows, p, t, h) <==> IsForbidden(gs, p, t, h)) &&
    (forall p, t, h :: PermittedBy(rows, p, t, h) <==> IsPermitted(gs, p, t, h))
  }

  lemma DecidedMeans(rows: seq<Row>, c: Call, h: string)
    ensures Decided(rows, Denials(c, h)) <==> ForbiddenBy(rows, c.project, c.tool, h)
    ensures Decided(rows, Allows(c, h)) <==> PermittedBy(rows, c.project, c.tool, h)
  {
    var q, w := Denials(c, h), Allows(c, h);
    var d := Call(c.project, None, c.tool, "");
    assert forall r :: Matches(q, r) <==> DenyRule(r, d, h);
    assert forall r :: Matches(w, r) <==> StandingAllow(r, d, h);
    if Decided(rows, q) {
      var i :| 0 <= i < |rows| && Matches(q, rows[i]);
      assert DenyRule(rows[i], d, h);
    }
    if ForbiddenBy(rows, c.project, c.tool, h) {
      var i :| 0 <= i < |rows| && DenyRule(rows[i], d, h);
      assert Matches(q, rows[i]);
    }
    if Decided(rows, w) {
      var i :| 0 <= i < |rows| && Matches(w, rows[i]);
      assert StandingAllow(rows[i], d, h);
    }
    if PermittedBy(rows, c.project, c.tool, h) {
      var i :| 0 <= i < |rows| && StandingAllow(rows[i], d, h);
      assert Matches(w, rows[i]);
    }
  }

  lemma GivenOneMore(gs: seq<Given>, g: Given, p: string, t: string, h: string)
    ensures IsForbidden(gs + [g], p, t, h) <==> IsForbidden(gs, p, t, h) || Forbids(g, p, t, h)
    ensures IsPermitted(gs + [g], p, t, h) <==> IsPermitted(gs, p, t, h) || Permits(g, p, t, h)
  {
    hide Forbids;
    hide Permits;
    var more := gs + [g];
    assert more[|gs|] == g && forall i :: 0 <= i < |gs| ==> more[i] == gs[i];
    if IsForbidden(gs, p, t, h) {
      var i :| 0 <= i < |gs| && Forbids(gs[i], p, t, h);
      assert Forbids(more[i], p, t, h);
    }
    if IsPermitted(gs, p, t, h) {
      var i :| 0 <= i < |gs| && Permits(gs[i], p, t, h);
      assert Permits(more[i], p, t, h);
    }
  }

  lemma CoveredOneMore(gs: seq<Given>, g: Given, c: Call)
    ensures IsCovered(gs + [g], c) <==> IsCovered(gs, c) || Covers(g, c)
  {
    hide Covers;
    var more := gs + [g];
    assert more[|gs|] == g && forall i :: 0 <= i < |gs| ==> more[i] == gs[i];
    if IsCovered(gs, c) {
      var i :| 0 <= i < |gs| && Covers(gs[i], c);
      assert Covers(more[i], c);
    }
  }

  /** The rows that decide something are the same in both tables. */
  ghost predicate SameDecisions(before: seq<Row>, after: seq<Row>) {
    (forall p, t, h :: ForbiddenBy(after, p, t, h) <==> ForbiddenBy(before, p, t, h)) &&
    (forall p, t, h :: PermittedBy(after, p, t, h) <==> PermittedBy(before, p, t, h))
  }

  /** Rows are replaced and added, but none of them is or was decided. */
  lemma UndecidedRowsSayNothing(before: seq<Row>, after: seq<Row>)
    requires |before| <= |after|
    requires forall i :: 0 <= i < |before| ==>
               after[i] == before[i] || (after[i].decision.None? && before[i].decision.None?)
    requires forall i :: |before| <= i < |after| ==> after[i].decision.None?
    ensures SameDecisions(before, after)
  {
    forall p: string, t: string, h: string
      ensures ForbiddenBy(after, p, t, h) <==> ForbiddenBy(before, p, t, h)
      ensures PermittedBy(after, p, t, h) <==> PermittedBy(before, p, t, h)
    {
      var d := Call(p, None, t, "");
      if ForbiddenBy(after, p, t, h) {
        var i :| 0 <= i < |after| && DenyRule(after[i], d, h);
        assert DenyRule(before[i], d, h);
      }
      if ForbiddenBy(before, p, t, h) {
        var i :| 0 <= i < |before| && DenyRule(before[i], d, h);
        assert DenyRule(after[i], d, h);
      }
      if PermittedBy(after, p, t, h) {
        var i :| 0 <= i < |after| && StandingAllow(after[i], d, h);
        assert StandingAllow(before[i], d, h);
      }
      if PermittedBy(before, p, t, h) {
        var i :| 0 <= i < |before| && StandingAllow(before[i], d, h);
        assert StandingAllow(after[i], d, h);
      }
    }
  }

  lemma EvaluatedSaysNothing(st: State, rules: Rules, c: Call, now: real)
    ensures var after := Evaluate(st, rules, c, now).1;
            SameDecisions(st.rows, after.rows) && after.grants == st.grants && after.mode == st.mode
  {
    hide DenyRule;
    hide StandingAllow;
    hide SameDecisions;
    var after := Evaluate(st, rules, c, now).1;
    var waiting := Newest(st.rows, Requests(c, rules.hash(c.input)));
    assert waiting.Some? ==> st.rows[waiting.value].decision.None?;
    UndecidedRowsSayNothing(st.rows, after.rows);
  }

  /** An undecided row is decided and another may be added. */
  lemma RowsDecided(before: seq<Row>, id: nat, ruled: Row, more: seq<Row>, p: string, t: string, h: string)
    requires id < |before| && before[id].decision.None? && |more| <= 1
    ensures var after, d := before[id := ruled] + more, Call(p, None, t, "");
            (ForbiddenBy(after, p, t, h) <==>
             ForbiddenBy(before, p, t, h) || DenyRule(ruled, d, h) || (more != [] && DenyRule(more[0], d, h))) &&
            (PermittedBy(after, p, t, h) <==>
             PermittedBy(before, p, t, h) || StandingAllow(ruled, d, h) || (more != [] && StandingAllow(more[0], d, h)))
  {
    var after, d := before[id := ruled] + more, Call(p, None, t, "");
    assert !DenyRule(before[id], d, h) && !StandingAllow(before[id], d, h);
    hide DenyRule;
    hide StandingAllow;
    assert after[id] == ruled && (more != [] ==> after[|before|] == more[0]);
    if ForbiddenBy(before, p, t, h) {
      var i :| 0 <= i < |before| && DenyRule(before[i], d, h);
      assert DenyRule(after[i], d, h);
    }
    if PermittedBy(before, p, t, h) {
      var i :| 0 <= i < |before| && StandingAllow(before[i], d, h);
      assert StandingAllow(after[i], d, h);
    }
    if ForbiddenBy(after, p, t, h) {
      var i :| 0 <= i < |after| && DenyRule(after[i], d, h);
      assert i < |before| && i != id ==> DenyRule(before[i], d, h);
    }
    if PermittedBy(after, p, t, h) {
      var i :| 0 <= i < |after| && StandingAllow(after[i], d, h);
      assert i < |before| && i != id ==> StandingAllow(before[i], d, h);
    }
  }

  /** A ruling on request r adds what it says to the table and nothing else. */
  lemma RuledAddsItself(st: State, id: nat, v: Ruling, now: real, p: string, t: string, h: string)
    requires TakesEffect(st.rows, id, v)
    ensures var r, after := st.rows[id], Resolve(st, id, v, now).1.rows;
            var g := Given(r.project, r.execution, r.tool, r.argsHash, v);
            (ForbiddenBy(after, p, t, h) <==> ForbiddenBy(st.rows, p, t, h) || Forbids(g, p, t, h)) &&
            (PermittedBy(after, p, t, h) <==> PermittedBy(st.rows, p, t, h) || Permits(g, p, t, h))
  {
    hide ForbiddenBy;
    hide PermittedBy;
    hide Resolve;
    EffectIsResolved(st, id, v, now);
    EffectHasRequest(st.rows, id, v);
    hide TakesEffect;
    var after := Resolve(st, id, v, now).1.rows;
    var ruled, more := after[id], after[|st.rows|..];
    assert after == st.rows[id := ruled] + more;
    RowsDecided(st.rows, id, ruled, more, p, t, h);
  }

  /** What a resolution writes, row by row. */
  lemma EffectIsResolved(st: State, id: nat, v: Ruling, now: real)
    ensures id < |st.rows| && st.rows[id].decision == None ==>
              (TakesEffect(st.rows, id, v) <==> Resolve(st, id, v, now).0.Resolved?)
    ensures TakesEffect(st.rows, id, v) ==>
              var (result, after) := Resolve(st, id, v, now);
              var r := st.rows[id];
              var ruled := Row(r.project, r.execution, r.tool, r.argsHash,
                               if v.decision == Allow then v.grain else Once,
                               Some(v.decision), v.actor, if v.reason.Some? then v.reason else r.reason, r.createdAt,
                               Some(now.Floor));
              result == Resolved(ruled) && after.mode == st.mode && after.ttl == st.ttl &&
              after.rows ==
              st.rows[id := ruled] +
              if v.decision == Deny && v.grain == Always
              then [Row(r.project, None, r.tool, "", Always, Some(Deny), ruled.decidedBy, ruled.reason, r.createdAt,
                        ruled.resolvedAt)]
              else []
    ensures !TakesEffect(st.rows, id, v) ==> Resolve(st, id, v, now).1 == st
  {
    if id < |st.rows| {
      var r := st.rows[id];
      var d := Call(r.project, None, r.tool, "");
      if i :| 0 <= i < |st.rows| && StandingAllow(st.rows[i], d, r.argsHash) {
        assert st.rows[i].argsHash == r.argsHash;
      }
      assert st.rows[id := Rule(r, v, now)] + [] == st.rows[id := Rule(r, v, now)];
    }
  }

  lemma StepMirrors(st: State, rules: Rules, op: Op, gs: seq<Given>)
    requires Mirrors(st.rows, gs)
    ensures Mirrors(Step(st, rules, op).rows, gs + NewRuling(st, op))
  {
    hide ForbiddenBy;
    hide PermittedBy;
    hide IsForbidden;
    hide IsPermitted;
    hide Forbids;
    hide Permits;
    hide TakesEffect;
    hide Resolve;
    hide Evaluate;
    var more := gs + NewRuling(st, op);
    if op.DoResolve? {
      EffectIsResolved(st, op.id, op.ruling, op.now);
      if TakesEffect(st.rows, op.id, op.ruling) {
        EffectHasRequest(st.rows, op.id, op.ruling);
        forall p, t, h
          ensures ForbiddenBy(Step(st, rules, op).rows, p, t, h) <==> IsForbidden(more, p, t, h)
          ensures PermittedBy(Step(st, rules, op).rows, p, t, h) <==> IsPermitted(more, p, t, h)
        {
          RuledAddsItself(st, op.id, op.ruling, op.now, p, t, h);
          GivenOneMore(gs, NewRuling(st, op)[0], p, t, h);
        }
      } else {
        assert more == gs;
      }
    } else {
      assert more == gs;
      if op.DoEvaluate? {
        EvaluatedSaysNothing(st, rules, op.call, op.now);
      }
    }
  }

  lemma EffectHasRequest(rows: seq<Row>, id: nat, v: Ruling)
    requires TakesEffect(rows, id, v)
    ensures id < |rows| && rows[id].decision == None
  {
  }

  /** The durable table says exactly what the rulings said. */
  lemma {:induction false} TableMirrorsRulings(st: State, rules: Rules, ops: seq<Op>)
    requires st.rows == []
    ensures Mirrors(Run(st, rules, ops).rows, Rulings(st, rules, ops))
  {
    hide Mirrors;
    hide NewRuling;
    hide Step;
    if ops == [] {
      NothingSaid();
    } else {
      TableMirrorsRulings(st, rules, Front(ops));
      StepMirrors(Run(st, rules, Front(ops)), rules, Last(ops), Rulings(st, rules, Front(ops)));
    }
  }

  lemma NothingSaid()
    ensures Mirrors([], [])
  {
  }

  lemma StepGrants(st: State, rules: Rules, op: Op, c: Call)
    ensures op.DoRestart? ==> !Covered(Step(st, rules, op).grants, c)
    ensures !op.DoRestart? ==>
              (Covered(Step(st, rules, op).grants, c) <==>
               Covered(st.grants, c) || exists g :: g in NewRuling(st, op) && Covers(g, c))
  {
    hide Evaluate;
    hide SameExecution;
    if op.DoEvaluate? {
      EvaluatedSaysNothing(st, rules, op.call, op.now);
    }
    if op.DoResolve? {
      EffectIsResolved(st, op.id, op.ruling, op.now);
      if TakesEffect(st.rows, op.id, op.ruling) {
        var g := NewRuling(st, op)[0];
        ResolvedIsRuled(st, op.id, op.ruling, op.now, rules);
        assert g in NewRuling(st, op);
      }
    }
  }

  /** A call is covered by a session grant exactly when a session allowance was given since the last
      restart on a request of the same project, tool and execution. */
  lemma {:induction false} GrantsAreSessionRulings(st: State, rules: Rules, ops: seq<Op>, c: Call)
    requires st.grants == {}
    ensures Covered(Run(st, rules, ops).grants, c) <==> IsCovered(SinceRestart(st, rules, ops), c)
  {
    hide Covers;
    hide Step;
    if ops != [] {
      GrantsAreSessionRulings(st, rules, Front(ops), c);
      var mid, given := Run(st, rules, Front(ops)), NewRuling(Run(st, rules, Front(ops)), Last(ops));
      StepGrants(mid, rules, Last(ops), c);
      if !Last(ops).DoRestart? {
        if given == [] {
          assert SinceRestart(st, rules, ops) == SinceRestart(st, rules, Front(ops));
        } else {
          CoveredOneMore(SinceRestart(st, rules, Front(ops)), given[0], c);
          assert given == [given[0]] && given[0] in given;
        }
      }
    }
  }

  lemma {:induction false} ModeIsSetLast(st: State, rules: Rules, ops: seq<Op>)
    ensures Run(st, rules, ops).mode == ModeAfter(st.mode, ops)
  {
    if ops != [] {
      ModeIsSetLast(st, rules, Front(ops));
      var mid, op := Run(st, rules, Front(ops)), Last(ops);
      if op.DoEvaluate? {
        EvaluatedSaysNothing(mid, rules, op.call, op.now);
      }
      if op.DoResolve? {
        EffectIsResolved(mid, op.id, op.ruling, op.now);
      }
    }
  }

  // ---------------------------------------------------------------------------------------
  // The verdict, from the history alone
  // ---------------------------------------------------------------------------------------

  /** After any run of a gate that started with an empty table:
      - a call is denied exactly when the mode is not off and the hardline floor catches it, or no
        session allowance covers it and some denial forbids it;
      - it is allowed exactly when the mode is off, or the floor does not catch it and a session
        allowance covers it, or no denial forbids it and the mode is auto, or it is read-only, or a
        permanent allowance permits it;
      - otherwise it is pending. An allowance for once allows nothing later. */
  lemma VerdictFollowsRulings(mode: Mode, ttl: real, rules: Rules, ops: seq<Op>, c: Call, now: real)
    ensures var start := State(mode, ttl, [], {});
            var outcome := Evaluate(Run(start, rules, ops), rules, c, now).0.outcome;
            var all, recent, last := Rulings(start, rules, ops), SinceRestart(start, rules, ops), ModeAfter(mode, ops);
            var h := rules.hash(c.input);
            (outcome == Denied <==>
              last != Off &&
              (rules.hardline(c.tool, c.input) || (!IsCovered(recent, c) && IsForbidden(all, c.project, c.tool, h)))) &&
            (outcome == Allowed <==>
              last == Off ||
              (!rules.hardline(c.tool, c.input) &&
               (IsCovered(recent, c) ||
                (!IsForbidden(all, c.project, c.tool, h) &&
                 (last == Auto || rules.readOnly(c.tool, c.input) ||
                  IsPermitted(all, c.project, c.tool, h) || IsPermitted(all, c.project, c.tool, ""))))))
  {
    hide Evaluate;
    hide Run;
    hide IsCovered;
    hide IsForbidden;
    hide IsPermitted;
    hide ForbiddenBy;
    hide PermittedBy;
    hide Covered;
    hide Decided;
    var start := State(mode, ttl, [], {});
    var st, h := Run(start, rules, ops), rules.hash(c.input);
    TableMirrorsRulings(start, rules, ops);
    GrantsAreSessionRulings(start, rules, ops, c);
    ModeIsSetLast(start, rules, ops);
    VerdictExactly(st, rules, c, now);
    DecidedMeans(st.rows, c, h);
    DecidedMeans(st.rows, c, "");
  }

  /** A session allowance does not reach another execution: such a call is answered as before. */
  lemma AGrantStaysInItsExecution(st: State, rules: Rules, id: nat, v: Ruling, at: real, c: Call, now: real)
    requires TakesEffect(st.rows, id, v) && v.decision == Allow && v.grain == Session
    requires !SameExecution(c.execution, st.rows[id].execution)
    ensures var after := Resolve(st, id, v, at).1;
            Evaluate(after, rules, c, now).0.outcome == Evaluate(st, rules, c, now).0.outcome
  {
    hide Evaluate;
    hide Covered;
    hide ForbiddenBy;
    hide PermittedBy;
    hide Decided;
    hide SameExecution;
    var after, h := Resolve(st, id, v, at).1, rules.hash(c.input);
    EffectIsResolved(st, id, v, at);
    ResolvedIsRuled(st, id, v, at, rules);
    RuledAddsItself(st, id, v, at, c.project, c.tool, h);
    RuledAddsItself(st, id, v, at, c.project, c.tool, "");
    VerdictExactly(st, rules, c, now);
    VerdictExactly(after, rules, c, now);
    DecidedMeans(st.rows, c, h);
    DecidedMeans(st.rows, c, "");
    DecidedMeans(after.rows, c, h);
    DecidedMeans(after.rows, c, "");
  }

  // ---------------------------------------------------------------------------------------
  // What a pending verdict writes
  // ---------------------------------------------------------------------------------------

  /** An undecided row carries nothing of a decision. */
  ghost predicate Blank(rows: seq<Row>) {
    forall i :: 0 <= i < |rows| && rows[i].decision == None ==>
      rows[i].grain == Once && rows[i].decidedBy == None && rows[i].resolvedAt == None
  }

  lemma {:induction false} UndecidedRowsAreBlank(st: State, rules: Rules, ops: seq<Op>)
    requires Blank(st.rows)
    ensures Blank(Run(st, rules, ops).rows)
  {
    hide Evaluate;
    hide Resolve;
    if ops != [] {
      UndecidedRowsAreBlank(st, rules, Front(ops));
      var mid, op := Run(st, rules, Front(ops)), Last(ops);
      if op.DoEvaluate? {
        AskingOnlyAppends(mid, rules, op.call, op.now);
      }
      if op.DoResolve? {
        EffectIsResolved(mid, op.id, op.ruling, op.now);
      }
    }
  }

  /** The row waits for a decision on just this call. */
  predicate WaitsFor(r: Row, c: Call, h: string) {
    r.decision == None && r.project == c.project && r.execution == c.execution && r.tool == c.tool && r.argsHash == h
  }

  /** The latest of the rows waiting for the call. */
  ghost predicate LatestWaiting(rows: seq<Row>, i: nat, c: Call, h: string) {
    i < |rows| && WaitsFor(rows[i], c, h) &&
    forall j :: 0 <= j < |rows| && WaitsFor(rows[j], c, h) ==> rows[j].createdAt <= rows[i].createdAt
  }

  predicate Young(r: Row, rules: Rules, ttl: real, now: real) {
    now - (r.createdAt as real - rules.zone as real) < ttl
  }

  /** A pending verdict names either a latest waiting row that is younger than the time-to-live, and
      then nothing is written, or a new row for the call, and then only that is written and every
      latest waiting row is too old. A table of earlier rows is never touched by an evaluation. */
  lemma AskingOnlyAppends(st: State, rules: Rules, c: Call, now: real)
    requires Blank(st.rows)
    ensures var (verdict, after) := Evaluate(st, rules, c, now);
            var h := rules.hash(c.input);
            (verdict.outcome != Pending ==> after == st) &&
            (verdict.outcome == Pending ==>
              verdict.request.Some? && after.mode == st.mode && after.ttl == st.ttl && after.grants == st.grants &&
              var id := verdict.request.value;
              if id < |st.rows| then
                after == st && LatestWaiting(st.rows, id, c, h) && Young(st.rows[id], rules, st.ttl, now)
              else
                id == |st.rows| &&
                after.rows ==
                st.rows + [Row(c.project, c.execution, c.tool, h, Once, None, None, None, now.Floor, None)] &&
                ((forall j :: 0 <= j < |st.rows| ==> !WaitsFor(st.rows[j], c, h)) ||
                 (exists i: nat :: LatestWaiting(st.rows, i, c, h) && !Young(st.rows[i], rules, st.ttl, now))))
  {
    hide DenyRule;
    hide StandingAllow;
    var h := rules.hash(c.input);
    var waiting := Newest(st.rows, Requests(c, h));
    assert forall r :: Matches(Requests(c, h), r) <==> WaitsFor(r, c, h);
    assert forall r :: Fresh(r, rules, st.ttl, now) <==> Young(r, rules, st.ttl, now);
    if waiting.Some? {
      var i := waiting.value;
      assert LatestWaiting(st.rows, i, c, h);
      assert st.rows[i := CloseOut(st.rows[i])] == st.rows;
    }
  }
}
