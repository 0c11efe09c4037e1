/** What each operation on the agent topology does to the rows, field by field: when it succeeds,
    what it writes and what it leaves alone. */
module TopologyEffects {
  import opened Prelude
  import opened AgentTopology

  /** The text without surrounding white space, as nothing but that. */
  lemma StripExactly(s: string)
    ensures exists i: nat, j: nat :: i <= j <= |s| && StripsTo(s, i, j) && Strip(s) == s[i..j]
  {
    var i := LeftEdge(s);
    var n := RightEdge(s[i..]);
    assert s[i..][..n] == s[i..i + n];
    assert StripsTo(s, i, i + n) by {
      assert forall k :: i + n <= k < |s| ==> s[k] == s[i..][k - i];
      assert n > 0 ==> s[i + n - 1] == s[i..][n - 1];
    }
  }

  /** Everything outside i..j is white space, and nothing at its edges is. */
  ghost predicate StripsTo(s: string, i: nat, j: nat)
    requires i <= j <= |s|
  {
    (forall k :: 0 <= k < i ==> IsSpace(s[k])) && (forall k :: j <= k < |s| ==> IsSpace(s[k])) &&
    (i < j ==> !IsSpace(s[i]) && !IsSpace(s[j - 1]))
  }

  lemma {:induction false} LeftEdge(s: string) returns (i: nat)
    ensures i <= |s| && StripLeft(s) == s[i..] && (i < |s| ==> !IsSpace(s[i]))
    ensures forall k :: 0 <= k < i ==> IsSpace(s[k])
  {
    i := 0;
    if s != [] && IsSpace(s[0]) {
      var rest := LeftEdge(s[1..]);
      i := rest + 1;
      assert s[1..][rest..] == s[i..];
      assert forall k :: 1 <= k < i ==> s[k] == s[1..][k - 1];
    }
  }

  lemma {:induction false} RightEdge(s: string) returns (n: nat)
    ensures n <= |s| && StripRight(s) == s[..n] && (n > 0 ==> !IsSpace(s[n - 1]))
    ensures forall k :: n <= k < |s| ==> IsSpace(s[k])
  {
    n := |s|;
    if s != [] && IsSpace(Last(s)) {
      n := RightEdge(Front(s));
      assert Front(s)[..n] == s[..n];
    } else {
      assert s[..n] == s;
    }
  }

  // ---------------------------------------------------------------------------------------
  // Splits
  // ---------------------------------------------------------------------------------------

  /** The j-th record of the k-th route is r. */
  ghost predicate At(routing: seq<Route>, k: nat, j: nat, r: nat) {
    k < |routing| && j < |routing[k].ids| && routing[k].ids[j] == r
  }

  ghost predicate Listed(routing: seq<Route>, r: nat) {
    exists k: nat, j: nat :: At(routing, k, j, r)
  }

  /** No record is listed at two places of the routing. */
  ghost predicate ListedOnce(routing: seq<Route>) {
    forall k: nat, j: nat, l: nat, i: nat, r: nat :: At(routing, k, j, r) && At(routing, l, i, r) ==> k == l && j == i
  }

  ghost predicate HasName(dests: seq<Destination>, name: string) {
    exists i :: 0 <= i < |dests| && Strip(dests[i].name) == name
  }

  lemma {:induction false} RoutedIdsAreListed(routing: seq<Route>)
    ensures forall r :: r in RoutedIds(routing) <==> Listed(routing, r)
    ensures Distinct(RoutedIds(routing)) <==> ListedOnce(routing)
  {
    hide Listed;
    hide ListedOnce;
    hide Distinct;
    if routing == [] {
      NothingListed();
    } else {
      var front, route := Front(routing), Last(routing);
      RoutedIdsAreListed(front);
      ListedSnoc(front, route);
      assert routing == front + [route];
      assert forall r :: r in RoutedIds(routing) <==> r in RoutedIds(front) || r in route.ids;
      DistinctParts(RoutedIds(front), route.ids);
      ListedOnceSnoc(front, route);
    }
  }

  lemma NothingListed()
    ensures (forall r :: !Listed([], r)) && ListedOnce([]) && Distinct<nat>([])
  {
  }

  lemma ListedSnoc(front: seq<Route>, route: Route)
    ensures forall r :: Listed(front + [route], r) <==> Listed(front, r) || r in route.ids
  {
    var routing := front + [route];
    forall r: nat
      ensures Listed(routing, r) <==> Listed(front, r) || r in route.ids
    {
      if Listed(front, r) {
        var k: nat, j: nat :| At(front, k, j, r);
        assert At(routing, k, j, r);
      }
      if r in route.ids {
        var j :| 0 <= j < |route.ids| && route.ids[j] == r;
        assert At(routing, |front|, j, r);
      }
      if Listed(routing, r) {
        var k: nat, j: nat :| At(routing, k, j, r);
        assert k < |front| ==> At(front, k, j, r);
      }
    }
  }

  lemma ListedOnceSnoc(front: seq<Route>, route: Route)
    ensures ListedOnce(front + [route]) <==>
            ListedOnce(front) && Distinct(route.ids) && forall r :: Listed(front, r) ==> r !in route.ids
  {
    var routing, n := front + [route], |front|;
    forall k: nat, j: nat, r: nat
      ensures At(routing, k, j, r) <==> At(front, k, j, r) || (k == n && j < |route.ids| && route.ids[j] == r)
    {
    }
    if ListedOnce(routing) {
      forall i, j | 0 <= i < j < |route.ids|
        ensures route.ids[i] != route.ids[j]
      {
        assert At(routing, n, i, route.ids[i]) && At(routing, n, j, route.ids[j]);
      }
      forall i: nat, k: nat, j: nat, r: nat | At(front, k, j, r) && i < |route.ids|
        ensures route.ids[i] != r
      {
        assert At(routing, k, j, r) && At(routing, n, i, route.ids[i]);
      }
      forall k: nat, j: nat, l: nat, i: nat, r: nat | At(front, k, j, r) && At(front, l, i, r)
        ensures k == l && j == i
      {
        assert At(routing, k, j, r) && At(routing, l, i, r);
      }
    }
    if ListedOnce(front) && Distinct(route.ids) && forall r :: Listed(front, r) ==> r !in route.ids {
      forall k: nat, j: nat, l: nat, i: nat, r: nat | At(routing, k, j, r) && At(routing, l, i, r)
        ensures k == l && j == i
      {
        assert At(front, k, j, r) ==> Listed(front, r);
        assert At(front, l, i, r) ==> Listed(front, r);
      }
    }
  }

  /** The record goes to the type made for the destination its route names. */
  lemma {:induction false} RoutedByName(first: nat, names: seq<string>, routing: seq<Route>, k: nat, j: nat, r: nat)
    requires Named(names, routing) && ListedOnce(routing) && At(routing, k, j, r)
    ensures var dest := RoutedTo(first, names, routing, r);
            dest.Some? && first <= dest.value < first + |names| && names[dest.value - first] == routing[k].name
  {
    hide Listed;
    hide ListedOnce;
    var front, route := Front(routing), Last(routing);
    assert routing == front + [route];
    ListedOnceSnoc(front, route);
    if k < |front| {
      IsListed(front, k, j, r);
      NamedParts(names, front, route);
      RoutedByName(first, names, front, k, j, r);
    }
  }

  lemma IsListed(routing: seq<Route>, k: nat, j: nat, r: nat)
    requires At(routing, k, j, r)
    ensures Listed(routing, r)
  {
  }

  lemma {:induction false} UnlistedStays(first: nat, names: seq<string>, routing: seq<Route>, r: nat)
    requires !Listed(routing, r)
    ensures RoutedTo(first, names, routing, r).None?
  {
    hide Listed;
    if routing != [] {
      ListedSnoc(Front(routing), Last(routing));
      assert routing == Front(routing) + [Last(routing)];
      UnlistedStays(first, names, Front(routing), r);
    }
  }

  lemma CreatableMeans(types: seq<AgentType>, dests: seq<Destination>, like: AgentType)
    ensures Creatable(types, SpecsFor(dests, like)) <==>
            (forall i :: 0 <= i < |dests| ==>
              Strip(dests[i].name) != "" && Strip(dests[i].responsibility) != "" &&
              forall t :: 0 <= t < |types| ==> types[t].name != Strip(dests[i].name)) &&
            (forall i, j :: 0 <= i < j < |dests| ==> Strip(dests[i].name) != Strip(dests[j].name))
  {
    hide Strip;
    var specs := SpecsFor(dests, like);
    assert forall i :: 0 <= i < |dests| ==>
             specs[i].name == dests[i].name && specs[i].responsibility == dests[i].responsibility;
  }

  lemma RoutableMeans(records: seq<Record>, src: nat, dests: seq<Destination>, routing: seq<Route>)
    ensures Routable(records, src, NamesOf(dests), routing) <==>
            (forall k :: 0 <= k < |routing| ==> HasName(dests, routing[k].name)) &&
            (forall r: nat :: Listed(routing, r) ==> r < |records| && records[r].owner == Some(src)) &&
            ListedOnce(routing)
  {
    hide Strip;
    hide RoutedIds;
    hide ListedOnce;
    hide Listed;
    hide Distinct;
    RoutedIdsAreListed(routing);
    var names := NamesOf(dests);
    forall name
      ensures name in names <==> HasName(dests, name)
    {
      if i :| 0 <= i < |dests| && Strip(dests[i].name) == name {
        assert names[i] == name;
      }
    }
  }

  /** A split succeeds exactly when the source is active, every destination has a name that is used
      neither before nor by another and a responsibility, and every record of the routing is listed
      once, belongs to the source, and is routed to a destination. */
  lemma SplitSucceedsExactly(st: Topology, src: nat, dests: seq<Destination>, routing: seq<Route>)
    ensures Split(st, src, dests, routing).Ok? <==>
            src < |st.types| && st.types[src].state == Active &&
            (forall i :: 0 <= i < |dests| ==>
              Strip(dests[i].name) != "" && Strip(dests[i].responsibility) != "" &&
              forall t :: 0 <= t < |st.types| ==> st.types[t].name != Strip(dests[i].name)) &&
            (forall i, j :: 0 <= i < j < |dests| ==> Strip(dests[i].name) != Strip(dests[j].name)) &&
            (forall k :: 0 <= k < |routing| ==> HasName(dests, routing[k].name)) &&
            (forall r: nat :: Listed(routing, r) ==> r < |st.records| && st.records[r].owner == Some(src)) &&
            ListedOnce(routing)
  {
    hide Strip;
    hide Split;
    hide Creatable;
    hide Routable;
    hide ListedOnce;
    hide Listed;
    hide HasName;
    SplitExactly(st, src, dests, routing);
    if src < |st.types| {
      CreatableMeans(st.types, dests, st.types[src]);
      RoutableMeans(st.records, src, dests, routing);
    }
  }

  /** What a split makes of the types: the new ones have the source's tools and limit, and the source
      is archived under the first of them. No other type and no instance changes. */
  lemma SplitWritesTypes(st: Topology, src: nat, dests: seq<Destination>, routing: seq<Route>)
    requires Split(st, src, dests, routing).Ok? && src < |st.types|
    ensures var after, first := Split(st, src, dests, routing).value, |st.types|;
            |after.types| == first + |dests| && after.instances == st.instances &&
            (forall i :: 0 <= i < |dests| ==>
              after.types[first + i] ==
              AgentType(Strip(dests[i].name), Strip(dests[i].responsibility), st.types[src].tools, st.types[src].limit,
                        Active, None)) &&
            (forall t :: 0 <= t < first && t != src ==> after.types[t] == st.types[t]) &&
            after.types[src] ==
            st.types[src].(state := Archived,
                           supersededBy := if dests == [] then st.types[src].supersededBy else Some(first))
  {
    hide Strip;
    hide Split;
    hide RoutedTo;
    hide Splittable;
    hide SplitRecord;
    hide Capture;
    SplitExactly(st, src, dests, routing);
    var after, first, specs := Split(st, src, dests, routing).value, |st.types|, SpecsFor(dests, st.types[src]);
    forall i | 0 <= i < |dests|
      ensures after.types[first + i] ==
              AgentType(Strip(dests[i].name), Strip(dests[i].responsibility), st.types[src].tools, st.types[src].limit,
                        Active, None)
    {
      assert after.types[first + i] == NewType(specs[i]);
      assert specs[i] == TypeSpec(dests[i].name, dests[i].responsibility, st.types[src].tools, st.types[src].limit);
    }
  }

  /** What a split makes of the records: one listed for a destination goes to its type, with its
      origin; the other live records of the source are archived; no other record changes. */
  lemma SplitWritesRecords(st: Topology, src: nat, dests: seq<Destination>, routing: seq<Route>, r: nat)
    requires Split(st, src, dests, routing).Ok? && src < |st.types| && r < |st.records|
    ensures var after, first, record := Split(st, src, dests, routing).value, |st.types|, st.records[r];
            |after.records| == |st.records| &&
            (forall k: nat, j: nat :: At(routing, k, j, r) ==>
              exists i :: 0 <= i < |dests| && Strip(dests[i].name) == routing[k].name &&
                          after.records[r] == record.(owner := Some(first + i), migratedFrom := Some(r))) &&
            (!Listed(routing, r) ==>
              after.records[r] ==
              if record.owner == Some(src) && (record.state == Candidate || record.state == Approved)
              then record.(state := Shelved) else record)
  {
    hide Strip;
    hide Split;
    hide RoutedTo;
    hide Creatable;
    hide Capture;
    hide Successor;
    hide Listed;
    hide ListedOnce;
    hide HasName;
    SplitExactly(st, src, dests, routing);
    RoutableMeans(st.records, src, dests, routing);
    var after, first, names := Split(st, src, dests, routing).value, |st.types|, NamesOf(dests);
    forall k: nat, j: nat | At(routing, k, j, r)
      ensures exists i :: 0 <= i < |dests| && Strip(dests[i].name) == routing[k].name &&
                          after.records[r] == st.records[r].(owner := Some(first + i), migratedFrom := Some(r))
    {
      RoutedByName(first, names, routing, k, j, r);
      var i := RoutedTo(first, names, routing, r).value - first;
      assert Strip(dests[i].name) == routing[k].name;
    }
    if !Listed(routing, r) {
      UnlistedStays(first, names, routing, r);
    }
  }

  // ---------------------------------------------------------------------------------------
  // Retirement and rollback
  // ---------------------------------------------------------------------------------------

  /** The running count of a type is the number of its running instances. */
  lemma {:induction false} RunningOfCounts(instances: seq<Instance>, t: nat)
    ensures RunningOf(instances, t) ==
            |set i: nat | i < |instances| && instances[i].typeId == t && instances[i].state == Running|
  {
    var all := set i: nat | i < |instances| && instances[i].typeId == t && instances[i].state == Running;
    if instances == [] {
      assert all == {};
    } else {
      var pre, n := Front(instances), |instances| - 1;
      RunningOfCounts(pre, t);
      var before := set i: nat | i < |pre| && pre[i].typeId == t && pre[i].state == Running;
      var more: set<nat> := if Last(instances).typeId == t && Last(instances).state == Running then {n} else {};
      assert all == before + more && before !! more;
    }
  }

  /** A retirement in terms of the rows: it needs an active type without a running instance and,
      unless the knowledge is to be archived, without live knowledge. */
  lemma RetireWrites(st: Topology, t: nat, archive: bool)
    ensures Retire(st, t, archive).Ok? <==>
            t < |st.types| && st.types[t].state == Active &&
            (forall i :: 0 <= i < |st.instances| && st.instances[i].typeId == t ==> st.instances[i].state != Running) &&
            (archive || forall r :: 0 <= r < |st.records| && st.records[r].owner == Some(t) ==>
                          st.records[r].state != Candidate && st.records[r].state != Approved)
    ensures Retire(st, t, archive).Ok? ==>
              var after := Retire(st, t, archive).value;
              after.types == st.types[t := st.types[t].(state := Retired)] && after.instances == st.instances &&
              |after.records| == |st.records| &&
              forall r :: 0 <= r < |st.records| ==>
                var record := st.records[r];
                after.records[r] ==
                if record.owner == Some(t) && (record.state == Candidate || record.state == Approved)
                then record.(state := Shelved) else record
  {
    RetireExactly(st, t, archive);
    NoneRunning(st.instances, t);
    assert LiveOf(st.records, t) == [] <==>
           forall r :: 0 <= r < |st.records| && st.records[r].owner == Some(t) ==>
             st.records[r].state != Candidate && st.records[r].state != Approved by {
      if LiveOf(st.records, t) != [] {
        assert LiveOf(st.records, t)[0] in LiveOf(st.records, t);
      }
      forall r: nat | r < |st.records| && IsLive(st.records[r], t)
        ensures LiveOf(st.records, t) != []
      {
        assert r in LiveOf(st.records, t);
      }
    }
  }

  lemma {:induction false} NoneRunning(instances: seq<Instance>, t: nat)
    ensures RunningOf(instances, t) == 0 <==>
            forall i :: 0 <= i < |instances| && instances[i].typeId == t ==> instances[i].state != Running
  {
    if instances != [] {
      NoneRunning(Front(instances), t);
      assert forall i :: 0 <= i < |instances| - 1 ==> instances[i] == Front(instances)[i];
      assert instances[|instances| - 1] == Last(instances);
    }
  }

  /** A rollback sets the state of types and the owner of records, and nothing else of a row but the
      origin of a record it hands back. */
  lemma RollbackWrites(st: Topology, id: nat)
    ensures Rollback(st, id).Ok? <==> id < |st.snapshots|
    ensures id < |st.snapshots| ==>
              var s, after := st.snapshots[id], Rollback(st, id).value;
              |after.types| == |st.types| && |after.records| == |st.records| && after.instances == st.instances &&
              (forall t :: 0 <= t < |st.types| ==>
                after.types[t] ==
                if t < |s.states| && s.states[t] == Active then st.types[t].(state := Active)
                else if t >= |s.states| && st.types[t].state == Active then st.types[t].(state := Archived)
                else st.types[t]) &&
              (forall r :: 0 <= r < |st.records| ==>
                after.records[r] ==
                if r < |s.owners| && s.owners[r].Some? && st.records[r].owner != s.owners[r]
                then st.records[r].(owner := s.owners[r], migratedFrom := None)
                else st.records[r])
  {
  }

  /** Every migration and every rollback leaves a snapshot of the states and owners it found. */
  lemma MigrationsTakeSnapshots(st: Topology, op: Op)
    requires Apply(st, op).Ok? && (op.SplitOp? || op.MergeOp? || op.RetireOp? || op.RollbackOp?)
    ensures var taken := After(st, op).snapshots;
            |taken| == |st.snapshots| + 1 && taken[..|st.snapshots|] == st.snapshots &&
            var s := taken[|st.snapshots|];
            s.reason == (if op.SplitOp? then "before_split" else if op.MergeOp? then "before_merge"
                         else if op.RetireOp? then "before_retire" else "rollback") &&
            |s.states| == |st.types| && (forall t :: 0 <= t < |st.types| ==> s.states[t] == st.types[t].state) &&
            |s.owners| == |st.records| && (forall r :: 0 <= r < |st.records| ==> s.owners[r] == st.records[r].owner)
  {
    hide CreateAll;
    hide RouteAll;
    hide Creation;
    hide LiveOf;
    hide RunningOf;
    hide SourceError;
    hide ToolsOf;
    hide LimitOf;
  }

  // ---------------------------------------------------------------------------------------
  // The other operations
  // ---------------------------------------------------------------------------------------

  /** A new type needs a name not used before and a responsibility; it is active, and no row changes. */
  lemma CreateWrites(st: Topology, spec: TypeSpec)
    ensures Apply(st, Create(spec)).Ok? <==>
            Strip(spec.name) != "" && Strip(spec.responsibility) != "" &&
            forall t :: 0 <= t < |st.types| ==> st.types[t].name != Strip(spec.name)
    ensures Apply(st, Create(spec)).Ok? ==>
              After(st, Create(spec)) ==
              Topology(st.types + [AgentType(Strip(spec.name), Strip(spec.responsibility), spec.tools, spec.limit,
                                             Active, None)],
                       st.records, st.instances, st.snapshots)
  {
    hide Strip;
  }

  /** An update changes what it is given, of the one type; its name, state and successor stay. */
  lemma UpdateWrites(st: Topology, t: nat, responsibility: Option<string>, tools: Option<set<string>>,
                     limit: Option<int>)
    ensures var op := Update(t, responsibility, tools, limit);
            (Apply(st, op).Ok? <==> t < |st.types|) &&
            (t < |st.types| ==>
              var after := After(st, op);
              |after.types| == |st.types| && after.records == st.records && after.instances == st.instances &&
              (forall u :: 0 <= u < |st.types| && u != t ==> after.types[u] == st.types[u]) &&
              after.types[t].name == st.types[t].name && after.types[t].state == st.types[t].state &&
              after.types[t].supersededBy == st.types[t].supersededBy &&
              Some(after.types[t].responsibility) ==
              (if responsibility.Some? then responsibility else Some(st.types[t].responsibility)) &&
              Some(after.types[t].tools) == (if tools.Some? then tools else Some(st.types[t].tools)) &&
              Some(after.types[t].limit) == (if limit.Some? then limit else Some(st.types[t].limit)))
  {
  }

  /** A new record needs a text and, if it has one, an owner that exists; the text is stripped. */
  lemma AddKnowledgeWrites(st: Topology, owner: Option<nat>, content: string, state: RecordState)
    ensures var op := AddKnowledge(owner, content, state);
            (Apply(st, op).Ok? <==> Strip(content) != "" && (owner.Some? ==> owner.value < |st.types|)) &&
            (Apply(st, op).Ok? ==>
              After(st, op) ==
              Topology(st.types, st.records + [Record(Strip(content), owner, state, None)], st.instances, st.snapshots))
  {
    hide Strip;
  }

  /** The life of an instance: created idle for an active type, assigned to a task or leased for one
      while its type has room, completed with its result. Only the one instance is written. */
  lemma InstanceOperationsWrite(st: Topology, op: Op)
    requires op.CreateInstance? || op.Assign? || op.Lease? || op.Complete?
    ensures Apply(st, op).Ok? <==>
            match op
            case CreateInstance(t) => t < |st.types| && st.types[t].state == Active
            case Assign(i, _) =>
              i < |st.instances| && st.instances[i].state == Idle && st.instances[i].typeId < |st.types| &&
              RunningOf(st.instances, st.instances[i].typeId) < st.types[st.instances[i].typeId].limit
            case Lease(t, _) =>
              t < |st.types| && st.types[t].state == Active && RunningOf(st.instances, t) < st.types[t].limit
            case Complete(i, _) => i < |st.instances| && st.instances[i].state == Running
    ensures Apply(st, op).Ok? ==>
              var after := After(st, op);
              after.types == st.types && after.records == st.records && after.snapshots == st.snapshots &&
              match op
              case CreateInstance(t) => after.instances == st.instances + [Instance(t, None, Idle)]
              case Assign(i, task) =>
                after.instances == st.instances[i := Instance(st.instances[i].typeId, Some(task), Running)]
              case Lease(t, task) => after.instances == st.instances + [Instance(t, Some(task), Running)]
              case Complete(i, succeeded) =>
                after.instances ==
                st.instances[i := Instance(st.instances[i].typeId, st.instances[i].task,
                                           if succeeded then Completed else Failed)]
  {
    hide RunningOf;
  }
}
