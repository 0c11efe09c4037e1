/**
 The sub-agent types of one project, the knowledge records they own, their runtime instances and
 the topology snapshots.

 A table is a sequence and a row's id is its position: rows are inserted at the end and never
 deleted. Every operation either commits as a whole or leaves the four tables as they were.
*/
module AgentTopology {
  import opened Prelude

  datatype TypeState = Active | Archived | Retired

  datatype AgentType = AgentType(
    name: string,
    responsibility: string,
    tools: set<string>,
    limit: int,
    state: TypeState,
    supersededBy: Option<nat>)

  datatype RecordState = Candidate | Approved | Superseded | Shelved

  datatype Record = Record(content: string, owner: Option<nat>, state: RecordState, migratedFrom: Option<nat>)

  datatype InstanceState = Idle | Running | Completed | Failed

  datatype Instance = Instance(typeId: nat, task: Option<nat>, state: InstanceState)

  /** Type states and record owners, by id, when the snapshot was taken. */
  datatype Snapshot = Snapshot(reason: string, states: seq<TypeState>, owners: seq<Option<nat>>)

  datatype Topology = Topology(
    types: seq<AgentType>,
    records: seq<Record>,
    instances: seq<Instance>,
    snapshots: seq<Snapshot>)

  const EMPTY := Topology([], [], [], [])

  datatype Error =
    | Invalid
    | NameTaken
    | TypeNotFound
    | RecordNotFound
    | InstanceNotFound
    | SnapshotNotFound
    | WrongState
    | LimitReached
    | UnknownDestination
    | NotReconciled

  datatype Result<T> = Ok(value: T) | Err(error: Error)

  datatype TypeSpec = TypeSpec(name: string, responsibility: string, tools: set<string>, limit: int)

  datatype Destination = Destination(name: string, responsibility: string)

  /** One entry of the routing dictionary. */
  datatype Route = Route(name: string, ids: seq<nat>)

  // ---------------------------------------------------------------------------------------
  // Types and snapshots
  // ---------------------------------------------------------------------------------------

  predicate Blank(s: string) {
    Strip(s) == ""
  }

  predicate NameUsed(types: seq<AgentType>, name: string) {
    exists i :: 0 <= i < |types| && types[i].name == name
  }

  function NewType(spec: TypeSpec): AgentType {
    AgentType(Strip(spec.name), Strip(spec.responsibility), spec.tools, spec.limit, Active, None)
  }

  /** A name counts as taken whatever the state of the type that holds it. */
  function Creation(types: seq<AgentType>, spec: TypeSpec): Result<seq<AgentType>> {
    if Blank(spec.name) || Blank(spec.responsibility) then Err(Invalid)
    else if NameUsed(types, Strip(spec.name)) then Err(NameTaken)
    else Ok(types + [NewType(spec)])
  }

  function CreateAll(types: seq<AgentType>, specs: seq<TypeSpec>): (r: Result<seq<AgentType>>)
    ensures r.Ok? ==> |r.value| == |types| + |specs|
  {
    if specs == [] then Ok(types)
    else
      var before := CreateAll(types, Front(specs));
      if before.Err? then before else Creation(before.value, Last(specs))
  }

  ghost predicate Creatable(types: seq<AgentType>, specs: seq<TypeSpec>) {
    (forall i :: 0 <= i < |specs| ==>
      !Blank(specs[i].name) && !Blank(specs[i].responsibility) && !NameUsed(types, Strip(specs[i].name))) &&
    (forall i, j :: 0 <= i < j < |specs| ==> Strip(specs[i].name) != Strip(specs[j].name))
  }

  function NewTypes(specs: seq<TypeSpec>): (types: seq<AgentType>)
    ensures |types| == |specs|
    ensures forall i :: 0 <= i < |specs| ==> types[i] == NewType(specs[i])
  {
    seq(|specs|, i requires 0 <= i < |specs| => NewType(specs[i]))
  }

  lemma UsedAmong(types: seq<AgentType>, specs: seq<TypeSpec>, name: string)
    ensures NameUsed(types + NewTypes(specs), name) <==>
            NameUsed(types, name) || exists i :: 0 <= i < |specs| && Strip(specs[i].name) == name
  {
    hide Strip;
    var all := types + NewTypes(specs);
    if i :| 0 <= i < |specs| && Strip(specs[i].name) == name {
      assert all[|types| + i].name == name;
    }
    if i :| 0 <= i < |types| && types[i].name == name {
      assert all[i].name == name;
    }
  }

  /** Creating several types succeeds exactly when every one is named, has a responsibility and
      a name used neither before nor among them; the new types are appended in order. */
  lemma {:induction false} CreateAllExactly(types: seq<AgentType>, specs: seq<TypeSpec>)
    ensures CreateAll(types, specs).Ok? <==> Creatable(types, specs)
    ensures CreateAll(types, specs).Ok? ==> CreateAll(types, specs).value == types + NewTypes(specs)
  {
    hide Strip;
    hide Blank;
    if specs == [] {
      assert types + NewTypes(specs) == types;
    } else {
      var front, last := Front(specs), Last(specs);
      CreateAllExactly(types, front);
      if Creatable(types, front) {
        assert NewTypes(specs) == NewTypes(front) + [NewType(last)];
        var mid := types + NewTypes(front);
        UsedAmong(types, front, Strip(last.name));
        assert types + NewTypes(specs) == mid + [NewType(last)];
        assert forall i :: 0 <= i < |front| ==> specs[i] == front[i];
      } else {
        assert !Creatable(types, specs);
      }
    }
  }

  function StatesOf(types: seq<AgentType>): (states: seq<TypeState>)
    ensures |states| == |types|
    ensures forall i :: 0 <= i < |types| ==> states[i] == types[i].state
  {
    seq(|types|, i requires 0 <= i < |types| => types[i].state)
  }

  function OwnersOf(records: seq<Record>): (owners: seq<Option<nat>>)
    ensures |owners| == |records|
    ensures forall r :: 0 <= r < |records| ==> owners[r] == records[r].owner
  {
    seq(|records|, r requires 0 <= r < |records| => records[r].owner)
  }

  function Capture(st: Topology, reason: string): Snapshot {
    Snapshot(reason, StatesOf(st.types), OwnersOf(st.records))
  }

  // ---------------------------------------------------------------------------------------
  // Records
  // ---------------------------------------------------------------------------------------

  /** What the default listing of a type's knowledge shows. */
  predicate IsLive(record: Record, t: nat) {
    record.owner == Some(t) && (record.state == Candidate || record.state == Approved)
  }

  /** The ids of the live records of a type, in order. */
  function LiveOf(records: seq<Record>, t: nat): (ids: seq<nat>)
    ensures forall r: nat :: r in ids <==> r < |records| && IsLive(records[r], t)
  {
    if records == [] then []
    else LiveOf(Front(records), t) + if IsLive(Last(records), t) then [|records| - 1] else []
  }

  function Shelve(records: seq<Record>, ids: seq<nat>): (after: seq<Record>)
    ensures |after| == |records|
    ensures forall r: nat :: r < |records| ==>
              after[r] == if r in ids then records[r].(state := Shelved) else records[r]
  {
    seq(|records|, r requires 0 <= r < |records| => if r in ids then records[r].(state := Shelved) else records[r])
  }

  function Hand(record: Record, r: nat, owner: nat): Record {
    record.(owner := Some(owner), migratedFrom := Some(r))
  }

  /** The records with those of the ids handed to a new owner, each remembering where it came from. */
  function HandOver(records: seq<Record>, ids: seq<nat>, owner: nat): (after: seq<Record>)
    ensures |after| == |records|
    ensures forall r: nat :: r < |records| ==> after[r] == if r in ids then Hand(records[r], r, owner) else records[r]
  {
    seq(|records|, r requires 0 <= r < |records| => if r in ids then Hand(records[r], r, owner) else records[r])
  }

  // ---------------------------------------------------------------------------------------
  // Split
  // ---------------------------------------------------------------------------------------

  function IndexOf(names: seq<string>, name: string): (i: Option<nat>)
    ensures i.Some? ==> i.value < |names| && names[i.value] == name
    ensures i.Some? <==> name in names
  {
    if names == [] then None
    else if Last(names) == name then Some(|names| - 1)
    else IndexOf(Front(names), name)
  }

  function MoveOne(records: seq<Record>, src: nat, dest: nat, r: nat): Result<seq<Record>> {
    if r >= |records| then Err(RecordNotFound)
    else if records[r].owner != Some(src) then Err(NotReconciled)
    else Ok(records[r := Hand(records[r], r, dest)])
  }

  function MoveAll(records: seq<Record>, src: nat, dest: nat, ids: seq<nat>): Result<seq<Record>> {
    if ids == [] then Ok(records)
    else
      var before := MoveAll(records, src, dest, Front(ids));
      if before.Err? then before else MoveOne(before.value, src, dest, Last(ids))
  }

  ghost predicate OwnedAll(records: seq<Record>, src: nat, ids: seq<nat>) {
    forall r: nat :: r in ids ==> r < |records| && records[r].owner == Some(src)
  }

  lemma {:induction false} MoveAllExactly(records: seq<Record>, src: nat, dest: nat, ids: seq<nat>)
    requires dest != src
    ensures MoveAll(records, src, dest, ids).Ok? <==> Distinct(ids) && OwnedAll(records, src, ids)
    ensures MoveAll(records, src, dest, ids).Ok? ==>
              MoveAll(records, src, dest, ids).value == HandOver(records, ids, dest)
  {
    hide MoveOne;
    if ids == [] {
      assert HandOver(records, ids, dest) == records;
    } else {
      var front, r := Front(ids), Last(ids);
      MoveAllExactly(records, src, dest, front);
      assert ids == front + [r];
      MovableSnoc(records, src, front, r);
      if MoveAll(records, src, dest, front).Ok? {
        HandOverOne(records, src, dest, front, r);
      }
    }
  }

  lemma MovableSnoc(records: seq<Record>, src: nat, ids: seq<nat>, r: nat)
    ensures Distinct(ids + [r]) && OwnedAll(records, src, ids + [r]) <==>
            Distinct(ids) && OwnedAll(records, src, ids) && r !in ids && r < |records| && records[r].owner == Some(src)
  {
    DistinctParts(ids, [r]);
    OwnedParts(records, src, ids, [r]);
    assert r in [r];
    assert Distinct([r]);
  }

  lemma HandOverOne(records: seq<Record>, src: nat, dest: nat, moved: seq<nat>, r: nat)
    requires dest != src
    ensures var mid := HandOver(records, moved, dest);
            (MoveOne(mid, src, dest, r).Ok? <==> r < |records| && records[r].owner == Some(src) && r !in moved) &&
            (MoveOne(mid, src, dest, r).Ok? ==>
             MoveOne(mid, src, dest, r).value == HandOver(records, moved + [r], dest))
  {
    var mid := HandOver(records, moved, dest);
    if r < |records| && records[r].owner == Some(src) && r !in moved {
      assert HandOver(records, moved + [r], dest) == mid[r := Hand(mid[r], r, dest)];
    }
  }

  /** The routing loop over the dictionary. New type i has id first + i. */
  function RouteAll(records: seq<Record>, src: nat, first: nat, names: seq<string>,
                    routing: seq<Route>): Result<seq<Record>> {
    if routing == [] then Ok(records)
    else
      var before, route := RouteAll(records, src, first, names, Front(routing)), Last(routing);
      if before.Err? then before
      else
        var i := IndexOf(names, route.name);
        if i.None? then Err(UnknownDestination) else MoveAll(before.value, src, first + i.value, route.ids)
  }

  function RoutedIds(routing: seq<Route>): seq<nat> {
    if routing == [] then [] else RoutedIds(Front(routing)) + Last(routing).ids
  }

  /** Where a record is routed to. */
  function RoutedTo(first: nat, names: seq<string>, routing: seq<Route>, r: nat): (dest: Option<nat>)
  {
    if routing == [] then None
    else
      var i := IndexOf(names, Last(routing).name);
      if r in Last(routing).ids && i.Some? then Some(first + i.value)
      else RoutedTo(first, names, Front(routing), r)
  }

  ghost predicate Named(names: seq<string>, routing: seq<Route>) {
    forall k :: 0 <= k < |routing| ==> routing[k].name in names
  }

  ghost predicate Routable(records: seq<Record>, src: nat, names: seq<string>, routing: seq<Route>) {
    Named(names, routing) && Distinct(RoutedIds(routing)) && OwnedAll(records, src, RoutedIds(routing))
  }

  function Placed(record: Record, r: nat, dest: Option<nat>): Record {
    if dest.Some? then Hand(record, r, dest.value) else record
  }

  /** Every record went where it was routed, and nothing else changed. */
  ghost predicate Routed(before: seq<Record>, after: seq<Record>, first: nat, names: seq<string>, routing: seq<Route>) {
    |after| == |before| &&
    forall r: nat :: r < |before| ==> after[r] == Placed(before[r], r, RoutedTo(first, names, routing, r))
  }

  lemma DistinctParts(a: seq<nat>, b: seq<nat>)
    ensures Distinct(a + b) <==> Distinct(a) && Distinct(b) && forall x :: x in a ==> x !in b
  {
    var c := a + b;
    assert forall i :: 0 <= i < |a| ==> c[i] == a[i];
    assert forall j :: 0 <= j < |b| ==> c[|a| + j] == b[j];
    if Distinct(c) {
      assert Distinct(a);
      forall i, j | 0 <= i < j < |b|
        ensures b[i] != b[j]
      {
        assert c[|a| + i] != c[|a| + j];
      }
      forall i, j | 0 <= i < |a| && 0 <= j < |b|
        ensures a[i] != b[j]
      {
        assert c[i] != c[|a| + j];
      }
    }
    if Distinct(a) && Distinct(b) && forall x :: x in a ==> x !in b {
      forall i, j | 0 <= i < j < |c|
        ensures c[i] != c[j]
      {
        if i < |a| <= j {
          assert c[i] in a && c[j] == b[j - |a|];
        }
      }
    }
  }

  lemma StillOwned(records: seq<Record>, mid: seq<Record>, src: nat, moved: seq<nat>, ids: seq<nat>)
    requires |mid| == |records|
    requires forall r: nat :: r < |records| ==> if r in moved then mid[r].owner != Some(src) else mid[r] == records[r]
    ensures OwnedAll(mid, src, ids) <==>
            OwnedAll(records, src, ids) && forall r :: r in moved ==> r !in ids || r >= |records|
  {
  }

  lemma RoutableSnoc(records: seq<Record>, src: nat, names: seq<string>, front: seq<Route>, route: Route)
    ensures var done := RoutedIds(front);
            Routable(records, src, names, front + [route]) <==>
            Routable(records, src, names, front) && route.name in names && Distinct(route.ids) &&
            OwnedAll(records, src, route.ids) && forall r :: r in done ==> r !in route.ids
  {
    hide Distinct;
    hide OwnedAll;
    hide Named;
    var routing, done := front + [route], RoutedIds(front);
    assert Front(routing) == front && Last(routing) == route;
    DistinctParts(done, route.ids);
    assert forall r :: r in RoutedIds(routing) <==> r in done || r in route.ids;
    OwnedParts(records, src, done, route.ids);
    NamedParts(names, front, route);
  }

  lemma OwnedParts(records: seq<Record>, src: nat, a: seq<nat>, b: seq<nat>)
    ensures OwnedAll(records, src, a + b) <==> OwnedAll(records, src, a) && OwnedAll(records, src, b)
  {
    assert forall r :: r in a + b <==> r in a || r in b;
  }

  lemma NamedParts(names: seq<string>, front: seq<Route>, route: Route)
    ensures Named(names, front + [route]) <==> Named(names, front) && route.name in names
  {
    var routing := front + [route];
    assert forall k :: 0 <= k < |front| ==> routing[k] == front[k];
    assert routing[|front|] == route;
  }

  lemma {:induction false} RoutedToMeaning(first: nat, names: seq<string>, routing: seq<Route>, r: nat)
    ensures var dest := RoutedTo(first, names, routing, r);
            (dest.Some? ==> first <= dest.value < first + |names| && r in RoutedIds(routing)) &&
            (Named(names, routing) && r in RoutedIds(routing) ==> dest.Some?)
  {
    if routing != [] {
      RoutedToMeaning(first, names, Front(routing), r);
      assert r in RoutedIds(routing) <==> r in RoutedIds(Front(routing)) || r in Last(routing).ids;
    }
  }

  /** Routing succeeds exactly when it names only destinations and every routed record is routed
      once and owned by the source; each routed record then has the one owner it was routed to. */
  lemma {:induction false} RouteAllExactly(records: seq<Record>, src: nat, first: nat, names: seq<string>,
                                           routing: seq<Route>)
    requires src < first
    ensures RouteAll(records, src, first, names, routing).Ok? <==> Routable(records, src, names, routing)
    ensures RouteAll(records, src, first, names, routing).Ok? ==>
              Routed(records, RouteAll(records, src, first, names, routing).value, first, names, routing)
  {
    hide MoveAll;
    if routing != [] {
      var front, route := Front(routing), Last(routing);
      RouteAllExactly(records, src, first, names, front);
      RoutableSnoc(records, src, names, front, route);
      assert routing == front + [route];
      RouteOnceMore(records, src, first, names, front, route);
    }
  }

  lemma RouteOnceMore(records: seq<Record>, src: nat, first: nat, names: seq<string>, front: seq<Route>, route: Route)
    requires src < first
    requires var before := RouteAll(records, src, first, names, front);
             (before.Ok? <==> Routable(records, src, names, front)) &&
             (before.Ok? ==> Routed(records, before.value, first, names, front))
    ensures var after := RouteAll(records, src, first, names, front + [route]);
            (after.Ok? <==>
              Routable(records, src, names, front) && route.name in names && Distinct(route.ids) &&
              OwnedAll(records, src, route.ids) && forall r :: r in RoutedIds(front) ==> r !in route.ids) &&
            (after.Ok? ==> Routed(records, after.value, first, names, front + [route]))
  {
    hide MoveAll;
    hide Distinct;
    hide IndexOf;
    var routing, i := front + [route], IndexOf(names, route.name);
    assert Front(routing) == front && Last(routing) == route;
    if Routable(records, src, names, front) && i.Some? {
      var mid := RouteAll(records, src, first, names, front).value;
      forall r: nat | r < |records|
        ensures if r in RoutedIds(front) then mid[r].owner != Some(src) else mid[r] == records[r]
        ensures r in RoutedIds(front) <==> RoutedTo(first, names, front, r).Some?
      {
        RoutedToMeaning(first, names, front, r);
      }
      MoveAllExactly(mid, src, first + i.value, route.ids);
      StillOwned(records, mid, src, RoutedIds(front), route.ids);
    }
  }

  function SpecsFor(dests: seq<Destination>, like: AgentType): (specs: seq<TypeSpec>)
    ensures |specs| == |dests|
    ensures forall i :: 0 <= i < |dests| ==>
              specs[i] == TypeSpec(dests[i].name, dests[i].responsibility, like.tools, like.limit)
  {
    seq(|dests|, i requires 0 <= i < |dests| =>
        TypeSpec(dests[i].name, dests[i].responsibility, like.tools, like.limit))
  }

  /** The names the new types are looked up by: stripped, as they were stored. */
  function NamesOf(dests: seq<Destination>): (names: seq<string>)
    ensures |names| == |dests|
    ensures forall i :: 0 <= i < |dests| ==> names[i] == Strip(dests[i].name)
  {
    seq(|dests|, i requires 0 <= i < |dests| => Strip(dests[i].name))
  }

  /** The ids that were not routed. */
  function Unrouted(ids: seq<nat>, routed: seq<nat>): (left: seq<nat>)
    ensures forall r :: r in left <==> r in ids && r !in routed
  {
    if ids == [] then []
    else Unrouted(Front(ids), routed) + if Last(ids) in routed then [] else [Last(ids)]
  }

  /** Without destinations the source keeps whatever successor it had. */
  function Successor(st: Topology, src: nat, dests: seq<Destination>): Option<nat>
    requires src < |st.types|
  {
    if dests == [] then st.types[src].supersededBy else Some(|st.types|)
  }

  function Split(st: Topology, src: nat, dests: seq<Destination>, routing: seq<Route>): Result<Topology> {
    if src >= |st.types| then Err(TypeNotFound)
    else if st.types[src].state != Active then Err(WrongState)
    else
      var first := |st.types|;
      var types := CreateAll(st.types, SpecsFor(dests, st.types[src]));
      if types.Err? then Err(types.error)
      else
        var routed := RouteAll(st.records, src, first, NamesOf(dests), routing);
        if routed.Err? then Err(routed.error)
        else
          Ok(Topology(
            types.value[src := st.types[src].(state := Archived, supersededBy := Successor(st, src, dests))],
            Shelve(routed.value, Unrouted(LiveOf(st.records, src), RoutedIds(routing))),
            st.instances,
            st.snapshots + [Capture(st, "before_split")]))
  }

  /** The record a split leaves in place of `record`, which has id r. */
  function SplitRecord(record: Record, r: nat, src: nat, dest: Option<nat>): Record {
    if dest.Some? then Hand(record, r, dest.value)
    else if IsLive(record, src) then record.(state := Shelved)
    else record
  }

  ghost predicate Splittable(st: Topology, src: nat, dests: seq<Destination>, routing: seq<Route>) {
    src < |st.types| && st.types[src].state == Active &&
    Creatable(st.types, SpecsFor(dests, st.types[src])) &&
    Routable(st.records, src, NamesOf(dests), routing)
  }

  /** A split succeeds exactly when the source is active, the destinations can be created and the
      routing is sound. Then every record routed has the one owner it was routed to, the other
      live records of the source are archived under it, and nothing else changed. */
  lemma SplitExactly(st: Topology, src: nat, dests: seq<Destination>, routing: seq<Route>)
    ensures Split(st, src, dests, routing).Ok? <==> Splittable(st, src, dests, routing)
    ensures Split(st, src, dests, routing).Ok? ==>
              var after, first := Split(st, src, dests, routing).value, |st.types|;
              after.snapshots == st.snapshots + [Capture(st, "before_split")] && after.instances == st.instances &&
              |after.types| == first + |dests| && |after.records| == |st.records| &&
              (forall i :: 0 <= i < first && i != src ==> after.types[i] == st.types[i]) &&
              after.types[src] == st.types[src].(state := Archived, supersededBy := Successor(st, src, dests)) &&
              (forall i :: 0 <= i < |dests| ==> after.types[first + i] == NewType(SpecsFor(dests, st.types[src])[i])) &&
              (forall r: nat :: r < |st.records| ==>
                after.records[r] == SplitRecord(st.records[r], r, src, RoutedTo(first, NamesOf(dests), routing, r)))
  {
    hide Creatable;
    hide Routable;
    hide CreateAll;
    hide RouteAll;
    hide RoutedTo;
    hide RoutedIds;
    hide NewType;
    hide LiveOf;
    hide Unrouted;
    hide SpecsFor;
    hide NamesOf;
    hide SplitRecord;
    hide Shelve;
    hide Capture;
    hide Successor;
    if src < |st.types| && st.types[src].state == Active {
      var specs, names, first := SpecsFor(dests, st.types[src]), NamesOf(dests), |st.types|;
      CreateAllExactly(st.types, specs);
      RouteAllExactly(st.records, src, first, names, routing);
      if Creatable(st.types, specs) && Routable(st.records, src, names, routing) {
        SplitRecords(st.records, RouteAll(st.records, src, first, names, routing).value, src, first, names, routing);
      }
    }
  }

  lemma SplitRecords(before: seq<Record>, routed: seq<Record>, src: nat, first: nat, names: seq<string>,
                     routing: seq<Route>)
    requires Routable(before, src, names, routing) && Routed(before, routed, first, names, routing)
    ensures var after := Shelve(routed, Unrouted(LiveOf(before, src), RoutedIds(routing)));
            forall r: nat :: r < |before| ==>
              after[r] == SplitRecord(before[r], r, src, RoutedTo(first, names, routing, r))
  {
    hide Routable;
    hide RoutedTo;
    hide RoutedIds;
    hide LiveOf;
    hide Unrouted;
    RoutableIsNamed(before, src, names, routing);
    forall r: nat | r < |before|
      ensures RoutedTo(first, names, routing, r).Some? <==> r in RoutedIds(routing)
    {
      RoutedToMeaning(first, names, routing, r);
    }
  }

  lemma RoutableIsNamed(records: seq<Record>, src: nat, names: seq<string>, routing: seq<Route>)
    requires Routable(records, src, names, routing)
    ensures Named(names, routing)
  {
  }


  // ---------------------------------------------------------------------------------------
  // Merge, retire and roll back
  // ---------------------------------------------------------------------------------------

  ghost predicate AllActive(types: seq<AgentType>, ids: seq<nat>) {
    forall i :: 0 <= i < |ids| ==> ids[i] < |types| && types[ids[i]].state == Active
  }

  /** The first complaint about the types to be merged. */
  function SourceError(types: seq<AgentType>, ids: seq<nat>): (e: Option<Error>)
    ensures e.None? <==> AllActive(types, ids)
  {
    if ids == [] then None
    else
      var before := SourceError(types, Front(ids));
      if before.Some? then before
      else if Last(ids) >= |types| then Some(TypeNotFound)
      else if types[Last(ids)].state != Active then Some(WrongState)
      else None
  }

  /** The union of the sources' tools. */
  function ToolsOf(types: seq<AgentType>, ids: seq<nat>): (tools: set<string>)
    requires forall t :: t in ids ==> t < |types|
    ensures forall tool :: tool in tools <==> exists t :: t in ids && tool in types[t].tools
  {
    set t, tool | t in ids && tool in types[t].tools :: tool
  }

  /** The largest of the sources' limits. */
  function LimitOf(types: seq<AgentType>, ids: seq<nat>): (limit: int)
    requires ids != [] && forall t :: t in ids ==> t < |types|
    ensures forall t :: t in ids ==> types[t].limit <= limit
    ensures exists t :: t in ids && types[t].limit == limit
  {
    assert ids == Front(ids) + [Last(ids)];
    assert forall t :: t in Front(ids) || t == Last(ids) ==> t in ids;
    assert Last(ids) in ids;
    var last := types[Last(ids)].limit;
    if |ids| == 1 then last else Max(LimitOf(types, Front(ids)), last)
  }

  function Supersede(types: seq<AgentType>, ids: seq<nat>, successor: nat): (after: seq<AgentType>)
    ensures |after| == |types|
    ensures forall t: nat :: t < |types| ==>
              after[t] == if t in ids then types[t].(state := Archived, supersededBy := Some(successor)) else types[t]
  {
    seq(|types|, t requires 0 <= t < |types| =>
      if t in ids then types[t].(state := Archived, supersededBy := Some(successor)) else types[t])
  }

  predicate LiveIn(record: Record, ids: seq<nat>) {
    record.owner.Some? && record.owner.value in ids && IsLive(record, record.owner.value)
  }

  /** The live records of the sources, handed to the successor. */
  function Migrate(records: seq<Record>, ids: seq<nat>, successor: nat): (after: seq<Record>)
    ensures |after| == |records|
    ensures forall r: nat :: r < |records| ==>
              after[r] == if LiveIn(records[r], ids) then Hand(records[r], r, successor) else records[r]
  {
    seq(|records|, r requires 0 <= r < |records| =>
      if LiveIn(records[r], ids) then Hand(records[r], r, successor) else records[r])
  }

  function MergeSpec(types: seq<AgentType>, ids: seq<nat>, dest: Destination): TypeSpec
    requires ids != [] && forall t :: t in ids ==> t < |types|
  {
    TypeSpec(dest.name, dest.responsibility, ToolsOf(types, ids), LimitOf(types, ids))
  }

  function Merge(st: Topology, ids: seq<nat>, dest: Destination): Result<Topology> {
    if |ids| < 2 then Err(Invalid)
    else if SourceError(st.types, ids).Some? then Err(SourceError(st.types, ids).value)
    else
      var types := Creation(st.types, MergeSpec(st.types, ids, dest));
      if types.Err? then Err(types.error)
      else
        Ok(Topology(
          Supersede(types.value, ids, |st.types|),
          Migrate(st.records, ids, |st.types|),
          st.instances,
          st.snapshots + [Capture(st, "before_merge")]))
  }

  function RunningOf(instances: seq<Instance>, t: nat): nat {
    if instances == [] then 0
    else
      RunningOf(Front(instances), t) +
      if Last(instances).typeId == t && Last(instances).state == Running then 1 else 0
  }

  function Retire(st: Topology, t: nat, archive: bool): Result<Topology> {
    if t >= |st.types| then Err(TypeNotFound)
    else if st.types[t].state != Active then Err(WrongState)
    else if RunningOf(st.instances, t) > 0 then Err(NotReconciled)
    else
      var records := if archive then Shelve(st.records, LiveOf(st.records, t)) else st.records;
      if LiveOf(records, t) != [] then Err(NotReconciled)
      else
        Ok(Topology(
          st.types[t := st.types[t].(state := Retired)],
          records,
          st.instances,
          st.snapshots + [Capture(st, "before_retire")]))
  }

  /** What a rollback makes of type t, now in the given state. */
  function RestoredState(snapshot: Snapshot, t: nat, state: TypeState): TypeState {
    if t >= |snapshot.states| then if state == Active then Archived else state
    else if snapshot.states[t] == Active then Active
    else state
  }

  function RestoreTypes(snapshot: Snapshot, types: seq<AgentType>): (after: seq<AgentType>)
    ensures |after| == |types|
    ensures forall t: nat :: t < |types| ==> after[t] == types[t].(state := RestoredState(snapshot, t, types[t].state))
  {
    seq(|types|, t requires 0 <= t < |types| => types[t].(state := RestoredState(snapshot, t, types[t].state)))
  }

  predicate Strayed(snapshot: Snapshot, r: nat, record: Record) {
    r < |snapshot.owners| && snapshot.owners[r].Some? && record.owner != snapshot.owners[r]
  }

  function RestoreRecords(snapshot: Snapshot, records: seq<Record>): (after: seq<Record>)
    ensures |after| == |records|
    ensures forall r: nat :: r < |records| ==>
              after[r] == if Strayed(snapshot, r, records[r])
                          then records[r].(owner := snapshot.owners[r], migratedFrom := None)
                          else records[r]
  {
    seq(|records|, r requires 0 <= r < |records| =>
      if Strayed(snapshot, r, records[r]) then records[r].(owner := snapshot.owners[r], migratedFrom := None)
      else records[r])
  }

  function Restored(st: Topology, id: nat): Topology
    requires id < |st.snapshots|
  {
    Topology(
      RestoreTypes(st.snapshots[id], st.types),
      RestoreRecords(st.snapshots[id], st.records),
      st.instances,
      st.snapshots + [Capture(st, "rollback")])
  }

  function Rollback(st: Topology, id: nat): Result<Topology> {
    if id >= |st.snapshots| then Err(SnapshotNotFound) else Ok(Restored(st, id))
  }

  // ---------------------------------------------------------------------------------------
  // The operations of the service
  // ---------------------------------------------------------------------------------------

  datatype Op =
    | Create(spec: TypeSpec)
    | Update(id: nat, responsibility: Option<string>, tools: Option<set<string>>, limit: Option<int>)
    | AddKnowledge(owner: Option<nat>, content: string, state: RecordState)
    | CreateInstance(typeId: nat)
    | Assign(instance: nat, task: nat)
    | Lease(typeId: nat, task: nat)
    | Complete(instance: nat, succeeded: bool)
    | SplitOp(src: nat, dests: seq<Destination>, routing: seq<Route>)
    | MergeOp(ids: seq<nat>, dest: Destination)
    | RetireOp(id: nat, archive: bool)
    | RollbackOp(snapshot: nat)

  /** Only what is given is changed; the name and the state never are. */
  function Updated(t: AgentType, responsibility: Option<string>, tools: Option<set<string>>,
                   limit: Option<int>): AgentType {
    t.(responsibility := if responsibility.Some? then responsibility.value else t.responsibility,
       tools := if tools.Some? then tools.value else t.tools,
       limit := if limit.Some? then limit.value else t.limit)
  }

  function Apply(st: Topology, op: Op): Result<Topology> {
    match op
    case Create(spec) =>
      var types := Creation(st.types, spec);
      if types.Err? then Err(types.error) else Ok(st.(types := types.value))
    case Update(t, responsibility, tools, limit) =>
      if t >= |st.types| then Err(TypeNotFound)
      else Ok(st.(types := st.types[t := Updated(st.types[t], responsibility, tools, limit)]))
    case AddKnowledge(owner, content, state) =>
      if Blank(content) then Err(Invalid)
      else if owner.Some? && owner.value >= |st.types| then Err(TypeNotFound)
      else Ok(st.(records := st.records + [Record(Strip(content), owner, state, None)]))
    case CreateInstance(t) =>
      if t >= |st.types| then Err(TypeNotFound)
      else if st.types[t].state != Active then Err(WrongState)
      else Ok(st.(instances := st.instances + [Instance(t, None, Idle)]))
    case Assign(i, task) =>
      if i >= |st.instances| then Err(InstanceNotFound)
      else if st.instances[i].state != Idle then Err(WrongState)
      else if st.instances[i].typeId >= |st.types| then Err(TypeNotFound)
      else if RunningOf(st.instances, st.instances[i].typeId) >= st.types[st.instances[i].typeId].limit
      then Err(LimitReached)
      else Ok(st.(instances := st.instances[i := st.instances[i].(state := Running, task := Some(task))]))
    case Lease(t, task) =>
      if t >= |st.types| then Err(TypeNotFound)
      else if st.types[t].state != Active then Err(WrongState)
      else if RunningOf(st.instances, t) >= st.types[t].limit then Err(LimitReached)
      else Ok(st.(instances := st.instances + [Instance(t, Some(task), Running)]))
    case Complete(i, succeeded) =>
      if i >= |st.instances| then Err(InstanceNotFound)
      else if st.instances[i].state != Running then Err(WrongState)
      else Ok(st.(instances := st.instances[i := st.instances[i].(state := if succeeded then Completed else Failed)]))
    case SplitOp(src, dests, routing) => Split(st, src, dests, routing)
    case MergeOp(ids, dest) => Merge(st, ids, dest)
    case RetireOp(t, archive) => Retire(st, t, archive)
    case RollbackOp(id) => Rollback(st, id)
  }

  /** A failing operation changes nothing. */
  function After(st: Topology, op: Op): Topology {
    var r := Apply(st, op);
    if r.Ok? then r.value else st
  }

  function Run(st: Topology, ops: seq<Op>): Topology {
    if ops == [] then st else After(Run(st, Front(ops)), Last(ops))
  }

  // ---------------------------------------------------------------------------------------
  // What a migration does with the knowledge
  // ---------------------------------------------------------------------------------------

  /** After a split the source has no live record left: each one is either live under the one
      destination it was routed to, remembering its origin, or archived under the source. */
  lemma SplitAccountsForEveryRecord(st: Topology, src: nat, dests: seq<Destination>, routing: seq<Route>, r: nat)
    requires Split(st, src, dests, routing).Ok? && r < |st.records| && IsLive(st.records[r], src)
    ensures var after := Split(st, src, dests, routing).value;
            var dest := RoutedTo(|st.types|, NamesOf(dests), routing, r);
            |after.records| == |st.records| && LiveOf(after.records, src) == [] &&
            (dest.Some? <==> r in RoutedIds(routing)) &&
            (dest.Some? ==> |st.types| <= dest.value < |after.types| && IsLive(after.records[r], dest.value) &&
                            after.records[r].migratedFrom == Some(r)) &&
            (dest.None? ==> after.records[r] == st.records[r].(state := Shelved))
  {
    hide Creatable;
    hide Distinct;
    hide RouteAll;
    hide CreateAll;
    hide Split;
    hide RoutedIds;
    hide RoutedTo;
    hide LiveOf;
    hide OwnedAll;
    var names, first := NamesOf(dests), |st.types|;
    SplitExactly(st, src, dests, routing);
    var after := Split(st, src, dests, routing).value;
    forall k: nat | k < |st.records|
      ensures !IsLive(after.records[k], src)
    {
      RoutedToMeaning(first, names, routing, k);
    }
    NoneLive(after.records, src);
    RoutedToMeaning(first, names, routing, r);
  }

  lemma NoneLive(records: seq<Record>, t: nat)
    requires forall k: nat :: k < |records| ==> !IsLive(records[k], t)
    ensures LiveOf(records, t) == []
  {
    if LiveOf(records, t) != [] {
      assert LiveOf(records, t)[0] in LiveOf(records, t);
    }
  }

  /** A merge succeeds exactly with two or more active sources and a usable, unused name. Every
      live record of a source is then live under the new type, with its origin, and none is left
      with a source; the sources are archived and superseded; the new type has all tools of the
      sources and the largest of their limits. No other type or record changes, and no instance. */
  lemma MergeExactly(st: Topology, ids: seq<nat>, dest: Destination)
    ensures Merge(st, ids, dest).Ok? <==>
              |ids| >= 2 && AllActive(st.types, ids) &&
              !Blank(dest.name) && !Blank(dest.responsibility) && !NameUsed(st.types, Strip(dest.name))
    ensures Merge(st, ids, dest).Ok? ==>
              var after, made := Merge(st, ids, dest).value, |st.types|;
              |after.types| == made + 1 && |after.records| == |st.records| && after.instances == st.instances &&
              (forall t :: t in ids ==>
                t < made && after.types[t] == st.types[t].(state := Archived, supersededBy := Some(made))) &&
              (forall t: nat :: t < made && t !in ids ==> after.types[t] == st.types[t])
    ensures Merge(st, ids, dest).Ok? ==>
              var after, made := Merge(st, ids, dest).value, |st.types|;
              after.types[made].name == Strip(dest.name) &&
              after.types[made].responsibility == Strip(dest.responsibility) &&
              after.types[made].state == Active && after.types[made].supersededBy == None &&
              (forall tool :: tool in after.types[made].tools <==> exists t :: t in ids && tool in st.types[t].tools) &&
              (forall t :: t in ids ==> st.types[t].limit <= after.types[made].limit) &&
              (exists t :: t in ids && st.types[t].limit == after.types[made].limit)
    ensures Merge(st, ids, dest).Ok? ==>
              var after, made := Merge(st, ids, dest).value, |st.types|;
              forall r: nat :: r < |st.records| ==>
                var owner, state := st.records[r].owner, st.records[r].state;
                if owner.Some? && owner.value in ids && (state == Candidate || state == Approved)
                then after.records[r] == st.records[r].(owner := Some(made), migratedFrom := Some(r))
                else after.records[r] == st.records[r]
    ensures Merge(st, ids, dest).Ok? ==> forall t :: t in ids ==> LiveOf(Merge(st, ids, dest).value.records, t) == []
  {
    hide Strip;
    hide Blank;
    hide LiveOf;
    hide NameUsed;
    assert forall t :: t in ids ==> exists i :: 0 <= i < |ids| && ids[i] == t;
    if Merge(st, ids, dest).Ok? {
      var after, made := Merge(st, ids, dest).value, |st.types|;
      assert after.types[made] == NewType(MergeSpec(st.types, ids, dest));
      forall t | t in ids
        ensures t < made && LiveOf(after.records, t) == []
      {
        NoneLive(after.records, t);
      }
    }
  }

  /** A retirement succeeds exactly when the type is active, nothing of it runs and its live
      knowledge is to be archived or does not exist. Then nothing of it is live. */
  lemma RetireExactly(st: Topology, t: nat, archive: bool)
    ensures Retire(st, t, archive).Ok? <==>
              t < |st.types| && st.types[t].state == Active && RunningOf(st.instances, t) == 0 &&
              (archive || LiveOf(st.records, t) == [])
    ensures Retire(st, t, archive).Ok? ==>
              var after := Retire(st, t, archive).value;
              after.types == st.types[t := st.types[t].(state := Retired)] && |after.records| == |st.records| &&
              LiveOf(after.records, t) == [] &&
              forall r: nat :: r < |st.records| ==>
                after.records[r] == if IsLive(st.records[r], t) then st.records[r].(state := Shelved) else st.records[r]
  {
    if t < |st.types| {
      NoneLive(Shelve(st.records, LiveOf(st.records, t)), t);
    }
  }

  // ---------------------------------------------------------------------------------------
  // Over all runs
  // ---------------------------------------------------------------------------------------

  /** Rows stay: types keep their names, records their content, archived records stay archived,
      instances their type, snapshots are never touched. */
  ghost predicate Keeps(a: Topology, b: Topology) {
    |a.types| <= |b.types| && |a.records| <= |b.records| && |a.instances| <= |b.instances| &&
    (forall t :: 0 <= t < |a.types| ==> b.types[t].name == a.types[t].name) &&
    (forall r :: 0 <= r < |a.records| ==> b.records[r].content == a.records[r].content) &&
    (forall r :: 0 <= r < |a.records| ==>
      (b.records[r].state == a.records[r].state || b.records[r].state == Shelved)) &&
    (forall i :: 0 <= i < |a.instances| ==> b.instances[i].typeId == a.instances[i].typeId) &&
    a.snapshots <= b.snapshots
  }

  lemma ApplyKeeps(st: Topology, op: Op)
    ensures Keeps(st, After(st, op))
  {
    hide Blank;
    hide Strip;
    hide NameUsed;
    hide Split;
    hide Creatable;
    hide Routable;
    hide RoutedTo;
    hide LiveOf;
    hide RunningOf;
    if op.SplitOp? {
      SplitExactly(st, op.src, op.dests, op.routing);
    }
  }

  /** No run loses a type, a record, an instance or a snapshot. */
  lemma {:induction false} NothingDisappears(st: Topology, ops: seq<Op>)
    ensures Keeps(st, Run(st, ops))
  {
    hide After;
    if ops != [] {
      NothingDisappears(st, Front(ops));
      ApplyKeeps(Run(st, Front(ops)), Last(ops));
    }
  }

  ghost predicate DistinctNames(types: seq<AgentType>) {
    forall i, j :: 0 <= i < j < |types| ==> types[i].name != types[j].name
  }

  ghost predicate OwnedByTypes(st: Topology) {
    (forall r :: 0 <= r < |st.records| && st.records[r].owner.Some? ==> st.records[r].owner.value < |st.types|) &&
    (forall i :: 0 <= i < |st.instances| ==> st.instances[i].typeId < |st.types|)
  }

  ghost predicate SoundSnapshot(st: Topology, s: Snapshot) {
    |s.states| <= |st.types| && |s.owners| <= |st.records| &&
    forall r :: 0 <= r < |s.owners| && s.owners[r].Some? ==> s.owners[r].value < |s.states|
  }

  ghost predicate Sound(st: Topology) {
    DistinctNames(st.types) && OwnedByTypes(st) &&
    forall k :: 0 <= k < |st.snapshots| ==> SoundSnapshot(st, st.snapshots[k])
  }

  lemma CreateKeepsNames(types: seq<AgentType>, spec: TypeSpec)
    requires DistinctNames(types)
    ensures Creation(types, spec).Ok? ==> DistinctNames(Creation(types, spec).value)
  {
    hide Strip;
    hide Blank;
    if Creation(types, spec).Ok? {
      var after := Creation(types, spec).value;
      forall i, j | 0 <= i < j < |after|
        ensures after[i].name != after[j].name
      {
        assert after[i] == types[i];
      }
    }
  }

  lemma {:induction false} CreateAllKeepsNames(types: seq<AgentType>, specs: seq<TypeSpec>)
    requires DistinctNames(types)
    ensures CreateAll(types, specs).Ok? ==> DistinctNames(CreateAll(types, specs).value)
  {
    hide Creation;
    hide DistinctNames;
    if specs != [] {
      CreateAllKeepsNames(types, Front(specs));
      var before := CreateAll(types, Front(specs));
      if before.Ok? {
        CreateKeepsNames(before.value, Last(specs));
      }
    }
  }

  /** No two types of a reachable topology share a name, archived and retired ones included. */
  lemma ApplyKeepsNames(st: Topology, op: Op)
    requires DistinctNames(st.types)
    ensures DistinctNames(After(st, op).types)
  {
    hide Creation;
    hide CreateAll;
    hide RouteAll;
    hide LiveOf;
    hide RunningOf;
    hide ToolsOf;
    hide LimitOf;
    if op.Create? {
      CreateKeepsNames(st.types, op.spec);
    } else if op.SplitOp? && op.src < |st.types| {
      CreateAllKeepsNames(st.types, SpecsFor(op.dests, st.types[op.src]));
      var types := CreateAll(st.types, SpecsFor(op.dests, st.types[op.src]));
      CreatedAfter(st.types, SpecsFor(op.dests, st.types[op.src]));
    } else if op.MergeOp? && |op.ids| >= 2 && SourceError(st.types, op.ids).None? {
      assert forall t :: t in op.ids ==> exists i :: 0 <= i < |op.ids| && op.ids[i] == t;
      CreateKeepsNames(st.types, MergeSpec(st.types, op.ids, op.dest));
    }
  }

  lemma CreatedAfter(types: seq<AgentType>, specs: seq<TypeSpec>)
    ensures CreateAll(types, specs).Ok? ==> types <= CreateAll(types, specs).value
  {
    CreateAllExactly(types, specs);
  }

  lemma ApplyKeepsOwners(st: Topology, op: Op)
    requires Sound(st)
    ensures OwnedByTypes(After(st, op))
  {
    hide SourceError;
    hide ToolsOf;
    hide LimitOf;
    hide Capture;
    hide RestoredState;
    hide LiveIn;
    hide Blank;
    hide Strip;
    hide NameUsed;
    hide DistinctNames;
    hide Split;
    hide Creatable;
    hide Routable;
    hide RoutedTo;
    hide LiveOf;
    hide RunningOf;
    ApplyKeeps(st, op);
    if op.SplitOp? {
      SplitExactly(st, op.src, op.dests, op.routing);
      var after := After(st, op);
      if after != st {
        forall r: nat | r < |after.records| && after.records[r].owner.Some?
          ensures after.records[r].owner.value < |after.types|
        {
          RoutedToMeaning(|st.types|, NamesOf(op.dests), op.routing, r);
        }
      }
    }
  }

  /** An operation takes at most one snapshot, of the state it starts from. */
  lemma SnapshotIsOfTheStart(st: Topology, op: Op)
    ensures var taken := After(st, op).snapshots;
            taken == st.snapshots || exists reason :: taken == st.snapshots + [Capture(st, reason)]
  {
    hide Creation;
    hide CreateAll;
    hide RouteAll;
    hide LiveOf;
    hide RunningOf;
    hide ToolsOf;
    hide LimitOf;
    hide SourceError;
    if After(st, op).snapshots != st.snapshots {
      var reason := Last(After(st, op).snapshots).reason;
      assert After(st, op).snapshots == st.snapshots + [Capture(st, reason)];
    }
  }

  lemma ApplyKeepsSound(st: Topology, op: Op)
    requires Sound(st)
    ensures Sound(After(st, op))
  {
    hide After;
    hide DistinctNames;
    ApplyKeeps(st, op);
    ApplyKeepsNames(st, op);
    ApplyKeepsOwners(st, op);
    SnapshotIsOfTheStart(st, op);
    var after := After(st, op);
    forall k | 0 <= k < |after.snapshots|
      ensures SoundSnapshot(after, after.snapshots[k])
    {
      if k < |st.snapshots| {
        assert SoundSnapshot(st, st.snapshots[k]);
        assert after.snapshots[k] == st.snapshots[k];
      }
    }
  }

  /** Every reachable topology is sound: names are distinct, every owner and every instance's type
      exists, and so does all that a snapshot mentions. */
  lemma {:induction false} RunIsSound(ops: seq<Op>)
    ensures Sound(Run(EMPTY, ops))
  {
    hide After;
    if ops != [] {
      RunIsSound(Front(ops));
      ApplyKeepsSound(Run(EMPTY, Front(ops)), Last(ops));
    }
  }

  // ---------------------------------------------------------------------------------------
  // Rolling back
  // ---------------------------------------------------------------------------------------

  function ActiveIds(states: seq<TypeState>): set<nat> {
    set t: nat | t < |states| && states[t] == Active
  }

  function InactiveIds(states: seq<TypeState>): set<nat> {
    set t: nat | t < |states| && states[t] != Active
  }

  function ActiveTypes(st: Topology): set<nat> {
    ActiveIds(StatesOf(st.types))
  }

  /** What a rollback restores, whatever happened since: the active types are the snapshot's
      active ones and those of the snapshot's inactive ones that are active now; every record the
      snapshot lists is back with its owner; and no record changes its own state, so records
      archived since stay archived. */
  lemma RollbackExactly(st: Topology, id: nat)
    requires Sound(st) && id < |st.snapshots|
    ensures var snapshot, after := st.snapshots[id], Restored(st, id);
            |after.types| == |st.types| && |after.records| == |st.records| &&
            ActiveTypes(after) == ActiveIds(snapshot.states) + ActiveTypes(st) * InactiveIds(snapshot.states) &&
            (forall r: nat :: r < |snapshot.owners| && snapshot.owners[r].Some? ==>
              r < |after.records| && after.records[r].owner == snapshot.owners[r]) &&
            (forall r: nat :: r < |st.records| ==> after.records[r].state == st.records[r].state)
  {
    var snapshot, after := st.snapshots[id], Restored(st, id);
    assert SoundSnapshot(st, snapshot);
    forall t: nat
      ensures t in ActiveTypes(after) <==>
              t in ActiveIds(snapshot.states) || (t in ActiveTypes(st) && t in InactiveIds(snapshot.states))
    {
      assert t < |st.types| ==> after.types[t].state == RestoredState(snapshot, t, st.types[t].state);
    }
  }

  /** A rollback gives exactly the snapshot's active types if and only if no type the snapshot
      lists as inactive is active now. */
  lemma RollbackIsExactIff(st: Topology, id: nat)
    requires Sound(st) && id < |st.snapshots|
    ensures ActiveTypes(Restored(st, id)) == ActiveIds(st.snapshots[id].states) <==>
            ActiveTypes(st) !! InactiveIds(st.snapshots[id].states)
  {
    hide Restored;
    hide ActiveTypes;
    RollbackExactly(st, id);
    var a, n, i := ActiveTypes(st), ActiveIds(st.snapshots[id].states), InactiveIds(st.snapshots[id].states);
    assert n !! i;
    if !(a !! i) {
      var t :| t in a && t in i;
      assert t in n + a * i && t !in n;
    } else {
      assert n + a * i == n;
    }
  }

  lemma ApplyActivatesNone(st: Topology, op: Op, t: nat)
    requires t < |st.types| && !op.RollbackOp?
    ensures t < |After(st, op).types|
    ensures st.types[t].state != Active ==> After(st, op).types[t].state != Active
  {
    hide Blank;
    hide Strip;
    hide NameUsed;
    hide Split;
    hide Creatable;
    hide Routable;
    hide RoutedTo;
    hide LiveOf;
    hide RunningOf;
    if op.SplitOp? {
      SplitExactly(st, op.src, op.dests, op.routing);
    }
  }

  /** Without rollbacks a type that is not active never becomes active. */
  lemma {:induction false} RunActivatesNone(st: Topology, ops: seq<Op>, t: nat)
    requires t < |st.types| && forall k :: 0 <= k < |ops| ==> !ops[k].RollbackOp?
    ensures t < |Run(st, ops).types|
    ensures st.types[t].state != Active ==> Run(st, ops).types[t].state != Active
  {
    hide After;
    if ops != [] {
      RunActivatesNone(st, Front(ops), t);
      ApplyActivatesNone(Run(st, Front(ops)), Last(ops), t);
    }
  }

  lemma {:induction false} RunFromSoundIsSound(st: Topology, ops: seq<Op>)
    requires Sound(st)
    ensures Sound(Run(st, ops))
  {
    hide After;
    hide Sound;
    if ops != [] {
      RunFromSoundIsSound(st, Front(ops));
      ApplyKeepsSound(Run(st, Front(ops)), Last(ops));
    }
  }

  lemma KeepsTransitive(a: Topology, b: Topology, c: Topology)
    requires Keeps(a, b) && Keeps(b, c)
    ensures Keeps(a, c)
  {
  }

  lemma SnapshotStays(a: Topology, b: Topology, id: nat)
    requires Keeps(a, b) && id < |a.snapshots|
    ensures id < |b.snapshots| && b.snapshots[id] == a.snapshots[id]
  {
  }

  lemma RollbackKeeps(st: Topology, id: nat)
    requires id < |st.snapshots|
    ensures Keeps(st, Restored(st, id))
  {
    ApplyKeeps(st, RollbackOp(id));
  }

  lemma InactiveStayInactive(start: Topology, op: Op, ops: seq<Op>)
    requires !op.RollbackOp? && forall k :: 0 <= k < |ops| ==> !ops[k].RollbackOp?
    ensures ActiveTypes(Run(After(start, op), ops)) * InactiveIds(StatesOf(start.types)) == {}
  {
    hide After;
    hide Run;
    var now := Run(After(start, op), ops);
    forall t: nat | t in InactiveIds(StatesOf(start.types))
      ensures t !in ActiveTypes(now)
    {
      ApplyActivatesNone(start, op, t);
      RunActivatesNone(After(start, op), ops, t);
    }
  }

  lemma ActiveTypesAreIds(st: Topology)
    ensures ActiveTypes(st) == ActiveIds(StatesOf(st.types))
  {
  }

  lemma SnapshotSurvives(start: Topology, op: Op, ops: seq<Op>)
    requires After(start, op).snapshots != start.snapshots
    ensures var now, id := Run(After(start, op), ops), |start.snapshots|;
            Keeps(start, now) && id < |now.snapshots| &&
            now.snapshots[id].states == StatesOf(start.types) && now.snapshots[id].owners == OwnersOf(start.records)
  {
    hide After;
    hide Run;
    hide Keeps;
    var next, id := After(start, op), |start.snapshots|;
    var now := Run(next, ops);
    SnapshotIsOfTheStart(start, op);
    var reason :| next.snapshots == start.snapshots + [Capture(start, reason)];
    assert next.snapshots[id] == Capture(start, reason);
    ApplyKeeps(start, op);
    NothingDisappears(next, ops);
    KeepsTransitive(start, next, now);
    SnapshotStays(next, now, id);
  }

  /** Undoing migrations. Start anywhere, let a migration take its snapshot, then let any
      operations but rollbacks happen: rolling back to that snapshot makes active exactly the
      types that were active at the start, returns every owned record to the owner it had, and
      deletes nothing. */
  lemma RollbackUndoesMigrations(start: Topology, op: Op, ops: seq<Op>)
    requires Sound(start) && After(start, op).snapshots != start.snapshots
    requires !op.RollbackOp? && forall k :: 0 <= k < |ops| ==> !ops[k].RollbackOp?
    ensures var now, id := Run(After(start, op), ops), |start.snapshots|;
            id < |now.snapshots| &&
            var after := Restored(now, id);
            Keeps(start, after) && ActiveTypes(after) == ActiveTypes(start) &&
            forall r: nat :: r < |start.records| && start.records[r].owner.Some? ==>
              after.records[r].owner == start.records[r].owner
  {
    hide After;
    hide Sound;
    hide Restored;
    hide Keeps;
    hide ActiveTypes;
    hide ActiveIds;
    hide InactiveIds;
    hide Run;
    hide Capture;
    var next, id := After(start, op), |start.snapshots|;
    var now := Run(next, ops);
    SnapshotSurvives(start, op, ops);
    ApplyKeepsSound(start, op);
    RunFromSoundIsSound(next, ops);
    RollbackKeeps(now, id);
    KeepsTransitive(start, now, Restored(now, id));
    RollbackExactly(now, id);
    InactiveStayInactive(start, op, ops);
    ActiveTypesAreIds(start);
  }

  const LONE := AgentType("a", "b", {}, 1, Active, None)
  const CREATED := Topology([LONE], [], [], [])
  const RETIRED := Topology([LONE.(state := Retired)], [], [], [Snapshot("before_retire", [Active], [])])
  const REVIVED := Topology([LONE], [], [],
                            [Snapshot("before_retire", [Active], []), Snapshot("rollback", [Retired], [])])

  lemma LoneIsCreated()
    ensures After(EMPTY, Create(TypeSpec("a", "b", {}, 1))) == CREATED
  {
    assert Strip("a") == "a" && Strip("b") == "b";
  }

  lemma LoneIsRetired()
    ensures After(CREATED, RetireOp(0, true)) == RETIRED
  {
    assert Shelve([], []) == [] && StatesOf([LONE]) == [Active] && OwnersOf([]) == [];
  }

  lemma LoneIsRevived()
    ensures After(RETIRED, RollbackOp(0)) == REVIVED
  {
    assert StatesOf(RETIRED.types) == [Retired];
    assert RestoreTypes(RETIRED.snapshots[0], RETIRED.types) == [LONE];
    assert RestoreRecords(RETIRED.snapshots[0], []) == [];
  }

  /** The condition is needed: a type retired in a snapshot and active again since stays active. */
  lemma RollbackCanLeaveATypeActive()
    ensures var st := Run(EMPTY, [Create(TypeSpec("a", "b", {}, 1)), RetireOp(0, true), RollbackOp(0)]);
            |st.snapshots| == 2 &&
            st.snapshots[1].states == [Retired] && ActiveTypes(Restored(st, 1)) == {0}
  {
    hide After;
    var ops := [Create(TypeSpec("a", "b", {}, 1)), RetireOp(0, true), RollbackOp(0)];
    var two := Front(ops);
    assert two == [ops[0], ops[1]] && Front(two) == [ops[0]] && Front([ops[0]]) == [];
    LoneIsCreated();
    LoneIsRetired();
    LoneIsRevived();
    assert Run(EMPTY, [ops[0]]) == CREATED;
    assert Run(EMPTY, two) == RETIRED;
    assert Run(EMPTY, ops) == REVIVED;
    var after := Restored(REVIVED, 1);
    assert after.types[0] == LONE;
    assert forall t: nat :: t in ActiveTypes(after) <==> t == 0;
  }

  // ---------------------------------------------------------------------------------------
  // Concurrency limits
  // ---------------------------------------------------------------------------------------

  function Counts(instance: Instance, t: nat): nat {
    if instance.typeId == t && instance.state == Running then 1 else 0
  }

  lemma {:induction false} RunningOfChanged(instances: seq<Instance>, i: nat, now: Instance, t: nat)
    requires i < |instances|
    ensures RunningOf(instances[i := now], t) == RunningOf(instances, t) - Counts(instances[i], t) + Counts(now, t)
  {
    var after := instances[i := now];
    if i == |instances| - 1 {
      assert Front(after) == Front(instances);
    } else {
      RunningOfChanged(Front(instances), i, now, t);
      assert Front(after) == Front(instances)[i := now] && Last(after) == Last(instances);
    }
  }

  lemma {:induction false} RunningOfNone(instances: seq<Instance>, t: nat)
    requires forall i :: 0 <= i < |instances| ==> instances[i].typeId != t
    ensures RunningOf(instances, t) == 0
  {
    if instances != [] {
      RunningOfNone(Front(instances), t);
    }
  }

  ghost predicate WithinLimit(st: Topology, t: nat)
    requires t < |st.types|
  {
    RunningOf(st.instances, t) <= Max(st.types[t].limit, 0)
  }

  ghost predicate WithinLimits(st: Topology) {
    forall t: nat :: t < |st.types| ==> WithinLimit(st, t)
  }

  /** The operation does not push a limit below what is running. */
  ghost predicate LeavesRoom(st: Topology, op: Op) {
    op.Update? && op.id < |st.types| && op.limit.Some? ==> RunningOf(st.instances, op.id) <= Max(op.limit.value, 0)
  }

  lemma LimitKept(st: Topology, op: Op, t: nat)
    requires Sound(st) && WithinLimits(st) && t < |After(st, op).types|
    ensures WithinLimit(After(st, op), t) <==>
            !(op.Update? && op.id == t && op.limit.Some? && RunningOf(st.instances, t) > Max(op.limit.value, 0))
  {
    hide Blank;
    hide Strip;
    hide NameUsed;
    hide Split;
    hide Creatable;
    hide Routable;
    hide RoutedTo;
    hide LiveOf;
    hide DistinctNames;
    hide SoundSnapshot;
    hide ToolsOf;
    hide LimitOf;
    hide SourceError;
    hide Migrate;
    hide Capture;
    hide RestoreRecords;
    hide RestoredState;
    hide LiveIn;
    var after := After(st, op);
    if t >= |st.types| {
      RunningOfNone(st.instances, t);
    } else {
      assert WithinLimit(st, t);
    }
    if op.SplitOp? {
      SplitExactly(st, op.src, op.dests, op.routing);
    }
    if op.Assign? && after != st {
      RunningOfChanged(st.instances, op.instance, after.instances[op.instance], t);
    }
    if op.Complete? && after != st {
      RunningOfChanged(st.instances, op.instance, after.instances[op.instance], t);
    }
    if (op.Lease? || op.CreateInstance?) && after != st {
      assert Front(after.instances) == st.instances;
    }
  }

  /** No operation lets more instances of a type run than its limit, except an update that
      lowers the limit below what already runs. */
  lemma LimitsAreKeptIff(st: Topology, op: Op)
    requires Sound(st) && WithinLimits(st)
    ensures WithinLimits(After(st, op)) <==> LeavesRoom(st, op)
  {
    hide Blank;
    hide Strip;
    hide NameUsed;
    hide Split;
    hide Creatable;
    hide Routable;
    hide RoutedTo;
    hide LiveOf;
    hide RunningOf;
    hide DistinctNames;
    hide SoundSnapshot;
    hide WithinLimit;
    hide Restored;
    hide ToolsOf;
    hide LimitOf;
    var after := After(st, op);
    if LeavesRoom(st, op) {
      forall t: nat | t < |after.types|
        ensures WithinLimit(after, t)
      {
        LimitKept(st, op, t);
      }
    } else {
      LimitKept(st, op, op.id);
    }
  }

  lemma UpdateKeepsStates(st: Topology, t: nat, responsibility: Option<string>, tools: Option<set<string>>,
                          limit: Option<int>)
    ensures ActiveTypes(After(st, Update(t, responsibility, tools, limit))) == ActiveTypes(st)
  {
    assert StatesOf(After(st, Update(t, responsibility, tools, limit)).types) == StatesOf(st.types);
  }

  lemma FewerRunning(a: Topology, b: Topology)
    requires a.types == b.types && forall t :: RunningOf(b.instances, t) <= RunningOf(a.instances, t)
    ensures WithinLimits(a) ==> WithinLimits(b)
  {
    if WithinLimits(a) {
      forall t: nat | t < |b.types|
        ensures WithinLimit(b, t)
      {
        assert WithinLimit(a, t);
      }
    }
  }

  /** A completed instance frees its slot: within the limits, any idle instance of the same type
      can be assigned next. */
  lemma CompletionFreesASlot(st: Topology, i: nat, succeeded: bool, j: nat, task: nat)
    requires Sound(st) && WithinLimits(st) && Apply(st, Complete(i, succeeded)).Ok?
    requires j < |st.instances| && st.instances[j].state == Idle && st.instances[j].typeId == st.instances[i].typeId
    ensures Apply(After(st, Complete(i, succeeded)), Assign(j, task)).Ok?
  {
    var t := st.instances[i].typeId;
    assert WithinLimit(st, t);
    RunningOfChanged(st.instances, i, After(st, Complete(i, succeeded)).instances[i], t);
  }

  ghost predicate AllLeaveRoom(st: Topology, ops: seq<Op>) {
    ops == [] || (AllLeaveRoom(st, Front(ops)) && LeavesRoom(Run(st, Front(ops)), Last(ops)))
  }

  lemma {:induction false} LimitsHoldOverRuns(ops: seq<Op>)
    requires AllLeaveRoom(EMPTY, ops)
    ensures WithinLimits(Run(EMPTY, ops))
  {
    hide After;
    hide LeavesRoom;
    hide Sound;
    if ops != [] {
      LimitsHoldOverRuns(Front(ops));
      RunIsSound(Front(ops));
      LimitsAreKeptIff(Run(EMPTY, Front(ops)), Last(ops));
    }
  }

  // ---------------------------------------------------------------------------------------
  // The service, step by step
  // ---------------------------------------------------------------------------------------

  function Failure<T>(r: Result<T>): Option<Error> {
    if r.Err? then Some(r.error) else None
  }

  lemma {:induction false} CreateAllStops(types: seq<AgentType>, specs: seq<TypeSpec>, k: nat)
    requires k <= |specs| && CreateAll(types, specs[..k]).Err?
    ensures CreateAll(types, specs) == CreateAll(types, specs[..k])
  {
    if k == |specs| {
      assert specs[..k] == specs;
    } else {
      assert Front(specs)[..k] == specs[..k];
      CreateAllStops(types, Front(specs), k);
    }
  }

  lemma {:induction false} MoveAllStops(records: seq<Record>, src: nat, dest: nat, ids: seq<nat>, k: nat)
    requires k <= |ids| && MoveAll(records, src, dest, ids[..k]).Err?
    ensures MoveAll(records, src, dest, ids) == MoveAll(records, src, dest, ids[..k])
  {
    if k == |ids| {
      assert ids[..k] == ids;
    } else {
      assert Front(ids)[..k] == ids[..k];
      MoveAllStops(records, src, dest, Front(ids), k);
    }
  }

  lemma {:induction false} RouteAllStops(records: seq<Record>, src: nat, first: nat, names: seq<string>,
                                         routing: seq<Route>, k: nat)
    requires k <= |routing| && RouteAll(records, src, first, names, routing[..k]).Err?
    ensures RouteAll(records, src, first, names, routing) == RouteAll(records, src, first, names, routing[..k])
  {
    if k == |routing| {
      assert routing[..k] == routing;
    } else {
      assert Front(routing)[..k] == routing[..k];
      RouteAllStops(records, src, first, names, Front(routing), k);
    }
  }

  lemma {:induction false} SourceErrorStops(types: seq<AgentType>, ids: seq<nat>, k: nat)
    requires k <= |ids| && SourceError(types, ids[..k]).Some?
    ensures SourceError(types, ids) == SourceError(types, ids[..k])
  {
    if k == |ids| {
      assert ids[..k] == ids;
    } else {
      assert Front(ids)[..k] == ids[..k];
      SourceErrorStops(types, Front(ids), k);
    }
  }

  lemma MigrateSnoc(records: seq<Record>, ids: seq<nat>, t: nat, dest: nat)
    requires dest !in ids && dest != t
    ensures var mid := Migrate(records, ids, dest);
            HandOver(mid, LiveOf(mid, t), dest) == Migrate(records, ids + [t], dest)
  {
    hide LiveOf;
  }

  lemma RoutedLength(records: seq<Record>, src: nat, first: nat, names: seq<string>, routing: seq<Route>)
    requires src < first && RouteAll(records, src, first, names, routing).Ok?
    ensures |RouteAll(records, src, first, names, routing).value| == |records|
  {
    RouteAllExactly(records, src, first, names, routing);
  }

  class AgentTypeService {
    var types: seq<AgentType>
    var records: seq<Record>
    var instances: seq<Instance>
    var snapshots: seq<Snapshot>

    ghost function State(): Topology
      reads this
    {
      Topology(types, records, instances, snapshots)
    }

    constructor ()
      ensures State() == EMPTY
    {
      types, records, instances, snapshots := [], [], [], [];
    }

    method CreateType(spec: TypeSpec) returns (err: Option<Error>)
      modifies this`types
      ensures err == Failure(Creation(old(types), spec))
      ensures types == if err.None? then Creation(old(types), spec).value else old(types)
      ensures err == Failure(Apply(old(State()), Create(spec))) && State() == After(old(State()), Create(spec))
    {
      if Strip(spec.name) == "" || Strip(spec.responsibility) == "" {
        return Some(Invalid);
      }
      var row := NewType(spec);
      for i := 0 to |types|
        invariant types == old(types)
        invariant forall j :: 0 <= j < i ==> types[j].name != row.name
      {
        if types[i].name == row.name {
          return Some(NameTaken);
        }
      }
      types := types + [row];
      err := None;
    }

    method UpdateType(t: nat, responsibility: Option<string>, tools: Option<set<string>>, limit: Option<int>)
      returns (err: Option<Error>)
      modifies this`types
      ensures err == Failure(Apply(old(State()), Update(t, responsibility, tools, limit)))
      ensures State() == After(old(State()), Update(t, responsibility, tools, limit))
      ensures Keeps(old(State()), State()) && (Sound(old(State())) ==> Sound(State()))
      ensures ActiveTypes(State()) == ActiveTypes(old(State()))
      ensures Sound(old(State())) && WithinLimits(old(State())) ==>
                (WithinLimits(State()) <==> LeavesRoom(old(State()), Update(t, responsibility, tools, limit)))
    {
      hide Sound;
      hide WithinLimits;
      ghost var op := Update(t, responsibility, tools, limit);
      ApplyKeeps(State(), op);
      if Sound(State()) {
        ApplyKeepsSound(State(), op);
        if WithinLimits(State()) {
          LimitsAreKeptIff(State(), op);
        }
      }
      UpdateKeepsStates(State(), t, responsibility, tools, limit);
      if t >= |types| {
        return Some(TypeNotFound);
      }
      if responsibility.Some? {
        types := types[t := types[t].(responsibility := responsibility.value)];
      }
      if tools.Some? {
        types := types[t := types[t].(tools := tools.value)];
      }
      if limit.Some? {
        types := types[t := types[t].(limit := limit.value)];
      }
      err := None;
    }

    method AddKnowledge(owner: Option<nat>, content: string, state: RecordState) returns (err: Option<Error>)
      modifies this`records
      ensures err == Failure(Apply(old(State()), Op.AddKnowledge(owner, content, state)))
      ensures State() == After(old(State()), Op.AddKnowledge(owner, content, state))
      ensures Keeps(old(State()), State()) && (Sound(old(State())) ==> Sound(State()))
      ensures err.None? ==>
                |records| == |old(records)| + 1 && Last(records).owner == owner && Last(records).migratedFrom == None &&
                forall t :: LiveOf(records, t) ==
                            LiveOf(old(records), t) + if IsLive(Last(records), t) then [|old(records)|] else []
    {
      ApplyKeeps(State(), Op.AddKnowledge(owner, content, state));
      if Sound(State()) {
        ApplyKeepsSound(State(), Op.AddKnowledge(owner, content, state));
      }
      if Strip(content) == "" {
        return Some(Invalid);
      }
      if owner.Some? && owner.value >= |types| {
        return Some(TypeNotFound);
      }
      records := records + [Record(Strip(content), owner, state, None)];
      assert Front(records) == old(records);
      assert forall t :: LiveOf(old(records), t) + [] == LiveOf(old(records), t);
      err := None;
    }

    method CreateInstance(t: nat) returns (err: Option<Error>)
      modifies this`instances
      ensures err == Failure(Apply(old(State()), Op.CreateInstance(t)))
      ensures State() == After(old(State()), Op.CreateInstance(t))
      ensures Keeps(old(State()), State()) && (Sound(old(State())) ==> Sound(State()))
      ensures forall u :: RunningOf(instances, u) == RunningOf(old(instances), u)
      ensures WithinLimits(old(State())) ==> WithinLimits(State())
    {
      hide Sound;
      ApplyKeeps(State(), Op.CreateInstance(t));
      if Sound(State()) {
        ApplyKeepsSound(State(), Op.CreateInstance(t));
      }
      if t >= |types| {
        return Some(TypeNotFound);
      }
      if types[t].state != Active {
        return Some(WrongState);
      }
      instances := instances + [Instance(t, None, Idle)];
      assert Front(instances) == old(instances);
      FewerRunning(old(State()), State());
      err := None;
    }

    method CountRunning(t: nat) returns (n: nat)
      ensures n == RunningOf(instances, t)
    {
      n := 0;
      for i := 0 to |instances|
        invariant n == RunningOf(instances[..i], t)
      {
        assert Front(instances[..i + 1]) == instances[..i];
        if instances[i].typeId == t && instances[i].state == Running {
          n := n + 1;
        }
      }
      assert instances[..|instances|] == instances;
    }

    method AssignInstanceToTask(i: nat, task: nat) returns (err: Option<Error>)
      modifies this`instances
      ensures err == Failure(Apply(old(State()), Assign(i, task)))
      ensures State() == After(old(State()), Assign(i, task))
    {
      if i >= |instances| {
        return Some(InstanceNotFound);
      }
      if instances[i].state != Idle {
        return Some(WrongState);
      }
      if instances[i].typeId >= |types| {
        return Some(TypeNotFound);
      }
      var running := CountRunning(instances[i].typeId);
      if running >= types[instances[i].typeId].limit {
        return Some(LimitReached);
      }
      instances := instances[i := instances[i].(state := Running, task := Some(task))];
      err := None;
    }

    method LeaseInstanceForTask(t: nat, task: nat) returns (err: Option<Error>)
      modifies this`instances
      ensures err == Failure(Apply(old(State()), Lease(t, task)))
      ensures State() == After(old(State()), Lease(t, task))
    {
      if t >= |types| {
        return Some(TypeNotFound);
      }
      if types[t].state != Active {
        return Some(WrongState);
      }
      var running := CountRunning(t);
      if running >= types[t].limit {
        return Some(LimitReached);
      }
      instances := instances + [Instance(t, Some(task), Running)];
      err := None;
    }

    method CompleteInstance(i: nat, succeeded: bool) returns (err: Option<Error>)
      modifies this`instances
      ensures err == Failure(Apply(old(State()), Complete(i, succeeded)))
      ensures State() == After(old(State()), Complete(i, succeeded))
      ensures Keeps(old(State()), State()) && (Sound(old(State())) ==> Sound(State()))
      ensures err.None? ==>
                forall u :: RunningOf(instances, u) ==
                            RunningOf(old(instances), u) - if old(instances)[i].typeId == u then 1 else 0
      ensures WithinLimits(old(State())) ==> WithinLimits(State())
    {
      hide Sound;
      ApplyKeeps(State(), Complete(i, succeeded));
      if Sound(State()) {
        ApplyKeepsSound(State(), Complete(i, succeeded));
      }
      if i >= |instances| {
        return Some(InstanceNotFound);
      }
      if instances[i].state != Running {
        return Some(WrongState);
      }
      ghost var done := instances[i].(state := if succeeded then Completed else Failed);
      forall u: nat
        ensures RunningOf(instances[i := done], u) ==
                RunningOf(instances, u) - if instances[i].typeId == u then 1 else 0
      {
        RunningOfChanged(instances, i, done, u);
      }
      instances := instances[i := instances[i].(state := if succeeded then Completed else Failed)];
      FewerRunning(old(State()), State());
      err := None;
    }

    method TakeSnapshot(reason: string)
      modifies this`snapshots
      ensures snapshots == old(snapshots) + [Capture(old(State()), reason)]
    {
      var states: seq<TypeState>, owners: seq<Option<nat>> := [], [];
      for t := 0 to |types|
        invariant |states| == t && forall i :: 0 <= i < t ==> states[i] == types[i].state
      {
        states := states + [types[t].state];
      }
      for r := 0 to |records|
        invariant |owners| == r && forall i :: 0 <= i < r ==> owners[i] == records[i].owner
      {
        owners := owners + [records[r].owner];
      }
      assert states == StatesOf(types) && owners == OwnersOf(records);
      snapshots := snapshots + [Snapshot(reason, states, owners)];
    }

    // The steps of a split.

    method CreateDestinations(specs: seq<TypeSpec>) returns (err: Option<Error>)
      modifies this`types
      ensures err == Failure(CreateAll(old(types), specs))
      ensures err.None? ==> types == CreateAll(old(types), specs).value
    {
      for i := 0 to |specs|
        invariant CreateAll(old(types), specs[..i]) == Ok(types)
      {
        assert Front(specs[..i + 1]) == specs[..i];
        err := CreateType(specs[i]);
        if err.Some? {
          CreateAllStops(old(types), specs, i + 1);
          return;
        }
      }
      assert specs[..|specs|] == specs;
      err := None;
    }

    method MoveKnowledge(src: nat, dest: nat, ids: seq<nat>) returns (err: Option<Error>)
      modifies this`records
      ensures err == Failure(MoveAll(old(records), src, dest, ids))
      ensures err.None? ==> records == MoveAll(old(records), src, dest, ids).value
    {
      for i := 0 to |ids|
        invariant MoveAll(old(records), src, dest, ids[..i]) == Ok(records)
      {
        assert Front(ids[..i + 1]) == ids[..i];
        var r := ids[i];
        if r >= |records| || records[r].owner != Some(src) {
          MoveAllStops(old(records), src, dest, ids, i + 1);
          return Some(if r >= |records| then RecordNotFound else NotReconciled);
        }
        records := records[r := records[r].(owner := Some(dest), migratedFrom := Some(r))];
      }
      assert ids[..|ids|] == ids;
      err := None;
    }

    method RouteKnowledge(src: nat, first: nat, names: seq<string>, routing: seq<Route>) returns (err: Option<Error>)
      modifies this`records
      ensures err == Failure(RouteAll(old(records), src, first, names, routing))
      ensures err.None? ==> records == RouteAll(old(records), src, first, names, routing).value
    {
      hide MoveAll;
      for k := 0 to |routing|
        invariant RouteAll(old(records), src, first, names, routing[..k]) == Ok(records)
      {
        assert Front(routing[..k + 1]) == routing[..k];
        var i := IndexOf(names, routing[k].name);
        if i.None? {
          RouteAllStops(old(records), src, first, names, routing, k + 1);
          return Some(UnknownDestination);
        }
        err := MoveKnowledge(src, first + i.value, routing[k].ids);
        if err.Some? {
          RouteAllStops(old(records), src, first, names, routing, k + 1);
          return;
        }
      }
      assert routing[..|routing|] == routing;
      err := None;
    }

    method ArchiveUnrouted(all: seq<nat>, routed: seq<nat>)
      requires forall r :: r in all ==> r < |records|
      modifies this`records
      ensures records == Shelve(old(records), Unrouted(all, routed))
    {
      hide Unrouted;
      for j := 0 to |all|
        invariant |records| == |old(records)|
        invariant forall r: nat :: r < |records| ==>
                    records[r] ==
                    if r in all[..j] && r !in routed then old(records)[r].(state := Shelved) else old(records)[r]
      {
        assert all[..j + 1] == all[..j] + [all[j]];
        assert all[j] in all;
        if all[j] !in routed {
          records := records[all[j] := records[all[j]].(state := Shelved)];
        }
      }
      assert all[..|all|] == all;
    }

    method SplitType(src: nat, dests: seq<Destination>, routing: seq<Route>) returns (err: Option<Error>)
      modifies this`types, this`records, this`snapshots
      ensures err == Failure(Apply(old(State()), SplitOp(src, dests, routing)))
      ensures State() == After(old(State()), SplitOp(src, dests, routing))
    {
      hide CreateAll;
      hide RouteAll;
      hide RoutedIds;
      hide LiveOf;
      hide Unrouted;
      hide Capture;
      if src >= |types| {
        return Some(TypeNotFound);
      }
      var source := types[src];
      if source.state != Active {
        return Some(WrongState);
      }
      var savedTypes, savedRecords, savedSnapshots := types, records, snapshots;
      var first := |types|;
      TakeSnapshot("before_split");
      CreatedAfter(types, SpecsFor(dests, source));
      err := CreateDestinations(SpecsFor(dests, source));
      if err.Some? {
        types, snapshots := savedTypes, savedSnapshots;
        return;
      }
      var all := LiveOf(records, src);
      err := RouteKnowledge(src, first, NamesOf(dests), routing);
      if err.Some? {
        types, records, snapshots := savedTypes, savedRecords, savedSnapshots;
        return;
      }
      ghost var routed := records;
      RoutedLength(savedRecords, src, first, NamesOf(dests), routing);
      ArchiveUnrouted(all, RoutedIds(routing));
      types := types[src := types[src].(state := Archived)];
      if dests != [] {
        types := types[src := types[src].(supersededBy := Some(first))];
      }
    }

    // The steps of a merge.

    method MigrateOne(source: nat, dest: nat)
      modifies this`records
      ensures records == HandOver(old(records), LiveOf(old(records), source), dest)
    {
      hide LiveOf;
      var live := LiveOf(records, source);
      for j := 0 to |live|
        invariant records == HandOver(old(records), live[..j], dest)
      {
        assert live[..j + 1] == live[..j] + [live[j]];
        assert live[j] in live;
        var r := live[j];
        records := records[r := records[r].(owner := Some(dest), migratedFrom := Some(r))];
      }
      assert live[..|live|] == live;
    }

    method MigrateKnowledge(ids: seq<nat>, dest: nat)
      requires dest !in ids
      modifies this`records
      ensures records == Migrate(old(records), ids, dest)
    {
      hide LiveOf;
      hide IsLive;
      for k := 0 to |ids|
        invariant records == Migrate(old(records), ids[..k], dest)
      {
        ghost var before := records;
        MigrateOne(ids[k], dest);
        MigrateSnoc(old(records), ids[..k], ids[k], dest);
        assert ids[..k + 1] == ids[..k] + [ids[k]];
      }
      assert ids[..|ids|] == ids;
    }

    method ArchiveSources(ids: seq<nat>, successor: nat)
      requires forall t :: t in ids ==> t < |types|
      modifies this`types
      ensures types == Supersede(old(types), ids, successor)
    {
      for k := 0 to |ids|
        invariant types == Supersede(old(types), ids[..k], successor)
      {
        assert ids[..k + 1] == ids[..k] + [ids[k]];
        assert ids[k] in ids;
        types := types[ids[k] := types[ids[k]].(state := Archived, supersededBy := Some(successor))];
      }
      assert ids[..|ids|] == ids;
    }

    method CheckSources(ids: seq<nat>) returns (err: Option<Error>)
      ensures err == SourceError(types, ids)
    {
      for k := 0 to |ids|
        invariant SourceError(types, ids[..k]) == None
      {
        assert Front(ids[..k + 1]) == ids[..k];
        if ids[k] >= |types| || types[ids[k]].state != Active {
          SourceErrorStops(types, ids, k + 1);
          return Some(if ids[k] >= |types| then TypeNotFound else WrongState);
        }
      }
      assert ids[..|ids|] == ids;
      err := None;
    }

    method MergeTypes(ids: seq<nat>, dest: Destination) returns (err: Option<Error>)
      modifies this`types, this`records, this`snapshots
      ensures err == Failure(Apply(old(State()), MergeOp(ids, dest)))
      ensures State() == After(old(State()), MergeOp(ids, dest))
    {
      hide SourceError;
      hide Capture;
      hide ToolsOf;
      hide LimitOf;
      hide Migrate;
      hide Supersede;
      hide Strip;
      hide Blank;
      hide NameUsed;
      hide RunningOf;
      hide LiveOf;
      if |ids| < 2 {
        return Some(Invalid);
      }
      err := CheckSources(ids);
      if err.Some? {
        return;
      }
      assert forall t :: t in ids ==> exists i :: 0 <= i < |ids| && ids[i] == t;
      var savedTypes, savedSnapshots, made := types, snapshots, |types|;
      TakeSnapshot("before_merge");
      err := CreateType(MergeSpec(types, ids, dest));
      if err.Some? {
        snapshots := savedSnapshots;
        return;
      }
      MigrateKnowledge(ids, made);
      ArchiveSources(ids, made);
    }

    method RetireType(t: nat, archive: bool) returns (err: Option<Error>)
      modifies this`types, this`records, this`snapshots
      ensures err == Failure(Apply(old(State()), RetireOp(t, archive)))
      ensures State() == After(old(State()), RetireOp(t, archive))
    {
      hide Capture;
      hide LiveOf;
      if t >= |types| {
        return Some(TypeNotFound);
      }
      if types[t].state != Active {
        return Some(WrongState);
      }
      var running := CountRunning(t);
      if running > 0 {
        return Some(NotReconciled);
      }
      var savedRecords, savedSnapshots := records, snapshots;
      TakeSnapshot("before_retire");
      if archive {
        var live := LiveOf(records, t);
        for j := 0 to |live|
          invariant types == old(types) && snapshots == old(snapshots) + [Capture(old(State()), "before_retire")]
          invariant records == Shelve(old(records), live[..j])
        {
          assert live[..j + 1] == live[..j] + [live[j]];
          assert live[j] in live;
          records := records[live[j] := records[live[j]].(state := Shelved)];
        }
        assert live[..|live|] == live;
      }
      if LiveOf(records, t) != [] {
        records, snapshots := savedRecords, savedSnapshots;
        return Some(NotReconciled);
      }
      types := types[t := types[t].(state := Retired)];
      err := None;
    }

    method RollbackToSnapshot(id: nat) returns (err: Option<Error>)
      modifies this`types, this`records, this`snapshots
      ensures err == Failure(Apply(old(State()), RollbackOp(id)))
      ensures State() == After(old(State()), RollbackOp(id))
    {
      hide Capture;
      if id >= |snapshots| {
        return Some(SnapshotNotFound);
      }
      var target := snapshots[id];
      TakeSnapshot("rollback");
      for t := 0 to |types|
        invariant |types| == |old(types)| && records == old(records)
        invariant snapshots == old(snapshots) + [Capture(old(State()), "rollback")]
        invariant forall i :: 0 <= i < |types| ==>
                    types[i] == if i < t then RestoreTypes(target, old(types))[i] else old(types)[i]
      {
        if t >= |target.states| || target.states[t] != Active {
          if t >= |target.states| && types[t].state == Active {
            types := types[t := types[t].(state := Archived)];
          }
        } else if types[t].state == Archived {
          types := types[t := types[t].(state := Active)];
        } else if types[t].state == Retired {
          types := types[t := types[t].(state := Archived)];
          types := types[t := types[t].(state := Active)];
        }
      }
      assert types == RestoreTypes(target, old(types));
      for r := 0 to |target.owners|
        invariant types == RestoreTypes(target, old(types))
        invariant snapshots == old(snapshots) + [Capture(old(State()), "rollback")]
        invariant |records| == |old(records)|
        invariant forall i :: 0 <= i < |records| ==>
                    records[i] == if i < r then RestoreRecords(target, old(records))[i] else old(records)[i]
      {
        if target.owners[r].Some? && r < |records| && records[r].owner != target.owners[r] {
          records := records[r := records[r].(owner := target.owners[r], migratedFrom := None)];
        }
      }
      assert records == RestoreRecords(target, old(records));
      err := None;
    }
  }
}
