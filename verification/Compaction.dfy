/**
 The compaction lifecycle of one execution: its numbered context versions, the active one, the
 compaction records and the stored transcripts.

 Version n is entry n - 1 of the table and version 0 means that there is none. A compaction
 commits six writes one after the other; it may die after any number of them.
*/
module Compaction {
  import opened Prelude

  /** `transcript` is set for a version that a compaction wrote. */
  datatype Version = Version(tokens: nat, transcript: Option<nat>)

  datatype RecordState = PreFlush | Committed | Activated | FailedState | Blocked

  datatype Record = Record(source: nat, target: nat, state: RecordState, transcript: Option<nat>, count: nat)

  datatype Store = Store(versions: seq<Version>, active: nat, records: seq<Record>, transcripts: set<nat>)

  const EMPTY := Store([], 0, [], {})

  const MAX_CONSECUTIVE := 3
  const MIN_RECLAIM_PERCENT := 10
  const WRITES := 6

  // ---------------------------------------------------------------------------------------
  // The no-thrash guard
  // ---------------------------------------------------------------------------------------

  function ReclaimedPercent(before: nat, after: nat): int
    requires before > 0
  {
    Max(0, (before - after) * 100 / before)
  }

  lemma TimesMonotone(d: nat, a: int, b: int)
    requires a <= b
    ensures d * a <= d * b
  {
  }

  lemma FloorBelow(x: int, d: nat, q: int, r: int, k: int)
    requires x == d * q + r && 0 <= r < d
    ensures q < k <==> x < d * k
  {
    if q < k {
      TimesMonotone(d, q + 1, k);
      assert d * (q + 1) == d * q + d;
    } else {
      TimesMonotone(d, k, q);
    }
  }

  /** The floored percentage is below the limit exactly when less than a tenth was reclaimed. */
  lemma FloorTestIsExact(before: nat, after: nat)
    requires before > 0
    ensures ReclaimedPercent(before, after) < MIN_RECLAIM_PERCENT <==> (before - after) * 10 < before
  {
    var x := (before - after) * 100;
    FloorBelow(x, before, x / before, x % before, 10);
  }

  function TokensOf(versions: seq<Version>, v: nat): Option<nat> {
    if 1 <= v <= |versions| then Some(versions[v - 1].tokens) else None
  }

  /** An activated compaction that reclaimed less than a tenth of its source. */
  predicate Thrashing(versions: seq<Version>, record: Record) {
    var before, after := TokensOf(versions, record.source), TokensOf(versions, record.target);
    record.state == Activated && before.Some? && before.value > 0 && after.Some? &&
    (before.value - after.value) * 10 < before.value
  }

  /** The count the guard gives the next compaction. */
  function Guard(st: Store): nat {
    if st.records == [] || st.active == 0 || !Thrashing(st.versions, Last(st.records)) then 0
    else Last(st.records).count + 1
  }

  // ---------------------------------------------------------------------------------------
  // One compaction, cut off after some of its writes
  // ---------------------------------------------------------------------------------------

  predicate TargetTaken(records: seq<Record>, target: nat) {
    exists i :: 0 <= i < |records| && records[i].target == target
  }

  // The writes of a compaction.

  function StoreTranscript(st: Store, t: nat): Store {
    st.(transcripts := st.transcripts + {t})
  }

  function InsertRecord(st: Store, t: nat): Store {
    st.(records := st.records + [Record(st.active, st.active + 1, PreFlush, Some(t), Guard(st))])
  }

  function InsertVersion(st: Store, tokens: nat, t: nat): Store {
    st.(versions := st.versions + [Version(tokens, Some(t))])
  }

  function MarkLast(st: Store, state: RecordState): Store
    requires st.records != []
  {
    st.(records := st.records[|st.records| - 1 := Last(st.records).(state := state)])
  }

  function Activate(st: Store): Store {
    st.(active := st.active + 1)
  }

  function InsertBlocked(st: Store): Store {
    st.(records := st.records + [Record(st.active, st.active, Blocked, None, Guard(st))])
  }

  datatype Outcome = Finished | Died | Thrash | Conflict

  /** A compaction that writes the transcript artifact t and a version of the given size, and dies
      after `writes` writes. A record for a target version that already has one, or a version
      number in use, is refused by the tables and ends it. */
  function CompactedWith(st: Store, tokens: nat, t: nat, writes: nat): (Store, Outcome) {
    if writes == 0 then (st, Died)
    else if Guard(st) >= MAX_CONSECUTIVE then
      if TargetTaken(st.records, st.active) then (st, Conflict) else (InsertBlocked(st), Thrash)
    else
      var s1 := StoreTranscript(st, t);
      if writes == 1 then (s1, Died)
      else if TargetTaken(st.records, st.active + 1) then (s1, Conflict)
      else
        var s2 := InsertRecord(s1, t);
        if writes == 2 then (s2, Died)
        else if st.active != |st.versions| then (s2, Conflict)
        else
          var s3 := InsertVersion(s2, tokens, t);
          if writes == 3 then (s3, Died)
          else
            var s4 := MarkLast(s3, Committed);
            if writes == 4 then (s4, Died)
            else
              var s5 := Activate(s4);
              if writes == 5 then (s5, Died) else (MarkLast(s5, Activated), Finished)
  }

  /** A freshly built context: the next version number, active at once. */
  function Build(st: Store, tokens: nat): Store {
    st.(versions := st.versions + [Version(tokens, None)], active := |st.versions| + 1)
  }

  predicate IsPartial(record: Record) {
    record.state == PreFlush || record.state == Committed
  }

  /** Recovery of record i: completed if its version exists and its source is active, failed
      otherwise. */
  function RecoverAt(st: Store, i: nat): Store
    requires i < |st.records|
  {
    var r := st.records[i];
    if !IsPartial(r) then st
    else if 1 <= r.target <= |st.versions| && r.source == st.active && st.active >= 1 then
      st.(active := r.target, records := st.records[i := r.(state := Activated)])
    else st.(records := st.records[i := r.(state := FailedState)])
  }

  function RecoverFirst(st: Store, n: nat): (after: Store)
    requires n <= |st.records|
    ensures |after.records| == |st.records|
  {
    if n == 0 then st else RecoverAt(RecoverFirst(st, n - 1), n - 1)
  }

  function Recover(st: Store): Store {
    RecoverFirst(st, |st.records|)
  }

  datatype Event = Compacting(tokens: nat, transcript: nat, writes: nat) | Building(tokens: nat) | Recovering

  function Happen(st: Store, e: Event): Store {
    match e
    case Compacting(tokens, t, writes) => CompactedWith(st, tokens, t, writes).0
    case Building(tokens) => Build(st, tokens)
    case Recovering => Recover(st)
  }

  function Run(events: seq<Event>): Store {
    if events == [] then EMPTY else Happen(Run(Front(events)), Last(events))
  }

  // ---------------------------------------------------------------------------------------
  // What every run keeps
  // ---------------------------------------------------------------------------------------

  /** How many records directly before record i are activated compactions that thrashed. */
  function ThrashRun(versions: seq<Version>, records: seq<Record>, i: nat): nat
    requires i <= |records|
  {
    if i == 0 || !Thrashing(versions, records[i - 1]) then 0 else ThrashRun(versions, records, i - 1) + 1
  }

  predicate Durable(st: Store, r: Record) {
    1 <= r.target <= |st.versions| && r.transcript.Some? && r.transcript.value in st.transcripts &&
    st.versions[r.target - 1].transcript == r.transcript
  }

  ghost predicate RecordOk(st: Store, i: nat)
    requires i < |st.records|
  {
    var r := st.records[i];
    r.source <= st.active <= |st.versions| <= st.active + 1 &&
    (r.state == Committed || r.state == Activated ==> Durable(st, r)) &&
    (IsPartial(r) && r.source == st.active && r.target <= |st.versions| ==> Durable(st, r)) &&
    (r.state == Activated ==> r.target <= st.active) &&
    (IsPartial(r) && i < |st.records| - 1 ==> r.source < st.active) &&
    (r.state == Blocked ==> r.target == r.source && i > 0) &&
    (r.state != Blocked ==>
     r.target == r.source + 1 && r.count == ThrashRun(st.versions, st.records, i) < MAX_CONSECUTIVE)
  }

  ghost predicate RecordsOk(st: Store) {
    forall i :: 0 <= i < |st.records| ==> RecordOk(st, i)
  }

  ghost predicate DistinctTargets(records: seq<Record>) {
    forall i, j :: 0 <= i < j < |records| ==> records[i].target != records[j].target
  }

  /** The active version is the newest or the last but one, and then a record claims the newest. */
  ghost predicate NumbersOk(st: Store) {
    st.active <= |st.versions| <= st.active + 1 &&
    (st.active < |st.versions| ==> TargetTaken(st.records, st.active + 1))
  }

  /** A version that a compaction wrote is active only with its transcript stored and a record for
      it past its pre-flush state. */
  ghost predicate ActiveIsDurable(st: Store) {
    st.active >= 1 && st.active <= |st.versions| && st.versions[st.active - 1].transcript.Some? ==>
      exists i :: 0 <= i < |st.records| && Backs(st, i)
  }

  predicate Backs(st: Store, i: nat)
    requires i < |st.records|
  {
    var r := st.records[i];
    r.target == st.active && r.state != PreFlush && r.state != Blocked && Durable(st, r)
  }

  ghost predicate Sound(st: Store) {
    NumbersOk(st) && RecordsOk(st) && DistinctTargets(st.records) && ActiveIsDurable(st)
  }

  lemma {:induction false} RunAfterChange(before: Store, after: Store, i: nat)
    requires i <= |before.records| && i <= |after.records|
    requires forall j :: 0 <= j < i ==>
               Thrashing(after.versions, after.records[j]) == Thrashing(before.versions, before.records[j])
    ensures ThrashRun(after.versions, after.records, i) == ThrashRun(before.versions, before.records, i)
  {
    if i > 0 {
      RunAfterChange(before, after, i - 1);
    }
  }

  /** Backing survives whatever keeps the active version, the version rows, the stored transcripts
      and the records' targets and finished states. */
  lemma StillBacked(before: Store, after: Store)
    requires ActiveIsDurable(before) && after.active == before.active <= |before.versions|
    requires before.versions <= after.versions && before.transcripts <= after.transcripts
    requires |before.records| <= |after.records|
    requires forall i :: 0 <= i < |before.records| ==>
               after.records[i] == before.records[i] ||
               (after.records[i] == before.records[i].(state := Activated) && before.records[i].state == Committed) ||
               (after.records[i] == before.records[i].(state := FailedState)) ||
               (before.records[i].target != before.active)
    ensures ActiveIsDurable(after)
  {
    if exists i :: 0 <= i < |before.records| && Backs(before, i) {
      var i :| 0 <= i < |before.records| && Backs(before, i);
      assert Backs(after, i);
    }
  }

  lemma DistinctSnoc(records: seq<Record>, r: Record)
    requires DistinctTargets(records) && !TargetTaken(records, r.target)
    ensures DistinctTargets(records + [r])
  {
  }

  lemma TranscriptKeepsSound(st: Store, t: nat)
    requires Sound(st)
    ensures Sound(StoreTranscript(st, t))
  {
    var after := StoreTranscript(st, t);
    forall i | 0 <= i < |st.records|
      ensures RecordOk(after, i)
    {
      assert RecordOk(st, i);
      RunAfterChange(st, after, i);
    }
    StillBacked(st, after);
  }

  /** What the guard counts is the run of thrashing records before the next one. */
  lemma GuardCountsTheRun(st: Store)
    requires Sound(st)
    ensures Guard(st) == ThrashRun(st.versions, st.records, |st.records|)
  {
    if st.records != [] {
      assert RecordOk(st, |st.records| - 1);
    }
  }

  lemma RecordKeepsSound(st: Store, t: nat)
    requires Sound(st) && t in st.transcripts && Guard(st) < MAX_CONSECUTIVE && !TargetTaken(st.records, st.active + 1)
    ensures Sound(InsertRecord(st, t))
  {
    hide ThrashRun;
    hide Thrashing;
    var after, n := InsertRecord(st, t), |st.records|;
    GuardCountsTheRun(st);
    forall i: nat | i <= n
      ensures ThrashRun(after.versions, after.records, i) == ThrashRun(st.versions, st.records, i)
    {
      RunAfterChange(st, after, i);
    }
    forall i | 0 <= i < |after.records|
      ensures RecordOk(after, i)
    {
      if i < n {
        assert RecordOk(st, i);
        assert st.records[i].target != st.active + 1;
      }
    }
    StillBacked(st, after);
    assert after.records[n].target == st.active + 1;
    DistinctSnoc(st.records, after.records[n]);
  }

  lemma BlockedKeepsSound(st: Store)
    requires Sound(st) && Guard(st) >= MAX_CONSECUTIVE && !TargetTaken(st.records, st.active)
    ensures Sound(InsertBlocked(st))
  {
    hide ThrashRun;
    var after, n := InsertBlocked(st), |st.records|;
    GuardCountsTheRun(st);
    forall i: nat | i <= n
      ensures ThrashRun(after.versions, after.records, i) == ThrashRun(st.versions, st.records, i)
    {
      RunAfterChange(st, after, i);
    }
    forall i | 0 <= i < |after.records|
      ensures RecordOk(after, i)
    {
      if i < n {
        assert RecordOk(st, i);
      }
    }
    StillBacked(st, after);
    DistinctSnoc(st.records, after.records[n]);
    if st.active < |st.versions| {
      TargetStays(st.records, after.records, st.active + 1);
    }
  }

  lemma TargetStays(before: seq<Record>, after: seq<Record>, target: nat)
    requires |before| <= |after| && forall i :: 0 <= i < |before| ==> after[i].target == before[i].target
    ensures TargetTaken(before, target) ==> TargetTaken(after, target)
    ensures |before| == |after| ==> (TargetTaken(before, target) <==> TargetTaken(after, target))
  {
    if i :| 0 <= i < |before| && before[i].target == target {
      assert after[i].target == target;
    }
    if i :| 0 <= i < |after| && after[i].target == target {
      assert i < |before| ==> before[i].target == target;
    }
  }

  /** A compaction in flight: its record is the last one and next in line. */
  ghost predicate InFlight(st: Store, t: nat, state: RecordState) {
    st.records != [] && t in st.transcripts &&
    Last(st.records).source == st.active && Last(st.records).target == st.active + 1 &&
    Last(st.records).transcript == Some(t) && Last(st.records).state == state
  }

  lemma VersionKeepsSound(st: Store, tokens: nat, t: nat)
    requires Sound(st) && st.active == |st.versions| && InFlight(st, t, PreFlush)
    ensures Sound(InsertVersion(st, tokens, t)) && InFlight(InsertVersion(st, tokens, t), t, PreFlush)
    ensures Last(InsertVersion(st, tokens, t).versions) == Version(tokens, Some(t))
  {
    hide ThrashRun;
    var after := InsertVersion(st, tokens, t);
    forall i: nat | i < |st.records|
      ensures Thrashing(after.versions, st.records[i]) == Thrashing(st.versions, st.records[i])
    {
      assert RecordOk(st, i);
    }
    forall i: nat | i < |st.records|
      ensures RecordOk(after, i)
    {
      assert RecordOk(st, i);
      RunAfterChange(st, after, i);
    }
    StillBacked(st, after);
    assert after.records[|st.records| - 1].target == st.active + 1;
  }

  lemma CommitKeepsSound(st: Store, t: nat)
    requires Sound(st) && |st.versions| == st.active + 1 && InFlight(st, t, PreFlush) &&
             Last(st.versions).transcript == Some(t)
    ensures Sound(MarkLast(st, Committed)) && InFlight(MarkLast(st, Committed), t, Committed)
  {
    hide ThrashRun;
    var after := MarkLast(st, Committed);
    forall i: nat | i < |st.records|
      ensures RecordOk(after, i)
    {
      assert RecordOk(st, i);
      RunAfterChange(st, after, i);
    }
    StillBacked(st, after);
    TargetStays(st.records, after.records, st.active + 1);
    SameTargets(st.records, after.records);
  }

  lemma SameTargets(before: seq<Record>, after: seq<Record>)
    requires DistinctTargets(before) && |before| == |after|
    requires forall i :: 0 <= i < |before| ==> after[i].target == before[i].target
    ensures DistinctTargets(after)
  {
  }

  lemma ActivateKeepsSound(st: Store, t: nat)
    requires Sound(st) && |st.versions| == st.active + 1 && InFlight(st, t, Committed)
    ensures Sound(Activate(st))
  {
    hide ThrashRun;
    var after, n := Activate(st), |st.records| - 1;
    assert RecordOk(st, n);
    forall i: nat | i < |st.records|
      ensures RecordOk(after, i)
    {
      assert RecordOk(st, i);
      RunAfterChange(st, after, i);
    }
    assert Backs(after, n);
  }

  lemma FinishKeepsSound(st: Store)
    requires Sound(st) && st.records != [] && Last(st.records).state == Committed &&
             Last(st.records).target == st.active
    ensures Sound(MarkLast(st, Activated))
  {
    hide ThrashRun;
    var after := MarkLast(st, Activated);
    forall i: nat | i < |st.records|
      ensures RecordOk(after, i)
    {
      assert RecordOk(st, i);
      RunAfterChange(st, after, i);
    }
    StillBacked(st, after);
    TargetStays(st.records, after.records, st.active + 1);
    SameTargets(st.records, after.records);
  }

  lemma CompactKeepsSound(st: Store, tokens: nat, t: nat, writes: nat)
    requires Sound(st)
    ensures Sound(CompactedWith(st, tokens, t, writes).0)
  {
    hide Sound;
    hide Guard;
    hide InFlight;
    hide TargetTaken;
    if writes == 0 {
    } else if Guard(st) >= MAX_CONSECUTIVE {
      if !TargetTaken(st.records, st.active) {
        BlockedKeepsSound(st);
      }
    } else {
      var s1 := StoreTranscript(st, t);
      TranscriptKeepsSound(st, t);
      SameGuard(st, s1);
      if writes > 1 && !TargetTaken(st.records, st.active + 1) {
        RecordKeepsSound(s1, t);
        FlightStarts(s1, t);
        if writes > 2 && st.active == |st.versions| {
          WritesKeepSound(InsertRecord(s1, t), tokens, t);
        }
      }
    }
  }

  lemma SameGuard(a: Store, b: Store)
    requires a.records == b.records && a.versions == b.versions && a.active == b.active
    ensures Guard(a) == Guard(b)
  {
  }

  lemma FlightStarts(st: Store, t: nat)
    requires t in st.transcripts
    ensures InFlight(InsertRecord(st, t), t, PreFlush)
  {
  }

  /** The last four writes, each of which keeps the store sound. */
  lemma WritesKeepSound(st: Store, tokens: nat, t: nat)
    requires Sound(st) && st.active == |st.versions| && InFlight(st, t, PreFlush)
    ensures var s3 := InsertVersion(st, tokens, t); var s4 := MarkLast(s3, Committed);
            var s5 := Activate(s4); var s6 := MarkLast(s5, Activated);
            Sound(s3) && Sound(s4) && Sound(s5) && Sound(s6)
  {
    hide Sound;
    VersionKeepsSound(st, tokens, t);
    var s3 := InsertVersion(st, tokens, t);
    CommitKeepsSound(s3, t);
    var s4 := MarkLast(s3, Committed);
    ActivateKeepsSound(s4, t);
    FinishKeepsSound(Activate(s4));
  }

  lemma BuildKeepsSound(st: Store, tokens: nat)
    requires Sound(st)
    ensures Sound(Build(st, tokens))
  {
    hide ThrashRun;
    var after := Build(st, tokens);
    forall i: nat | i < |st.records|
      ensures Thrashing(after.versions, st.records[i]) == Thrashing(st.versions, st.records[i])
    {
      assert RecordOk(st, i);
    }
    forall i: nat | i < |st.records|
      ensures RecordOk(after, i)
    {
      assert RecordOk(st, i);
      RunAfterChange(st, after, i);
    }
  }

  /** Recovery can complete only the last record: the source of any other is no longer active. */
  lemma RecoverAtKeepsSound(st: Store, i: nat)
    requires Sound(st) && i < |st.records|
    ensures Sound(RecoverAt(st, i))
    ensures i < |st.records| - 1 ==> RecoverAt(st, i).active == st.active
  {
    hide ThrashRun;
    var after, r := RecoverAt(st, i), st.records[i];
    assert RecordOk(st, i);
    if IsPartial(r) {
      forall k: nat | k < |st.records|
        ensures RecordOk(after, k)
      {
        assert RecordOk(st, k);
        RunAfterChange(st, after, k);
      }
      TargetStays(st.records, after.records, st.active + 1);
      SameTargets(st.records, after.records);
      if after.active == st.active {
        StillBacked(st, after);
      } else {
        assert Backs(after, i);
      }
    }
  }

  lemma {:induction false} RecoverKeepsSound(st: Store, n: nat)
    requires Sound(st) && n <= |st.records|
    ensures Sound(RecoverFirst(st, n))
    ensures n < |st.records| ==> RecoverFirst(st, n).active == st.active
  {
    hide Sound;
    hide RecoverAt;
    if n > 0 {
      RecoverKeepsSound(st, n - 1);
      RecoverAtKeepsSound(RecoverFirst(st, n - 1), n - 1);
    }
  }

  /** Every reachable store is sound, crashes, rebuilt contexts and recoveries included. */
  lemma {:induction false} RunIsSound(events: seq<Event>)
    ensures Sound(Run(events))
  {
    hide Sound;
    if events == [] {
      EmptyIsSound();
    } else {
      var st := Run(Front(events));
      RunIsSound(Front(events));
      match Last(events)
      case Compacting(tokens, t, writes) => CompactKeepsSound(st, tokens, t, writes);
      case Building(tokens) => BuildKeepsSound(st, tokens);
      case Recovering => RecoverKeepsSound(st, |st.records|);
    }
  }

  lemma EmptyIsSound()
    ensures Sound(EMPTY)
  {
  }

  // ---------------------------------------------------------------------------------------
  // No thrashing
  // ---------------------------------------------------------------------------------------

  /** Every compaction that was let through carries the length of the run of thrashing
      compactions directly before it, and that is at most two. */
  lemma CountIsTheThrashRun(events: seq<Event>, i: nat)
    requires i < |Run(events).records| && Run(events).records[i].state != Blocked
    ensures var st := Run(events);
            st.records[i].count == ThrashRun(st.versions, st.records, i) <= 2
  {
    RunIsSound(events);
    assert RecordOk(Run(events), i);
  }

  /** After three thrashing compactions in a row the next record is a refusal. */
  lemma NoFourthThrash(events: seq<Event>, i: nat)
    requires 3 <= i < |Run(events).records|
    requires forall k :: i - 3 <= k < i ==> Thrashing(Run(events).versions, Run(events).records[k])
    ensures Run(events).records[i].state == Blocked
  {
    var st := Run(events);
    hide Run;
    hide Thrashing;
    RunIsSound(events);
    assert RecordOk(st, i);
    ThrashRunStep(st, i);
    ThrashRunStep(st, i - 1);
    ThrashRunStep(st, i - 2);
  }

  lemma ThrashRunStep(st: Store, i: nat)
    requires 1 <= i <= |st.records| && Thrashing(st.versions, st.records[i - 1])
    ensures ThrashRun(st.versions, st.records, i) == ThrashRun(st.versions, st.records, i - 1) + 1
  {
  }

  /** A refusal leaves a record only if no record has the active version as its target; so not
      when the thrashing compaction's own version is still active. A refusal that is recorded
      resets the count, whatever the next compaction finds. */
  lemma RefusalIsRecordedIff(st: Store, tokens: nat, t: nat, writes: nat)
    requires Sound(st) && Guard(st) >= MAX_CONSECUTIVE && writes > 0
    ensures var (after, outcome) := CompactedWith(st, tokens, t, writes);
            after.active == st.active && after.versions == st.versions &&
            (outcome == Thrash <==> !TargetTaken(st.records, st.active)) &&
            (outcome == Conflict <==> TargetTaken(st.records, st.active)) &&
            (outcome == Conflict ==> after == st) &&
            (outcome == Thrash ==> Guard(after) == 0) &&
            (Last(st.records).target == st.active ==> outcome == Conflict)
  {
    if Last(st.records).target == st.active {
      assert st.records[|st.records| - 1].target == st.active;
    }
  }

  // ---------------------------------------------------------------------------------------
  // Crashes
  // ---------------------------------------------------------------------------------------

  /** The guard lets the compaction through and its target is free. */
  predicate Proceeds(st: Store) {
    Guard(st) < MAX_CONSECUTIVE && !TargetTaken(st.records, st.active + 1)
  }

  /** At every crash point the old version or the new one is active: the new one exactly when the
      compaction was let through, its target was free and the fifth write was reached. Then the
      transcript, the version and a committed or activated record are there. */
  lemma CrashLeavesOldOrNew(st: Store, tokens: nat, t: nat, writes: nat)
    requires Sound(st)
    ensures var after := CompactedWith(st, tokens, t, writes).0;
            (after.active == st.active + 1 <==> writes >= 5 && Proceeds(st)) &&
            (after.active == st.active || after.active == st.active + 1) &&
            st.versions <= after.versions &&
            (after.active == st.active + 1 ==>
              after.versions == st.versions + [Version(tokens, Some(t))] && after.active == |after.versions| &&
              t in after.transcripts && after.records != [] && Backs(after, |after.records| - 1) &&
              Last(after.records).transcript == Some(t))
  {
    hide RecordsOk;
    hide ActiveIsDurable;
    hide Thrashing;
    SameGuard(st, StoreTranscript(st, t));
  }

  /** What the writes of a compaction are, in their order: the transcript; a record that goes from the
      active version to the next, with the guard's count; the next version, with its size and
      transcript; the record's mark; the activation; the record's last mark. Dying after so many of
      them leaves just those. */
  lemma WritesInOrder(st: Store, tokens: nat, t: nat, writes: nat)
    requires Proceeds(st) && st.active == |st.versions|
    ensures var (after, outcome) := CompactedWith(st, tokens, t, writes);
            var count := Guard(st);
            (outcome == Finished <==> writes >= 6) && (outcome == Died <==> writes < 6) &&
            after.transcripts == (if writes >= 1 then st.transcripts + {t} else st.transcripts) &&
            after.versions == (if writes >= 3 then st.versions + [Version(tokens, Some(t))] else st.versions) &&
            after.active == (if writes >= 5 then st.active + 1 else st.active) &&
            after.records ==
            if writes < 2 then st.records
            else
              st.records +
              [Record(st.active, st.active + 1,
                      if writes >= 6 then Activated else if writes >= 4 then Committed else PreFlush, Some(t), count)]
  {
    hide TargetTaken;
    var r := Record(st.active, st.active + 1, PreFlush, Some(t), Guard(st));
    MarkedLast(st.records, r);
  }

  lemma MarkedLast(records: seq<Record>, r: Record)
    ensures var more, n := records + [r], |records|;
            |more| - 1 == n && more[n] == r &&
            more[n := r.(state := Committed)] == records + [r.(state := Committed)] &&
            (records + [r.(state := Committed)])[n := r.(state := Activated)] == records + [r.(state := Activated)]
  {
  }

  /** A refused compaction writes one record, from the active version to itself; a context that is
      built is the next version, without a transcript, and active at once. */
  lemma RefusalAndBuildWrite(st: Store, tokens: nat, t: nat, writes: nat)
    ensures writes > 0 && Guard(st) >= 3 &&
            (forall i :: 0 <= i < |st.records| ==> st.records[i].target != st.active) ==>
              CompactedWith(st, tokens, t, writes) ==
              (Store(st.versions, st.active, st.records + [Record(st.active, st.active, Blocked, None, Guard(st))],
                     st.transcripts), Thrash)
    ensures Build(st, tokens) ==
            Store(st.versions + [Version(tokens, None)], |st.versions| + 1, st.records, st.transcripts)
  {
  }

  /** A record thrashed when it was activated and its target has more than nine tenths of the tokens
      of its source, both of them known and the source's not zero. */
  lemma ThrashingMeans(versions: seq<Version>, r: Record)
    ensures Thrashing(versions, r) <==>
            r.state == Activated && 1 <= r.source <= |versions| && 1 <= r.target <= |versions| &&
            versions[r.source - 1].tokens > 0 &&
            versions[r.target - 1].tokens * 10 > versions[r.source - 1].tokens * 9
  {
  }

  /** A completed compaction reports so, and only a completed one does. */
  lemma FinishesIff(st: Store, tokens: nat, t: nat, writes: nat)
    requires Sound(st)
    ensures var (after, outcome) := CompactedWith(st, tokens, t, writes);
            (outcome == Finished <==> writes >= WRITES && Proceeds(st)) &&
            (outcome == Finished ==>
             Last(after.records).state == Activated && Last(after.records).target == after.active)
  {
    hide RecordsOk;
    hide ActiveIsDurable;
    hide Thrashing;
  }

  /** What recovery makes of a compaction that died after its record was inserted: it completes
      the compaction exactly when the version row was written, not yet activated, and there was
      an active version before. A compaction that died between activating its version and its
      record is marked failed though its version is active. */
  lemma RecoveryAfterCrash(st: Store, tokens: nat, t: nat, writes: nat)
    requires Sound(st) && Proceeds(st) && 2 <= writes <= 5
    ensures var after := Recover(CompactedWith(st, tokens, t, writes).0);
            var completed := (writes == 3 || writes == 4) && st.active >= 1;
            after.records != [] && Last(after.records).target == st.active + 1 &&
            Last(after.records).state == (if completed then Activated else FailedState) &&
            after.active == if completed || writes == 5 then st.active + 1 else st.active
  {
    var dead := CompactedWith(st, tokens, t, writes).0;
    DeadCompaction(st, tokens, t, writes);
    CompactKeepsSound(st, tokens, t, writes);
    hide CompactedWith;
    hide Sound;
    var n := |dead.records| - 1;
    RecoverKeepsSound(dead, n);
    RecoverFirstKeepsLast(dead, n);
    RecoverOnlyTheLast(dead);
  }

  lemma DeadCompaction(st: Store, tokens: nat, t: nat, writes: nat)
    requires Sound(st) && Proceeds(st) && 2 <= writes <= 5
    ensures var dead := CompactedWith(st, tokens, t, writes).0;
            dead.records != [] && IsPartial(Last(dead.records)) &&
            Last(dead.records).source == st.active && Last(dead.records).target == st.active + 1 &&
            |dead.versions| == (if writes >= 3 then st.active + 1 else st.active) &&
            dead.active == (if writes == 5 then st.active + 1 else st.active)
  {
    hide RecordsOk;
    hide ActiveIsDurable;
    hide Thrashing;
    SameGuard(st, StoreTranscript(st, t));
  }

  lemma {:induction false} RecoverFirstKeepsLast(st: Store, n: nat)
    requires n < |st.records|
    ensures Last(RecoverFirst(st, n).records) == Last(st.records) && RecoverFirst(st, n).versions == st.versions
  {
    if n > 0 {
      RecoverFirstKeepsLast(st, n - 1);
    }
  }

  lemma RecoverOnlyTheLast(st: Store)
    requires st.records != []
    ensures Recover(st) == RecoverAt(RecoverFirst(st, |st.records| - 1), |st.records| - 1)
  {
  }

  /** A record that claims the next version blocks every compaction, whatever its state, until a
      freshly built context moves the active version on; then the way is free. */
  lemma RetryConflictsUntilRebuilt(st: Store, tokens: nat, t: nat, writes: nat, size: nat)
    requires Sound(st) && Guard(st) < MAX_CONSECUTIVE && TargetTaken(st.records, st.active + 1) && writes >= 2
    ensures CompactedWith(st, tokens, t, writes) == (StoreTranscript(st, t), Conflict)
    ensures var built := Build(st, size);
            built.active > st.active && Sound(built) && Proceeds(built)
  {
    BuildFreesTheWay(st, size);
  }

  /** No record claims the version after a freshly built one. */
  lemma BuildFreesTheWay(st: Store, size: nat)
    requires Sound(st)
    ensures Sound(Build(st, size)) && (Guard(st) < MAX_CONSECUTIVE ==> Proceeds(Build(st, size)))
  {
    BuildKeepsSound(st, size);
    if st.records != [] {
      assert RecordOk(st, |st.records| - 1);
    }
    forall i | 0 <= i < |st.records|
      ensures st.records[i].target != Build(st, size).active + 1
    {
      assert RecordOk(st, i);
    }
  }

  // ---------------------------------------------------------------------------------------
  // A run that thrashes
  // ---------------------------------------------------------------------------------------

  lemma CompletedState(st: Store, tokens: nat, t: nat)
    requires Proceeds(st) && st.active == |st.versions|
    ensures CompactedWith(st, tokens, t, WRITES).0 ==
            Store(st.versions + [Version(tokens, Some(t))], st.active + 1,
                  st.records + [Record(st.active, st.active + 1, Activated, Some(t), Guard(st))], st.transcripts + {t})
  {
    hide Thrashing;
    SameGuard(st, StoreTranscript(st, t));
    var r := Record(st.active, st.active + 1, PreFlush, Some(t), Guard(st));
    assert (st.records + [r])[|st.records| := r.(state := Committed)] == st.records + [r.(state := Committed)];
    assert (st.records + [r.(state := Committed)])[|st.records| := r.(state := Activated)] ==
           st.records + [r.(state := Activated)];
  }

  const FIRST_BUILT := Version(100, None)
  const COMPACTED := Version(100, Some(0))

  /** A store after n compactions that reclaimed nothing. */
  function Stuck(n: nat): Store {
    Store([FIRST_BUILT] + seq(n, _ => COMPACTED), n + 1,
          seq(n, i requires 0 <= i => Record(i + 1, i + 2, Activated, Some(0), i)), if n == 0 then {} else {0})
  }

  lemma StuckGoesOn(n: nat)
    requires n < MAX_CONSECUTIVE
    ensures CompactedWith(Stuck(n), 100, 0, WRITES).0 == Stuck(n + 1)
  {
    StuckGuard(n);
    CompletedState(Stuck(n), 100, 0);
    assert Stuck(n).versions + [COMPACTED] == Stuck(n + 1).versions;
    assert Stuck(n).records + [Record(n + 1, n + 2, Activated, Some(0), n)] == Stuck(n + 1).records;
    assert Stuck(n).transcripts + {0} == Stuck(n + 1).transcripts;
  }

  lemma StuckGuard(n: nat)
    ensures Guard(Stuck(n)) == n
    ensures forall target: nat :: TargetTaken(Stuck(n).records, target) <==> 2 <= target <= n + 1
  {
    var st := Stuck(n);
    assert forall i :: 0 <= i < n ==> st.records[i].target == i + 2;
    forall target: nat | 2 <= target <= n + 1
      ensures TargetTaken(st.records, target)
    {
      assert st.records[target - 2].target == target;
    }
    if n > 0 {
      assert Last(st.records) == Record(n, n + 1, Activated, Some(0), n - 1);
      assert st.versions[n - 1].tokens == 100 && st.versions[n].tokens == 100;
    }
  }

  const THRASHING_RUN :=
    [Building(100), Compacting(100, 0, WRITES), Compacting(100, 0, WRITES), Compacting(100, 0, WRITES)]

  lemma ThrashingRunIsStuck()
    ensures Run(THRASHING_RUN) == Stuck(3)
  {
    hide CompactedWith;
    hide Stuck;
    var go := Compacting(100, 0, WRITES);
    var r1, r2, r3 := [Building(100)], [Building(100), go], [Building(100), go, go];
    assert Front(THRASHING_RUN) == r3 && Front(r3) == r2 && Front(r2) == r1 && Front(r1) == [];
    OneBuilt();
    StuckGoesOn(0);
    StuckGoesOn(1);
    StuckGoesOn(2);
    assert Run(r1) == Stuck(0);
    assert Run(r2) == Stuck(1);
    assert Run(r3) == Stuck(2);
  }

  lemma OneBuilt()
    ensures Build(EMPTY, 100) == Stuck(0)
  {
    assert [] + [FIRST_BUILT] == [FIRST_BUILT] + seq(0, _ => COMPACTED);
  }

  /** After three compactions that reclaim nothing the fourth is refused, and the refusal is not
      even recorded; with a context built in between it is recorded. */
  lemma ARefusalIsLost()
    ensures CompactedWith(Run(THRASHING_RUN), 100, 0, WRITES) == (Run(THRASHING_RUN), Conflict)
    ensures CompactedWith(Run(THRASHING_RUN + [Building(100)]), 100, 0, WRITES).1 == Thrash
  {
    hide Stuck;
    hide Run;
    ThrashingRunIsStuck();
    var more := THRASHING_RUN + [Building(100)];
    OneMore(THRASHING_RUN, Building(100));
    StuckGuard(3);
    StuckShape();
    BuildKeepsGuard(Stuck(3), 100);
  }

  lemma OneMore(events: seq<Event>, e: Event)
    ensures Run(events + [e]) == Happen(Run(events), e)
  {
    assert Front(events + [e]) == events;
  }

  lemma StuckShape()
    ensures Stuck(3).active == 4 && |Stuck(3).versions| == 4 && |Stuck(3).records| == 3
    ensures Stuck(3).records[2] == Record(3, 4, Activated, Some(0), 2)
  {
  }

  lemma BuildKeepsGuard(st: Store, tokens: nat)
    requires st.active >= 1 && st.records != []
    requires Last(st.records).source <= |st.versions| && Last(st.records).target <= |st.versions|
    ensures Guard(Build(st, tokens)) == Guard(st)
  {
  }

  // ---------------------------------------------------------------------------------------
  // The service, write by write
  // ---------------------------------------------------------------------------------------

  class CompactionService {
    var versions: seq<Version>
    var active: nat
    var records: seq<Record>
    var transcripts: set<nat>

    ghost function State(): Store
      reads this
    {
      Store(versions, active, records, transcripts)
    }

    constructor ()
      ensures State() == EMPTY
    {
      versions, active, records, transcripts := [], 0, [], {};
    }

    method IsTargetTaken(target: nat) returns (taken: bool)
      ensures taken <==> TargetTaken(records, target)
    {
      for i := 0 to |records|
        invariant forall k :: 0 <= k < i ==> records[k].target != target
      {
        if records[i].target == target {
          return true;
        }
      }
      taken := false;
    }

    /** The guard, with the percentage computed as the program does. */
    method ThrashCount() returns (count: nat)
      requires Sound(State())
      ensures count == Guard(State())
    {
      count := 0;
      if records != [] && records[|records| - 1].state == Activated && active > 0 {
        var latest := records[|records| - 1];
        assert RecordOk(State(), |records| - 1);
        var prior := if latest.source > 0 then versions[latest.source - 1].tokens else 0;
        var target := versions[latest.target - 1].tokens;
        if prior > 0 {
          FloorTestIsExact(prior, target);
          if ReclaimedPercent(prior, target) < MIN_RECLAIM_PERCENT {
            count := latest.count + 1;
          }
        }
      }
    }

    method Compact(tokens: nat, t: nat, writes: nat) returns (outcome: Outcome)
      requires Sound(State())
      modifies this
      ensures (State(), outcome) == CompactedWith(old(State()), tokens, t, writes)
    {
      hide Sound;
      hide Guard;
      hide TargetTaken;
      if writes == 0 {
        return Died;
      }
      var count := ThrashCount();
      if count >= MAX_CONSECUTIVE {
        var refused := IsTargetTaken(active);
        if refused {
          return Conflict;
        }
        records := records + [Record(active, active, Blocked, None, count)];
        return Thrash;
      }
      transcripts := transcripts + {t};
      SameGuard(old(State()), State());
      if writes == 1 {
        return Died;
      }
      var target := active + 1;
      var taken := IsTargetTaken(target);
      if taken {
        return Conflict;
      }
      records := records + [Record(active, target, PreFlush, Some(t), count)];
      if writes == 2 {
        return Died;
      }
      if active != |versions| {
        return Conflict;
      }
      versions := versions + [Version(tokens, Some(t))];
      if writes == 3 {
        return Died;
      }
      var last := |records| - 1;
      records := records[last := records[last].(state := Committed)];
      if writes == 4 {
        return Died;
      }
      active := target;
      if writes == 5 {
        return Died;
      }
      records := records[last := records[last].(state := Activated)];
      outcome := Finished;
    }

    method BuildContext(tokens: nat)
      modifies this
      ensures State() == Build(old(State()), tokens)
      ensures Sound(old(State())) ==> Sound(State())
      ensures Sound(old(State())) && Guard(old(State())) < MAX_CONSECUTIVE ==> Proceeds(State())
      ensures old(versions) <= versions && active == |versions| == |old(versions)| + 1 && records == old(records)
    {
      hide Sound;
      hide Proceeds;
      hide Guard;
      if Sound(State()) {
        BuildFreesTheWay(State(), tokens);
      }
      versions := versions + [Version(tokens, None)];
      active := |versions|;
    }

    method RecoverPartialCompaction()
      modifies this
      ensures State() == Recover(old(State()))
    {
      for i := 0 to |records|
        invariant i <= |old(records)| && State() == RecoverFirst(old(State()), i)
      {
        var r := records[i];
        if r.state == PreFlush || r.state == Committed {
          if 1 <= r.target <= |versions| && active >= 1 && r.source == active {
            active := r.target;
            records := records[i := r.(state := Activated)];
          } else {
            records := records[i := r.(state := FailedState)];
          }
        }
      }
    }
  }
}
