/**
 The per-chat dispatcher: one lane (a queue and a thread) per recently active chat. Submitters,
 lane threads and retirements interleave; a step below is what one of them does in one piece,
 under the lock or in one queue operation.

 A lane keeps its number for ever, a chat's registered lane may change. A submission looks its
 lane up, checks for room and puts its job in three separate steps, as the program does.
*/
module ChatDispatcher {
  import opened Prelude

  datatype Thread = Idle | Running(job: nat) | Exited

  datatype Lane = Lane(chat: string, queue: seq<nat>, thread: Thread)

  /** A submission that has looked up its lane, and perhaps found room there. */
  datatype Ticket = Ticket(chat: string, lane: nat, room: bool)

  datatype Job = Job(chat: string, id: nat)

  /** `put` and `ran` record what was enqueued and what was started, in order. */
  datatype State = State(
    registry: map<string, nat>,
    lanes: seq<Lane>,
    tickets: map<nat, Ticket>,
    put: seq<Job>,
    ran: seq<Job>)

  datatype Limits = Limits(workers: nat, queue: nat)

  const START := State(map[], [], map[], [], [])

  datatype Step =
    | Lookup(ticket: nat, chat: string)  // `_lane`, under the lock
    | CheckRoom(ticket: nat)             // `q.qsize() < max_queue`
    | Put(ticket: nat, job: nat)         // `q.put`
    | Reap(chat: string)                 // forget a registered lane whose thread is dead
    | Take(lane: nat)                    // the lane thread gets a job and starts it
    | Finish(lane: nat)                  // the job returns or raises an ordinary exception
    | Die(lane: nat)                     // the job takes the lane thread down with it
    | Retire(lane: nat)                  // idle past the deadline, under the lock

  predicate Alive(st: State, l: nat) {
    l < |st.lanes| && st.lanes[l].thread != Exited
  }

  function Forget(registry: map<string, nat>, chat: string): map<string, nat> {
    registry - {chat}
  }

  /** The registry once a registered but dead lane of the chat is dropped. */
  function WithoutDead(st: State, chat: string): map<string, nat> {
    if chat in st.registry && !Alive(st, st.registry[chat]) then Forget(st.registry, chat) else st.registry
  }

  /** `_lane`: the live registered lane, or a new one if a slot is free, or None. */
  function FindLane(st: State, limits: Limits, chat: string): (Option<nat>, State) {
    var registry := WithoutDead(st, chat);
    if chat in registry then (Some(registry[chat]), st)
    else if |registry| >= limits.workers then (None, st.(registry := registry))
    else
      (Some(|st.lanes|),
       st.(registry := registry[chat := |st.lanes|], lanes := st.lanes + [Lane(chat, [], Idle)]))
  }

  function SetLane(st: State, l: nat, lane: Lane): State
    requires l < |st.lanes|
  {
    st.(lanes := st.lanes[l := lane])
  }

  function Enqueue(st: State, l: nat, job: nat): State
    requires l < |st.lanes|
  {
    var lane := st.lanes[l];
    SetLane(st, l, lane.(queue := lane.queue + [job])).(put := st.put + [Job(lane.chat, job)])
  }

  /** One step; a step that is not enabled changes nothing. */
  function Next(st: State, limits: Limits, step: Step): State {
    match step
    case Lookup(t, chat) =>
      var (lane, after) := FindLane(st, limits, chat);
      if lane.Some? then after.(tickets := after.tickets[t := Ticket(chat, lane.value, false)]) else after
    case CheckRoom(t) =>
      if t !in st.tickets || st.tickets[t].lane >= |st.lanes| then st
      else if |st.lanes[st.tickets[t].lane].queue| < limits.queue
      then st.(tickets := st.tickets[t := st.tickets[t].(room := true)])
      else st.(tickets := st.tickets - {t})
    case Put(t, job) =>
      if t !in st.tickets || !st.tickets[t].room || st.tickets[t].lane >= |st.lanes| then st
      else Enqueue(st.(tickets := st.tickets - {t}), st.tickets[t].lane, job)
    case Reap(chat) => st.(registry := WithoutDead(st, chat))
    case Take(l) =>
      if !Alive(st, l) || st.lanes[l].thread != Idle || st.lanes[l].queue == [] then st
      else
        var lane := st.lanes[l];
        SetLane(st, l, lane.(queue := lane.queue[1..], thread := Running(lane.queue[0])))
          .(ran := st.ran + [Job(lane.chat, lane.queue[0])])
    case Finish(l) =>
      if l < |st.lanes| && st.lanes[l].thread.Running? then SetLane(st, l, st.lanes[l].(thread := Idle)) else st
    case Die(l) =>
      if l < |st.lanes| && st.lanes[l].thread.Running? then SetLane(st, l, st.lanes[l].(thread := Exited)) else st
    case Retire(l) =>
      if Alive(st, l) && st.lanes[l].thread == Idle && st.lanes[l].queue == [] &&
         st.lanes[l].chat in st.registry && st.registry[st.lanes[l].chat] == l
      then SetLane(st, l, st.lanes[l].(thread := Exited)).(registry := Forget(st.registry, st.lanes[l].chat))
      else st
  }

  function Run(limits: Limits, steps: seq<Step>): State {
    if steps == [] then START else Next(Run(limits, Front(steps)), limits, Last(steps))
  }

  // ---------------------------------------------------------------------------------------
  // What every interleaving keeps
  // ---------------------------------------------------------------------------------------

  /** The registry names lanes of the right chat. */
  ghost predicate Registered(st: State) {
    forall c :: c in st.registry ==> st.registry[c] < |st.lanes| && st.lanes[st.registry[c]].chat == c
  }

  /** Every living lane is the registered lane of its chat. */
  ghost predicate Living(st: State) {
    forall l: nat :: Alive(st, l) ==> st.lanes[l].chat in st.registry && st.registry[st.lanes[l].chat] == l
  }

  /** Tickets name lanes of their chat. */
  ghost predicate Ticketed(st: State) {
    forall t :: t in st.tickets ==>
      st.tickets[t].lane < |st.lanes| && st.lanes[st.tickets[t].lane].chat == st.tickets[t].chat
  }

  ghost predicate WellFormed(st: State, limits: Limits) {
    |st.registry| <= limits.workers && Registered(st) && Living(st) && Ticketed(st)
  }

  lemma ForgetSize(registry: map<string, nat>, chat: string)
    ensures |Forget(registry, chat)| == |registry| - if chat in registry then 1 else 0
    ensures forall c :: c in Forget(registry, chat) <==> c in registry && c != chat
    ensures forall c :: c in registry && c != chat ==> Forget(registry, chat)[c] == registry[c]
  {
    if chat in registry {
      assert registry.Keys == Forget(registry, chat).Keys + {chat};
    } else {
      assert Forget(registry, chat) == registry;
    }
  }

  lemma GrowSize(registry: map<string, nat>, chat: string, l: nat)
    requires chat !in registry
    ensures |registry[chat := l]| == |registry| + 1
  {
    assert registry[chat := l].Keys == registry.Keys + {chat};
  }

  lemma AddLaneWellFormed(st: State, limits: Limits, chat: string)
    requires WellFormed(st, limits) && chat !in st.registry && |st.registry| < limits.workers
    ensures WellFormed(st.(registry := st.registry[chat := |st.lanes|], lanes := st.lanes + [Lane(chat, [], Idle)]),
                       limits)
  {
    var after := st.(registry := st.registry[chat := |st.lanes|], lanes := st.lanes + [Lane(chat, [], Idle)]);
    GrowSize(st.registry, chat, |st.lanes|);
    forall l: nat | Alive(after, l)
      ensures after.lanes[l].chat in after.registry && after.registry[after.lanes[l].chat] == l
    {
      if l < |st.lanes| {
        assert Alive(st, l);
      }
    }
  }

  lemma FindLaneWellFormed(st: State, limits: Limits, chat: string)
    requires WellFormed(st, limits)
    ensures var (lane, after) := FindLane(st, limits, chat);
            WellFormed(after, limits) && st.tickets == after.tickets && |st.lanes| <= |after.lanes| &&
            (lane.Some? ==> Alive(after, lane.value) && after.lanes[lane.value].chat == chat)
  {
    hide Forget;
    hide Living;
    hide Ticketed;
    ForgetSize(st.registry, chat);
    ReapWellFormed(st, limits, chat);
    var reaped := st.(registry := WithoutDead(st, chat));
    if chat !in reaped.registry && |reaped.registry| < limits.workers {
      AddLaneWellFormed(reaped, limits, chat);
    }
  }

  /** Replacing a lane by one of the same chat, not brought back to life, keeps the structure. */
  lemma SetLaneWellFormed(st: State, limits: Limits, l: nat, lane: Lane)
    requires WellFormed(st, limits) && l < |st.lanes| && lane.chat == st.lanes[l].chat
    requires st.lanes[l].thread == Exited ==> lane.thread == Exited
    ensures WellFormed(SetLane(st, l, lane), limits)
  {
    forall k: nat | Alive(SetLane(st, l, lane), k)
      ensures Alive(st, k)
    {
    }
  }

  lemma RetireWellFormed(st: State, limits: Limits, l: nat)
    requires WellFormed(st, limits)
    ensures WellFormed(Next(st, limits, Retire(l)), limits)
  {
    hide Forget;
    var after := Next(st, limits, Retire(l));
    if after != st {
      ForgetSize(st.registry, st.lanes[l].chat);
      forall k: nat | Alive(after, k)
        ensures after.lanes[k].chat in after.registry && after.registry[after.lanes[k].chat] == k
      {
        assert Alive(st, k);
      }
    }
  }

  lemma ReapWellFormed(st: State, limits: Limits, chat: string)
    requires WellFormed(st, limits)
    ensures WellFormed(st.(registry := WithoutDead(st, chat)), limits)
  {
    hide Forget;
    var after := st.(registry := WithoutDead(st, chat));
    ForgetSize(st.registry, chat);
    forall l: nat | Alive(after, l)
      ensures after.lanes[l].chat in after.registry && after.registry[after.lanes[l].chat] == l
    {
      assert Alive(st, l);
    }
  }

  lemma EnqueueWellFormed(st: State, limits: Limits, l: nat, job: nat)
    requires WellFormed(st, limits) && l < |st.lanes|
    ensures WellFormed(Enqueue(st, l, job), limits)
  {
    SetLaneWellFormed(st, limits, l, st.lanes[l].(queue := st.lanes[l].queue + [job]));
  }

  lemma LookupWellFormed(st: State, limits: Limits, step: Step)
    requires WellFormed(st, limits) && step.Lookup?
    ensures WellFormed(Next(st, limits, step), limits)
  {
    hide FindLane;
    FindLaneWellFormed(st, limits, step.chat);
  }

  lemma CheckRoomWellFormed(st: State, limits: Limits, t: nat)
    requires WellFormed(st, limits)
    ensures WellFormed(Next(st, limits, CheckRoom(t)), limits)
  {
  }

  lemma LogDoesNotMatter(st: State, limits: Limits, ran: seq<Job>)
    requires WellFormed(st, limits)
    ensures WellFormed(st.(ran := ran), limits)
  {
  }

  lemma NextWellFormed(st: State, limits: Limits, step: Step)
    requires WellFormed(st, limits)
    ensures WellFormed(Next(st, limits, step), limits)
  {
    hide Registered;
    hide Living;
    hide Ticketed;
    match step
    case Lookup(_, chat) =>
      LookupWellFormed(st, limits, step);
    case CheckRoom(t) => CheckRoomWellFormed(st, limits, t);
    case Put(t, job) =>
      hide Enqueue;
      if t in st.tickets && st.tickets[t].lane < |st.lanes| {
        DropTicket(st, limits, t);
        EnqueueWellFormed(st.(tickets := st.tickets - {t}), limits, st.tickets[t].lane, job);
      }
    case Reap(chat) =>
      ReapWellFormed(st, limits, chat);
      assert Next(st, limits, step) == st.(registry := WithoutDead(st, chat));
    case Take(l) =>
      hide SetLane;
      if Alive(st, l) && st.lanes[l].queue != [] {
        var lane := st.lanes[l];
        var busy := lane.(queue := lane.queue[1..], thread := Running(lane.queue[0]));
        SetLaneWellFormed(st, limits, l, busy);
        LogDoesNotMatter(SetLane(st, l, busy), limits, st.ran + [Job(lane.chat, lane.queue[0])]);
      }
    case Finish(l) =>
      hide SetLane;
      if l < |st.lanes| && st.lanes[l].thread.Running? {
        SetLaneWellFormed(st, limits, l, st.lanes[l].(thread := Idle));
      }
    case Die(l) =>
      hide SetLane;
      if l < |st.lanes| && st.lanes[l].thread.Running? {
        SetLaneWellFormed(st, limits, l, st.lanes[l].(thread := Exited));
      }
    case Retire(l) => RetireWellFormed(st, limits, l);
  }

  lemma {:induction false} RunWellFormed(limits: Limits, steps: seq<Step>)
    ensures WellFormed(Run(limits, steps), limits)
  {
    if steps != [] {
      RunWellFormed(limits, Front(steps));
      NextWellFormed(Run(limits, Front(steps)), limits, Last(steps));
    }
  }

  /** At no moment of any interleaving are more than max_workers lanes registered. */
  lemma LanesWithinCap(limits: Limits, steps: seq<Step>)
    ensures |Run(limits, steps).registry| <= limits.workers
  {
    RunWellFormed(limits, steps);
  }

  /** Two jobs of one chat never run at once, even when its lane retired or died and was
      rebuilt while submitters still held the old one. */
  lemma OneJobPerChat(limits: Limits, steps: seq<Step>, a: nat, b: nat)
    requires var lanes := Run(limits, steps).lanes;
             a < |lanes| && b < |lanes| && lanes[a].thread.Running? && lanes[b].thread.Running? &&
             lanes[a].chat == lanes[b].chat
    ensures a == b
  {
    RunWellFormed(limits, steps);
    assert Alive(Run(limits, steps), a) && Alive(Run(limits, steps), b);
  }

  // ---------------------------------------------------------------------------------------
  // Order
  // ---------------------------------------------------------------------------------------

  function JobsOf(jobs: seq<Job>, chat: string): seq<nat> {
    if jobs == [] then []
    else JobsOf(Front(jobs), chat) + if Last(jobs).chat == chat then [Last(jobs).id] else []
  }

  lemma JobsOfSnoc(jobs: seq<Job>, j: Job, chat: string)
    ensures JobsOf(jobs + [j], chat) == JobsOf(jobs, chat) + if j.chat == chat then [j.id] else []
  {
    assert Front(jobs + [j]) == jobs;
  }

  /** What is still waiting on the chat's living lane. */
  function Waiting(st: State, chat: string): seq<nat> {
    if chat in st.registry && Alive(st, st.registry[chat]) then st.lanes[st.registry[chat]].queue else []
  }

  /** What the chat has run and will run. */
  function Line(st: State, chat: string): seq<nat> {
    JobsOf(st.ran, chat) + Waiting(st, chat)
  }

  lemma EnqueueLine(st: State, limits: Limits, l: nat, job: nat, chat: string)
    requires WellFormed(st, limits) && l < |st.lanes|
    ensures var after := Enqueue(st, l, job);
            if st.lanes[l].chat != chat then
              JobsOf(after.put, chat) == JobsOf(st.put, chat) && Line(after, chat) == Line(st, chat)
            else
              JobsOf(after.put, chat) == JobsOf(st.put, chat) + [job] &&
              Line(after, chat) == if Alive(st, l) then Line(st, chat) + [job] else Line(st, chat)
  {
    JobsOfSnoc(st.put, Job(st.lanes[l].chat, job), chat);
    var ran := JobsOf(st.ran, chat);
    assert ran + (Waiting(st, chat) + [job]) == ran + Waiting(st, chat) + [job];
  }

  lemma TakeLine(st: State, limits: Limits, l: nat, chat: string)
    requires WellFormed(st, limits) && Alive(st, l) && st.lanes[l].thread == Idle && st.lanes[l].queue != []
    ensures Line(Next(st, limits, Take(l)), chat) == Line(st, chat)
  {
    var lane := st.lanes[l];
    JobsOfSnoc(st.ran, Job(lane.chat, lane.queue[0]), chat);
    var ran := JobsOf(st.ran, chat);
    assert lane.queue == [lane.queue[0]] + lane.queue[1..];
    assert ran + ([lane.queue[0]] + lane.queue[1..]) == ran + [lane.queue[0]] + lane.queue[1..];
  }

  lemma LookupLine(st: State, limits: Limits, lookup: string, chat: string)
    requires WellFormed(st, limits)
    ensures Line(FindLane(st, limits, lookup).1, chat) == Line(st, chat)
    ensures FindLane(st, limits, lookup).1.put == st.put
  {
    hide JobsOf;
    hide Forget;
    hide Ticketed;
    ForgetSize(st.registry, lookup);
  }

  lemma DieLine(st: State, limits: Limits, l: nat, chat: string)
    requires WellFormed(st, limits)
    ensures var after := Next(st, limits, Die(l));
            after.put == st.put &&
            (Line(after, chat) == Line(st, chat) || Line(after, chat) == JobsOf(st.ran, chat)) &&
            (!Loses(st, Die(l), chat) ==> Line(after, chat) == Line(st, chat))
  {
    hide JobsOf;
    hide Ticketed;
    assert JobsOf(st.ran, chat) + [] == JobsOf(st.ran, chat);
    if l < |st.lanes| && st.lanes[l].thread.Running? {
      assert Alive(st, l);
    }
  }

  lemma QuietLine(st: State, limits: Limits, step: Step, chat: string)
    requires WellFormed(st, limits)
    requires step.Reap? || step.Finish? || step.Retire? || step.CheckRoom?
    ensures Line(Next(st, limits, step), chat) == Line(st, chat)
    ensures Next(st, limits, step).put == st.put
  {
    hide JobsOf;
    hide Forget;
    hide Ticketed;
    if step.Reap? {
      ForgetSize(st.registry, step.chat);
    } else if step.Retire? && step.lane < |st.lanes| {
      ForgetSize(st.registry, st.lanes[step.lane].chat);
    }
  }

  /** How a step moves a chat's line: it grows by a job put on the living lane, is cut back to
      what has run when the lane dies, and is otherwise the same. */
  lemma NextLine(st: State, limits: Limits, step: Step, chat: string)
    requires WellFormed(st, limits)
    ensures var after := Next(st, limits, step);
            var put, put' := JobsOf(st.put, chat), JobsOf(after.put, chat);
            (put' == put && Line(after, chat) == Line(st, chat)) ||
            (put' == put && step.Die? && Line(after, chat) == JobsOf(st.ran, chat)) ||
            (step.Put? && put' == put + [step.job] &&
              (Line(after, chat) == Line(st, chat) + [step.job] ||
               (Line(after, chat) == Line(st, chat) && Loses(st, step, chat))))
    ensures !Loses(st, step, chat) ==> (NothingLost(st, chat) ==> NothingLost(Next(st, limits, step), chat))
  {
    hide JobsOf;
    hide WellFormed;
    hide Forget;
    hide Next;
    hide Line;
    match step
    case Lookup(t, lookup) => LookupStepLine(st, limits, t, lookup, chat);
    case Put(t, job) => PutLine(st, limits, t, job, chat);
    case Take(l) => TakeStepLine(st, limits, l, chat);
    case Die(l) => DieLine(st, limits, l, chat);
    case _ => QuietLine(st, limits, step, chat);
  }

  lemma LookupStepLine(st: State, limits: Limits, t: nat, lookup: string, chat: string)
    requires WellFormed(st, limits)
    ensures var after := Next(st, limits, Lookup(t, lookup));
            Line(after, chat) == Line(st, chat) && after.put == st.put
  {
    hide JobsOf;
    hide Forget;
    hide WellFormed;
    LookupLine(st, limits, lookup, chat);
    var after := FindLane(st, limits, lookup).1;
    assert Line(Next(st, limits, Lookup(t, lookup)), chat) == Line(after, chat);
  }

  lemma PutLine(st: State, limits: Limits, t: nat, job: nat, chat: string)
    requires WellFormed(st, limits)
    ensures var after := Next(st, limits, Put(t, job));
            var put, put' := JobsOf(st.put, chat), JobsOf(after.put, chat);
            (put' == put && Line(after, chat) == Line(st, chat)) ||
            (put' == put + [job] &&
              (Line(after, chat) == Line(st, chat) + [job] ||
               (Line(after, chat) == Line(st, chat) && Loses(st, Put(t, job), chat))))
    ensures !Loses(st, Put(t, job), chat) && NothingLost(st, chat) ==> NothingLost(Next(st, limits, Put(t, job)), chat)
  {
    hide JobsOf;
    hide WellFormed;
    if t in st.tickets && st.tickets[t].room && st.tickets[t].lane < |st.lanes| {
      var ready := st.(tickets := st.tickets - {t});
      DropTicket(st, limits, t);
      EnqueueLine(ready, limits, st.tickets[t].lane, job, chat);
      assert Line(ready, chat) == Line(st, chat);
    }
  }

  lemma TakeStepLine(st: State, limits: Limits, l: nat, chat: string)
    requires WellFormed(st, limits)
    ensures Line(Next(st, limits, Take(l)), chat) == Line(st, chat)
    ensures Next(st, limits, Take(l)).put == st.put
  {
    hide JobsOf;
    hide WellFormed;
    if Alive(st, l) && st.lanes[l].thread == Idle && st.lanes[l].queue != [] {
      TakeLine(st, limits, l, chat);
    }
  }

  lemma DropTicket(st: State, limits: Limits, t: nat)
    requires WellFormed(st, limits)
    ensures WellFormed(st.(tickets := st.tickets - {t}), limits)
  {
  }

  lemma {:induction false} LineInOrder(limits: Limits, steps: seq<Step>, chat: string)
    ensures Subsequence(Line(Run(limits, steps), chat), JobsOf(Run(limits, steps).put, chat))
  {
    if steps != [] {
      var st, step := Run(limits, Front(steps)), Last(steps);
      var line, put := Line(st, chat), JobsOf(st.put, chat);
      LineInOrder(limits, Front(steps), chat);
      RunWellFormed(limits, Front(steps));
      NextLine(st, limits, step, chat);
      var ran := JobsOf(st.ran, chat);
      SubsequencePrefix(line, |ran|, put);
      assert line[..|ran|] == ran;
      if step.Put? {
        SubsequenceSnoc(line, put, step.job);
      }
    }
  }

  /** The jobs a chat has run are a subsequence of the jobs put for it, in order. */
  lemma RanInOrder(limits: Limits, steps: seq<Step>, chat: string)
    ensures Subsequence(JobsOf(Run(limits, steps).ran, chat), JobsOf(Run(limits, steps).put, chat))
  {
    LineInOrder(limits, steps, chat);
    var st := Run(limits, steps);
    var ran := JobsOf(st.ran, chat);
    SubsequencePrefix(Line(st, chat), |ran|, JobsOf(st.put, chat));
    assert Line(st, chat)[..|ran|] == ran;
  }

  // ---------------------------------------------------------------------------------------
  // Which jobs are lost
  // ---------------------------------------------------------------------------------------

  /** The step loses a job of the chat: a put on a lane of it that has exited since it was looked
      up, or the death of its lane with jobs still queued. */
  predicate Loses(st: State, step: Step, chat: string) {
    match step
    case Put(t, _) =>
      t in st.tickets && st.tickets[t].room && st.tickets[t].lane < |st.lanes| &&
      st.lanes[st.tickets[t].lane].chat == chat && !Alive(st, st.tickets[t].lane)
    case Die(l) =>
      l < |st.lanes| && st.lanes[l].chat == chat && st.lanes[l].thread.Running? && st.lanes[l].queue != []
    case _ => false
  }

  /** What of the chat's jobs is lost so far: put, but neither run nor waiting. */
  ghost predicate NothingLost(st: State, chat: string) {
    Line(st, chat) == JobsOf(st.put, chat)
  }

  lemma {:induction false} SubsequenceIsNoLonger<T>(a: seq<T>, b: seq<T>)
    requires Subsequence(a, b)
    ensures |a| <= |b|
    decreases |a| + |b|
  {
    if a != [] {
      if Subsequence(a, Front(b)) {
        SubsequenceIsNoLonger(a, Front(b));
      } else {
        SubsequenceIsNoLonger(Front(a), Front(b));
      }
    }
  }

  /** How many of the chat's jobs were put and have neither run nor wait. */
  function Missing(st: State, chat: string): int {
    |JobsOf(st.put, chat)| - |Line(st, chat)|
  }

  /** What is missing never comes back, and a losing step misses more. */
  lemma NextMissing(st: State, limits: Limits, step: Step, chat: string)
    requires WellFormed(st, limits)
    ensures Missing(Next(st, limits, step), chat) >= Missing(st, chat)
    ensures Loses(st, step, chat) ==> Missing(Next(st, limits, step), chat) > Missing(st, chat)
  {
    hide JobsOf;
    NextLine(st, limits, step, chat);
    if Loses(st, step, chat) {
      match step
      case Put(t, job) => LostPut(st, limits, t, job, chat);
      case Die(l) => LostQueue(st, limits, l, chat);
    }
  }

  lemma LostPut(st: State, limits: Limits, t: nat, job: nat, chat: string)
    requires WellFormed(st, limits) && Loses(st, Put(t, job), chat)
    ensures Missing(Next(st, limits, Put(t, job)), chat) > Missing(st, chat)
  {
    hide JobsOf;
    hide WellFormed;
    var ready := st.(tickets := st.tickets - {t});
    DropTicket(st, limits, t);
    EnqueueLine(ready, limits, st.tickets[t].lane, job, chat);
    assert Line(ready, chat) == Line(st, chat);
  }

  lemma LostQueue(st: State, limits: Limits, l: nat, chat: string)
    requires WellFormed(st, limits) && Loses(st, Die(l), chat)
    ensures Missing(Next(st, limits, Die(l)), chat) > Missing(st, chat)
  {
    hide JobsOf;
    hide Ticketed;
    assert Alive(st, l);
    assert Waiting(st, chat) == st.lanes[l].queue;
    assert Waiting(Next(st, limits, Die(l)), chat) == [];
  }

  lemma {:induction false} MissingNeverShrinks(limits: Limits, steps: seq<Step>, n: nat, chat: string)
    requires n <= |steps|
    ensures 0 <= Missing(Run(limits, steps[..n]), chat) <= Missing(Run(limits, steps), chat)
  {
    hide Next;
    hide Missing;
    if n == |steps| {
      assert steps[..n] == steps;
      NoneMissingBelowZero(limits, steps, chat);
    } else {
      assert Front(steps)[..n] == steps[..n];
      MissingNeverShrinks(limits, Front(steps), n, chat);
      RunWellFormed(limits, Front(steps));
      NextMissing(Run(limits, Front(steps)), limits, Last(steps), chat);
    }
  }

  lemma NoneMissingBelowZero(limits: Limits, steps: seq<Step>, chat: string)
    ensures Missing(Run(limits, steps), chat) >= 0
  {
    LineInOrder(limits, steps, chat);
    SubsequenceIsNoLonger(Line(Run(limits, steps), chat), JobsOf(Run(limits, steps).put, chat));
  }

  ghost predicate NoStepLoses(limits: Limits, steps: seq<Step>, chat: string) {
    forall i :: 0 <= i < |steps| ==> !Loses(Run(limits, steps[..i]), steps[i], chat)
  }

  lemma {:induction false} NothingLostWithoutLoss(limits: Limits, steps: seq<Step>, chat: string)
    requires NoStepLoses(limits, steps, chat)
    ensures NothingLost(Run(limits, steps), chat)
  {
    if steps != [] {
      var pre := Front(steps);
      assert forall i :: 0 <= i < |pre| ==> pre[..i] == steps[..i] && pre[i] == steps[i];
      NothingLostWithoutLoss(limits, pre, chat);
      RunWellFormed(limits, pre);
      assert steps[..|steps| - 1] == pre;
      NextLine(Run(limits, pre), limits, Last(steps), chat);
    }
  }

  /** In every run, all of a chat's jobs have run or are waiting on its living lane, in the order
      they were put, if and only if no step of the run lost one of them. */
  lemma EveryJobRunsOrWaits(limits: Limits, steps: seq<Step>, chat: string)
    ensures NothingLost(Run(limits, steps), chat) <==> NoStepLoses(limits, steps, chat)
  {
    hide Next;
    hide Run;
    hide Loses;
    hide NothingLost;
    if NoStepLoses(limits, steps, chat) {
      NothingLostWithoutLoss(limits, steps, chat);
    } else {
      var i :| 0 <= i < |steps| && Loses(Run(limits, steps[..i]), steps[i], chat);
      LostForGood(limits, steps, i, chat);
    }
  }

  /** What a step loses is still missing at the end of the run. */
  lemma LostForGood(limits: Limits, steps: seq<Step>, i: nat, chat: string)
    requires i < |steps| && Loses(Run(limits, steps[..i]), steps[i], chat)
    ensures Missing(Run(limits, steps), chat) > 0 && !NothingLost(Run(limits, steps), chat)
  {
    hide Next;
    hide Loses;
    hide Line;
    hide JobsOf;
    var upTo := steps[..i + 1];
    assert Front(upTo) == steps[..i] && Last(upTo) == steps[i];
    RunWellFormed(limits, steps[..i]);
    NextMissing(Run(limits, steps[..i]), limits, steps[i], chat);
    NoneMissingBelowZero(limits, steps[..i], chat);
    MissingNeverShrinks(limits, steps, i + 1, chat);
  }

  lemma NextKeepsDead(st: State, limits: Limits, step: Step, l: nat)
    requires l < |st.lanes| && st.lanes[l].thread == Exited
    ensures var after := Next(st, limits, step);
            l < |after.lanes| && after.lanes[l].thread == Exited && st.lanes[l].queue <= after.lanes[l].queue
  {
    hide WithoutDead;
    match step
    case Put(t, job) =>
      if t in st.tickets && st.tickets[t].lane == l {
        assert st.lanes[l].queue <= st.lanes[l].queue + [job];
      }
    case _ =>
  }

  /** Jobs are lost for good: an exited lane stays exited and keeps every job put on it. */
  lemma {:induction false} DeadLanesKeepTheirJobs(limits: Limits, steps: seq<Step>, n: nat, l: nat)
    requires n <= |steps|
    requires l < |Run(limits, steps[..n]).lanes| && Run(limits, steps[..n]).lanes[l].thread == Exited
    ensures var before, after := Run(limits, steps[..n]).lanes, Run(limits, steps).lanes;
            l < |after| && after[l].thread == Exited && before[l].queue <= after[l].queue
  {
    hide Next;
    if n == |steps| {
      assert steps[..n] == steps;
    } else {
      assert Front(steps)[..n] == steps[..n];
      DeadLanesKeepTheirJobs(limits, Front(steps), n, l);
      NextKeepsDead(Run(limits, Front(steps)), limits, Last(steps), l);
    }
  }

  lemma FourSteps(limits: Limits, a: Step, b: Step, c: Step, d: Step)
    ensures Run(limits, [a, b, c, d]) ==
            Next(Next(Next(Next(START, limits, a), limits, b), limits, c), limits, d)
  {
    hide Next;
    assert Front([a, b, c, d]) == [a, b, c] && Front([a, b, c]) == [a, b] && Front([a, b]) == [a] && Front([a]) == [];
    assert Run(limits, [a]) == Next(START, limits, a);
    assert Run(limits, [a, b]) == Next(Run(limits, [a]), limits, b);
    assert Run(limits, [a, b, c]) == Next(Run(limits, [a, b]), limits, c);
  }

  const RACE_LIMITS := Limits(8, 16)

  lemma RaceBegins()
    ensures Next(Next(START, RACE_LIMITS, Lookup(0, "c")), RACE_LIMITS, CheckRoom(0)) ==
            State(map["c" := 0], [Lane("c", [], Idle)], map[0 := Ticket("c", 0, true)], [], [])
  {
    var s1 := Next(START, RACE_LIMITS, Lookup(0, "c"));
    assert WithoutDead(START, "c") == map[];
    assert s1 == State(map["c" := 0], [Lane("c", [], Idle)], map[0 := Ticket("c", 0, false)], [], []);
  }

  lemma RaceEnds()
    ensures var st := State(map["c" := 0], [Lane("c", [], Idle)], map[0 := Ticket("c", 0, true)], [], []);
            Next(Next(st, RACE_LIMITS, Retire(0)), RACE_LIMITS, Put(0, 5)) ==
            State(map[], [Lane("c", [5], Exited)], map[], [Job("c", 5)], [])
  {
    var st := State(map["c" := 0], [Lane("c", [], Idle)], map[0 := Ticket("c", 0, true)], [], []);
    var s3 := Next(st, RACE_LIMITS, Retire(0));
    assert Forget(st.registry, "c") == map[];
    assert s3 == State(map[], [Lane("c", [], Exited)], map[0 := Ticket("c", 0, true)], [], []);
    assert s3.tickets - {0} == map[];
    var s4 := Next(s3, RACE_LIMITS, Put(0, 5));
    assert s4 == Enqueue(s3.(tickets := map[]), 0, 5);
    assert s4.lanes == [Lane("c", [] + [5], Exited)];
    assert s4.put == [] + [Job("c", 5)];
    assert [] + [5] == [5] && [] + [Job("c", 5)] == [Job("c", 5)];
    assert s4.tickets == map[] && s4.ran == [] && s4.registry == map[];
  }

  /** The race: a lane retires between a submission's lookup and its put, and the accepted job
      never runs. */
  lemma RetirementRaceLosesAJob()
    ensures var st := Run(RACE_LIMITS, [Lookup(0, "c"), CheckRoom(0), Retire(0), Put(0, 5)]);
            st.put == [Job("c", 5)] && st.ran == [] && !NothingLost(st, "c") &&
            st.lanes == [Lane("c", [5], Exited)]
  {
    hide Next;
    FourSteps(RACE_LIMITS, Lookup(0, "c"), CheckRoom(0), Retire(0), Put(0, 5));
    RaceBegins();
    RaceEnds();
    JobsOfSnoc([], Job("c", 5), "c");
    assert [] + [Job("c", 5)] == [Job("c", 5)];
    var st := State(map[], [Lane("c", [5], Exited)], map[], [Job("c", 5)], []);
    assert Run(RACE_LIMITS, [Lookup(0, "c"), CheckRoom(0), Retire(0), Put(0, 5)]) == st;
    assert Line(st, "c") == [] && JobsOf(st.put, "c") == [5];
  }

  // ---------------------------------------------------------------------------------------
  // With lookup, check and put in one piece
  // ---------------------------------------------------------------------------------------

  /** What others do while a submitter sleeps. */
  function Play(st: State, limits: Limits, steps: seq<Step>): State
    decreases |steps|
  {
    if steps == [] then st else Play(Next(st, limits, steps[0]), limits, steps[1..])
  }

  /** A submission whose lookup, check and put are one piece. It is refused at once when all lanes
      are busy. While the chat's queue is full it sleeps and tries again until its deadline:
      `meanwhile` is what happens in each sleep, after which a dead lane is forgotten. */
  function Submit(st: State, limits: Limits, chat: string, job: nat, meanwhile: seq<seq<Step>>): (bool, State)
    decreases |meanwhile|
  {
    var (lane, after) := FindLane(st, limits, chat);
    if lane.None? || lane.value >= |after.lanes| then (false, after)
    else if |after.lanes[lane.value].queue| < limits.queue then (true, Enqueue(after, lane.value, job))
    else if meanwhile == [] then (false, after)
    else Submit(Next(Play(after, limits, meanwhile[0]), limits, Reap(chat)), limits, chat, job, meanwhile[1..])
  }

  /** No unfinished submission puts a job and no thread dies. */
  predicate Calm(steps: seq<Step>) {
    forall i :: 0 <= i < |steps| ==> !steps[i].Put? && !steps[i].Die?
  }

  predicate AllCalm(meanwhile: seq<seq<Step>>) {
    forall i :: 0 <= i < |meanwhile| ==> Calm(meanwhile[i])
  }

  datatype Event = Submitted(chat: string, job: nat, meanwhile: seq<seq<Step>>) | Internal(step: Step)

  function Happen(st: State, limits: Limits, e: Event): State {
    match e
    case Submitted(chat, job, meanwhile) =>
      if AllCalm(meanwhile) then Submit(st, limits, chat, job, meanwhile).1 else st
    case Internal(step) => if step.Put? || step.Die? then st else Next(st, limits, step)
  }

  function History(limits: Limits, events: seq<Event>): State {
    if events == [] then START else Happen(History(limits, Front(events)), limits, Last(events))
  }

  lemma {:induction false} PlayWellFormed(st: State, limits: Limits, steps: seq<Step>)
    requires WellFormed(st, limits)
    ensures WellFormed(Play(st, limits, steps), limits)
    decreases |steps|
  {
    hide Next;
    hide WellFormed;
    if steps != [] {
      NextWellFormed(st, limits, steps[0]);
      PlayWellFormed(Next(st, limits, steps[0]), limits, steps[1..]);
    }
  }

  lemma {:induction false} CalmLosesNothing(st: State, limits: Limits, steps: seq<Step>, chat: string)
    requires WellFormed(st, limits) && Calm(steps) && NothingLost(st, chat)
    ensures NothingLost(Play(st, limits, steps), chat)
    decreases |steps|
  {
    hide Next;
    hide WellFormed;
    hide NothingLost;
    if steps != [] {
      NextWellFormed(st, limits, steps[0]);
      NextLine(st, limits, steps[0], chat);
      CalmLosesNothing(Next(st, limits, steps[0]), limits, steps[1..], chat);
    }
  }

  lemma {:induction false} SubmitWellFormed(st: State, limits: Limits, chat: string, job: nat,
                                            meanwhile: seq<seq<Step>>)
    requires WellFormed(st, limits)
    ensures WellFormed(Submit(st, limits, chat, job, meanwhile).1, limits)
    decreases |meanwhile|
  {
    hide Next;
    hide FindLane;
    hide Enqueue;
    hide Registered;
    hide Living;
    hide Ticketed;
    var (lane, after) := FindLane(st, limits, chat);
    FindLaneWellFormed(st, limits, chat);
    if lane.Some? && lane.value < |after.lanes| {
      EnqueueWellFormed(after, limits, lane.value, job);
      if meanwhile != [] {
        PlayWellFormed(after, limits, meanwhile[0]);
        NextWellFormed(Play(after, limits, meanwhile[0]), limits, Reap(chat));
        SubmitWellFormed(Next(Play(after, limits, meanwhile[0]), limits, Reap(chat)), limits, chat, job,
                         meanwhile[1..]);
      }
    }
  }

  lemma {:induction false} SubmitKeeps(st: State, limits: Limits, chat: string, job: nat, meanwhile: seq<seq<Step>>,
                                       c: string)
    requires WellFormed(st, limits) && NothingLost(st, c) && AllCalm(meanwhile)
    ensures NothingLost(Submit(st, limits, chat, job, meanwhile).1, c)
    decreases |meanwhile|
  {
    hide JobsOf;
    hide Next;
    hide FindLane;
    hide Enqueue;
    hide WellFormed;
    var (lane, after) := FindLane(st, limits, chat);
    FindLaneWellFormed(st, limits, chat);
    LookupLine(st, limits, chat, c);
    if lane.Some? && lane.value < |after.lanes| {
      EnqueueLine(after, limits, lane.value, job, c);
      if meanwhile != [] {
        var next := Play(after, limits, meanwhile[0]);
        PlayWellFormed(after, limits, meanwhile[0]);
        CalmLosesNothing(after, limits, meanwhile[0], c);
        NextWellFormed(next, limits, Reap(chat));
        NextLine(next, limits, Reap(chat), c);
        SubmitKeeps(Next(next, limits, Reap(chat)), limits, chat, job, meanwhile[1..], c);
      }
    }
  }

  /** If lookup, check and put were one piece and no job took its thread down, every accepted job
      would have run or be waiting on its chat's living lane, in order, whatever lanes retire
      and however long submissions wait for room. */
  lemma {:induction false} AtomicSubmissionLosesNothing(limits: Limits, events: seq<Event>, chat: string)
    ensures WellFormed(History(limits, events), limits)
    ensures NothingLost(History(limits, events), chat)
  {
    hide Next;
    hide Submit;
    hide JobsOf;
    if events == [] {
      NothingAtStart(limits, chat);
    } else {
      var st := History(limits, Front(events));
      AtomicSubmissionLosesNothing(limits, Front(events), chat);
      match Last(events)
      case Submitted(c, job, meanwhile) =>
        SubmitWellFormed(st, limits, c, job, meanwhile);
        if AllCalm(meanwhile) {
          SubmitKeeps(st, limits, c, job, meanwhile, chat);
        }
      case Internal(step) =>
        NextWellFormed(st, limits, step);
        NextLine(st, limits, step, chat);
    }
  }

  lemma NothingAtStart(limits: Limits, chat: string)
    ensures WellFormed(START, limits) && NothingLost(START, chat)
  {
  }

  lemma FoundIsRegistered(st: State, limits: Limits, chat: string)
    requires WellFormed(st, limits)
    ensures var (lane, after) := FindLane(st, limits, chat);
            st.lanes <= after.lanes &&
            (lane.Some? ==> chat in after.registry && after.registry[chat] == lane.value) &&
            (lane.None? ==> chat !in after.registry && |after.registry| >= limits.workers)
  {
  }

  lemma Forgets(st: State, limits: Limits, chat: string)
    requires WellFormed(st, limits)
    ensures chat in st.registry ==> st.registry[chat] < |st.lanes|
    ensures Next(st, limits, Reap(chat)) ==
            if chat in st.registry && st.lanes[st.registry[chat]].thread == Exited
            then st.(registry := st.registry - {chat}) else st
  {
  }

  // ---------------------------------------------------------------------------------------
  // How long queues get
  // ---------------------------------------------------------------------------------------

  ghost predicate Bounded(st: State, limits: Limits) {
    forall l :: 0 <= l < |st.lanes| ==> |st.lanes[l].queue| <= limits.queue
  }

  lemma FoundKeepsBounded(st: State, limits: Limits, chat: string)
    requires Bounded(st, limits)
    ensures Bounded(FindLane(st, limits, chat).1, limits)
  {
  }

  lemma StepKeepsBounded(st: State, limits: Limits, step: Step)
    requires Bounded(st, limits) && !step.Put?
    ensures Bounded(Next(st, limits, step), limits)
  {
    hide FindLane;
    hide WithoutDead;
    if step.Lookup? {
      FoundKeepsBounded(st, limits, step.chat);
    }
  }

  lemma {:induction false} PlayKeepsBounded(st: State, limits: Limits, steps: seq<Step>)
    requires Bounded(st, limits) && Calm(steps)
    ensures Bounded(Play(st, limits, steps), limits)
    decreases |steps|
  {
    hide Next;
    hide Bounded;
    if steps != [] {
      StepKeepsBounded(st, limits, steps[0]);
      PlayKeepsBounded(Next(st, limits, steps[0]), limits, steps[1..]);
    }
  }

  /** A submission keeps every queue within its limit, adds its job exactly when it is accepted and no
      other, and is refused only when the chat has no lane and none can be made, or its lane is full. */
  lemma {:induction false} WhatASubmissionDoes(st: State, limits: Limits, chat: string, job: nat,
                                               meanwhile: seq<seq<Step>>)
    requires Bounded(st, limits) && WellFormed(st, limits) && AllCalm(meanwhile)
    ensures var (ok, after) := Submit(st, limits, chat, job, meanwhile);
            Bounded(after, limits) && after.put == (if ok then st.put + [Job(chat, job)] else st.put) &&
            (!ok ==>
              if chat in after.registry
              then after.registry[chat] < |after.lanes| && |after.lanes[after.registry[chat]].queue| >= limits.queue
              else |after.registry| >= limits.workers)
    decreases |meanwhile|
  {
    hide Next;
    hide FindLane;
    hide WellFormed;
    hide Bounded;
    hide Calm;
    var (lane, after) := FindLane(st, limits, chat);
    FindLaneWellFormed(st, limits, chat);
    FoundIsRegistered(st, limits, chat);
    FoundKeepsBounded(st, limits, chat);
    FoundPutsNothing(st, limits, chat);
    if lane.Some? && lane.value < |after.lanes| {
      if |after.lanes[lane.value].queue| < limits.queue {
        RoomKeepsBounded(after, limits, lane.value, job);
      } else if meanwhile != [] {
        var next := Play(after, limits, meanwhile[0]);
        PlayWellFormed(after, limits, meanwhile[0]);
        PlayKeepsBounded(after, limits, meanwhile[0]);
        PlayPutsNothing(after, limits, meanwhile[0]);
        NextWellFormed(next, limits, Reap(chat));
        StepKeepsBounded(next, limits, Reap(chat));
        StepPutsNothing(next, limits, Reap(chat));
        WhatASubmissionDoes(Next(next, limits, Reap(chat)), limits, chat, job, meanwhile[1..]);
      }
    }
  }

  lemma RoomKeepsBounded(st: State, limits: Limits, l: nat, job: nat)
    requires Bounded(st, limits) && l < |st.lanes| && |st.lanes[l].queue| < limits.queue
    ensures Bounded(Enqueue(st, l, job), limits)
  {
  }

  lemma FoundPutsNothing(st: State, limits: Limits, chat: string)
    requires WellFormed(st, limits)
    ensures var (lane, after) := FindLane(st, limits, chat);
            after.put == st.put && (lane.Some? && lane.value < |after.lanes| ==> after.lanes[lane.value].chat == chat)
  {
  }

  lemma StepPutsNothing(st: State, limits: Limits, step: Step)
    requires !step.Put?
    ensures Next(st, limits, step).put == st.put
  {
  }

  lemma {:induction false} PlayPutsNothing(st: State, limits: Limits, steps: seq<Step>)
    requires Calm(steps)
    ensures Play(st, limits, steps).put == st.put
    decreases |steps|
  {
    hide Next;
    if steps != [] {
      StepPutsNothing(st, limits, steps[0]);
      PlayPutsNothing(Next(st, limits, steps[0]), limits, steps[1..]);
    }
  }

  /** With submissions in one piece no queue ever exceeds its limit. */
  lemma {:induction false} QueuesStayBounded(limits: Limits, events: seq<Event>)
    ensures Bounded(History(limits, events), limits)
  {
    hide Next;
    hide Submit;
    hide Bounded;
    if events == [] {
      NoQueues(limits);
    } else {
      var st := History(limits, Front(events));
      QueuesStayBounded(limits, Front(events));
      AtomicSubmissionLosesNothing(limits, Front(events), "");
      match Last(events)
      case Submitted(chat, job, meanwhile) =>
        if AllCalm(meanwhile) {
          WhatASubmissionDoes(st, limits, chat, job, meanwhile);
        }
      case Internal(step) =>
        if !step.Put? && !step.Die? {
          StepKeepsBounded(st, limits, step);
        }
    }
  }

  lemma NoQueues(limits: Limits)
    ensures Bounded(START, limits)
  {
  }

  /** A submission that checks for room goes on exactly if its lane's queue is below the limit. */
  lemma RoomIsChecked(st: State, limits: Limits, t: nat)
    requires t in st.tickets && st.tickets[t].lane < |st.lanes|
    ensures var after := Next(st, limits, CheckRoom(t));
            after.lanes == st.lanes && after.registry == st.registry && after.put == st.put && after.ran == st.ran &&
            if |st.lanes[st.tickets[t].lane].queue| < limits.queue
            then after.tickets == st.tickets[t := st.tickets[t].(room := true)]
            else after.tickets == st.tickets - {t}
  {
  }

  /** A lane without work retires and frees its slot; the chat can have a new lane at once. */
  lemma RetiringFreesASlot(st: State, limits: Limits, l: nat)
    requires WellFormed(st, limits) && l < |st.lanes| && st.lanes[l].thread == Idle && st.lanes[l].queue == []
    ensures var after := Next(st, limits, Retire(l));
            after.lanes == st.lanes[l := st.lanes[l].(thread := Exited)] &&
            after.registry == st.registry - {st.lanes[l].chat} && |after.registry| == |st.registry| - 1 &&
            FindLane(after, limits, st.lanes[l].chat).0 == Some(|st.lanes|)
  {
    var chat := st.lanes[l].chat;
    assert Alive(st, l);
    assert st.registry.Keys == (st.registry - {chat}).Keys + {chat};
  }

  /** A lane's thread takes its oldest job and is busy with it until that ends; a busy or dead lane
      takes none. */
  lemma WhatTakingDoes(st: State, limits: Limits, l: nat)
    requires l < |st.lanes|
    ensures var lane, after := st.lanes[l], Next(st, limits, Take(l));
            if lane.thread == Idle && lane.queue != [] then
              after == st.(lanes := st.lanes[l := Lane(lane.chat, lane.queue[1..], Running(lane.queue[0]))],
                           ran := st.ran + [Job(lane.chat, lane.queue[0])])
            else after == st
  {
  }

  const TIGHT_LIMITS := Limits(8, 1)

  /** Two submissions that look for room at the same time both find it: a queue for one holds two. */
  lemma ConcurrentSubmissionsOverfill()
    ensures var st := Run(TIGHT_LIMITS,
                          [Lookup(0, "c"), Lookup(1, "c"), CheckRoom(0), CheckRoom(1), Put(0, 5), Put(1, 6)]);
            st.lanes == [Lane("c", [5, 6], Idle)] && !Bounded(st, TIGHT_LIMITS)
  {
    hide Next;
    var steps := [Lookup(0, "c"), Lookup(1, "c"), CheckRoom(0), CheckRoom(1), Put(0, 5), Put(1, 6)];
    assert Front(steps) == [Lookup(0, "c"), Lookup(1, "c"), CheckRoom(0), CheckRoom(1), Put(0, 5)];
    assert Front(Front(steps)) == [Lookup(0, "c"), Lookup(1, "c"), CheckRoom(0), CheckRoom(1)];
    FourSteps(TIGHT_LIMITS, Lookup(0, "c"), Lookup(1, "c"), CheckRoom(0), CheckRoom(1));
    BothFound();
    BothPut();
    assert |Run(TIGHT_LIMITS, steps).lanes[0].queue| == 2;
  }

  function Tickets(room: bool): map<nat, Ticket> {
    map[0 := Ticket("c", 0, room), 1 := Ticket("c", 0, room)]
  }

  lemma BothFound()
    ensures Next(Next(Next(Next(START, TIGHT_LIMITS, Lookup(0, "c")), TIGHT_LIMITS, Lookup(1, "c")), TIGHT_LIMITS,
                      CheckRoom(0)), TIGHT_LIMITS, CheckRoom(1)) ==
            State(map["c" := 0], [Lane("c", [], Idle)], Tickets(true), [], [])
  {
    var s1 := Next(START, TIGHT_LIMITS, Lookup(0, "c"));
    assert WithoutDead(START, "c") == map[];
    assert s1 == State(map["c" := 0], [Lane("c", [], Idle)], map[0 := Ticket("c", 0, false)], [], []);
    var s2 := Next(s1, TIGHT_LIMITS, Lookup(1, "c"));
    assert s2 == State(map["c" := 0], [Lane("c", [], Idle)], Tickets(false), [], []);
    var s3 := Next(s2, TIGHT_LIMITS, CheckRoom(0));
    var s4 := Next(s3, TIGHT_LIMITS, CheckRoom(1));
    assert s4.tickets == Tickets(true);
  }

  lemma BothPut()
    ensures var st := State(map["c" := 0], [Lane("c", [], Idle)], Tickets(true), [], []);
            Next(Next(st, TIGHT_LIMITS, Put(0, 5)), TIGHT_LIMITS, Put(1, 6)).lanes == [Lane("c", [5, 6], Idle)]
  {
    var st := State(map["c" := 0], [Lane("c", [], Idle)], Tickets(true), [], []);
    var s5 := Next(st, TIGHT_LIMITS, Put(0, 5));
    assert s5 == Enqueue(st.(tickets := st.tickets - {0}), 0, 5);
    assert [] + [5] == [5] && s5.lanes == [Lane("c", [5], Idle)];
    assert 1 in s5.tickets && s5.tickets[1] == Ticket("c", 0, true);
    var s6 := Next(s5, TIGHT_LIMITS, Put(1, 6));
    assert s6 == Enqueue(s5.(tickets := s5.tickets - {1}), 0, 6);
    assert [5] + [6] == [5, 6] && s6.lanes == [Lane("c", [5, 6], Idle)];
  }

  // ---------------------------------------------------------------------------------------
  // The dispatcher object
  // ---------------------------------------------------------------------------------------

  class ChatSerialDispatcher {
    const limits: Limits
    var registry: map<string, nat>
    var lanes: seq<Lane>
    var tickets: map<nat, Ticket>
    var put: seq<Job>
    var ran: seq<Job>

    constructor (limits: Limits)
      requires limits.workers >= 1 && limits.queue >= 1
      ensures this.limits == limits && Now() == START
    {
      this.limits := limits;
      registry, lanes := map[], [];
      tickets, put, ran := map[], [], [];
    }

    function Now(): State
      reads this
    {
      State(registry, lanes, tickets, put, ran)
    }

    /** `_lane`: a living lane of the chat, its own or a new one; refused only when the chat has
        no living lane and every slot is taken. */
    method LaneFor(chat: string) returns (lane: Option<nat>)
      requires WellFormed(Now(), limits)
      modifies this`registry, this`lanes
      ensures (lane, Now()) == FindLane(old(Now()), limits, chat)
      ensures WellFormed(Now(), limits) && old(lanes) <= lanes
      ensures lane.Some? ==>
                Alive(Now(), lane.value) && lanes[lane.value].chat == chat &&
                chat in registry && registry[chat] == lane.value
      ensures lane.None? ==> chat !in registry && |registry| >= limits.workers
    {
      FindLaneWellFormed(Now(), limits, chat);
      FoundIsRegistered(Now(), limits, chat);
      if chat in registry {
        var l := registry[chat];
        if lanes[l].thread != Exited {
          return Some(l);
        }
        registry := registry - {chat};
      }
      if |registry| >= limits.workers {
        return None;
      }
      lane := Some(|lanes|);
      registry := registry[chat := |lanes|];
      lanes := lanes + [Lane(chat, [], Idle)];
    }

    /** What others do in one sleep. */
    method Sleep(steps: seq<Step>)
      modifies this
      ensures Now() == Play(old(Now()), limits, steps)
    {
      for i := 0 to |steps|
        invariant Play(Now(), limits, steps[i..]) == Play(old(Now()), limits, steps)
      {
        assert steps[i..][1..] == steps[i + 1..];
        var next := Next(Now(), limits, steps[i]);
        registry, lanes, tickets, put, ran := next.registry, next.lanes, next.tickets, next.put, next.ran;
      }
    }

    /** `submit_for_chat` with its bounded wait for room. */
    method SubmitForChat(chat: string, job: nat, meanwhile: seq<seq<Step>>) returns (ok: bool)
      requires WellFormed(Now(), limits)
      modifies this
      ensures (ok, Now()) == Submit(old(Now()), limits, chat, job, meanwhile)
      ensures WellFormed(Now(), limits)
      ensures ok ==> put != [] && Last(put) == Job(chat, job) && job in Waiting(Now(), chat)
    {
      hide Next;
      hide FindLane;
      hide WellFormed;
      SubmitWellFormed(Now(), limits, chat, job, meanwhile);
      var round := 0;
      while true
        invariant round <= |meanwhile| && WellFormed(Now(), limits)
        invariant Submit(Now(), limits, chat, job, meanwhile[round..]) ==
                  Submit(old(Now()), limits, chat, job, meanwhile)
        decreases |meanwhile| - round
      {
        var lane := LaneFor(chat);
        if lane.None? {
          return false;
        }
        var l := lane.value;
        if |lanes[l].queue| < limits.queue {
          lanes := lanes[l := lanes[l].(queue := lanes[l].queue + [job])];
          put := put + [Job(chat, job)];
          assert lanes[l].queue[|lanes[l].queue| - 1] == job;
          return true;
        }
        if round == |meanwhile| {
          return false;
        }
        PlayWellFormed(Now(), limits, meanwhile[round]);
        Sleep(meanwhile[round]);
        NextWellFormed(Now(), limits, Reap(chat));
        Forgets(Now(), limits, chat);
        if chat in registry && lanes[registry[chat]].thread == Exited {
          registry := registry - {chat};
        }
        round := round + 1;
      }
    }

    /** One turn of `_drain_lane`: start the next job, or retire when there is none and this
        lane still owns the registry entry. */
    method DrainTurn(l: nat) returns (job: Option<nat>)
      requires WellFormed(Now(), limits)
      requires l < |lanes| && lanes[l].thread == Idle
      modifies this
      ensures Now() == Next(old(Now()), limits, if old(lanes)[l].queue != [] then Take(l) else Retire(l))
      ensures job == if old(lanes)[l].queue != [] then Some(old(lanes)[l].queue[0]) else None
    {
      var lane := lanes[l];
      if lane.queue != [] {
        lanes := lanes[l := lane.(queue := lane.queue[1..], thread := Running(lane.queue[0]))];
        ran := ran + [Job(lane.chat, lane.queue[0])];
        return Some(lane.queue[0]);
      }
      if lane.chat in registry && registry[lane.chat] == l {
        registry := registry - {lane.chat};
        lanes := lanes[l := lane.(thread := Exited)];
      }
      return None;
    }
  }

  /** The in-memory cursor store: an offset only ever advances. */
  class InMemoryCursorStore {
    var cursors: map<(string, string), int>

    constructor ()
      ensures cursors == map[]
    {
      cursors := map[];
    }

    method AdvanceCursor(platform: string, scopeKey: string, value: int)
      modifies this
      ensures var key := (platform, scopeKey);
              cursors == old(cursors)[key := if key in old(cursors) then Max(value, old(cursors)[key]) else value]
    {
      var key := (platform, scopeKey);
      if key !in cursors || value > cursors[key] {
        cursors := cursors[key := value];
      } else {
        assert cursors[key := cursors[key]] == cursors;
      }
    }
  }
}
