/** The scheduler of src/vda5050++/core/order/scheduler.cpp as a function from state to state.

    Tasks live in a store and the four maps refer to it, as the maps of the source share task
    objects. A throw is a result of its own and carries the state exactly as it was then.
    `out` is everything published so far; `hist` records what was started and which segments
    were announced, together with the state at that moment. */
module SchedulerModel {
  import opened Vda
  import opened Events
  import opened KeyOrder
  import A = ActionTasks
  import N = NavigationTasks

  datatype Task = Task(action: Action, state: A.ActionState, batch: nat, instant: bool)

  datatype Record =
    | GroupStarted(group: Group, instant: bool, before: seq<Task>, navBefore: Option<N.Nav>)
    | StepStarted(goal: Node, via: Edge, stopHint: bool, before: seq<Task>, navBefore: Option<N.Nav>)
    | SegmentAnnounced(begin: SeqId, end: SeqId, ahead: seq<Item>)

  type TaskMap = map<ActionId, nat>

  datatype Sched = Sched(
    mode: Mode,
    queue: seq<Item>,
    staging: seq<Item>,
    interrupts: seq<Group>,
    blocking: BlockingType,
    segment: Option<N.Segment>,
    tasks: seq<Task>,
    active: TaskMap,
    running: TaskMap,
    paused: TaskMap,
    navInt: TaskMap,
    nav: Option<N.Nav>,
    out: seq<Event>,
    hist: seq<Record>)

  const INITIAL: Sched :=
    Sched(Idle, [], [], [], NONE, None, [], map[], map[], map[], map[], None, [], [])

  /** How an operation ends: it returns, or it throws in the state it got to. */
  datatype Outcome = Ok(s: Sched) | Throw(s: Sched)

  /** Every entry of a map refers to a task in the store that has the entry's id. */
  ghost predicate Refers(m: TaskMap, tasks: seq<Task>)
  {
    forall id | id in m :: m[id] < |tasks| && tasks[m[id]].action.id == id
  }

  ghost predicate WellFormed(s: Sched)
  {
    && Refers(s.active, s.tasks)
    && Refers(s.running, s.tasks)
    && Refers(s.paused, s.tasks)
    && Refers(s.navInt, s.tasks)
  }

  ghost predicate InRange(refs: seq<nat>, n: nat)
  {
    forall i | 0 <= i < |refs| :: refs[i] < n
  }

  // Task transitions ////////////////////////////////////////////////////////////////////////////

  function SetTask(s: Sched, r: nat, st: A.ActionState): (t: Sched)
    requires r < |s.tasks|
    ensures WellFormed(s) ==> WellFormed(t)
  {
    s.(tasks := s.tasks[r := s.tasks[r].(state := st)], out := s.out + A.Effect(s.tasks[r].action.id, st))
  }

  function TaskTransition(s: Sched, r: nat, tr: A.ActionTransition): (o: Outcome)
    requires r < |s.tasks|
    ensures WellFormed(s) ==> WellFormed(o.s)
  {
    var next := A.Next(s.tasks[r].state, tr);
    if next.None? then Throw(s) else Ok(SetTask(s, r, next.value))
  }

  /** The same transition for a list of tasks; the first throw ends it. */
  function TransitionAll(s: Sched, refs: seq<nat>, tr: A.ActionTransition): (o: Outcome)
    requires InRange(refs, |s.tasks|)
    ensures WellFormed(s) ==> WellFormed(o.s)
    decreases |refs|
  {
    if refs == [] then Ok(s)
    else
      var first := TaskTransition(s, refs[0], tr);
      if first.Throw? then first else TransitionAll(first.s, refs[1..], tr)
  }

  /** The tasks of a map in the order the map iterates. */
  function RefsOf(m: TaskMap): (refs: seq<nat>)
    ensures |refs| == |Ascending(m.Keys)|
    ensures forall i | 0 <= i < |refs| :: refs[i] == m[Ascending(m.Keys)[i]]
  {
    var keys := Ascending(m.Keys);
    seq(|keys|, i requires 0 <= i < |keys| => assert keys[i] in keys; m[keys[i]])
  }

  lemma RefsInRange(m: TaskMap, tasks: seq<Task>)
    requires Refers(m, tasks)
    ensures InRange(RefsOf(m), |tasks|)
  {
    forall i | 0 <= i < |RefsOf(m)|
      ensures RefsOf(m)[i] < |tasks|
    {
      assert Ascending(m.Keys)[i] in Ascending(m.Keys);
    }
  }

  function SetNav(s: Sched, st: N.NavState): Sched
    requires s.nav.Some?
  {
    var n := s.nav.value.(state := st);
    s.(nav := Some(n), out := s.out + N.Effect(n))
  }

  function NavTransition(s: Sched, tr: N.NavTransition): Outcome
    requires s.nav.Some?
  {
    var next := N.Transfer(s.nav.value.state, tr, s.nav.value.goal.seqId);
    if next.None? then Throw(s) else Ok(SetNav(s, next.value))
  }

  // Queues //////////////////////////////////////////////////////////////////////////////////////

  function ForgetActions(actions: seq<Action>): seq<Event>
  {
    if actions == [] then [] else [ActionForget(actions[0].id)] + ForgetActions(actions[1..])
  }

  function ForgetItems(items: seq<Item>): seq<Event>
  {
    if items == [] then []
    else (if items[0].Actions? then ForgetActions(items[0].group.actions) else []) + ForgetItems(items[1..])
  }

  function ForgetGroups(groups: seq<Group>): seq<Event>
  {
    if groups == [] then [] else ForgetActions(groups[0].actions) + ForgetGroups(groups[1..])
  }

  /** The navigation steps up to and including the first one with a stop hint. */
  function StepsToStop(items: seq<Item>): seq<Item>
  {
    if items == [] then []
    else if items[0].Actions? then StepsToStop(items[1..])
    else if items[0].stopHint then [items[0]]
    else [items[0]] + StepsToStop(items[1..])
  }

  function ClearQueues(s: Sched, keepNav: bool): Sched
  {
    s.(queue := if keepNav then StepsToStop(s.queue) else [],
       interrupts := [],
       out := s.out + ForgetItems(s.queue) + ForgetGroups(s.interrupts))
  }

  // Updating tasks //////////////////////////////////////////////////////////////////////////////

  datatype Selection = PausedOnly | RunningOnly | LiveOnly

  predicate Selects(k: Selection, st: A.ActionState)
  {
    match k
    case PausedOnly => st.IsPaused() && !st.IsTerminal()
    case RunningOnly => !st.IsPaused() && !st.IsTerminal()
    case LiveOnly => !st.IsTerminal()
  }

  /** The entries of a map whose tasks are selected. */
  function Keep(m: TaskMap, tasks: seq<Task>, k: Selection): (r: TaskMap)
    requires Refers(m, tasks)
    ensures Refers(r, tasks)
    ensures forall id :: id in r <==> id in m && Selects(k, tasks[m[id]].state)
    ensures forall id | id in r :: r[id] == m[id]
  {
    map id | id in m && Selects(k, tasks[m[id]].state) :: m[id]
  }

  function UpdateMaps(s: Sched): (t: Sched)
    requires WellFormed(s)
    ensures WellFormed(t)
  {
    // insertion into a std::map does not replace an entry
    var paused := Keep(s.running, s.tasks, PausedOnly) + s.paused;
    var running := Keep(paused, s.tasks, RunningOnly) + Keep(s.running, s.tasks, RunningOnly);
    s.(running := running, paused := Keep(paused, s.tasks, PausedOnly), active := Keep(s.active, s.tasks, LiveOnly))
  }

  function UpdateTasks(s: Sched): (t: Sched)
    requires WellFormed(s)
    ensures WellFormed(t)
  {
    var t := UpdateMaps(s);
    if t.nav.Some? && t.nav.value.state.IsTerminal() then
      (if t.nav.value.state.NavFailed? then ClearQueues(t, false) else t).(nav := None)
    else t
  }

  function DropNavInt(s: Sched): (t: Sched)
    requires WellFormed(s)
    ensures WellFormed(t)
  {
    s.(navInt := Keep(s.navInt, s.tasks, LiveOnly))
  }

  function UpdateInterruptMapping(s: Sched): (o: Outcome)
    requires WellFormed(s)
    ensures WellFormed(o.s)
  {
    var t := DropNavInt(s);
    if t.navInt != s.navInt && t.navInt == map[] && t.nav.Some? then NavTransition(t, N.DoResume) else Ok(t)
  }

  // Fetching ////////////////////////////////////////////////////////////////////////////////////

  lemma ReferMore(m: TaskMap, tasks: seq<Task>, task: Task)
    requires Refers(m, tasks)
    ensures Refers(m, tasks + [task]) && Refers(m[task.action.id := |tasks|], tasks + [task])
  {
  }

  lemma StartFormed(s: Sched, t: Sched, task: Task)
    requires WellFormed(s) && t.tasks == s.tasks + [task]
    requires t.active == s.active[task.action.id := |s.tasks|] && t.running == s.running[task.action.id := |s.tasks|]
    requires t.paused == s.paused && (t.navInt == s.navInt || t.navInt == s.navInt[task.action.id := |s.tasks|])
    ensures WellFormed(t)
  {
    ReferMore(s.active, s.tasks, task);
    ReferMore(s.running, s.tasks, task);
    ReferMore(s.paused, s.tasks, task);
    ReferMore(s.navInt, s.tasks, task);
    hide Refers;
  }

  function StartAction(s: Sched, a: Action, batch: nat, instant: bool): (t: Sched)
    ensures WellFormed(s) ==> WellFormed(t)
  {
    var r, task := |s.tasks|, Task(a, A.ActionInitializing, batch, instant);
    var t := s.(tasks := s.tasks + [task],
                active := s.active[a.id := r],
                running := s.running[a.id := r],
                navInt := if instant && a.blocking != NONE then s.navInt[a.id := r] else s.navInt,
                out := s.out + A.Effect(a.id, A.ActionInitializing));
    assert WellFormed(s) ==> WellFormed(t) by {
      hide A.Effect, Refers;
      if WellFormed(s) {
        StartFormed(s, t, task);
      }
    }
    t
  }

  function StartAll(s: Sched, actions: seq<Action>, batch: nat, instant: bool): (t: Sched)
    ensures WellFormed(s) ==> WellFormed(t)
    ensures t == s.(tasks := t.tasks, active := t.active, running := t.running, navInt := t.navInt, out := t.out)
    decreases |actions|
  {
    if actions == [] then s else StartAll(StartAction(s, actions[0], batch, instant), actions[1..], batch, instant)
  }

  predicate GroupReady(s: Sched, g: Group)
  {
    s.active == map[] && (s.nav.None? || g.ceiling == NONE)
  }

  predicate StepReady(s: Sched)
  {
    s.nav.None? && s.navInt == map[] && (s.active == map[] || s.blocking == NONE)
  }

  function StartGroup(s: Sched): (t: Sched)
    requires s.queue != [] && s.queue[0].Actions?
    ensures WellFormed(s) ==> WellFormed(t)
    ensures t.queue == s.queue[1..]
  {
    var g := s.queue[0].group;
    StartAll(s.(segment := None, blocking := g.ceiling, queue := s.queue[1..],
                hist := s.hist + [GroupStarted(g, false, s.tasks, s.nav)]),
             g.actions, |s.hist|, false)
  }

  /** The goal of the last step a segment may reach: the first one with a stop hint, or the last. */
  function SegmentEnd(items: seq<Item>, default: SeqId): SeqId
  {
    if items == [] then default
    else if items[0].Actions? then SegmentEnd(items[1..], default)
    else if items[0].stopHint then items[0].goal.seqId
    else SegmentEnd(items[1..], items[0].goal.seqId)
  }

  /** The next step lies inside the segment announced before. */
  predicate Covered(s: Sched)
    requires s.queue != [] && s.queue[0].Step?
  {
    s.segment.Some? && s.segment.value.last >= s.queue[0].goal.seqId
  }

  function StartStep(s: Sched): (t: Sched)
    requires s.queue != [] && s.queue[0].Step?
    ensures WellFormed(s) ==> WellFormed(t)
    ensures t.queue == s.queue[1..]
  {
    var step := s.queue[0];
    var started := [StepStarted(step.goal, step.via, step.stopHint, s.tasks, s.nav)];
    if Covered(s) then
      var n := N.Nav(N.NavFirstInProgress, step.goal, step.via, None);
      s.(nav := Some(n), queue := s.queue[1..], out := s.out + N.Effect(n), hist := s.hist + started)
    else
      var segment := N.Segment(step.goal.seqId, SegmentEnd(s.queue, step.goal.seqId));
      var n := N.Nav(N.NavFirstInProgress, step.goal, step.via, Some(segment));
      s.(nav := Some(n), segment := Some(segment), queue := s.queue[1..], out := s.out + N.Effect(n),
         hist := s.hist + started + [SegmentAnnounced(segment.first, segment.last, s.queue)])
  }

  function PatchSegment(s: Sched): Sched
  {
    if s.nav.None? || s.segment.None? then s
    else
      var oldLast := s.segment.value.last;
      var last := SegmentEnd(s.queue, oldLast);
      if last == oldLast then s
      else
        var begin := Add32(oldLast, 1);
        s.(segment := Some(s.segment.value.(last := last)),
           out := s.out + [NavigationUpcomingSegment(begin, last)],
           hist := s.hist + [SegmentAnnounced(begin, last, s.queue)])
  }

  function Fetch(s: Sched): (t: Sched)
    ensures WellFormed(s) ==> WellFormed(t)
    decreases |s.queue|
  {
    if s.queue == [] then s
    else if s.queue[0].Actions? then
      if GroupReady(s, s.queue[0].group) then Fetch(StartGroup(s)) else s
    else if s.nav.Some? then PatchSegment(s)
    else if StepReady(s) then Fetch(StartStep(s))
    else s
  }

  // Interrupts //////////////////////////////////////////////////////////////////////////////////

  /** Whether a task cannot run beside a group with this ceiling. */
  predicate Conflicts(t: Task, ceiling: BlockingType)
  {
    ceiling == HARD || t.action.blocking == HARD
  }

  function ConflictingRefs(refs: seq<nat>, tasks: seq<Task>, ceiling: BlockingType): (r: seq<nat>)
    requires InRange(refs, |tasks|)
    ensures InRange(r, |tasks|)
  {
    if refs == [] then []
    else (if Conflicts(tasks[refs[0]], ceiling) then [refs[0]] else []) + ConflictingRefs(refs[1..], tasks, ceiling)
  }

  function DoInterrupt(s: Sched): (o: Outcome)
    requires WellFormed(s)
    ensures WellFormed(o.s)
  {
    if s.interrupts == [] then Ok(s)
    else
      var ceiling := s.interrupts[0].ceiling;
      var nav := if ceiling != NONE && s.nav.Some? then NavTransition(s, N.DoPause) else Ok(s);
      if nav.Throw? then nav
      else
        RefsInRange(s.active, s.tasks);
        TransitionAll(nav.s, ConflictingRefs(RefsOf(s.active), s.tasks, ceiling), A.DoCancel)
  }

  predicate InstantReady(s: Sched)
    requires s.interrupts != []
    requires WellFormed(s)
  {
    var ceiling := s.interrupts[0].ceiling;
    && (ceiling == NONE || s.nav.None? || s.nav.value.state.IsPaused())
    && (forall id | id in s.active :: !Conflicts(s.tasks[s.active[id]], ceiling))
  }

  function StartInstant(s: Sched): (t: Sched)
    requires s.interrupts != []
    ensures WellFormed(s) ==> WellFormed(t)
  {
    var g := s.interrupts[0];
    StartAll(s.(blocking := g.ceiling, interrupts := s.interrupts[1..],
                hist := s.hist + [GroupStarted(g, true, s.tasks, s.nav)]),
             g.actions, |s.hist|, true)
  }

  function FetchInterrupt(s: Sched): (t: Sched)
    requires WellFormed(s)
    ensures WellFormed(t)
  {
    if s.interrupts == [] || !InstantReady(s) then s else StartInstant(s)
  }

  // The scheduler states ////////////////////////////////////////////////////////////////////////

  /** Entering a scheduler state; only announced states are published. */
  function Enter(s: Sched, mode: Mode, notify: bool): Sched
  {
    s.(mode := mode,
       out := if notify then s.out + [OrderStatus(mode)] else s.out,
       segment := if mode == Idle then None else s.segment)
  }

  // each state operation yields its outcome and whether an update has to follow
  type StateResult = (Outcome, bool)

  function CancelActive(s: Sched): (r: StateResult)
    requires WellFormed(s)
    ensures WellFormed(r.0.s)
  {
    RefsInRange(s.active, s.tasks);
    var tasks := TransitionAll(s, RefsOf(s.active), A.DoCancel);
    if tasks.Throw? then (tasks, false)
    else
      var t := tasks.s;
      var nav :=
        if t.nav.Some? && !t.nav.value.state.IsPaused() && !t.nav.value.state.IsTerminal()
        then NavTransition(t, N.DoCancel) else Ok(t);
      if nav.Throw? then (nav, false)
      else (Ok(Enter(ClearQueues(nav.s, true), Canceling, true)), false)
  }

  function PauseActive(s: Sched): (r: StateResult)
    requires WellFormed(s)
    ensures WellFormed(r.0.s)
  {
    RefsInRange(s.running, s.tasks);
    var tasks := TransitionAll(s, RefsOf(s.running), A.DoPause);
    if tasks.Throw? then (tasks, false)
    else
      var nav := if tasks.s.nav.Some? then NavTransition(tasks.s, N.DoPause) else tasks;
      if nav.Throw? then (nav, false) else (Ok(Enter(nav.s, Pausing, true)), false)
  }

  function ResumePaused(s: Sched): (r: StateResult)
    requires WellFormed(s)
    ensures WellFormed(r.0.s)
  {
    RefsInRange(s.paused, s.tasks);
    var tasks := TransitionAll(s, RefsOf(s.paused), A.DoResume);
    if tasks.Throw? then (tasks, false)
    else
      var nav := if tasks.s.nav.Some? then NavTransition(tasks.s, N.DoResume) else tasks;
      if nav.Throw? then (nav, false) else (Ok(Enter(nav.s, Resuming, true)), true)
  }

  function StateCancel(s: Sched): (r: StateResult)
    requires WellFormed(s)
    ensures WellFormed(r.0.s)
  {
    match s.mode
    case Idle => (Ok(Enter(s, Canceling, false)), true)
    case IdlePaused => (Ok(ClearQueues(s, false)), false)
    case Active => CancelActive(s)
    case Paused => CancelActive(s)
    case _ => (Throw(s), false)
  }

  function StatePause(s: Sched): (r: StateResult)
    requires WellFormed(s)
    ensures WellFormed(r.0.s)
  {
    match s.mode
    case Idle => (Ok(Enter(s, IdlePaused, true)), false)
    case Active => PauseActive(s)
    case _ => (Throw(s), false)
  }

  function StateResume(s: Sched): (r: StateResult)
    requires WellFormed(s)
    ensures WellFormed(r.0.s)
  {
    match s.mode
    case IdlePaused => (Ok(Enter(s, Idle, true)), true)
    case Paused => ResumePaused(s)
    case _ => (Throw(s), false)
  }

  function StateInterrupt(s: Sched): (r: StateResult)
    requires WellFormed(s)
    ensures WellFormed(r.0.s)
  {
    if s.mode == Idle || s.mode == Active then
      var o := DoInterrupt(s);
      if o.Throw? then (o, false) else (Ok(Enter(o.s, Interrupting, true)), true)
    else (Throw(s), false)
  }

  /** updateTasks followed by updateTasksInterruptMapping. */
  function Refresh(s: Sched): (o: Outcome)
    requires WellFormed(s)
    ensures WellFormed(o.s)
  {
    UpdateInterruptMapping(UpdateTasks(s))
  }

  function UpdateIdle(s: Sched): (r: StateResult)
    requires WellFormed(s)
    ensures WellFormed(r.0.s) && !r.1
  {
    var t := Fetch(s);
    if t.nav.Some? || t.active != map[] then (Ok(Enter(t, Active, true)), false)
    else (Ok(Enter(t, Idle, false)), false)
  }

  function UpdateActive(s: Sched): (r: StateResult)
    requires WellFormed(s)
    ensures WellFormed(r.0.s) && !r.1
  {
    var o := Refresh(s);
    if o.Throw? then (o, false)
    else
      var t := Fetch(o.s);
      if t.active == map[] && (t.nav.None? || t.nav.value.state.IsTerminal())
      then (Ok(Enter(t, Idle, true)), false)
      else (Ok(Enter(t, Active, false)), false)
  }

  function UpdateCanceling(s: Sched): (r: StateResult)
    requires WellFormed(s)
    ensures WellFormed(r.0.s) && !r.1
  {
    var o := Refresh(s);
    if o.Throw? then (o, false)
    else
      var t := Fetch(o.s);
      if t.active == map[] && t.nav.None? then (Ok(Enter(t, Idle, true)), false)
      else (Ok(Enter(t, Canceling, false)), false)
  }

  function UpdateResuming(s: Sched): (r: StateResult)
    requires WellFormed(s)
    ensures WellFormed(r.0.s) && (r.1 ==> r.0.s.mode == Active)
  {
    var o := Refresh(s);
    if o.Throw? then (o, false)
    else if o.s.paused != map[] || (o.s.nav.Some? && o.s.nav.value.state.IsPaused())
    then (Ok(Enter(o.s, Resuming, false)), false)
    else (Ok(Enter(o.s, Active, true)), true)
  }

  function UpdatePausing(s: Sched): (r: StateResult)
    requires WellFormed(s)
    ensures WellFormed(r.0.s) && !r.1
  {
    var o := Refresh(s);
    if o.Throw? then (o, false)
    else if o.s.running != map[] || (o.s.nav.Some? && !o.s.nav.value.state.IsPaused())
    then (Ok(Enter(o.s, Pausing, false)), false)
    else (Ok(Enter(o.s, Paused, true)), false)
  }

  function UpdatePaused(s: Sched): (r: StateResult)
    requires WellFormed(s)
    ensures WellFormed(r.0.s) && !r.1
  {
    var o := Refresh(s);
    if o.Throw? then (o, false) else (Ok(Enter(o.s, Paused, false)), false)
  }

  function UpdateInterrupting(s: Sched): (r: StateResult)
    requires WellFormed(s)
    ensures WellFormed(r.0.s) && !r.1
  {
    var t := FetchInterrupt(UpdateTasks(s));
    if t.interrupts == [] then (Ok(Enter(t, Active, true)), false)
    else (Ok(Enter(t, Interrupting, false)), false)
  }

  function StateUpdate(s: Sched): (r: StateResult)
    requires WellFormed(s)
    ensures WellFormed(r.0.s)
    ensures r.1 ==> s.mode == Resuming && r.0.s.mode == Active
  {
    match s.mode
    case Idle => UpdateIdle(s)
    case IdlePaused => (Ok(Enter(s, IdlePaused, false)), false)
    case Active => UpdateActive(s)
    case Canceling => UpdateCanceling(s)
    case Resuming => UpdateResuming(s)
    case Pausing => UpdatePausing(s)
    case Paused => UpdatePaused(s)
    case Failed => (Ok(Enter(s, Failed, false)), false)
    case Interrupting => UpdateInterrupting(s)
  }

  // Public operations ///////////////////////////////////////////////////////////////////////////

  function Update(s: Sched): (o: Outcome)
    requires WellFormed(s)
    ensures WellFormed(o.s)
    decreases if s.mode == Resuming then 1 else 0
  {
    var r := StateUpdate(s);
    if r.0.Ok? && r.1 then Update(r.0.s) else r.0
  }

  function Finish(r: StateResult): (o: Outcome)
    requires WellFormed(r.0.s)
    ensures WellFormed(o.s)
  {
    if r.0.Ok? && r.1 then Update(r.0.s) else r.0
  }

  datatype Op =
    | OpCancel
    | OpPause
    | OpResume
    | OpUpdate
    | OpAction(id: ActionId, actionTransition: A.ActionTransition)
    | OpNavigation(navTransition: N.NavTransition)
    | OpInterrupt(group: Group)
    | OpEnqueue(item: Item)
    | OpCommit

  function Apply(s: Sched, op: Op): (o: Outcome)
    requires WellFormed(s)
    ensures WellFormed(o.s)
  {
    match op
    case OpCancel => Finish(StateCancel(s))
    case OpPause => Finish(StatePause(s))
    case OpResume => Finish(StateResume(s))
    case OpUpdate => Update(s)
    case OpAction(id, tr) =>
      if id !in s.active then Throw(s)
      else
        var o := TaskTransition(s, s.active[id], tr);
        if o.Throw? then o else Update(o.s)
    case OpNavigation(tr) =>
      if s.nav.None? then Throw(s)
      else
        var o := NavTransition(s, tr);
        if o.Throw? then o else Update(o.s)
    case OpInterrupt(g) => Finish(StateInterrupt(s.(interrupts := s.interrupts + [g])))
    case OpEnqueue(item) => Ok(s.(staging := s.staging + [item]))
    case OpCommit => Update(s.(queue := s.queue + s.staging, staging := []))
  }

  /** A run: any sequence of calls. A throw ends its call; the callers catch it and go on. */
  function Run(ops: seq<Op>): (s: Sched)
    ensures WellFormed(s)
  {
    if ops == [] then INITIAL else Apply(Run(ops[..|ops| - 1]), ops[|ops| - 1]).s
  }
}
