/** The scheduler as an object: its queues, its four maps of shared task objects, its navigation task. Every
    method is proved to do to the object what SchedulerModel says about the value; `model` is that value. */
module Schedulers {
  import opened Vda
  import opened Events
  import opened KeyOrder
  import A = ActionTasks
  import N = NavigationTasks
  import opened SchedulerModel
  import opened SchedulerOperations

  type Tasks = map<ActionId, A.ActionTask>

  function Forgotten(ids: seq<ActionId>): seq<Event>
  {
    seq(|ids|, i requires 0 <= i < |ids| => ActionForget(ids[i]))
  }

  // Lists of events and items ///////////////////////////////////////////////////////////////////

  lemma ForgottenMore(ids: seq<ActionId>, id: ActionId)
    ensures Forgotten(ids + [id]) == Forgotten(ids) + [ActionForget(id)]
    ensures Forgotten([]) == []
  {
  }

  lemma {:induction false} ForgetItemsNext(items: seq<Item>)
    requires items != []
    ensures ForgetItems(items) ==
            (if items[0].Actions? then ForgetActions(items[0].group.actions) else []) + ForgetItems(items[1..])
    ensures ForgetItems([]) == []
  {
  }

  lemma {:induction false} ForgetGroupsNext(groups: seq<Group>)
    requires groups != []
    ensures ForgetGroups(groups) == ForgetActions(groups[0].actions) + ForgetGroups(groups[1..])
    ensures ForgetGroups([]) == []
  {
  }

  lemma {:induction false} ForgetActionsMore(actions: seq<Action>, a: Action)
    ensures ForgetActions(actions + [a]) == ForgetActions(actions) + [ActionForget(a.id)]
    ensures ForgetActions([]) == []
  {
    if actions == [] {
      assert [a][1..] == [];
    } else {
      ForgetActionsMore(actions[1..], a);
      assert (actions + [a])[1..] == actions[1..] + [a];
    }
  }

  /** The steps that are still to be kept. */
  function StepsLeft(items: seq<Item>, keep: bool): seq<Item>
  {
    if keep then StepsToStop(items) else []
  }

  lemma {:induction false} StepsLeftNext(items: seq<Item>, keep: bool)
    requires items != []
    ensures StepsLeft(items, keep) ==
            if items[0].Actions? || !keep then StepsLeft(items[1..], keep)
            else [items[0]] + StepsLeft(items[1..], !items[0].stopHint)
  {
  }

  // Sifting a map key by key ////////////////////////////////////////////////////////////////////

  /** What is left of a map when those of the done keys that are not kept are gone. */
  function Sifted(m: Tasks, done: seq<ActionId>, keep: set<ActionId>): Tasks
  {
    map id | id in m && (id !in done || id in keep) :: m[id]
  }

  /** What the done keys contribute to another map. */
  function Gained(m: Tasks, done: seq<ActionId>, keep: set<ActionId>): Tasks
  {
    map id | id in m && id in done && id in keep :: m[id]
  }

  lemma SiftStart(m: Tasks, keep: set<ActionId>, gain: set<ActionId>, other: Tasks)
    ensures Ascending(m.Keys)[..0] == [] && Sifted(m, [], keep) == m && Gained(m, [], gain) + other == other
    ensures forall id | id in Ascending(m.Keys) :: id in m
  {
  }

  lemma SiftOne(m: Tasks, done: seq<ActionId>, id: ActionId, keep: set<ActionId>)
    requires id in m && id !in done
    ensures var before := Sifted(m, done, keep);
            && id in before && before[id] == m[id]
            && Sifted(m, done + [id], keep) == (if id in keep then before else before - {id})
            && (id !in keep ==> Sifted(m, done + [id], keep) != m)
  {
    if id !in keep {
      assert id !in Sifted(m, done + [id], keep);
    }
  }

  lemma KeyIn(m: Tasks, i: nat)
    requires i < |Ascending(m.Keys)|
    ensures Ascending(m.Keys)[i] in m
  {
    hide *;
    assert Ascending(m.Keys)[i] in Ascending(m.Keys);
    assert Ascending(m.Keys)[i] in m.Keys;
  }

  lemma KeyNew(keys: seq<ActionId>, i: nat)
    requires i < |keys| && forall j, k | 0 <= j < k < |keys| :: keys[j] < keys[k]
    ensures keys[i] !in keys[..i] && keys[..i + 1] == keys[..i] + [keys[i]]
  {
  }

  lemma GainOne(m: Tasks, done: seq<ActionId>, id: ActionId, gain: set<ActionId>, other: Tasks)
    requires id in m && id !in done
    ensures var before := Gained(m, done, gain) + other;
            Gained(m, done + [id], gain) + other ==
            if id in gain && id !in before then before[id := m[id]] else before
  {
  }

  /** One key further, in ascending order. */
  lemma SiftStep(m: Tasks, i: nat, keep: set<ActionId>, gain: set<ActionId>, other: Tasks)
    requires i < |Ascending(m.Keys)|
    ensures var keys := Ascending(m.Keys);
            var id, left, gained := keys[i], Sifted(m, keys[..i], keep), Gained(m, keys[..i], gain) + other;
            && id in m && id in left && left[id] == m[id]
            && Sifted(m, keys[..i + 1], keep) == (if id in keep then left else left - {id})
            && (id !in keep ==> Sifted(m, keys[..i + 1], keep) != m)
            && Gained(m, keys[..i + 1], gain) + other ==
               (if id in gain && id !in gained then gained[id := m[id]] else gained)
  {
    hide *;
    var keys := Ascending(m.Keys);
    KeyIn(m, i);
    KeyNew(keys, i);
    SiftOne(m, keys[..i], keys[i], keep);
    GainOne(m, keys[..i], keys[i], gain, other);
  }

  lemma SiftEnd(m: Tasks, keep: set<ActionId>, gain: set<ActionId>)
    ensures Sifted(m, Ascending(m.Keys), keep) == Restrict(m, keep)
    ensures Gained(m, Ascending(m.Keys), gain) == Restrict(m, gain)
  {
  }

  lemma SelectsIs(st: A.ActionState)
    ensures Selects(PausedOnly, st) <==> st.IsPaused() && !st.IsTerminal()
    ensures Selects(RunningOnly, st) <==> !st.IsPaused() && !st.IsTerminal()
    ensures Selects(LiveOnly, st) <==> !st.IsTerminal()
  {
  }

  /** The map refers to the objects that the map of the model refers to. */
  ghost predicate Same(heap: seq<A.ActionTask>, m: Tasks, refs: TaskMap)
  {
    m.Keys == refs.Keys && forall id | id in m :: refs[id] < |heap| && m[id] == heap[refs[id]]
  }

  function Restrict(m: Tasks, ids: set<ActionId>): Tasks
  {
    map id | id in m && id in ids :: m[id]
  }

  /** The ids in a map whose tasks are selected. */
  function Chosen(refs: TaskMap, tasks: seq<Task>, k: Selection): set<ActionId>
    requires Refers(refs, tasks)
  {
    set id | id in refs && Selects(k, tasks[refs[id]].state)
  }

  lemma SameKeep(heap: seq<A.ActionTask>, m: Tasks, refs: TaskMap, tasks: seq<Task>, k: Selection)
    requires Refers(refs, tasks) && Same(heap, m, refs)
    ensures Same(heap, Restrict(m, Chosen(refs, tasks, k)), Keep(refs, tasks, k))
    ensures Restrict(m, Chosen(refs, tasks, k)) != m <==> Keep(refs, tasks, k) != refs
  {
    var ids := Chosen(refs, tasks, k);
    assert Restrict(m, ids).Keys == Keep(refs, tasks, k).Keys;
    assert Restrict(m, ids) == m <==> Restrict(m, ids).Keys == m.Keys;
    assert Keep(refs, tasks, k) == refs <==> Keep(refs, tasks, k).Keys == refs.Keys;
  }

  lemma SameJoin(heap: seq<A.ActionTask>, a: Tasks, aRefs: TaskMap, b: Tasks, bRefs: TaskMap)
    requires Same(heap, a, aRefs) && Same(heap, b, bRefs)
    ensures Same(heap, a + b, aRefs + bRefs)
  {
    assert (a + b).Keys == (aRefs + bRefs).Keys;
  }

  lemma EmptySame(heap: seq<A.ActionTask>, m: Tasks, refs: TaskMap)
    requires Same(heap, m, refs)
    ensures m == map[] <==> refs == map[]
  {
    assert m.Keys == refs.Keys;
    assert m == map[] <==> m.Keys == {};
    assert refs == map[] <==> refs.Keys == {};
  }

  // What the three loops of an update do to the maps ////////////////////////////////////////////

  function RunningSplit(s: Sched): (t: Sched)
    requires WellFormed(s)
    ensures WellFormed(t)
  {
    s.(running := Keep(s.running, s.tasks, RunningOnly), paused := Keep(s.running, s.tasks, PausedOnly) + s.paused)
  }

  function PausedSplit(s: Sched): (t: Sched)
    requires WellFormed(s)
    ensures WellFormed(t)
  {
    s.(running := Keep(s.paused, s.tasks, RunningOnly) + s.running, paused := Keep(s.paused, s.tasks, PausedOnly))
  }

  function ActiveDropped(s: Sched): (t: Sched)
    requires WellFormed(s)
    ensures WellFormed(t)
  {
    s.(active := Keep(s.active, s.tasks, LiveOnly))
  }

  lemma ThreeLoops(s: Sched)
    requires WellFormed(s)
    ensures UpdateMaps(s) == ActiveDropped(PausedSplit(RunningSplit(s)))
  {
    hide Keep, Refers;
  }

  lemma RunningSplitIs(s: Sched, heap: seq<A.ActionTask>, running: Tasks, paused: Tasks)
    requires WellFormed(s) && Same(heap, running, s.running) && Same(heap, paused, s.paused)
    ensures Refers(s.running, s.tasks)
    ensures var u := RunningSplit(s);
            && WellFormed(u) && u == s.(running := u.running, paused := u.paused)
            && Same(heap, Restrict(running, Chosen(s.running, s.tasks, RunningOnly)), u.running)
            && Same(heap, Restrict(running, Chosen(s.running, s.tasks, PausedOnly)) + paused, u.paused)
  {
    SameKeep(heap, running, s.running, s.tasks, RunningOnly);
    SameKeep(heap, running, s.running, s.tasks, PausedOnly);
    SameJoin(heap, Restrict(running, Chosen(s.running, s.tasks, PausedOnly)), Keep(s.running, s.tasks, PausedOnly),
             paused, s.paused);
    hide Same, Restrict, Chosen, Keep, Refers;
  }

  lemma PausedSplitIs(s: Sched, heap: seq<A.ActionTask>, running: Tasks, paused: Tasks)
    requires WellFormed(s) && Same(heap, running, s.running) && Same(heap, paused, s.paused)
    ensures Refers(s.paused, s.tasks)
    ensures var u := PausedSplit(s);
            && WellFormed(u) && u == s.(running := u.running, paused := u.paused)
            && Same(heap, Restrict(paused, Chosen(s.paused, s.tasks, PausedOnly)), u.paused)
            && Same(heap, Restrict(paused, Chosen(s.paused, s.tasks, RunningOnly)) + running, u.running)
  {
    SameKeep(heap, paused, s.paused, s.tasks, RunningOnly);
    SameKeep(heap, paused, s.paused, s.tasks, PausedOnly);
    SameJoin(heap, Restrict(paused, Chosen(s.paused, s.tasks, RunningOnly)), Keep(s.paused, s.tasks, RunningOnly),
             running, s.running);
    hide Same, Restrict, Chosen, Keep, Refers;
  }

  lemma ActiveDroppedIs(s: Sched, heap: seq<A.ActionTask>, active: Tasks)
    requires WellFormed(s) && Same(heap, active, s.active)
    ensures Refers(s.active, s.tasks)
    ensures var u := ActiveDropped(s);
            && WellFormed(u) && u == s.(active := u.active)
            && Same(heap, Restrict(active, Chosen(s.active, s.tasks, LiveOnly)), u.active)
  {
    SameKeep(heap, active, s.active, s.tasks, LiveOnly);
    hide Same, Restrict, Chosen, Keep, Refers;
  }

  lemma NavIntDroppedIs(s: Sched, heap: seq<A.ActionTask>, navInt: Tasks)
    requires WellFormed(s) && Same(heap, navInt, s.navInt)
    ensures Refers(s.navInt, s.tasks)
    ensures var u, left := DropNavInt(s), Restrict(navInt, Chosen(s.navInt, s.tasks, LiveOnly));
            && WellFormed(u) && u == s.(navInt := u.navInt)
            && Same(heap, left, u.navInt) && (left != navInt <==> u.navInt != s.navInt)
  {
    SameKeep(heap, navInt, s.navInt, s.tasks, LiveOnly);
    hide Same, Restrict, Chosen, Keep, Refers;
  }

  // Starting tasks //////////////////////////////////////////////////////////////////////////////

  lemma SameAdd(heap: seq<A.ActionTask>, m: Tasks, refs: TaskMap, id: ActionId, task: A.ActionTask)
    requires Same(heap, m, refs)
    ensures Same(heap + [task], m, refs)
    ensures Same(heap + [task], m[id := task], refs[id := |heap|])
  {
  }

  lemma StartedTask(s: Sched, a: Action, batch: nat, instant: bool)
    ensures var t := StartAction(s, a, batch, instant);
            && t.tasks == s.tasks + [Task(a, A.ActionInitializing, batch, instant)]
            && t.out == s.out + A.Effect(a.id, A.ActionInitializing) && t.nav == s.nav
  {
  }

  lemma StartIsNext()
    ensures A.Next(A.ActionWaiting, A.DoStart) == Some(A.ActionInitializing)
  {
  }

  lemma StartedMaps(s: Sched, heap: seq<A.ActionTask>, task: A.ActionTask, active: Tasks, running: Tasks, paused: Tasks,
                    navInt: Tasks, a: Action, batch: nat, instant: bool)
    requires WellFormed(s) && |heap| == |s.tasks|
    requires Same(heap, active, s.active) && Same(heap, running, s.running)
    requires Same(heap, paused, s.paused) && Same(heap, navInt, s.navInt)
    ensures var t := StartAction(s, a, batch, instant);
            && WellFormed(t)
            && Same(heap + [task], active[a.id := task], t.active)
            && Same(heap + [task], running[a.id := task], t.running)
            && Same(heap + [task], paused, t.paused)
            && Same(heap + [task], if instant && a.blocking != NONE then navInt[a.id := task] else navInt, t.navInt)
            && t.mode == s.mode && t.staging == s.staging && t.blocking == s.blocking && t.segment == s.segment
  {
    SameAdd(heap, active, s.active, a.id, task);
    SameAdd(heap, running, s.running, a.id, task);
    SameAdd(heap, paused, s.paused, a.id, task);
    SameAdd(heap, navInt, s.navInt, a.id, task);
    hide Same, WellFormed, A.Effect;
  }

  lemma {:induction false} StartNext(s: Sched, actions: seq<Action>, batch: nat, instant: bool)
    requires actions != []
    ensures StartAll(s, actions, batch, instant) ==
            StartAll(StartAction(s, actions[0], batch, instant), actions[1..], batch, instant)
  {
    hide StartAction;
  }

  lemma {:induction false} StartNone(s: Sched, batch: nat, instant: bool)
    ensures StartAll(s, [], batch, instant) == s
  {
  }

  // Fetching ////////////////////////////////////////////////////////////////////////////////////

  lemma {:induction false} SegmentEndNext(items: seq<Item>, last: SeqId)
    requires items != []
    ensures SegmentEnd(items, last) ==
            if items[0].Actions? then SegmentEnd(items[1..], last)
            else if items[0].stopHint then items[0].goal.seqId
            else SegmentEnd(items[1..], items[0].goal.seqId)
  {
  }

  lemma {:induction false} SegmentEndNone(last: SeqId)
    ensures SegmentEnd([], last) == last
  {
  }

  lemma StillFormed(s: Sched, u: Sched)
    requires WellFormed(s) && u.tasks == s.tasks
    requires u.active == s.active && u.running == s.running && u.paused == s.paused && u.navInt == s.navInt
    ensures WellFormed(u)
  {
  }

  lemma StartIsDriving(goal: SeqId)
    ensures N.Transfer(N.NavWaiting, N.DoStart, goal) == Some(N.NavFirstInProgress)
  {
  }

  // Conflicts with an interrupt /////////////////////////////////////////////////////////////////

  ghost predicate SameActions(a: seq<Task>, b: seq<Task>)
  {
    |a| == |b| && forall r | 0 <= r < |a| :: a[r].action == b[r].action
  }

  lemma SameActionsStart(tasks: seq<Task>)
    ensures SameActions(tasks, tasks)
  {
  }

  lemma SameActionsNext(a: seq<Task>, s: Sched, r: nat, tr: A.ActionTransition)
    requires SameActions(a, s.tasks) && r < |s.tasks|
    ensures SameActions(a, TaskTransition(s, r, tr).s.tasks)
  {
  }

  lemma ConflictIs(t: Task, ceiling: BlockingType)
    ensures Conflicts(t, ceiling) <==> ceiling == HARD || t.action.blocking == HARD
  {
  }

  lemma {:induction false} ConflictsInRange(refs: seq<nat>, tasks: seq<Task>, ceiling: BlockingType)
    requires InRange(refs, |tasks|)
    ensures InRange(ConflictingRefs(refs, tasks, ceiling), |tasks|)
  {
  }

  lemma {:induction false} ConflictNext(refs: seq<nat>, tasks: seq<Task>, ceiling: BlockingType)
    requires InRange(refs, |tasks|) && refs != []
    ensures refs[0] < |tasks| && InRange(refs[1..], |tasks|)
    ensures var more := ConflictingRefs(refs[1..], tasks, ceiling);
            && InRange(more, |tasks|)
            && ConflictingRefs(refs, tasks, ceiling) ==
               (if Conflicts(tasks[refs[0]], ceiling) then [refs[0]] + more else more)
            && ([refs[0]] + more)[0] == refs[0] && ([refs[0]] + more)[1..] == more && [refs[0]] + more != []
  {
  }

  /** What is left to cancel after the first task of the list. */
  lemma CancelNext(s: Sched, refs: seq<nat>, tasks: seq<Task>, ceiling: BlockingType)
    requires InRange(refs, |tasks|) && refs != [] && SameActions(tasks, s.tasks)
    ensures refs[0] < |s.tasks| && InRange(refs[1..], |tasks|)
    ensures InRange(ConflictingRefs(refs, tasks, ceiling), |s.tasks|)
    ensures var more := ConflictingRefs(refs[1..], tasks, ceiling);
            InRange(more, |s.tasks|) &&
            var o := if Conflicts(s.tasks[refs[0]], ceiling) then TaskTransition(s, refs[0], A.DoCancel) else Ok(s);
            && SameActions(tasks, o.s.tasks) && InRange(more, |o.s.tasks|)
            && TransitionAll(s, ConflictingRefs(refs, tasks, ceiling), A.DoCancel) ==
               if o.Throw? then o else TransitionAll(o.s, more, A.DoCancel)
  {
    var more := ConflictingRefs(refs[1..], tasks, ceiling);
    ConflictNext(refs, tasks, ceiling);
    ConflictsInRange(refs, tasks, ceiling);
    ConflictIs(s.tasks[refs[0]], ceiling);
    ConflictIs(tasks[refs[0]], ceiling);
    SameActionsNext(tasks, s, refs[0], A.DoCancel);
    hide ConflictingRefs, TransitionAll, TaskTransition, Conflicts, InRange;
    if Conflicts(s.tasks[refs[0]], ceiling) {
      TransitionNext(s, [refs[0]] + more, A.DoCancel);
    }
  }

  lemma {:induction false} ConflictNone(tasks: seq<Task>, ceiling: BlockingType)
    ensures ConflictingRefs([], tasks, ceiling) == []
  {
  }

  lemma NavKeepsTasks(s: Sched, tr: N.NavTransition)
    requires s.nav.Some?
    ensures var t := NavTransition(s, tr).s; t.tasks == s.tasks && t.active == s.active
  {
  }

  ghost predicate NoConflict(s: Sched, ceiling: BlockingType)
    requires WellFormed(s)
  {
    forall id | id in s.active :: !Conflicts(s.tasks[s.active[id]], ceiling)
  }

  ghost predicate ConflictFree(refs: seq<nat>, tasks: seq<Task>, ceiling: BlockingType)
  {
    forall i | 0 <= i < |refs| :: refs[i] < |tasks| && !Conflicts(tasks[refs[i]], ceiling)
  }

  lemma ConflictFreeNext(refs: seq<nat>, tasks: seq<Task>, ceiling: BlockingType)
    requires refs != [] && refs[0] < |tasks|
    ensures ConflictFree(refs, tasks, ceiling) <==>
            !Conflicts(tasks[refs[0]], ceiling) && ConflictFree(refs[1..], tasks, ceiling)
  {
    hide Conflicts;
    assert forall i | 0 < i < |refs| :: refs[i] == refs[1..][i - 1];
  }

  lemma ConflictFreeNone(tasks: seq<Task>, ceiling: BlockingType)
    ensures ConflictFree([], tasks, ceiling)
  {
  }

  lemma AllKeys(s: Sched, ceiling: BlockingType)
    requires WellFormed(s)
    ensures NoConflict(s, ceiling) <==> ConflictFree(RefsOf(s.active), s.tasks, ceiling)
  {
    var keys, refs := Ascending(s.active.Keys), RefsOf(s.active);
    RefsInRange(s.active, s.tasks);
    forall id | id in s.active
      ensures exists i :: 0 <= i < |keys| && keys[i] == id
    {
      assert id in keys;
    }
    assert forall i | 0 <= i < |keys| :: keys[i] in keys;
    hide Conflicts, Ascending, RefsOf;
  }

  lemma ReadyIs(s: Sched)
    requires WellFormed(s) && s.interrupts != []
    ensures var ceiling := s.interrupts[0].ceiling;
            InstantReady(s) <==>
            (ceiling == NONE || s.nav.None? || s.nav.value.state.IsPaused()) && NoConflict(s, ceiling)
  {
    hide Conflicts;
  }

  class Scheduler {
    const bus: Bus
    var mode: Mode
    var queue: seq<Item>
    var staging: seq<Item>
    var interrupts: seq<Group>
    var blocking: BlockingType
    var segment: Option<N.Segment>
    var active: Tasks
    var running: Tasks
    var paused: Tasks
    var navInt: Tasks
    var navTask: N.NavigationTask?
    ghost var heap: seq<A.ActionTask>
    ghost var model: Sched

    /** These objects, in this order, are the tasks. */
    ghost predicate TasksAre(objects: seq<A.ActionTask>, tasks: seq<Task>)
      reads objects
    {
      && |objects| == |tasks|
      && (forall i, j | 0 <= i < j < |objects| :: objects[i] != objects[j])
      && (forall i | 0 <= i < |objects| ::
            objects[i].bus == bus && objects[i].action == tasks[i].action && objects[i].state == tasks[i].state)
    }

    ghost predicate DrivingIs(nav: Option<N.Nav>)
      reads `navTask, navTask
    {
      if navTask == null then nav == None else navTask.bus == bus && nav == Some(navTask.Value())
    }

    /** The task objects, the navigation task and the trace have these values. */
    ghost predicate Objects(tasks: seq<Task>, nav: Option<N.Nav>, out: seq<Event>)
      reads `heap, `navTask, heap, navTask, bus
    {
      TasksAre(heap, tasks) && DrivingIs(nav) && bus.trace == out
    }

    /** All but the two receive queues agrees with the model. */
    ghost predicate Coupled()
      reads `mode, `staging, `blocking, `segment, `active, `running, `paused, `navInt, `navTask, `heap, `model
      reads bus, heap, navTask
    {
      && WellFormed(model) && Objects(model.tasks, model.nav, model.out)
      && mode == model.mode && staging == model.staging
      && blocking == model.blocking && segment == model.segment
      && Same(heap, active, model.active) && Same(heap, running, model.running)
      && Same(heap, paused, model.paused) && Same(heap, navInt, model.navInt)
    }

    ghost predicate Valid()
      reads this, bus, heap, navTask
    {
      Coupled() && queue == model.queue && interrupts == model.interrupts
    }

    constructor (bus: Bus)
      requires bus.trace == []
      ensures Valid() && model == INITIAL && this.bus == bus && heap == [] && navTask == null
    {
      this.bus := bus;
      mode := Idle;
      queue, staging, interrupts := [], [], [];
      blocking := NONE;
      segment := None;
      active, running, paused, navInt := map[], map[], map[], map[];
      navTask := null;
      heap := [];
      model := INITIAL;
    }

    // Tasks /////////////////////////////////////////////////////////////////////////////////////

    method TransitionTask(task: A.ActionTask, ghost r: nat, tr: A.ActionTransition) returns (ok: bool)
      requires Coupled() && r < |heap| && heap[r] == task
      modifies `model, task, bus
      ensures Coupled() && TaskTransition(old(model), r, tr) == if ok then Ok(model) else Throw(model)
      ensures old(Valid()) ==> Valid()
    {
      ok := task.Transition(tr);
      if ok {
        model := SetTask(model, r, task.state);
      }
    }

    /** One transition for every task of a map; the first throw ends it. */
    method TransitionTasks(tasks: Tasks, ghost refs: TaskMap, tr: A.ActionTransition) returns (ok: bool)
      requires Coupled() && Same(heap, tasks, refs) && Refers(refs, model.tasks) && InRange(RefsOf(refs), |model.tasks|)
      modifies `model, heap, bus
      ensures Coupled() && TransitionAll(old(model), RefsOf(refs), tr) == if ok then Ok(model) else Throw(model)
      ensures old(Valid()) ==> Valid()
    {
      hide *;
      var keys := Ascending(tasks.Keys);
      ghost var rest := RefsOf(refs);
      KeyCount(tasks, refs);
      for i := 0 to |keys|
        invariant Coupled() && InRange(rest, |model.tasks|) && rest == RefsOf(refs)[i..]
        invariant old(Valid()) ==> Valid()
        invariant TransitionAll(model, rest, tr) == TransitionAll(old(model), RefsOf(refs), tr)
      {
        KeyAt(tasks, refs, i);
        TransitionNext(model, rest, tr);
        ok := TransitionTask(tasks[keys[i]], rest[0], tr);
        if !ok {
          return false;
        }
        rest := rest[1..];
      }
      TransitionNone(model, tr);
      return true;
    }

    lemma KeyCount(tasks: Tasks, refs: TaskMap)
      requires Same(heap, tasks, refs)
      ensures |RefsOf(refs)| == |Ascending(tasks.Keys)| && RefsOf(refs)[0..] == RefsOf(refs)
    {
      assert tasks.Keys == refs.Keys;
    }

    lemma KeyAt(tasks: Tasks, refs: TaskMap, i: nat)
      requires Same(heap, tasks, refs) && i < |Ascending(tasks.Keys)|
      ensures i < |RefsOf(refs)| && RefsOf(refs)[i] < |heap| && Ascending(tasks.Keys)[i] in tasks
      ensures tasks[Ascending(tasks.Keys)[i]] == heap[RefsOf(refs)[i]]
    {
      assert tasks.Keys == refs.Keys;
      assert Ascending(tasks.Keys)[i] in Ascending(tasks.Keys);
    }

    method TransitionNavigation(tr: N.NavTransition) returns (ok: bool)
      requires Coupled() && navTask != null
      modifies `model, navTask, bus
      ensures Coupled() && NavTransition(old(model), tr) == if ok then Ok(model) else Throw(model)
      ensures navTask == old(navTask) && heap == old(heap)
      ensures old(Valid()) ==> Valid()
    {
      ok := navTask.Transition(tr);
      if ok {
        model := SetNav(model, navTask.state);
      }
    }

    // Queues ////////////////////////////////////////////////////////////////////////////////////

    method Publish(e: Event)
      requires Coupled()
      modifies `model, bus
      ensures Coupled() && model == old(model).(out := old(model).out + [e])
      ensures old(Valid()) ==> Valid()
    {
      bus.Publish(e);
      model := model.(out := model.out + [e]);
    }

    method CollectIds(ids: seq<ActionId>, actions: seq<Action>) returns (all: seq<ActionId>)
      ensures Forgotten(all) == Forgotten(ids) + ForgetActions(actions)
    {
      hide *;
      all := ids;
      NoForgets(actions);
      for i := 0 to |actions|
        invariant Forgotten(all) == Forgotten(ids) + ForgetActions(actions[..i])
      {
        assert actions[..i + 1] == actions[..i] + [actions[i]];
        ForgottenMore(all, actions[i].id);
        ForgetActionsMore(actions[..i], actions[i]);
        all := all + [actions[i].id];
      }
      assert actions[..|actions|] == actions;
    }

    lemma NoForgets(actions: seq<Action>)
      ensures actions[..0] == [] && ForgetActions([]) == []
    {
    }

    /** Empties the receive queue; yields the ids to forget, and keeps the steps up to a stop where asked to. */
    method DrainQueue(keepNav: bool) returns (forget: seq<ActionId>, kept: seq<Item>)
      modifies `queue
      ensures queue == []
      ensures Forgotten(forget) == ForgetItems(old(queue))
      ensures kept == if keepNav then StepsToStop(old(queue)) else []
    {
      hide *;
      forget, kept := [], [];
      var reached := false;
      NothingYet(queue);
      while queue != []
        invariant Forgotten(forget) + ForgetItems(queue) == ForgetItems(old(queue))
        invariant kept + StepsLeft(queue, keepNav && !reached) == StepsLeft(old(queue), keepNav)
        decreases |queue|
      {
        var elem := queue[0];
        ForgetItemsNext(queue);
        StepsLeftNext(queue, keepNav && !reached);
        if elem.Actions? {
          Associative(Forgotten(forget), ForgetActions(elem.group.actions), ForgetItems(queue[1..]));
          forget := CollectIds(forget, elem.group.actions);
        } else if keepNav && !reached {
          Associative(kept, [elem], StepsLeft(queue[1..], !elem.stopHint));
          if elem.stopHint {
            reached := true;
          }
          kept := kept + [elem];
        }
        queue := queue[1..];
      }
      NothingYet([]);
      StepsAre(old(queue), keepNav);
    }

    lemma {:induction false} StepsAre(items: seq<Item>, keep: bool)
      ensures StepsLeft(items, keep) == if keep then StepsToStop(items) else []
    {
      hide StepsToStop;
    }

    lemma {:induction false} NothingYet(items: seq<Item>)
      ensures Forgotten([]) + ForgetItems(items) == ForgetItems(items)
      ensures ForgetItems([]) == [] && Forgotten([]) == [] && forall b :: StepsLeft([], b) == []
    {
    }

    method DrainInterrupts(ids: seq<ActionId>) returns (forget: seq<ActionId>)
      modifies `interrupts
      ensures interrupts == []
      ensures Forgotten(forget) == Forgotten(ids) + ForgetGroups(old(interrupts))
    {
      hide *;
      forget := ids;
      while interrupts != []
        invariant Forgotten(forget) + ForgetGroups(interrupts) == Forgotten(ids) + ForgetGroups(old(interrupts))
        decreases |interrupts|
      {
        ForgetGroupsNext(interrupts);
        forget := CollectIds(forget, interrupts[0].actions);
        interrupts := interrupts[1..];
      }
      NoGroupsLeft(forget);
    }

    lemma NoGroupsLeft(ids: seq<ActionId>)
      ensures Forgotten(ids) + ForgetGroups([]) == Forgotten(ids)
    {
    }

    method PublishForgets(ids: seq<ActionId>)
      requires Coupled()
      modifies `model, bus
      ensures Coupled() && model == old(model).(out := old(model).out + Forgotten(ids))
    {
      hide *;
      ForgottenSome(ids, 0);
      for k := 0 to |ids|
        invariant Coupled() && model == old(model).(out := old(model).out + Forgotten(ids[..k]))
      {
        ForgottenSome(ids, k + 1);
        Publish(ActionForget(ids[k]));
      }
      ForgottenSome(ids, |ids|);
    }

    lemma ForgottenSome(ids: seq<ActionId>, k: nat)
      requires k <= |ids|
      ensures k == 0 ==> Forgotten(ids[..k]) == []
      ensures k > 0 ==> Forgotten(ids[..k]) == Forgotten(ids[..k - 1]) + [ActionForget(ids[k - 1])]
      ensures k == |ids| ==> ids[..k] == ids
    {
    }

    method ClearQueues(keepNav: bool)
      requires Valid()
      modifies `queue, `interrupts, `model, bus
      ensures Valid() && model == SchedulerModel.ClearQueues(old(model), keepNav)
    {
      hide *;
      QueuesAgree();
      TakeApart();
      ghost var u := SchedulerModel.ClearQueues(model, keepNav);
      ClearIs(model, keepNav);
      var forget, kept := DrainQueue(keepNav);
      queue := kept;
      forget := DrainInterrupts(forget);
      PublishForgets(forget);
      TakeApart();
      Recouple(u);
    }

    // Updating tasks ////////////////////////////////////////////////////////////////////////////

    /** The ids are those of the selected tasks. */
    ghost predicate Marks(m: Tasks, k: Selection, ids: set<ActionId>)
      reads m.Values
    {
      forall id | id in m :: id in ids <==> Selects(k, m[id].state)
    }

    lemma MarkAt(m: Tasks, k: Selection, ids: set<ActionId>, id: ActionId)
      requires Marks(m, k, ids) && id in m
      ensures id in ids <==> Selects(k, m[id].state)
    {
      assert m[id] in m.Values;
    }

    lemma MarkedBy(m: Tasks, refs: TaskMap, tasks: seq<Task>, nav: Option<N.Nav>, out: seq<Event>, k: Selection)
      requires Objects(tasks, nav, out) && Refers(refs, tasks) && Same(heap, m, refs)
      ensures Marks(m, k, Chosen(refs, tasks, k))
    {
      forall id | id in m
        ensures id in Chosen(refs, tasks, k) <==> Selects(k, m[id].state)
      {
        assert heap[refs[id]] == m[id];
      }
    }

    /** Drops the paused tasks from the running ones and adds them to the paused ones. */
    method MovePaused(ghost run: set<ActionId>, ghost pause: set<ActionId>)
      requires Marks(running, RunningOnly, run) && Marks(running, PausedOnly, pause)
      modifies `running, `paused
      ensures running == Restrict(old(running), run)
      ensures paused == Restrict(old(running), pause) + old(paused)
    {
      hide *;
      ghost var all, others := running, paused;
      var keys := Ascending(running.Keys);
      SiftStart(all, run, pause, others);
      for i := 0 to |keys|
        invariant running == Sifted(all, keys[..i], run)
        invariant paused == Gained(all, keys[..i], pause) + others
      {
        var id := keys[i];
        SiftStep(all, i, run, pause, others);
        var task := running[id];
        MarkAt(all, RunningOnly, run, id);
        MarkAt(all, PausedOnly, pause, id);
        SelectsIs(task.state);
        if task.state.IsPaused() && !task.state.IsTerminal() {
          if id !in paused {
            paused := paused[id := task];
          }
        }
        if task.state.IsPaused() || task.state.IsTerminal() {
          running := running - {id};
        }
      }
      assert keys[..|keys|] == keys;
      SiftEnd(all, run, pause);
    }

    /** Drops the others from the paused ones and adds those that run to the running ones. */
    method MoveRunning(ghost run: set<ActionId>, ghost pause: set<ActionId>)
      requires Marks(paused, RunningOnly, run) && Marks(paused, PausedOnly, pause)
      modifies `running, `paused
      ensures paused == Restrict(old(paused), pause)
      ensures running == Restrict(old(paused), run) + old(running)
    {
      hide *;
      ghost var all, others := paused, running;
      var keys := Ascending(paused.Keys);
      SiftStart(all, pause, run, others);
      for i := 0 to |keys|
        invariant paused == Sifted(all, keys[..i], pause)
        invariant running == Gained(all, keys[..i], run) + others
      {
        var id := keys[i];
        SiftStep(all, i, pause, run, others);
        var task := paused[id];
        MarkAt(all, RunningOnly, run, id);
        MarkAt(all, PausedOnly, pause, id);
        SelectsIs(task.state);
        if !task.state.IsPaused() && !task.state.IsTerminal() {
          if id !in running {
            running := running[id := task];
          }
        }
        if !task.state.IsPaused() || task.state.IsTerminal() {
          paused := paused - {id};
        }
      }
      assert keys[..|keys|] == keys;
      SiftEnd(all, pause, run);
    }

    /** Drops the tasks that have ended. */
    method DropEnded(tasks: Tasks, ghost keep: set<ActionId>) returns (live: Tasks, dropped: bool)
      requires Marks(tasks, LiveOnly, keep)
      ensures live == Restrict(tasks, keep)
      ensures dropped == (live != tasks)
    {
      hide *;
      live, dropped := tasks, false;
      var keys := Ascending(tasks.Keys);
      SiftStart(tasks, keep, {}, map[]);
      for i := 0 to |keys|
        invariant live == Sifted(tasks, keys[..i], keep)
        invariant dropped <==> live != tasks
      {
        var id := keys[i];
        SiftStep(tasks, i, keep, {}, map[]);
        MarkAt(tasks, LiveOnly, keep, id);
        SelectsIs(live[id].state);
        if live[id].state.IsTerminal() {
          live := live - {id};
          dropped := true;
        }
      }
      assert keys[..|keys|] == keys;
      SiftEnd(tasks, keep, {});
    }

    /** The first loop. */
    method SplitRunning()
      requires Valid()
      modifies `running, `paused, `model
      ensures Valid() && model == RunningSplit(old(model))
    {
      hide *;
      ghost var s := model;
      QueuesAgree();
      TakeApart();
      RunningSplitIs(s, heap, running, paused);
      ghost var u := RunningSplit(s);
      MarkedBy(running, s.running, s.tasks, s.nav, s.out, RunningOnly);
      MarkedBy(running, s.running, s.tasks, s.nav, s.out, PausedOnly);
      MovePaused(Chosen(s.running, s.tasks, RunningOnly), Chosen(s.running, s.tasks, PausedOnly));
      Recouple(u);
    }

    /** The second loop. */
    method SplitPaused()
      requires Valid()
      modifies `running, `paused, `model
      ensures Valid() && model == PausedSplit(old(model))
    {
      hide *;
      ghost var s := model;
      QueuesAgree();
      TakeApart();
      PausedSplitIs(s, heap, running, paused);
      ghost var u := PausedSplit(s);
      MarkedBy(paused, s.paused, s.tasks, s.nav, s.out, RunningOnly);
      MarkedBy(paused, s.paused, s.tasks, s.nav, s.out, PausedOnly);
      MoveRunning(Chosen(s.paused, s.tasks, RunningOnly), Chosen(s.paused, s.tasks, PausedOnly));
      Recouple(u);
    }

    /** The third loop. */
    method DropActive()
      requires Valid()
      modifies `active, `model
      ensures Valid() && model == ActiveDropped(old(model))
    {
      hide *;
      ghost var s := model;
      QueuesAgree();
      TakeApart();
      ActiveDroppedIs(s, heap, active);
      ghost var u := ActiveDropped(s);
      MarkedBy(active, s.active, s.tasks, s.nav, s.out, LiveOnly);
      var dropped;
      active, dropped := DropEnded(active, Chosen(s.active, s.tasks, LiveOnly));
      Recouple(u);
    }

    /** The model takes the value the object has come to. */
    ghost method Recouple(u: Sched)
      requires WellFormed(u) && TasksAre(heap, u.tasks) && DrivingIs(u.nav) && bus.trace == u.out
      requires mode == u.mode && staging == u.staging && blocking == u.blocking && segment == u.segment
      requires Same(heap, active, u.active) && Same(heap, running, u.running)
      requires Same(heap, paused, u.paused) && Same(heap, navInt, u.navInt)
      modifies `model
      ensures Coupled() && model == u
      ensures queue == u.queue && interrupts == u.interrupts ==> Valid()
    {
      hide Same, WellFormed;
      model := u;
    }

    method UpdateTasks()
      requires Valid()
      modifies `running, `paused, `active, `navTask, `queue, `interrupts, `model, bus
      ensures Valid() && model == SchedulerModel.UpdateTasks(old(model))
      ensures navTask == old(navTask) || navTask == null
    {
      ThreeLoops(model);
      hide UpdateMaps, SchedulerModel.ClearQueues, RunningSplit, PausedSplit, ActiveDropped, WellFormed, Valid;
      SplitRunning();
      SplitPaused();
      DropActive();
      DropNavigation();
    }

    /** Drops a navigation task that has ended; after a failure nothing is left in the queues. */
    method DropNavigation()
      requires Valid()
      modifies `navTask, `queue, `interrupts, `model, bus
      ensures Valid()
      ensures var s := old(model);
              model ==
              if s.nav.Some? && s.nav.value.state.IsTerminal()
              then (if s.nav.value.state.NavFailed? then SchedulerModel.ClearQueues(s, false) else s).(nav := None)
              else s
      ensures navTask == old(navTask) || navTask == null
    {
      hide Same, SchedulerModel.ClearQueues, Refers;
      if navTask != null && navTask.state.IsTerminal() {
        if navTask.state.NavFailed? {
          ClearQueues(false);
        }
        navTask := null;
        model := model.(nav := None);
      }
    }

    method UpdateInterruptMap() returns (dropped: bool)
      requires Valid()
      modifies `navInt, `model
      ensures Valid() && model == DropNavInt(old(model)) && dropped == (model.navInt != old(model).navInt)
    {
      hide *;
      ghost var s := model;
      QueuesAgree();
      TakeApart();
      NavIntDroppedIs(s, heap, navInt);
      ghost var u := DropNavInt(s);
      MarkedBy(navInt, s.navInt, s.tasks, s.nav, s.out, LiveOnly);
      navInt, dropped := DropEnded(navInt, Chosen(s.navInt, s.tasks, LiveOnly));
      Recouple(u);
    }

    method UpdateTasksInterruptMapping() returns (ok: bool)
      requires Valid()
      modifies `navInt, `model, navTask, bus
      ensures Valid() && UpdateInterruptMapping(old(model)) == if ok then Ok(model) else Throw(model)
    {
      var dropped := UpdateInterruptMap();
      EmptySame(heap, navInt, model.navInt);
      NavSame();
      hide Same, DropNavInt, NavTransition, Objects, WellFormed;
      ok := true;
      if dropped && navInt == map[] && navTask != null {
        ok := TransitionNavigation(N.DoResume);
      }
    }

    lemma NavSame()
      requires Objects(model.tasks, model.nav, model.out)
      ensures navTask == null <==> model.nav == None
    {
    }

    // Starting tasks ////////////////////////////////////////////////////////////////////////////

    lemma TakeApart()
      requires Coupled()
      ensures WellFormed(model) && |heap| == |model.tasks|
      ensures TasksAre(heap, model.tasks) && DrivingIs(model.nav) && bus.trace == model.out
      ensures Objects(model.tasks, model.nav, model.out)
      ensures mode == model.mode && staging == model.staging && blocking == model.blocking && segment == model.segment
      ensures Same(heap, active, model.active) && Same(heap, running, model.running)
      ensures Same(heap, paused, model.paused) && Same(heap, navInt, model.navInt)
    {
      hide Same, WellFormed;
    }

    lemma OneTaskMore(objects: seq<A.ActionTask>, tasks: seq<Task>, added: A.ActionTask, task: Task)
      requires TasksAre(objects, tasks) && added !in objects
      requires added.bus == bus && added.action == task.action && added.state == task.state
      ensures TasksAre(objects + [added], tasks + [task])
    {
    }

    lemma NowDriving(nav: Option<N.Nav>)
      requires navTask != null && navTask.bus == bus && nav == Some(navTask.Value())
      ensures DrivingIs(nav)
    {
    }

    /** Creates a task, enters it into the maps and starts it. */
    method StartTask(a: Action, ghost batch: nat, instant: bool)
      requires Coupled()
      modifies `active, `running, `navInt, `heap, `model, bus
      ensures Coupled() && model == StartAction(old(model), a, batch, instant)
      ensures old(heap) <= heap && forall i | |old(heap)| <= i < |heap| :: fresh(heap[i])
      ensures navTask == null || navTask == old(navTask) || fresh(navTask)
    {
      hide *;
      ghost var s := model;
      ghost var u := StartAction(s, a, batch, instant);
      TakeApart();
      var task := new A.ActionTask(a, bus);
      StartedMaps(s, heap, task, active, running, paused, navInt, a, batch, instant);
      StartedTask(s, a, batch, instant);
      StartIsNext();
      active := active[a.id := task];
      running := running[a.id := task];
      if instant && a.blocking != NONE {
        navInt := navInt[a.id := task];
      }
      var ok := task.Transition(A.DoStart);
      OneTaskMore(heap, s.tasks, task, Task(a, A.ActionInitializing, batch, instant));
      heap := heap + [task];
      Recouple(u);
    }

    method StartTasks(actions: seq<Action>, ghost batch: nat, instant: bool)
      requires Coupled()
      modifies `active, `running, `navInt, `heap, `model, bus
      ensures Coupled() && model == StartAll(old(model), actions, batch, instant)
      ensures old(heap) <= heap && forall i | |old(heap)| <= i < |heap| :: fresh(heap[i])
      ensures navTask == null || navTask == old(navTask) || fresh(navTask)
    {
      hide Coupled, StartAll, StartAction;
      assert actions[0..] == actions;
      for i := 0 to |actions|
        invariant Coupled()
        invariant old(heap) <= heap && forall k | |old(heap)| <= k < |heap| :: fresh(heap[k])
        invariant StartAll(model, actions[i..], batch, instant) == StartAll(old(model), actions, batch, instant)
      {
        StartNext(model, actions[i..], batch, instant);
        assert actions[i..][0] == actions[i] && actions[i..][1..] == actions[i + 1..];
        StartTask(actions[i], batch, instant);
      }
      StartNone(model, batch, instant);
      assert actions[|actions|..] == [];
    }

    // Fetching //////////////////////////////////////////////////////////////////////////////////

    /** How far a segment may reach: to the first queued step with a stop hint, or to the last step. */
    method PrefetchEnd(default: SeqId) returns (last: SeqId)
      ensures last == SegmentEnd(queue, default)
    {
      hide *;
      last := default;
      assert queue[0..] == queue;
      for i := 0 to |queue|
        invariant SegmentEnd(queue[i..], last) == SegmentEnd(queue, default)
      {
        SegmentEndNext(queue[i..], last);
        assert queue[i..][0] == queue[i] && queue[i..][1..] == queue[i + 1..];
        if queue[i].Step? {
          last := queue[i].goal.seqId;
          if queue[i].stopHint {
            return;
          }
        }
      }
      SegmentEndNone(last);
      assert queue[|queue|..] == [];
    }

    /** Announces how much further the current segment reaches. */
    method DoPatchSegment()
      requires Valid()
      modifies `segment, `model, bus
      ensures Valid() && model == PatchSegment(old(model))
    {
      hide *;
      PartsOf();
      TakeApart();
      ghost var u := PatchSegment(model);
      PatchIs(model);
      if navTask == null || segment.None? {
        return;
      }
      var oldLast := segment.value.last;
      var last := PrefetchEnd(oldLast);
      segment := Some(segment.value.(last := last));
      if last == oldLast {
        return;
      }
      var begin := Add32(oldLast, 1);
      bus.Publish(NavigationUpcomingSegment(begin, last));
      Recouple(u);
    }

    method UpdateFetchNext()
      requires Valid()
      modifies `queue, `segment, `blocking, `active, `running, `navInt, `navTask, `heap, `model, bus
      ensures Valid() && model == Fetch(old(model))
      ensures old(heap) <= heap && forall i | |old(heap)| <= i < |heap| :: fresh(heap[i])
      ensures navTask == null || navTask == old(navTask) || fresh(navTask)
      decreases |queue|, 1
    {
      hide *;
      QueuesAgree();
      if queue == [] {
        FetchNothing(model);
        return;
      }
      if queue[0].Actions? {
        FetchGroup(queue[0].group);
      } else {
        FetchStep(queue[0].goal, queue[0].via);
      }
    }

    /** Starts a group when no action is active and nothing drives that it must not run beside. */
    method FetchGroup(g: Group)
      requires Valid() && queue != [] && queue[0] == Actions(g)
      modifies `queue, `segment, `blocking, `active, `running, `navInt, `navTask, `heap, `model, bus
      ensures Valid() && model == Fetch(old(model))
      ensures old(heap) <= heap && forall i | |old(heap)| <= i < |heap| :: fresh(heap[i])
      ensures navTask == null || navTask == old(navTask) || fresh(navTask)
      decreases |queue|, 0
    {
      hide *;
      PartsOf();
      FetchGroupIs(model);
      if active != map[] {
        return;
      }
      if navTask != null && g.ceiling != NONE {
        return;
      }
      StartFront(g);
      UpdateFetchNext();
    }

    /** Starts all actions of the first queued group. */
    method StartFront(g: Group)
      requires Valid() && queue != [] && queue[0] == Actions(g)
      modifies `queue, `segment, `blocking, `active, `running, `navInt, `heap, `model, bus
      ensures Valid() && model == StartGroup(old(model)) && queue == old(queue)[1..]
      ensures old(heap) <= heap && forall i | |old(heap)| <= i < |heap| :: fresh(heap[i])
      ensures navTask == null || navTask == old(navTask) || fresh(navTask)
    {
      hide *;
      ghost var s := model;
      QueuesAgree();
      TakeApart();
      ghost var u := s.(segment := None, blocking := g.ceiling, queue := s.queue[1..],
                        hist := s.hist + [GroupStarted(g, false, s.tasks, s.nav)]);
      StillFormed(s, u);
      GroupIs(s);
      segment := None;
      blocking := g.ceiling;
      Recouple(u);
      StartTasks(g.actions, |s.hist|, false);
      queue := queue[1..];
      IsValid();
    }

    lemma QueuesAgree()
      requires Valid()
      ensures Coupled() && queue == model.queue && interrupts == model.interrupts
    {
    }

    lemma IsValid()
      requires Coupled() && queue == model.queue && interrupts == model.interrupts
      ensures Valid()
    {
    }

    /** Starts a navigation step when none is there and no action forbids it. */
    method FetchStep(goal: Node, via: Edge)
      requires Valid() && queue != [] && queue[0].Step? && queue[0].goal == goal && queue[0].via == via
      modifies `queue, `segment, `blocking, `active, `running, `navInt, `navTask, `heap, `model, bus
      ensures Valid() && model == Fetch(old(model))
      ensures old(heap) <= heap && forall i | |old(heap)| <= i < |heap| :: fresh(heap[i])
      ensures navTask == null || navTask == old(navTask) || fresh(navTask)
      decreases |queue|, 0
    {
      hide *;
      PartsOf();
      FetchStepIs(model);
      if navTask != null {
        DoPatchSegment();
        return;
      }
      if navInt != map[] {
        return;
      }
      if active != map[] && blocking != NONE {
        return;
      }
      Drive(goal, via);
      UpdateFetchNext();
    }

    lemma FieldsOf(task: N.NavigationTask)
      ensures task.Value() == N.Nav(task.state, task.goal, task.via, task.segment)
    {
    }

    /** Gives the task a new segment unless the current one covers its goal. */
    method ReachFor(task: N.NavigationTask)
      modifies `segment, task
      ensures var covered := old(segment).Some? && old(segment).value.last >= task.goal.seqId;
              var next := Some(N.Segment(task.goal.seqId, SegmentEnd(queue, task.goal.seqId)));
              && segment == (if covered then old(segment) else next)
              && task.Value() == if covered then old(task.Value()) else old(task.Value()).(segment := next)
    {
      hide *;
      if !(segment.Some? && segment.value.last >= task.goal.seqId) {
        segment := Some(N.Segment(task.goal.seqId, task.goal.seqId));
        var last := PrefetchEnd(task.goal.seqId);
        segment := Some(N.Segment(task.goal.seqId, last));
        task.SetSegment(segment.value);
      }
    }

    /** Creates the navigation task of the next step, with a new segment unless the current one covers it. */
    method Drive(goal: Node, via: Edge)
      requires Valid() && queue != [] && queue[0].Step? && queue[0].goal == goal && queue[0].via == via
      requires navTask == null
      modifies `queue, `segment, `navTask, `model, bus
      ensures Valid() && model == StartStep(old(model)) && queue == old(queue)[1..]
      ensures old(heap) <= heap && forall i | |old(heap)| <= i < |heap| :: fresh(heap[i])
      ensures navTask == null || navTask == old(navTask) || fresh(navTask)
    {
      hide *;
      ghost var s := model;
      QueuesAgree();
      ghost var u := StartStep(s);
      TakeApart();
      DriveIs(s);
      StartIsDriving(goal.seqId);
      var task := new N.NavigationTask(goal, via, bus);
      ReachFor(task);
      FieldsOf(task);
      var ok := task.Transition(N.DoStart);
      navTask := task;
      queue := queue[1..];
      NowDriving(u.nav);
      Recouple(u);
    }

    // Interrupts ////////////////////////////////////////////////////////////////////////////////

    /** Cancels a task that cannot run beside a group with this ceiling. */
    method CancelConflict(task: A.ActionTask, ghost r: nat, ceiling: BlockingType) returns (ok: bool)
      requires Coupled() && r < |heap| && heap[r] == task && r < |model.tasks|
      modifies `model, task, bus
      ensures Coupled() && (old(Valid()) ==> Valid())
      ensures (if Conflicts(old(model).tasks[r], ceiling) then TaskTransition(old(model), r, A.DoCancel)
               else Ok(old(model)))
              == if ok then Ok(model) else Throw(model)
    {
      hide *;
      ActionAt(r);
      ConflictIs(model.tasks[r], ceiling);
      ok := true;
      if ceiling == HARD || task.action.blocking == HARD {
        ok := TransitionTask(task, r, A.DoCancel);
      }
    }

    /** Cancels the active tasks that cannot run beside a group with this ceiling; the first throw ends it. */
    method CancelConflicts(ceiling: BlockingType) returns (ok: bool)
      requires Coupled() && InRange(RefsOf(model.active), |model.tasks|)
      modifies `model, heap, bus
      ensures Coupled() && (old(Valid()) ==> Valid())
      ensures TransitionAll(old(model), ConflictingRefs(RefsOf(old(model).active), old(model).tasks, ceiling),
                            A.DoCancel)
              == if ok then Ok(model) else Throw(model)
    {
      ghost var s := model;
      hide *;
      CoupledActive();
      var keys := Ascending(active.Keys);
      ghost var rest := RefsOf(s.active);
      KeyCount(active, s.active);
      SameActionsStart(s.tasks);
      ConflictsInRange(rest, s.tasks, ceiling);
      for i := 0 to |keys|
        invariant Coupled() && (old(Valid()) ==> Valid())
        invariant InRange(rest, |s.tasks|) && rest == RefsOf(s.active)[i..] && SameActions(s.tasks, model.tasks)
        invariant InRange(ConflictingRefs(rest, s.tasks, ceiling), |model.tasks|)
        invariant TransitionAll(model, ConflictingRefs(rest, s.tasks, ceiling), A.DoCancel) ==
                  TransitionAll(s, ConflictingRefs(RefsOf(s.active), s.tasks, ceiling), A.DoCancel)
      {
        KeyAt(active, s.active, i);
        CancelNext(model, rest, s.tasks, ceiling);
        ok := CancelConflict(active[keys[i]], rest[0], ceiling);
        if !ok {
          return false;
        }
        rest := rest[1..];
      }
      ConflictNone(s.tasks, ceiling);
      TransitionNone(model, A.DoCancel);
      return true;
    }

    lemma CoupledActive()
      requires Coupled()
      ensures WellFormed(model) && Same(heap, active, model.active)
    {
    }

    lemma ActionAt(r: nat)
      requires Coupled() && r < |heap|
      ensures r < |model.tasks| && heap[r].action == model.tasks[r].action
    {
    }

    method DoInterrupt() returns (ok: bool)
      requires Valid()
      modifies `model, navTask, heap, bus
      ensures Valid() && SchedulerModel.DoInterrupt(old(model)) == if ok then Ok(model) else Throw(model)
    {
      NavSame();
      hide Same, NavTransition, TransitionAll, ConflictingRefs, Objects, Refers;
      if interrupts == [] {
        return true;
      }
      var ceiling := interrupts[0].ceiling;
      RefsInRange(model.active, model.tasks);
      if ceiling != NONE && navTask != null {
        NavKeepsTasks(model, N.DoPause);
        ok := TransitionNavigation(N.DoPause);
        if !ok {
          return false;
        }
      }
      ok := CancelConflicts(ceiling);
    }

    /** Whether an active task cannot run beside a group with this ceiling. */
    method HasConflict(ceiling: BlockingType) returns (found: bool)
      requires Coupled()
      ensures WellFormed(model) && (found <==> !NoConflict(model, ceiling))
    {
      hide *;
      CoupledActive();
      ghost var s := model;
      ghost var rest := RefsOf(s.active);
      AllKeys(s, ceiling);
      var keys := Ascending(active.Keys);
      KeyCount(active, s.active);
      for i := 0 to |keys|
        invariant Coupled() && model == s && rest == RefsOf(s.active)[i..]
        invariant NoConflict(s, ceiling) <==> ConflictFree(rest, s.tasks, ceiling)
      {
        KeyAt(active, s.active, i);
        RefAt(i);
        ConflictFreeNext(rest, s.tasks, ceiling);
        var task := active[keys[i]];
        if ceiling == HARD || task.action.blocking == HARD {
          return true;
        }
        rest := rest[1..];
      }
      ConflictFreeNone(s.tasks, ceiling);
      return false;
    }

    lemma RefAt(i: nat)
      requires Coupled() && i < |RefsOf(model.active)|
      ensures RefsOf(model.active)[i] < |model.tasks| && RefsOf(model.active)[i] < |heap|
      ensures heap[RefsOf(model.active)[i]].action == model.tasks[RefsOf(model.active)[i]].action
      ensures forall ceiling :: Conflicts(model.tasks[RefsOf(model.active)[i]], ceiling) <==>
                ceiling == HARD || model.tasks[RefsOf(model.active)[i]].action.blocking == HARD
    {
      RefsInRange(model.active, model.tasks);
      hide RefsOf;
    }

    /** Starts the first instant group when nothing drives or runs that it cannot run beside. */
    method UpdateFetchNextInterrupt()
      requires Valid()
      modifies `interrupts, `blocking, `active, `running, `navInt, `heap, `model, bus
      ensures Valid() && model == FetchInterrupt(old(model))
      ensures old(heap) <= heap && forall i | |old(heap)| <= i < |heap| :: fresh(heap[i])
      ensures navTask == null || navTask == old(navTask) || fresh(navTask)
    {
      ghost var s := model;
      NavSame();
      hide Same, Objects, StartInstant, Refers;
      if interrupts == [] {
        return;
      }
      var g := interrupts[0];
      ReadyIs(s);
      hide InstantReady, WellFormed;
      if g.ceiling != NONE && navTask != null && !navTask.state.IsPaused() {
        PausedIs();
        return;
      }
      PausedIs();
      var found := HasConflict(g.ceiling);
      if found {
        return;
      }
      StartInstants(g);
    }

    lemma PausedIs()
      requires Coupled() && navTask != null ==> Objects(model.tasks, model.nav, model.out)
      requires Coupled()
      ensures navTask != null ==> model.nav.Some? && model.nav.value.state == navTask.state
      ensures navTask == null ==> model.nav.None?
    {
    }

    method StartInstants(g: Group)
      requires Valid() && interrupts != [] && interrupts[0] == g
      modifies `interrupts, `blocking, `active, `running, `navInt, `heap, `model, bus
      ensures Valid() && model == StartInstant(old(model))
      ensures old(heap) <= heap && forall i | |old(heap)| <= i < |heap| :: fresh(heap[i])
      ensures navTask == null || navTask == old(navTask) || fresh(navTask)
    {
      hide *;
      ghost var s := model;
      QueuesAgree();
      TakeApart();
      ghost var u := s.(blocking := g.ceiling, interrupts := s.interrupts[1..],
                        hist := s.hist + [GroupStarted(g, true, s.tasks, s.nav)]);
      StillFormed(s, u);
      InstantIs(s);
      blocking := g.ceiling;
      Recouple(u);
      StartTasks(g.actions, |s.hist|, true);
      interrupts := interrupts[1..];
      IsValid();
    }

    // The scheduler states //////////////////////////////////////////////////////////////////////

    /** Enters a scheduler state and announces it where it is to be notified. */
    method EnterState(next: Mode, notify: bool)
      requires Valid()
      modifies `mode, `segment, `model, bus
      ensures Valid() && model == Enter(old(model), next, notify)
    {
      hide *;
      QueuesAgree();
      TakeApart();
      ghost var u := Enter(model, next, notify);
      EnterIs(model, next, notify);
      if notify {
        bus.Publish(OrderStatus(next));
      }
      if next == Idle {
        segment := None;
      }
      mode := next;
      Recouple(u);
    }

    method CancelActiveTasks() returns (ok: bool, update: bool)
      requires Valid()
      modifies `mode, `segment, `queue, `interrupts, `model, navTask, heap, bus
      ensures Valid() && CancelActive(old(model)) == (if ok then Ok(model) else Throw(model), update)
    {
      hide *;
      PartsOf();
      CancelActiveIs(model);
      ok := TransitionTasks(active, model.active, A.DoCancel);
      if !ok {
        return false, false;
      }
      PartsOf();
      if navTask != null && !navTask.state.IsPaused() && !navTask.state.IsTerminal() {
        ok := TransitionNavigation(N.DoCancel);
        if !ok {
          return false, false;
        }
      }
      ClearQueues(true);
      EnterState(Canceling, true);
      return true, false;
    }

    lemma PartsOf()
      requires Valid()
      ensures Coupled() && WellFormed(model) && Objects(model.tasks, model.nav, model.out)
      ensures Same(heap, active, model.active) && Same(heap, running, model.running)
      ensures Same(heap, paused, model.paused) && Same(heap, navInt, model.navInt)
      ensures mode == model.mode && queue == model.queue && interrupts == model.interrupts
      ensures blocking == model.blocking && segment == model.segment
      ensures Refers(model.active, model.tasks) && Refers(model.running, model.tasks)
      ensures Refers(model.paused, model.tasks) && Refers(model.navInt, model.tasks)
      ensures active == map[] <==> model.active == map[]
      ensures running == map[] <==> model.running == map[]
      ensures paused == map[] <==> model.paused == map[]
      ensures navInt == map[] <==> model.navInt == map[]
      ensures navTask != null ==> model.nav.Some? && model.nav.value.state == navTask.state
      ensures navTask == null ==> model.nav.None?
    {
      EmptySame(heap, active, model.active);
      EmptySame(heap, running, model.running);
      EmptySame(heap, paused, model.paused);
      EmptySame(heap, navInt, model.navInt);
      hide Same, Refers;
    }

    method PauseActiveTasks() returns (ok: bool, update: bool)
      requires Valid()
      modifies `mode, `segment, `model, navTask, heap, bus
      ensures Valid() && PauseActive(old(model)) == (if ok then Ok(model) else Throw(model), update)
    {
      hide *;
      PartsOf();
      PauseActiveIs(model);
      ok := TransitionTasks(running, model.running, A.DoPause);
      if !ok {
        return false, false;
      }
      PartsOf();
      if navTask != null {
        ok := TransitionNavigation(N.DoPause);
        if !ok {
          return false, false;
        }
      }
      EnterState(Pausing, true);
      return true, false;
    }

    method ResumePausedTasks() returns (ok: bool, update: bool)
      requires Valid()
      modifies `mode, `segment, `model, navTask, heap, bus
      ensures Valid() && ResumePaused(old(model)) == (if ok then Ok(model) else Throw(model), update)
    {
      hide *;
      PartsOf();
      ResumePausedIs(model);
      ok := TransitionTasks(paused, model.paused, A.DoResume);
      if !ok {
        return false, false;
      }
      PartsOf();
      if navTask != null {
        ok := TransitionNavigation(N.DoResume);
        if !ok {
          return false, false;
        }
      }
      EnterState(Resuming, true);
      return true, true;
    }

    // Updates of the states /////////////////////////////////////////////////////////////////////

    method RefreshTasks() returns (ok: bool)
      requires Valid()
      modifies `running, `paused, `active, `navInt, `navTask, `queue, `interrupts, `model, navTask, bus
      ensures Valid() && Refresh(old(model)) == if ok then Ok(model) else Throw(model)
      ensures navTask == old(navTask) || navTask == null
    {
      hide *;
      PartsOf();
      RefreshIs(model);
      UpdateTasks();
      ok := UpdateTasksInterruptMapping();
    }

    method IdleUpdate() returns (ok: bool, update: bool)
      requires Valid() && mode == Idle
      modifies this, bus, heap, navTask
      ensures Valid()
      ensures old(heap) <= heap && forall i | |old(heap)| <= i < |heap| :: fresh(heap[i])
      ensures navTask == null || navTask == old(navTask) || fresh(navTask)
      ensures UpdateIdle(old(model)) == (if ok then Ok(model) else Throw(model), update)
    {
      hide *;
      PartsOf();
      UpdateIdleIs(model);
      UpdateFetchNext();
      PartsOf();
      if navTask != null || active != map[] {
        EnterState(Active, true);
      } else {
        EnterState(Idle, false);
      }
      return true, false;
    }

    method ActiveUpdate() returns (ok: bool, update: bool)
      requires Valid() && mode == Active
      modifies this, bus, heap, navTask
      ensures Valid()
      ensures old(heap) <= heap && forall i | |old(heap)| <= i < |heap| :: fresh(heap[i])
      ensures navTask == null || navTask == old(navTask) || fresh(navTask)
      ensures UpdateActive(old(model)) == (if ok then Ok(model) else Throw(model), update)
    {
      hide *;
      PartsOf();
      UpdateActiveIs(model);
      ok := RefreshTasks();
      if !ok {
        return false, false;
      }
      UpdateFetchNext();
      PartsOf();
      if active == map[] && (navTask == null || navTask.state.IsTerminal()) {
        EnterState(Idle, true);
      } else {
        EnterState(Active, false);
      }
      return true, false;
    }

    method CancelingUpdate() returns (ok: bool, update: bool)
      requires Valid() && mode == Canceling
      modifies this, bus, heap, navTask
      ensures Valid()
      ensures old(heap) <= heap && forall i | |old(heap)| <= i < |heap| :: fresh(heap[i])
      ensures navTask == null || navTask == old(navTask) || fresh(navTask)
      ensures UpdateCanceling(old(model)) == (if ok then Ok(model) else Throw(model), update)
    {
      hide *;
      PartsOf();
      UpdateCancelingIs(model);
      ok := RefreshTasks();
      if !ok {
        return false, false;
      }
      UpdateFetchNext();
      PartsOf();
      if active == map[] && navTask == null {
        EnterState(Idle, true);
      } else {
        EnterState(Canceling, false);
      }
      return true, false;
    }

    method ResumingUpdate() returns (ok: bool, update: bool)
      requires Valid() && mode == Resuming
      modifies this, bus, heap, navTask
      ensures Valid()
      ensures old(heap) <= heap && forall i | |old(heap)| <= i < |heap| :: fresh(heap[i])
      ensures navTask == null || navTask == old(navTask) || fresh(navTask)
      ensures UpdateResuming(old(model)) == (if ok then Ok(model) else Throw(model), update)
    {
      hide *;
      PartsOf();
      UpdateResumingIs(model);
      ok := RefreshTasks();
      if !ok {
        return false, false;
      }
      PartsOf();
      if paused != map[] || (navTask != null && navTask.state.IsPaused()) {
        EnterState(Resuming, false);
        return true, false;
      }
      EnterState(Active, true);
      return true, true;
    }

    method PausingUpdate() returns (ok: bool, update: bool)
      requires Valid() && mode == Pausing
      modifies this, bus, heap, navTask
      ensures Valid()
      ensures old(heap) <= heap && forall i | |old(heap)| <= i < |heap| :: fresh(heap[i])
      ensures navTask == null || navTask == old(navTask) || fresh(navTask)
      ensures UpdatePausing(old(model)) == (if ok then Ok(model) else Throw(model), update)
    {
      hide *;
      PartsOf();
      UpdatePausingIs(model);
      ok := RefreshTasks();
      if !ok {
        return false, false;
      }
      PartsOf();
      if running != map[] || (navTask != null && !navTask.state.IsPaused()) {
        EnterState(Pausing, false);
        return true, false;
      }
      EnterState(Paused, true);
      return true, false;
    }

    method PausedUpdate() returns (ok: bool, update: bool)
      requires Valid() && mode == Paused
      modifies this, bus, heap, navTask
      ensures Valid()
      ensures old(heap) <= heap && forall i | |old(heap)| <= i < |heap| :: fresh(heap[i])
      ensures navTask == null || navTask == old(navTask) || fresh(navTask)
      ensures UpdatePaused(old(model)) == (if ok then Ok(model) else Throw(model), update)
    {
      hide *;
      PartsOf();
      UpdatePausedIs(model);
      ok := RefreshTasks();
      if !ok {
        return false, false;
      }
      EnterState(Paused, false);
      return true, false;
    }

    method InterruptingUpdate() returns (ok: bool, update: bool)
      requires Valid() && mode == Interrupting
      modifies this, bus, heap, navTask
      ensures Valid()
      ensures old(heap) <= heap && forall i | |old(heap)| <= i < |heap| :: fresh(heap[i])
      ensures navTask == null || navTask == old(navTask) || fresh(navTask)
      ensures UpdateInterrupting(old(model)) == (if ok then Ok(model) else Throw(model), update)
    {
      hide *;
      PartsOf();
      UpdateInterruptingIs(model);
      UpdateTasks();
      UpdateFetchNextInterrupt();
      PartsOf();
      if interrupts == [] {
        EnterState(Active, true);
      } else {
        EnterState(Interrupting, false);
      }
      ok, update := true, false;
    }

    method UpdateState() returns (ok: bool, update: bool)
      requires Valid()
      modifies this, bus, heap, navTask
      ensures Valid()
      ensures old(heap) <= heap && forall i | |old(heap)| <= i < |heap| :: fresh(heap[i])
      ensures navTask == null || navTask == old(navTask) || fresh(navTask)
      ensures StateUpdate(old(model)) == (if ok then Ok(model) else Throw(model), update)
    {
      hide *;
      PartsOf();
      StateUpdateIs(model);
      match mode {
        case Idle => ok, update := IdleUpdate();
        case Active => ok, update := ActiveUpdate();
        case Canceling => ok, update := CancelingUpdate();
        case Resuming => ok, update := ResumingUpdate();
        case Pausing => ok, update := PausingUpdate();
        case Paused => ok, update := PausedUpdate();
        case Interrupting => ok, update := InterruptingUpdate();
        case IdlePaused =>
          EnterState(IdlePaused, false);
          ok, update := true, false;
        case Failed =>
          EnterState(Failed, false);
          ok, update := true, false;
      }
    }

    // Public operations /////////////////////////////////////////////////////////////////////////

    method Update() returns (ok: bool)
      requires Valid()
      modifies this, bus, heap, navTask
      ensures Valid()
      ensures old(heap) <= heap && forall i | |old(heap)| <= i < |heap| :: fresh(heap[i])
      ensures navTask == null || navTask == old(navTask) || fresh(navTask)
      ensures SchedulerModel.Update(old(model)) == if ok then Ok(model) else Throw(model)
      decreases if mode == Resuming then 1 else 0
    {
      hide *;
      PartsOf();
      UpdateIs(model);
      var update;
      ok, update := UpdateState();
      if ok && update {
        PartsOf();
        ok := Update();
      }
    }

    /** What every operation does after the operation of its state. */
    method FinishWith(done: bool, update: bool, ghost r: StateResult) returns (ok: bool)
      requires Valid() && r == (if done then Ok(model) else Throw(model), update)
      modifies this, bus, heap, navTask
      ensures Valid()
      ensures old(heap) <= heap && forall i | |old(heap)| <= i < |heap| :: fresh(heap[i])
      ensures navTask == null || navTask == old(navTask) || fresh(navTask)
      ensures WellFormed(r.0.s) && Finish(r) == if ok then Ok(model) else Throw(model)
    {
      hide *;
      PartsOf();
      FinishIs(r);
      ok := done;
      if ok && update {
        ok := Update();
      }
    }

    method Cancel() returns (ok: bool)
      requires Valid()
      modifies this, bus, heap, navTask
      ensures Valid()
      ensures old(heap) <= heap && forall i | |old(heap)| <= i < |heap| :: fresh(heap[i])
      ensures navTask == null || navTask == old(navTask) || fresh(navTask)
      ensures Apply(old(model), OpCancel) == if ok then Ok(model) else Throw(model)
    {
      hide *;
      PartsOf();
      CancelIs(model);
      ghost var r := StateCancel(model);
      var done, update := false, false;
      match mode {
        case Idle =>
          EnterState(Canceling, false);
          done, update := true, true;
        case IdlePaused =>
          ClearQueues(false);
          done := true;
        case Active => done, update := CancelActiveTasks();
        case Paused => done, update := CancelActiveTasks();
        case _ =>
      }
      ok := FinishWith(done, update, r);
    }

    method Pause() returns (ok: bool)
      requires Valid()
      modifies this, bus, heap, navTask
      ensures Valid()
      ensures old(heap) <= heap && forall i | |old(heap)| <= i < |heap| :: fresh(heap[i])
      ensures navTask == null || navTask == old(navTask) || fresh(navTask)
      ensures Apply(old(model), OpPause) == if ok then Ok(model) else Throw(model)
    {
      hide *;
      PartsOf();
      PauseIs(model);
      ghost var r := StatePause(model);
      var done, update := false, false;
      match mode {
        case Idle =>
          EnterState(IdlePaused, true);
          done := true;
        case Active => done, update := PauseActiveTasks();
        case _ =>
      }
      ok := FinishWith(done, update, r);
    }

    method Resume() returns (ok: bool)
      requires Valid()
      modifies this, bus, heap, navTask
      ensures Valid()
      ensures old(heap) <= heap && forall i | |old(heap)| <= i < |heap| :: fresh(heap[i])
      ensures navTask == null || navTask == old(navTask) || fresh(navTask)
      ensures Apply(old(model), OpResume) == if ok then Ok(model) else Throw(model)
    {
      hide *;
      PartsOf();
      ResumeIs(model);
      ghost var r := StateResume(model);
      var done, update := false, false;
      match mode {
        case IdlePaused =>
          EnterState(Idle, true);
          done, update := true, true;
        case Paused => done, update := ResumePausedTasks();
        case _ =>
      }
      ok := FinishWith(done, update, r);
    }

    method ActionTransition(id: ActionId, tr: A.ActionTransition) returns (ok: bool)
      requires Valid()
      modifies this, bus, heap, navTask
      ensures Valid()
      ensures old(heap) <= heap && forall i | |old(heap)| <= i < |heap| :: fresh(heap[i])
      ensures navTask == null || navTask == old(navTask) || fresh(navTask)
      ensures Apply(old(model), OpAction(id, tr)) == if ok then Ok(model) else Throw(model)
    {
      hide *;
      PartsOf();
      ActiveAt(id);
      ActionIs(model, id, tr);
      if id !in active {
        return false;
      }
      ok := TransitionTask(active[id], model.active[id], tr);
      if ok {
        ok := Update();
      }
    }

    lemma ActiveAt(id: ActionId)
      requires Same(heap, active, model.active)
      ensures id in active <==> id in model.active
      ensures id in active ==> model.active[id] < |heap| && active[id] == heap[model.active[id]]
    {
    }

    method NavigationTransition(tr: N.NavTransition) returns (ok: bool)
      requires Valid()
      modifies this, bus, heap, navTask
      ensures Valid()
      ensures old(heap) <= heap && forall i | |old(heap)| <= i < |heap| :: fresh(heap[i])
      ensures navTask == null || navTask == old(navTask) || fresh(navTask)
      ensures Apply(old(model), OpNavigation(tr)) == if ok then Ok(model) else Throw(model)
    {
      hide *;
      PartsOf();
      NavigationIs(model, tr);
      if navTask == null {
        return false;
      }
      ok := TransitionNavigation(tr);
      if ok {
        ok := Update();
      }
    }

    /** The group is queued before the state can refuse it. */
    method EnqueueInterruptActions(g: Group) returns (ok: bool)
      requires Valid()
      modifies this, bus, heap, navTask
      ensures Valid()
      ensures old(heap) <= heap && forall i | |old(heap)| <= i < |heap| :: fresh(heap[i])
      ensures navTask == null || navTask == old(navTask) || fresh(navTask)
      ensures Apply(old(model), OpInterrupt(g)) == if ok then Ok(model) else Throw(model)
    {
      hide *;
      PartsOf();
      InterruptIs(model, g);
      PushInterrupt(g);
      PartsOf();
      ghost var r := StateInterrupt(model);
      var done, update := false, false;
      if mode == Idle || mode == Active {
        done := DoInterrupt();
        if done {
          EnterState(Interrupting, true);
          update := true;
        }
      }
      ok := FinishWith(done, update, r);
    }

    method PushInterrupt(g: Group)
      requires Valid()
      modifies `interrupts, `model
      ensures Valid() && model == old(model).(interrupts := old(model).interrupts + [g])
    {
      hide Same, Objects, Refers;
      interrupts := interrupts + [g];
      model := model.(interrupts := model.interrupts + [g]);
    }

    method Enqueue(item: Item) returns (ok: bool)
      requires Valid()
      modifies `staging, `model
      ensures Valid() && Apply(old(model), OpEnqueue(item)) == Ok(model) && ok
    {
      hide Same, Objects, Refers;
      staging := staging + [item];
      model := model.(staging := model.staging + [item]);
      return true;
    }

    /** Moves the staged items to the receive queue, one by one. */
    method MoveStaged()
      requires Valid()
      modifies `queue, `staging, `model
      ensures Valid() && model == old(model).(queue := old(model).queue + old(model).staging, staging := [])
    {
      ghost var s := model;
      hide Same, Objects, Refers;
      while staging != []
        invariant queue + staging == s.queue + s.staging
        decreases |staging|
      {
        queue := queue + [staging[0]];
        staging := staging[1..];
      }
      assert queue + [] == queue;
      model := s.(queue := s.queue + s.staging, staging := []);
    }

    method CommitQueue() returns (ok: bool)
      requires Valid()
      modifies this, bus, heap, navTask
      ensures Valid()
      ensures old(heap) <= heap && forall i | |old(heap)| <= i < |heap| :: fresh(heap[i])
      ensures navTask == null || navTask == old(navTask) || fresh(navTask)
      ensures Apply(old(model), OpCommit) == if ok then Ok(model) else Throw(model)
    {
      hide *;
      PartsOf();
      CommitIs(model);
      MoveStaged();
      ok := Update();
    }
  }
}
