/** Runs in which a refused call has already told some of the tasks what to do. */
module SchedulerRefusals {
  import opened Vda
  import opened Events
  import opened KeyOrder
  import A = ActionTasks
  import N = NavigationTasks
  import opened SchedulerModel
  import O = SchedulerOperations
  import opened SchedulerExamples
  import opened SchedulerThrows
  import opened SchedulerTidy

  const SOFT_GROUP := Group([SOFT_ACTION], SOFT)

  // A navigation that is paused already /////////////////////////////////////////////////////////

  ghost predicate Empty(s: Sched)
  {
    && s.queue == [] && s.staging == []
    && s.tasks == [] && s.active == map[] && s.running == map[] && s.paused == map[] && s.navInt == map[]
  }

  ghost predicate Drives(s: Sched)
  {
    s.mode == Active && Empty(s) && s.interrupts == [] && s.nav.Some? && s.nav.value.state.NavFirstInProgress?
  }

  ghost predicate SoftWaits(s: Sched)
  {
    s.mode == Interrupting && Empty(s) && s.interrupts == [SOFT_GROUP] && s.nav.Some? && s.nav.value.state.NavPausing?
  }

  /** A blocking instant action runs beside the navigation it had paused. */
  ghost predicate SoftRunsPaused(s: Sched)
  {
    && s.mode == Active && s.queue == [] && s.interrupts == [] && s.nav.Some? && s.nav.value.state.NavPaused?
    && |s.tasks| == 1 && s.tasks[0].action == SOFT_ACTION && s.tasks[0].state == A.ActionInitializing
    && s.active == map[1 := 0] && s.running == map[1 := 0] && s.navInt == map[1 := 0] && s.paused == map[]
  }

  lemma StepCommitted()
    ensures Drives(Apply(INITIAL.(staging := [SomeStep(2)]), OpCommit).s)
  {
    var t := INITIAL.(queue := [] + [SomeStep(2)]);
    assert Apply(INITIAL.(staging := [SomeStep(2)]), OpCommit) == Update(t);
    var u := StartStep(t);
    assert u.queue == [];
    assert Fetch(u) == u && Fetch(t) == u;
    hide SegmentEnd, N.Effect;
  }

  /** Nothing to move between the maps, and a navigation that has not ended. */
  lemma SteadyTasks(s: Sched)
    requires WellFormed(s) && s.running == s.active && s.paused == map[] && NavLive(s)
    requires forall r | 0 <= r < |s.tasks| :: !s.tasks[r].state.IsTerminal() && !s.tasks[r].state.IsPaused()
    ensures UpdateTasks(s) == s
  {
    AllRunning(s.(nav := None));
    assert UpdateMaps(s) == s;
    hide UpdateMaps;
  }

  lemma NoRefs(s: Sched)
    requires s.active == map[]
    ensures RefsOf(s.active) == []
  {
  }

  lemma SoftInterrupts(t: Sched)
    requires WellFormed(t) && Drives(t.(interrupts := [])) && t.interrupts == [SOFT_GROUP]
    ensures DoInterrupt(t) == Ok(SetNav(t, N.NavPausing))
  {
    NoRefs(t);
    hide RefsOf, N.Effect, Refers;
  }

  lemma {:induction false} SoftStays(v: Sched)
    requires WellFormed(v) && SoftWaits(v)
    ensures Update(v).s == Enter(v, Interrupting, false)
  {
    SteadyTasks(v);
    hide UpdateTasks, Enter;
    assert FetchInterrupt(v) == v;
  }

  lemma SoftHandedOver(s: Sched)
    requires WellFormed(s) && Drives(s)
    ensures SoftWaits(Apply(s, OpInterrupt(SOFT_GROUP)).s)
  {
    InterruptIs(s, SOFT_GROUP);
    var t := s.(interrupts := s.interrupts + [SOFT_GROUP]);
    assert t.interrupts == [SOFT_GROUP] && t.(interrupts := []) == s;
    SoftInterrupts(t);
    var v := Enter(SetNav(t, N.NavPausing), Interrupting, true);
    hide Apply, DoInterrupt, Update, Refers, N.Effect;
    SoftStays(v);
  }

  lemma SoftStarts(s: Sched)
    requires WellFormed(s) && SoftWaits(s)
    ensures SoftRunsPaused(Apply(s, OpNavigation(N.IsPaused)).s)
  {
    var t := SetNav(s, N.NavPaused);
    assert NavTransition(s, N.IsPaused) == Ok(t);
    SteadyTasks(t);
    var u := StartInstant(t);
    StartOne(t.(blocking := SOFT, interrupts := t.interrupts[1..],
                hist := t.hist + [GroupStarted(SOFT_GROUP, true, t.tasks, t.nav)]), SOFT_ACTION, |t.hist|, true);
    hide UpdateTasks, StartAll, NavTransition, N.Effect, A.Effect;
    assert InstantReady(t) && FetchInterrupt(t) == u;
    assert Update(t).s == Enter(u, Active, true);
  }

  const INTERRUPTED: seq<Op> :=
    [OpEnqueue(SomeStep(2)), OpCommit, OpInterrupt(SOFT_GROUP), OpNavigation(N.IsPaused)]

  lemma InterruptedRun()
    ensures SoftRunsPaused(Run(INTERRUPTED))
  {
    var ops := INTERRUPTED;
    assert ops[..1] == [] + [OpEnqueue(SomeStep(2))] && ops[..2] == ops[..1] + [OpCommit];
    assert ops[..3] == ops[..2] + [OpInterrupt(SOFT_GROUP)] && ops == ops[..3] + [OpNavigation(N.IsPaused)];
    hide *;
    RunNone();
    RunMore([], OpEnqueue(SomeStep(2)));
    RunMore(ops[..1], OpCommit);
    RunMore(ops[..2], OpInterrupt(SOFT_GROUP));
    RunMore(ops[..3], OpNavigation(N.IsPaused));
    Enqueued(INITIAL, SomeStep(2));
    NothingStaged([SomeStep(2)]);
    StepCommitted();
    SoftHandedOver(Run(ops[..2]));
    SoftStarts(Run(ops[..3]));
  }

  lemma OneKey(id: ActionId)
    ensures Ascending({id}) == [id]
  {
    assert {id} - {id} == {};
  }

  lemma OneRef(m: TaskMap, id: ActionId, r: nat)
    requires m == map[id := r]
    ensures RefsOf(m) == [r]
  {
    assert m.Keys == {id};
    OneKey(id);
    hide Ascending;
  }

  lemma SoftPauses(s: Sched)
    requires WellFormed(s) && SoftRunsPaused(s)
    ensures Apply(s, OpPause).Throw? && Apply(s, OpPause).s.mode == Active
    ensures |s.tasks| == 1 && s.tasks[0].state == A.ActionInitializing
    ensures |Apply(s, OpPause).s.tasks| == 1 && Apply(s, OpPause).s.tasks[0].state == A.ActionPausing
  {
    OneRef(s.running, 1, 0);
    SoftTaskPauses(s);
    PausedAlready();
    hide *;
    O.PauseIs(s);
    O.PauseActiveIs(s);
    var t := TransitionAll(s, [0], A.DoPause).s;
    O.NavIs(t, N.DoPause);
    O.FinishIs(PauseActive(s));
  }

  lemma {:induction false} SoftTaskPauses(s: Sched)
    requires SoftRunsPaused(s)
    ensures s.mode == Active && |s.tasks| == 1 && s.tasks[0].state == A.ActionInitializing
    ensures InRange([0], |s.tasks|)
    ensures var o := TransitionAll(s, [0], A.DoPause);
            && o.Ok? && o.s.mode == Active && |o.s.tasks| == 1 && o.s.tasks[0].state == A.ActionPausing
            && o.s.nav.Some? && o.s.nav.value.state.NavPaused?
  {
    O.TransitionNext(s, [0], A.DoPause);
    O.TaskIs(s, 0, A.DoPause);
    O.TransitionNone(TaskTransition(s, 0, A.DoPause).s, A.DoPause);
    assert [0][1..] == [];
    hide TransitionAll, TaskTransition, A.Effect;
  }

  lemma PausedAlready()
    ensures forall goal :: N.Transfer(N.NavPaused, N.DoPause, goal).None?
  {
  }

  /** A pause that is refused has told a running action to pause: a blocking instant action had already paused the
      navigation, which refuses to pause once more. */
  lemma PauseHalfDone()
    ensures var s := Run(INTERRUPTED);
            && Apply(s, OpPause).Throw? && Apply(s, OpPause).s.mode == Active
            && |s.tasks| == 1 && s.tasks[0].state == A.ActionInitializing
            && |Apply(s, OpPause).s.tasks| == 1 && Apply(s, OpPause).s.tasks[0].state == A.ActionPausing
  {
    hide *;
    InterruptedRun();
    var s := Run(INTERRUPTED);
    SoftPauses(s);
  }

  /** A report can be refused after it has been taken: the vehicle resumed on its own, and when the interrupting action
      ends the scheduler tells it to resume once more. */
  lemma ReportHalfDone()
    ensures var s := Run(INTERRUPTED + [OpNavigation(N.IsResumed)]);
            var o := Apply(s, OpAction(1, A.IsFinished(None)));
            o.Throw? && |o.s.tasks| == 1 && o.s.tasks[0].state.IsTerminal()
  {
    InterruptedRun();
    RunMore(INTERRUPTED, OpNavigation(N.IsResumed));
    VehicleResumes(Run(INTERRUPTED));
    hide Run, Apply, INTERRUPTED;
    ActionEnds(Run(INTERRUPTED + [OpNavigation(N.IsResumed)]));
  }

  ghost predicate SoftRunsDriving(s: Sched)
  {
    && s.mode == Active && s.queue == [] && s.nav.Some? && s.nav.value.state.NavInProgress?
    && |s.tasks| == 1 && s.tasks[0].action == SOFT_ACTION && s.tasks[0].state == A.ActionInitializing
    && s.active == map[1 := 0] && s.running == map[1 := 0] && s.navInt == map[1 := 0] && s.paused == map[]
  }

  lemma VehicleResumes(s: Sched)
    requires WellFormed(s) && SoftRunsPaused(s)
    ensures SoftRunsDriving(Apply(s, OpNavigation(N.IsResumed)).s)
  {
    var t := SetNav(s, N.NavInProgress);
    assert NavTransition(s, N.IsResumed) == Ok(t);
    SteadyTasks(t);
    assert DropNavInt(t) == t by {
      assert Keep(t.navInt, t.tasks, LiveOnly) == t.navInt;
    }
    hide UpdateTasks, DropNavInt, NavTransition, N.Effect;
    assert Refresh(t) == Ok(t) && Fetch(t) == t;
    assert Update(t).s == Enter(t, Active, false);
  }

  lemma EndedUnresumable(s: Sched)
    requires WellFormed(s) && SoftRunsDriving(s)
    ensures var t := SetTask(s, 0, A.ActionFinished(None)); WellFormed(t) && t.mode == Active && Unresumable(t)
    ensures Apply(s, OpAction(1, A.IsFinished(None))) == Update(SetTask(s, 0, A.ActionFinished(None)))
  {
    hide A.Effect, Update;
    assert 1 in s.navInt;
  }

  lemma ActionEnds(s: Sched)
    requires WellFormed(s) && SoftRunsDriving(s)
    ensures var o := Apply(s, OpAction(1, A.IsFinished(None)));
            o.Throw? && |o.s.tasks| == 1 && o.s.tasks[0].state.IsTerminal()
  {
    var t := SetTask(s, 0, A.ActionFinished(None));
    EndedUnresumable(s);
    UpdateReturns(t);
    RefreshFrame(t);
    hide Update, Unresumable, Apply, Refers, A.Effect;
  }

  lemma {:induction false} RefreshFrame(t: Sched)
    requires WellFormed(t) && t.mode == Active && Update(t).Throw?
    ensures Update(t).s.tasks == t.tasks
  {
    UpdateTasksFrame(t);
    hide UpdateTasks, Fetch;
  }

  // An action that is canceling already /////////////////////////////////////////////////////////

  const FIRST_ACTION := Action(0, NONE)
  const HARD_ACTION := Action(3, HARD)
  const FREE_ITEM := Actions(Group([FREE_ACTION], NONE))
  const HARD_GROUP := Group([HARD_ACTION], HARD)
  const FIRST_GROUP := Group([FIRST_ACTION], NONE)

  ghost predicate FreeDrives(s: Sched)
  {
    && s.mode == Active && s.queue == [] && s.interrupts == []
    && s.nav.Some? && s.nav.value.state.NavFirstInProgress?
    && |s.tasks| == 1 && s.tasks[0].action == FREE_ACTION && s.tasks[0].state == A.ActionInitializing
    && s.active == map[2 := 0] && s.running == map[2 := 0] && s.navInt == map[] && s.paused == map[]
  }

  ghost predicate HeavyWaits(s: Sched)
  {
    && s.mode == Interrupting && s.queue == [] && s.interrupts == [HARD_GROUP]
    && s.nav.Some? && s.nav.value.state.NavPausing?
    && |s.tasks| == 1 && s.tasks[0].action == FREE_ACTION && s.tasks[0].state == A.ActionCanceling
    && s.active == map[2 := 0] && s.running == map[2 := 0] && s.navInt == map[] && s.paused == map[]
  }

  ghost predicate FreeCancels(s: Sched)
  {
    && s.mode == Active && s.queue == [] && s.interrupts == [] && s.nav.None?
    && |s.tasks| == 1 && s.tasks[0].action == FREE_ACTION && s.tasks[0].state == A.ActionCanceling
    && s.active == map[2 := 0] && s.running == map[2 := 0] && s.navInt == map[] && s.paused == map[]
  }

  ghost predicate FirstBeside(s: Sched)
  {
    && s.mode == Active && |s.tasks| == 2
    && s.tasks[0].action == FREE_ACTION && s.tasks[0].state == A.ActionCanceling
    && s.tasks[1].action == FIRST_ACTION && s.tasks[1].state == A.ActionInitializing
    && s.active == map[2 := 0, 0 := 1]
  }

  lemma FreeCommitted()
    ensures FreeDrives(Apply(INITIAL.(staging := [FREE_ITEM, SomeStep(2)]), OpCommit).s)
  {
    var t := INITIAL.(queue := [] + [FREE_ITEM, SomeStep(2)]);
    assert Apply(INITIAL.(staging := [FREE_ITEM, SomeStep(2)]), OpCommit) == Update(t);
    var u := StartGroup(t);
    StartOne(t.(segment := None, blocking := NONE, queue := t.queue[1..],
                hist := t.hist + [GroupStarted(t.queue[0].group, false, t.tasks, t.nav)]), FREE_ACTION, 0, false);
    assert u.queue == [SomeStep(2)] && u.nav.None? && u.active == map[2 := 0];
    assert Fetch(t) == Fetch(u);
    StepFetchedWith(u);
    hide StartGroup, Fetch;
  }

  lemma {:induction false} StepFetchedWith(u: Sched)
    requires u.queue == [SomeStep(2)] && StepReady(u)
    ensures var v := Fetch(u);
            && v == u.(nav := v.nav, segment := v.segment, queue := [], out := v.out, hist := v.hist)
            && v.nav.Some? && v.nav.value.state.NavFirstInProgress?
  {
    var v := StartStep(u);
    assert v.queue == [];
    assert Fetch(v) == v && Fetch(u) == v;
    hide N.Effect, SegmentEnd;
  }

  /** Two of the states the heavy group passes through. */
  function HeavyCancels(s: Sched): Sched
    requires s.nav.Some? && |s.tasks| == 1
  {
    SetTask(SetNav(s, N.NavPausing), 0, A.ActionCanceling)
  }

  lemma HeavyInterrupts(t: Sched)
    requires WellFormed(t) && FreeDrives(t.(interrupts := [])) && t.interrupts == [HARD_GROUP]
    ensures DoInterrupt(t) == Ok(HeavyCancels(t))
  {
    OneRef(t.active, 2, 0);
    var u := SetNav(t, N.NavPausing);
    assert NavTransition(t, N.DoPause) == Ok(u);
    assert [0][1..] == [];
    assert ConflictingRefs([0], t.tasks, HARD) == [0];
    hide RefsOf, N.Effect, A.Effect, NavTransition, Refers;
    assert TransitionAll(u, [0], A.DoCancel) == TransitionAll(HeavyCancels(t), [], A.DoCancel);
  }

  lemma {:induction false} HeavyStays(v: Sched)
    requires WellFormed(v) && HeavyWaits(v)
    ensures Update(v).s == Enter(v, Interrupting, false)
  {
    SteadyTasks(v);
    hide UpdateTasks;
    assert 2 in v.active;
    assert FetchInterrupt(v) == v;
  }

  lemma HeavyHandedOver(s: Sched)
    requires WellFormed(s) && FreeDrives(s)
    ensures HeavyWaits(Apply(s, OpInterrupt(HARD_GROUP)).s)
  {
    InterruptIs(s, HARD_GROUP);
    var t := s.(interrupts := s.interrupts + [HARD_GROUP]);
    assert t.interrupts == [HARD_GROUP] && t.(interrupts := []) == s;
    HeavyInterrupts(t);
    var v := Enter(HeavyCancels(t), Interrupting, true);
    hide Apply, DoInterrupt, Update, Refers, N.Effect, A.Effect;
    HeavyStays(v);
  }

  lemma FailureClears(t: Sched)
    requires WellFormed(t) && t.running == t.active && t.paused == map[] && NavFailed(t)
    requires forall r | 0 <= r < |t.tasks| :: !t.tasks[r].state.IsTerminal() && !t.tasks[r].state.IsPaused()
    ensures UpdateTasks(t) == ClearQueues(t, false).(nav := None)
  {
    AllRunning(t.(nav := None));
    assert UpdateMaps(t) == t;
    hide UpdateMaps, ForgetItems, ForgetGroups;
  }

  lemma {:induction false} NothingToStart(t: Sched)
    requires WellFormed(t) && t.mode == Interrupting && UpdateTasks(t).interrupts == []
    ensures Update(t).s == Enter(UpdateTasks(t), Active, true)
  {
    hide UpdateTasks, Refers, Enter;
  }

  lemma FailureReported(s: Sched)
    requires WellFormed(s) && HeavyWaits(s)
    ensures var t := SetNav(s, N.NavFailed); WellFormed(t) && Apply(s, OpNavigation(N.IsFailed)) == Update(t)
  {
    hide Update, Refers, N.Effect;
  }

  lemma NavigationFails(s: Sched)
    requires WellFormed(s) && HeavyWaits(s)
    ensures FreeCancels(Apply(s, OpNavigation(N.IsFailed)).s)
  {
    FailureReported(s);
    HeavyFailed(s);
    var t := SetNav(s, N.NavFailed);
    hide *;
    FailureClears(t);
    NothingToStart(t);
  }

  lemma HeavyFailed(s: Sched)
    requires WellFormed(s) && HeavyWaits(s)
    ensures s.nav.Some?
    ensures var t := SetNav(s, N.NavFailed);
            && WellFormed(t) && t.running == t.active && t.paused == map[] && NavFailed(t) && t.mode == Interrupting
            && (forall r | 0 <= r < |t.tasks| :: !t.tasks[r].state.IsTerminal() && !t.tasks[r].state.IsPaused())
            && ClearQueues(t, false).interrupts == []
            && FreeCancels(Enter(ClearQueues(t, false).(nav := None), Active, true))
  {
    hide ForgetItems, ForgetGroups, N.Effect, Refers;
  }

  lemma FirstInterrupts(t: Sched)
    requires WellFormed(t) && FreeCancels(t.(interrupts := [])) && t.interrupts == [FIRST_GROUP]
    ensures DoInterrupt(t) == Ok(t)
  {
    RefsInRange(t.active, t.tasks);
    NoConflicts(RefsOf(t.active), t.tasks, NONE);
    hide RefsOf, ConflictingRefs;
  }

  lemma {:induction false} FirstFetched(u: Sched)
    requires WellFormed(u) && FreeCancels(u.(mode := Active, interrupts := [])) && u.mode == Interrupting
    requires u.interrupts == [FIRST_GROUP]
    ensures FirstBeside(Update(u).s)
  {
    AllRunning(u);
    var v := StartInstant(u);
    StartOne(u.(blocking := NONE, interrupts := u.interrupts[1..],
                hist := u.hist + [GroupStarted(FIRST_GROUP, true, u.tasks, u.nav)]), FIRST_ACTION, |u.hist|, true);
    assert v.active == map[2 := 0, 0 := 1] && v.interrupts == [];
    hide UpdateTasks, StartAll, StartInstant, A.Effect;
    assert InstantReady(u) && FetchInterrupt(u) == v;
    assert Update(u).s == Enter(v, Active, true);
  }

  lemma FirstStarts(s: Sched)
    requires WellFormed(s) && FreeCancels(s)
    ensures FirstBeside(Apply(s, OpInterrupt(FIRST_GROUP)).s)
  {
    InterruptIs(s, FIRST_GROUP);
    var t := s.(interrupts := s.interrupts + [FIRST_GROUP]);
    assert t.interrupts == [FIRST_GROUP] && t.(interrupts := []) == s;
    FirstInterrupts(t);
    hide Apply, DoInterrupt, Update, Refers, FirstBeside;
    FirstFetched(Enter(t, Interrupting, true));
  }

  const DISTURBED: seq<Op> :=
    [OpEnqueue(FREE_ITEM), OpEnqueue(SomeStep(2)), OpCommit,
     OpInterrupt(HARD_GROUP), OpNavigation(N.IsFailed), OpInterrupt(FIRST_GROUP)]

  lemma DisturbedRun()
    ensures FirstBeside(Run(DISTURBED))
  {
    var ops, first := DISTURBED, [OpEnqueue(FREE_ITEM), OpEnqueue(SomeStep(2))];
    assert ops[..2] == [] + first && ops[..3] == ops[..2] + [OpCommit];
    assert ops[..4] == ops[..3] + [OpInterrupt(HARD_GROUP)] && ops[..5] == ops[..4] + [OpNavigation(N.IsFailed)];
    assert ops == ops[..5] + [OpInterrupt(FIRST_GROUP)];
    hide *;
    RunNone();
    TwoEnqueued([], FREE_ITEM, SomeStep(2));
    NothingStaged([FREE_ITEM, SomeStep(2)]);
    RunMore(ops[..2], OpCommit);
    RunMore(ops[..3], OpInterrupt(HARD_GROUP));
    RunMore(ops[..4], OpNavigation(N.IsFailed));
    RunMore(ops[..5], OpInterrupt(FIRST_GROUP));
    FreeCommitted();
    HeavyHandedOver(Run(ops[..3]));
    NavigationFails(Run(ops[..4]));
    FirstStarts(Run(ops[..5]));
  }

  lemma TwoRefs(m: TaskMap)
    requires m == map[2 := 0, 0 := 1]
    ensures RefsOf(m) == [1, 0]
  {
    var keys: set<nat> := {0, 2};
    assert m.Keys == keys;
    assert Ascending(keys) == [0, 2] by {
      assert MinOf(keys) == 0 && keys - {0} == {2};
      OneKey(2);
    }
    hide Ascending;
  }

  /** A cancel that is refused has told an active action to cancel: the navigation failed while a HARD instant group
      waited, which left another action canceling, and that action refuses. */
  lemma CancelHalfDone()
    ensures var s := Run(DISTURBED);
            && Apply(s, OpCancel).Throw? && Apply(s, OpCancel).s.mode == Active
            && |s.tasks| == 2 && s.tasks[1].state == A.ActionInitializing
            && |Apply(s, OpCancel).s.tasks| == 2 && Apply(s, OpCancel).s.tasks[1].state == A.ActionCanceling
  {
    hide *;
    DisturbedRun();
    RunTidy(DISTURBED);
    TidyParts(Run(DISTURBED));
    CancelsFirst(Run(DISTURBED));
  }

  lemma {:induction false} SecondRefuses(s: Sched)
    requires WellFormed(s) && FirstBeside(s)
    ensures RefsOf(s.active) == [1, 0]
    ensures TransitionAll(s, [1, 0], A.DoCancel) == Throw(SetTask(s, 1, A.ActionCanceling))
  {
    TwoRefs(s.active);
    hide RefsOf, A.Effect;
    var t := SetTask(s, 1, A.ActionCanceling);
    assert [1, 0][1..] == [0] && [1, 0][0] == 1;
    assert TransitionAll(t, [0], A.DoCancel) == Throw(t);
  }

  lemma CancelsFirst(s: Sched)
    requires WellFormed(s) && FirstBeside(s)
    ensures Apply(s, OpCancel).Throw? && Apply(s, OpCancel).s.mode == Active
    ensures |s.tasks| == 2 && s.tasks[1].state == A.ActionInitializing
    ensures |Apply(s, OpCancel).s.tasks| == 2 && Apply(s, OpCancel).s.tasks[1].state == A.ActionCanceling
  {
    CancelIs(s);
    SecondRefuses(s);
    hide Apply, RefsOf, TransitionAll, A.Effect, Refers;
  }
}
