/** Runs that show what the scheduler does not promise. */
module SchedulerExamples {
  import opened Vda
  import opened Events
  import A = ActionTasks
  import N = NavigationTasks
  import opened SchedulerModel
  import O = SchedulerOperations

  lemma {:induction false} RunMore(ops: seq<Op>, op: Op)
    ensures Run(ops + [op]) == Apply(Run(ops), op).s
  {
    assert (ops + [op])[..|ops + [op]| - 1] == ops;
  }

  lemma RunNone()
    ensures Run([]) == INITIAL
  {
  }

  lemma Enqueued(s: Sched, item: Item)
    requires WellFormed(s)
    ensures Apply(s, OpEnqueue(item)).s == s.(staging := s.staging + [item])
  {
  }

  lemma IdlePauses()
    ensures Apply(INITIAL, OpPause).s == INITIAL.(mode := IdlePaused, out := [OrderStatus(IdlePaused)])
  {
  }

  lemma PausedRefuses(s: Sched, g: Group)
    requires WellFormed(s) && s.mode == IdlePaused
    ensures Apply(s, OpInterrupt(g)).s == s.(interrupts := s.interrupts + [g])
  {
    hide Refers;
  }

  lemma EmptyRefreshes(s: Sched)
    requires WellFormed(s) && s.active == map[] && s.running == map[] && s.paused == map[] && s.navInt == map[]
    requires s.nav.None?
    ensures Refresh(s) == Ok(s)
  {
    hide Refers, ClearQueues;
  }

  lemma {:induction false} EmptyFetches(s: Sched)
    requires s.queue == []
    ensures Fetch(s) == s
  {
  }

  lemma IdleResumes(s: Sched)
    requires WellFormed(s) && s.active == map[] && s.running == map[] && s.paused == map[] && s.navInt == map[]
    requires s.mode == IdlePaused && s.nav.None? && s.queue == []
    ensures Apply(s, OpResume).s.mode == Idle && Apply(s, OpResume).s.interrupts == s.interrupts
  {
    var t := Enter(s, Idle, true);
    EmptyRefreshes(t);
    EmptyFetches(t);
    hide Refers, Refresh, Fetch, ResumePaused;
  }

  /** A refused instant group can be stranded: after pausing, handing over a group and resuming, the
      scheduler is idle with the group still in its interrupt queue. */
  lemma IdleWithInterrupt(g: Group)
    ensures var s := Run([OpPause, OpInterrupt(g), OpResume]);
            s.mode == Idle && s.interrupts == [g]
  {
    hide Apply, WellFormed, Run;
    RunNone();
    RunMore([], OpPause);
    RunMore([OpPause], OpInterrupt(g));
    RunMore([OpPause, OpInterrupt(g)], OpResume);
    assert [] + [OpPause] == [OpPause];
    assert [OpPause] + [OpInterrupt(g)] == [OpPause, OpInterrupt(g)];
    assert [OpPause, OpInterrupt(g)] + [OpResume] == [OpPause, OpInterrupt(g), OpResume];
    IdlePauses();
    PausedRefuses(Run([OpPause]), g);
    IdleResumes(Run([OpPause, OpInterrupt(g)]));
  }

  function SomeNode(s: SeqId): Node
  {
    Node("n", s, true, [])
  }

  function SomeStep(s: SeqId): Item
  {
    Step(SomeNode(s), Edge("e", if s > 0 then s - 1 else 0, true, []), false)
  }

  const SOFT_ACTION := Action(1, SOFT)
  const FREE_ACTION := Action(2, NONE)

  lemma {:induction false} StartOne(s: Sched, a: Action, batch: nat, instant: bool)
    ensures StartAll(s, [a], batch, instant) == StartAction(s, a, batch, instant)
  {
    assert [a][1..] == [];
  }

  /** A NONE instant group beside a SOFT order action lets the next navigation step start while the SOFT
      action is live: the step is queued behind the SOFT group, the instant group is started, and any
      later report of the instant action starts the step. */
  lemma StepBesideSoft()
    ensures var ops := [OpEnqueue(Actions(Group([SOFT_ACTION], SOFT))), OpEnqueue(SomeStep(2)), OpCommit,
                        OpInterrupt(Group([FREE_ACTION], NONE)), OpAction(2, A.IsRunning)];
            var s := Run(ops);
            && s.nav.Some? && s.nav.value.state.NavFirstInProgress?
            && 1 in s.active && s.active[1] < |s.tasks|
            && s.tasks[s.active[1]].action == SOFT_ACTION && !s.tasks[s.active[1]].state.IsTerminal()
  {
    var item := Actions(Group([SOFT_ACTION], SOFT));
    var step := SomeStep(2);
    var first := [OpEnqueue(item), OpEnqueue(step)];
    var group := Group([FREE_ACTION], NONE);
    var ops := [OpEnqueue(item), OpEnqueue(step), OpCommit, OpInterrupt(group), OpAction(2, A.IsRunning)];
    hide *;
    RunNone();
    assert [] + first == first;
    TwoEnqueued([], item, step);
    NothingStaged([item, step]);
    RunMore(first, OpCommit);
    SoftCommitted(item, step);
    var committed := first + [OpCommit];
    RunMore(committed, OpInterrupt(group));
    InstantBesideSoft(Run(committed), step);
    RunMore(committed + [OpInterrupt(group)], OpAction(2, A.IsRunning));
    StepStarts(Run(committed + [OpInterrupt(group)]), step);
    assert committed + [OpInterrupt(group)] + [OpAction(2, A.IsRunning)] == ops;
  }

  ghost predicate SoftRuns(s: Sched, step: Item)
  {
    && s.mode == Active && s.queue == [step] && s.interrupts == [] && s.nav.None? && s.navInt == map[]
    && s.tasks == [Task(SOFT_ACTION, A.ActionInitializing, 0, false)]
    && s.active == map[1 := 0] && s.running == map[1 := 0] && s.paused == map[] && s.blocking == SOFT
  }

  lemma SoftCommitted(item: Item, step: Item)
    requires item == Actions(Group([SOFT_ACTION], SOFT)) && step.Step?
    ensures var s := INITIAL.(staging := [item, step]); SoftRuns(Apply(s, OpCommit).s, step)
  {
    var s := INITIAL.(staging := [item, step]);
    var t := INITIAL.(queue := [] + [item, step]);
    assert Apply(s, OpCommit) == Update(t);
    var u := StartGroup(t);
    StartOne(t.(segment := None, blocking := SOFT, queue := t.queue[1..],
                hist := t.hist + [GroupStarted(t.queue[0].group, false, t.tasks, t.nav)]), SOFT_ACTION, 0, false);
    assert u.queue == [step];
    assert u.active == map[1 := 0] && 1 in u.active && u.blocking == SOFT && u.nav.None?;
    assert !StepReady(u) && u.queue[0].Step?;
    assert Fetch(u) == u;
    assert Fetch(t) == u;
  }

  lemma {:induction false} NoConflicts(refs: seq<nat>, tasks: seq<Task>, ceiling: BlockingType)
    requires InRange(refs, |tasks|) && forall r | 0 <= r < |tasks| :: !Conflicts(tasks[r], ceiling)
    ensures ConflictingRefs(refs, tasks, ceiling) == []
  {
    if refs != [] {
      NoConflicts(refs[1..], tasks, ceiling);
    }
  }

  /** Nothing to move between the maps. */
  lemma AllRunning(s: Sched)
    requires WellFormed(s) && s.running == s.active && s.paused == map[] && s.nav.None?
    requires forall r | 0 <= r < |s.tasks| :: !s.tasks[r].state.IsTerminal() && !s.tasks[r].state.IsPaused()
    ensures UpdateTasks(s) == s
  {
    assert Keep(s.running, s.tasks, PausedOnly) == map[];
    assert Keep(s.running, s.tasks, RunningOnly) == s.running;
    assert Keep(s.active, s.tasks, LiveOnly) == s.active;
    hide Keep;
  }

  ghost predicate BothRun(s: Sched, step: Item)
  {
    && s.mode == Active && s.queue == [step] && s.interrupts == [] && s.nav.None? && s.navInt == map[]
    && |s.tasks| == 2 && s.tasks[0].action == SOFT_ACTION && s.tasks[1].action == FREE_ACTION
    && s.tasks[0].state == A.ActionInitializing && s.tasks[1].state == A.ActionInitializing
    && s.active == map[1 := 0, 2 := 1] && s.running == s.active && s.paused == map[] && s.blocking == NONE
  }

  lemma SoftInterrupted(s: Sched, g: Group, step: Item)
    requires WellFormed(s) && SoftRuns(s, step)
    ensures s.mode == Active && s.interrupts == [] && s.navInt == map[] && s.nav.None?
    ensures forall r | 0 <= r < |s.tasks| :: s.tasks[r].action.blocking != HARD
    ensures var u := Enter(s.(interrupts := [] + [g]), Interrupting, true);
            && WellFormed(u) && u.mode == Interrupting && u.interrupts == [g]
            && SoftRuns(u.(mode := Active, interrupts := []), step)
  {
    hide Refers;
    assert [] + [g] == [g];
  }

  lemma InstantBesideSoft(s: Sched, step: Item)
    requires WellFormed(s) && SoftRuns(s, step)
    ensures BothRun(Apply(s, OpInterrupt(Group([FREE_ACTION], NONE))).s, step)
  {
    hide *;
    var g := Group([FREE_ACTION], NONE);
    SoftInterrupted(s, g, step);
    var t := s.(interrupts := [] + [g]);
    var u := Enter(t, Interrupting, true);
    O.InterruptIs(s, g);
    InterruptsAtOnce(s, g);
    O.StateInterruptIs(t);
    O.FinishIs(StateInterrupt(t));
    FreeStarts(u, g, step);
    O.UpdateIs(u);
    O.StateUpdateIs(u);
    O.UpdateInterruptingIs(u);
  }

  lemma InterruptsAtOnce(s: Sched, g: Group)
    requires WellFormed(s) && s.mode == Active && s.interrupts == [] && s.navInt == map[] && s.nav.None?
    requires g.ceiling == NONE && forall r | 0 <= r < |s.tasks| :: s.tasks[r].action.blocking != HARD
    ensures var t := s.(interrupts := [] + [g]); StateInterrupt(t) == (Ok(Enter(t, Interrupting, true)), true)
  {
    var t := s.(interrupts := [] + [g]);
    RefsInRange(t.active, t.tasks);
    NoConflicts(RefsOf(t.active), t.tasks, NONE);
    assert DoInterrupt(t) == Ok(t);
  }

  lemma FreeStarts(u: Sched, g: Group, step: Item)
    requires WellFormed(u) && g == Group([FREE_ACTION], NONE) && u.interrupts == [g]
    requires SoftRuns(u.(mode := Active, interrupts := []), step)
    ensures UpdateTasks(u) == u
    ensures var v := FetchInterrupt(u); v.interrupts == [] && BothRun(Enter(v, Active, true), step)
  {
    AllRunning(u);
    assert InstantReady(u);
    var v := StartInstant(u);
    StartOne(u.(blocking := NONE, interrupts := u.interrupts[1..],
                hist := u.hist + [GroupStarted(g, true, u.tasks, u.nav)]), FREE_ACTION, |u.hist|, true);
    assert v.active == map[1 := 0, 2 := 1] && v.running == v.active;
    assert FetchInterrupt(u) == v;
    hide UpdateTasks, StartAll, A.Effect;
  }

  lemma {:induction false} StepFetched(t: Sched, step: Item)
    requires WellFormed(t) && t.queue == [step] && step == SomeStep(2) && StepReady(t)
    ensures var u := Fetch(t);
            && u.tasks == t.tasks && u.active == t.active && u.mode == t.mode
            && u.nav.Some? && u.nav.value.state.NavFirstInProgress?
  {
    var u := StartStep(t);
    assert u.queue == [];
    assert Fetch(t) == Fetch(u) == u;
    hide N.Effect, SegmentEnd;
  }

  // the state after the report that the free action runs, before the update that follows
  ghost predicate FreeRuns(t: Sched, step: Item)
  {
    && t.mode == Active && t.queue == [step] && t.nav.None? && t.navInt == map[] && t.blocking == NONE
    && t.active == map[1 := 0, 2 := 1] && t.running == t.active && t.paused == map[] && |t.tasks| == 2
    && t.tasks[0].action == SOFT_ACTION && t.tasks[0].state == A.ActionInitializing
    && t.tasks[1].state == A.ActionRunning
  }

  lemma BothParts(s: Sched, step: Item)
    requires BothRun(s, step)
    ensures |s.tasks| == 2 && 2 in s.active && s.active[2] == 1 && s.tasks[1].state == A.ActionInitializing
  {
  }

  lemma RunningIsNext()
    ensures A.Next(A.ActionInitializing, A.IsRunning) == Some(A.ActionRunning)
  {
  }

  lemma SetRunning(s: Sched, step: Item)
    requires WellFormed(s) && BothRun(s, step)
    ensures var t := SetTask(s, 1, A.ActionRunning);
            && WellFormed(t) && FreeRuns(t, step)
            && t == s.(tasks := s.tasks[1 := s.tasks[1].(state := A.ActionRunning)],
                       out := s.out + A.Effect(s.tasks[1].action.id, A.ActionRunning))
  {
    hide A.Effect;
  }

  lemma RunningReported(s: Sched, step: Item)
    requires WellFormed(s) && BothRun(s, step)
    ensures |s.tasks| == 2
    ensures var t := SetTask(s, 1, A.ActionRunning);
            WellFormed(t) && FreeRuns(t, step) && Apply(s, OpAction(2, A.IsRunning)) == Update(t)
  {
    hide *;
    BothParts(s, step);
    RunningIsNext();
    O.ActionIs(s, 2, A.IsRunning);
    O.TaskIs(s, 1, A.IsRunning);
    SetRunning(s, step);
  }

  lemma FreeRefreshed(t: Sched, step: Item)
    requires WellFormed(t) && FreeRuns(t, step)
    ensures Refresh(t) == Ok(t)
  {
    AllRunning(t);
    assert DropNavInt(t) == t by { hide Keep; }
    O.RefreshIs(t);
    hide Keep, UpdateTasks, Refresh;
  }

  lemma FreeReady(t: Sched, step: Item)
    requires FreeRuns(t, step) && step == SomeStep(2)
    ensures t.mode == Active && t.queue == [step] && StepReady(t)
    ensures 1 in t.active && t.active[1] == 0 && |t.tasks| == 2
    ensures t.tasks[0].action == SOFT_ACTION && !t.tasks[0].state.IsTerminal()
  {
  }

  lemma FirstInProgress(st: N.NavState)
    ensures st.NavFirstInProgress? ==> !st.IsTerminal()
  {
  }

  lemma StepStarts(s: Sched, step: Item)
    requires WellFormed(s) && BothRun(s, step) && step == SomeStep(2)
    ensures var t := Apply(s, OpAction(2, A.IsRunning)).s;
            && t.nav.Some? && t.nav.value.state.NavFirstInProgress?
            && 1 in t.active && t.active[1] < |t.tasks|
            && t.tasks[t.active[1]].action == SOFT_ACTION && !t.tasks[t.active[1]].state.IsTerminal()
  {
    hide *;
    RunningReported(s, step);
    var t := SetTask(s, 1, A.ActionRunning);
    FreeRefreshed(t, step);
    FreeReady(t, step);
    O.UpdateIs(t);
    O.StateUpdateIs(t);
    O.UpdateActiveIs(t);
    StepFetched(t, step);
    O.EnterIs(Fetch(t), Active, false);
    FirstInProgress(Fetch(t).nav.value.state);
  }

  /** An order update can hide a stop: with the steps to 2 and 4 committed first and then a blocking group
      and the step to 6, the segment announced while driving to 2 reaches 6, past the queued group. */
  lemma SegmentPastBlockingGroup()
    ensures var group := Actions(Group([SOFT_ACTION], SOFT));
            var ops := [OpEnqueue(SomeStep(2)), OpEnqueue(SomeStep(4)), OpCommit,
                        OpEnqueue(group), OpEnqueue(SomeStep(6)), OpCommit];
            var s := Run(ops);
            && s.hist != [] && s.hist[|s.hist| - 1] == SegmentAnnounced(5, 6, [SomeStep(4), group, SomeStep(6)])
            && s.out != [] && s.out[|s.out| - 1] == NavigationUpcomingSegment(5, 6)
            && s.queue == [SomeStep(4), group, SomeStep(6)]
  {
    var group := Actions(Group([SOFT_ACTION], SOFT));
    var first, second := [OpEnqueue(SomeStep(2)), OpEnqueue(SomeStep(4))], [OpEnqueue(group), OpEnqueue(SomeStep(6))];
    var ops := [OpEnqueue(SomeStep(2)), OpEnqueue(SomeStep(4)), OpCommit,
                OpEnqueue(group), OpEnqueue(SomeStep(6)), OpCommit];
    hide *;
    RunNone();
    assert [] + first == first;
    TwoEnqueued([], SomeStep(2), SomeStep(4));
    RunMore(first, OpCommit);
    FirstCommit();
    NothingStaged([SomeStep(2), SomeStep(4)]);
    var s := Run(first + [OpCommit]);
    TwoEnqueued(first + [OpCommit], group, SomeStep(6));
    DrivingStages(s, [group, SomeStep(6)]);
    RunMore(first + [OpCommit] + second, OpCommit);
    assert first + [OpCommit] + second + [OpCommit] == ops;
    SecondCommit(s, group);
  }

  lemma NothingStaged(items: seq<Item>)
    ensures INITIAL.(staging := INITIAL.staging + items) == INITIAL.(staging := items)
  {
  }

  lemma DrivingStages(s: Sched, items: seq<Item>)
    requires DrivesTo2(s)
    ensures s.(staging := s.staging + items) == s.(staging := items)
  {
  }

  lemma {:induction false} TwoEnqueued(ops: seq<Op>, a: Item, b: Item)
    ensures Run(ops + [OpEnqueue(a), OpEnqueue(b)]) == Run(ops).(staging := Run(ops).staging + [a, b])
  {
    hide *;
    RunMore(ops, OpEnqueue(a));
    RunMore(ops + [OpEnqueue(a)], OpEnqueue(b));
    assert ops + [OpEnqueue(a)] + [OpEnqueue(b)] == ops + [OpEnqueue(a), OpEnqueue(b)];
    Enqueued(Run(ops), a);
    Enqueued(Run(ops + [OpEnqueue(a)]), b);
    assert Run(ops).staging + [a] + [b] == Run(ops).staging + [a, b];
  }

  ghost predicate DrivesTo2(s: Sched)
  {
    && s.mode == Active && s.queue == [SomeStep(4)] && s.staging == [] && s.active == map[] && s.navInt == map[]
    && s.running == map[] && s.paused == map[] && s.tasks == []
    && s.segment == Some(N.Segment(2, 4)) && s.nav.Some? && s.nav.value.state.NavFirstInProgress?
  }

  lemma FirstCommit()
    ensures DrivesTo2(Apply(INITIAL.(staging := [SomeStep(2), SomeStep(4)]), OpCommit).s)
  {
    var s := INITIAL.(staging := [SomeStep(2), SomeStep(4)]);
    var t := INITIAL.(queue := [] + [SomeStep(2), SomeStep(4)]);
    assert Apply(s, OpCommit) == Update(t);
    assert t.queue[1..] == [SomeStep(4)] && t.queue[1..][1..] == [];
    assert SegmentEnd([SomeStep(4)], 2) == 4;
    assert SegmentEnd(t.queue, 2) == 4;
    var u := StartStep(t);
    assert u.segment == Some(N.Segment(2, 4)) && u.queue == [SomeStep(4)];
    assert SegmentEnd(u.queue, 4) == 4;
    assert Fetch(u) == u;
    assert Fetch(t) == u;
  }

  lemma SecondCommit(s: Sched, group: Item)
    requires DrivesTo2(s) && group == Actions(Group([SOFT_ACTION], SOFT))
    ensures var queue := [SomeStep(4), group, SomeStep(6)];
            var t := Apply(s.(staging := [group, SomeStep(6)]), OpCommit).s;
            && t.hist == s.hist + [SegmentAnnounced(5, 6, queue)]
            && t.out == s.out + [NavigationUpcomingSegment(5, 6)] && t.queue == queue
  {
    var queue := [SomeStep(4), group, SomeStep(6)];
    var t := s.(queue := s.queue + [group, SomeStep(6)], staging := []);
    assert t.queue == queue;
    AllRunning(t.(nav := None));
    assert UpdateMaps(t) == t;
    assert UpdateTasks(t) == t;
    assert DropNavInt(t) == t;
    assert Refresh(t) == Ok(t);
    assert queue[1..] == [group, SomeStep(6)] && queue[1..][1..] == [SomeStep(6)];
    assert SegmentEnd([SomeStep(6)], 4) == 6;
    assert SegmentEnd(queue[1..], 4) == 6;
    assert SegmentEnd(queue, 4) == 6;
    var u := PatchSegment(t);
    assert Fetch(t) == u;
    assert Update(t).s == Enter(u, Active, false);
  }
}
