/** No work is stranded: an idle scheduler has nothing queued, nothing active and no navigation. */
module SchedulerIdle {
  import opened Vda
  import opened Events
  import A = ActionTasks
  import N = NavigationTasks
  import opened SchedulerModel
  import O = SchedulerOperations
  import opened SchedulerMoves
  import opened SchedulerAccounts
  import opened SchedulerOwnership

  ghost predicate NothingActive(s: Sched)
  {
    && s.active == map[] && s.running == map[] && s.paused == map[] && s.navInt == map[]
    && s.nav.None?
  }

  ghost predicate Drained(s: Sched)
  {
    s.queue == [] && NothingActive(s)
  }

  ghost predicate Rests(s: Sched)
  {
    && (s.mode == Idle ==> Drained(s))
    && (s.mode == IdlePaused ==> NothingActive(s))
  }

  /** The navigation-interrupting tasks are live, and so is the navigation. */
  ghost predicate Refreshed(s: Sched)
  {
    && WellFormed(s)
    && (forall id | id in s.navInt :: !s.tasks[s.navInt[id]].state.IsTerminal())
    && (s.nav.Some? ==> !s.nav.value.state.IsTerminal())
  }

  // Fetching stops only when nothing more can start /////////////////////////////////////////////

  ghost predicate Blocked(s: Sched)
  {
    || s.queue == []
    || (s.queue[0].Actions? && (s.active != map[] || (s.nav.Some? && s.queue[0].group.ceiling != NONE)))
    || (s.queue[0].Step? && (s.nav.Some? || s.navInt != map[] || (s.active != map[] && s.blocking != NONE)))
  }

  lemma {:induction false} FetchBlocked(s: Sched)
    ensures Blocked(Fetch(s))
    decreases |s.queue|
  {
    hide A.Effect, N.Effect, StartAll, SegmentEnd;
    if s.queue == [] {
    } else if s.queue[0].Actions? {
      if GroupReady(s, s.queue[0].group) {
        FetchBlocked(StartGroup(s));
      }
    } else if s.nav.Some? {
    } else if StepReady(s) {
      FetchBlocked(StartStep(s));
    }
  }

  ghost predicate Grows(s: Sched, t: Sched)
  {
    s.tasks <= t.tasks && t.navInt == s.navInt
  }

  lemma {:induction false} StartAllGrows(s: Sched, actions: seq<Action>, batch: nat)
    ensures Grows(s, StartAll(s, actions, batch, false))
    decreases |actions|
  {
    hide A.Effect;
    if actions != [] {
      StartAllGrows(StartAction(s, actions[0], batch, false), actions[1..], batch);
    }
  }

  lemma {:induction false} FetchRefreshed(s: Sched)
    requires Refreshed(s)
    ensures Refreshed(Fetch(s)) && Grows(s, Fetch(s))
    decreases |s.queue|
  {
    hide *;
    GrowsNot(s);
    if s.queue == [] {
      O.FetchNothing(s);
    } else if s.queue[0].Actions? {
      O.FetchGroupIs(s);
      if Fetch(s) != s {
        GroupGrows(s);
        FetchRefreshed(StartGroup(s));
        GrowsTwice(s, StartGroup(s), Fetch(s));
      }
    } else {
      O.FetchStepIs(s);
      if s.nav.Some? {
        PatchGrows(s);
      } else if Fetch(s) != s {
        StepGrows(s);
        FetchRefreshed(StartStep(s));
        GrowsTwice(s, StartStep(s), Fetch(s));
      }
    }
  }

  lemma GrowsNot(s: Sched)
    ensures Grows(s, s)
  {
  }

  lemma GrowsTwice(s: Sched, t: Sched, u: Sched)
    requires Grows(s, t) && Grows(t, u)
    ensures Grows(s, u)
  {
  }

  lemma GrownRefreshed(s: Sched, t: Sched)
    requires Refreshed(s) && WellFormed(t) && Grows(s, t) && (t.nav.Some? ==> !t.nav.value.state.IsTerminal())
    ensures Refreshed(t)
  {
    assert forall id | id in t.navInt :: s.navInt[id] < |s.tasks|;
  }

  lemma GroupGrows(s: Sched)
    requires Refreshed(s) && s.queue != [] && s.queue[0].Actions?
    ensures Refreshed(StartGroup(s)) && Grows(s, StartGroup(s)) && |StartGroup(s).queue| < |s.queue|
  {
    var g := s.queue[0].group;
    var t := s.(segment := None, blocking := g.ceiling, queue := s.queue[1..],
                hist := s.hist + [GroupStarted(g, false, s.tasks, s.nav)]);
    O.GroupIs(s);
    StartAllGrows(t, g.actions, |s.hist|);
    hide StartAll;
    GrownRefreshed(s, StartGroup(s));
  }

  lemma StepGrows(s: Sched)
    requires Refreshed(s) && s.queue != [] && s.queue[0].Step?
    ensures Refreshed(StartStep(s)) && Grows(s, StartStep(s)) && |StartStep(s).queue| < |s.queue|
  {
    O.DriveIs(s);
    hide StartStep, SegmentEnd, N.Effect;
    GrownRefreshed(s, StartStep(s));
  }

  lemma PatchGrows(s: Sched)
    requires Refreshed(s)
    ensures Refreshed(PatchSegment(s)) && Grows(s, PatchSegment(s))
  {
    O.PatchIs(s);
    hide PatchSegment, SegmentEnd;
    GrownRefreshed(s, PatchSegment(s));
  }

  lemma RefreshRefreshed(s: Sched)
    requires WellFormed(s) && Refresh(s).Ok?
    ensures Refreshed(Refresh(s).s)
  {
    UpdateTasksMaps(s);
    hide UpdateTasks, N.Effect;
  }

  lemma NavIntActive(t: Sched)
    requires Owned(t) && Refreshed(t)
    ensures forall id | id in t.navInt :: id in t.active
  {
    forall id | id in t.navInt
      ensures id in t.active
    {
      assert t.tasks[t.navInt[id]].action.id == id;
    }
  }

  lemma NothingLeft(t: Sched)
    requires Owned(t) && Refreshed(t) && t.active == map[]
    ensures t.running == map[] && t.paused == map[] && t.navInt == map[]
  {
    NavIntActive(t);
  }

  // Idle states /////////////////////////////////////////////////////////////////////////////////

  /** No action is active, nothing drives and the navigation-interrupting tasks are live. */
  ghost predicate Still(s: Sched)
  {
    Refreshed(s) && s.active == map[] && s.nav.None?
  }

  /** In the idle states nothing is active; when idle, nothing that is queued can start either. */
  ghost predicate Settled(s: Sched)
  {
    && (s.mode == Idle ==> Still(s) && Blocked(s))
    && (s.mode == IdlePaused ==> Still(s))
  }

  lemma BusySettles(s: Sched)
    requires s.mode != Idle && s.mode != IdlePaused
    ensures Settled(s)
  {
  }

  lemma SameStill(s: Sched, t: Sched)
    requires Still(s) && t.tasks == s.tasks && t.active == s.active && t.navInt == s.navInt && t.nav == s.nav
    requires WellFormed(t)
    ensures Still(t)
    ensures t.queue == s.queue && Blocked(s) ==> Blocked(t)
  {
    hide WellFormed;
  }

  lemma EnterSettled(t: Sched, mode: Mode, notify: bool)
    requires Still(t) && (mode == Idle ==> Blocked(t))
    ensures Settled(Enter(t, mode, notify))
  {
    SameStill(t, Enter(t, mode, notify));
    hide Still, Blocked, WellFormed;
  }

  lemma {:induction false} FetchStill(s: Sched)
    requires Refreshed(s)
    requires Fetch(s).active == map[] && (Fetch(s).nav.None? || Fetch(s).nav.value.state.IsTerminal())
    ensures Still(Fetch(s)) && Blocked(Fetch(s))
  {
    FetchRefreshed(s);
    FetchBlocked(s);
    hide Fetch, WellFormed;
  }

  // Updates /////////////////////////////////////////////////////////////////////////////////////

  lemma UpdateActiveSettles(s: Sched)
    requires WellFormed(s) && s.mode == Active
    ensures Settled(UpdateActive(s).0.s)
  {
    RefreshKeepsMode(s);
    hide Fetch, Refresh, WellFormed, Still, Blocked, Enter, Refreshed, Settled;
    if Refresh(s).Ok? {
      var t := Fetch(Refresh(s).s);
      if t.active == map[] && (t.nav.None? || t.nav.value.state.IsTerminal()) {
        RefreshRefreshed(s);
        FetchStill(Refresh(s).s);
        EnterSettled(t, Idle, true);
      } else {
        EnteredMode(t, Active, false);
        BusySettles(Enter(t, Active, false));
      }
    } else {
      BusySettles(Refresh(s).s);
    }
  }

  lemma EnteredMode(t: Sched, mode: Mode, notify: bool)
    ensures Enter(t, mode, notify).mode == mode
  {
  }

  lemma UpdateCancelingSettles(s: Sched)
    requires WellFormed(s) && s.mode == Canceling
    ensures Settled(UpdateCanceling(s).0.s)
  {
    RefreshKeepsMode(s);
    hide Fetch, Refresh, WellFormed, Still, Blocked, Enter, Refreshed, Settled;
    if Refresh(s).Ok? {
      var t := Fetch(Refresh(s).s);
      if t.active == map[] && t.nav.None? {
        RefreshRefreshed(s);
        FetchStill(Refresh(s).s);
        EnterSettled(t, Idle, true);
      } else {
        EnteredMode(t, Canceling, false);
        BusySettles(Enter(t, Canceling, false));
      }
    } else {
      BusySettles(Refresh(s).s);
    }
  }

  lemma UpdateIdleSettles(s: Sched)
    requires Still(s) && s.mode == Idle
    ensures Settled(UpdateIdle(s).0.s)
  {
    hide Fetch, WellFormed, Blocked, Enter, Refreshed, Settled;
    var t := Fetch(s);
    if t.nav.None? && t.active == map[] {
      FetchStill(s);
      EnterSettled(t, Idle, false);
    } else {
      EnteredMode(t, Active, true);
      BusySettles(Enter(t, Active, true));
    }
  }

  lemma ResumingMode(s: Sched)
    requires WellFormed(s) && s.mode == Resuming
    ensures UpdateResuming(s).0.s.mode in {Resuming, Active}
  {
    hide *;
    RefreshKeepsMode(s);
    O.UpdateResumingIs(s);
    EnteredMode(Refresh(s).s, Resuming, false);
    EnteredMode(Refresh(s).s, Active, true);
  }

  lemma PausingMode(s: Sched)
    requires WellFormed(s) && s.mode == Pausing
    ensures UpdatePausing(s).0.s.mode in {Pausing, Paused}
  {
    hide *;
    RefreshKeepsMode(s);
    O.UpdatePausingIs(s);
    EnteredMode(Refresh(s).s, Pausing, false);
    EnteredMode(Refresh(s).s, Paused, true);
  }

  lemma PausedMode(s: Sched)
    requires WellFormed(s) && s.mode == Paused
    ensures UpdatePaused(s).0.s.mode == Paused
  {
    RefreshKeepsMode(s);
    hide Refresh, WellFormed;
  }

  lemma InterruptingRests(s: Sched)
    requires WellFormed(s)
    ensures UpdateInterrupting(s).0.s.mode in {Active, Interrupting}
  {
    hide UpdateTasks, StartInstant, WellFormed, InstantReady;
  }

  lemma StateUpdateSettles(s: Sched)
    requires WellFormed(s) && (s.mode == Idle || s.mode == IdlePaused ==> Still(s))
    ensures Settled(StateUpdate(s).0.s)
  {
    hide WellFormed, Still, Blocked;
    hide UpdateIdle, UpdateActive, UpdateCanceling, UpdateResuming, UpdatePausing, UpdatePaused, UpdateInterrupting;
    match s.mode
    case Idle => UpdateIdleSettles(s);
    case IdlePaused => EnterSettled(s, IdlePaused, false);
    case Active => UpdateActiveSettles(s);
    case Canceling => UpdateCancelingSettles(s);
    case Resuming => ResumingMode(s);
    case Pausing => PausingMode(s);
    case Paused => PausedMode(s);
    case Interrupting => InterruptingRests(s);
    case Failed =>
  }

  lemma {:induction false} UpdateSettles(s: Sched)
    requires WellFormed(s) && (s.mode == Idle || s.mode == IdlePaused ==> Still(s))
    ensures Settled(Update(s).s)
    decreases if s.mode == Resuming then 1 else 0
  {
    var r := StateUpdate(s);
    StateUpdateSettles(s);
    hide StateUpdate, Settled, WellFormed, Still;
    if r.0.Ok? && r.1 {
      UpdateSettles(r.0.s);
    }
  }

  // Cancelling in the idle state ////////////////////////////////////////////////////////////////

  lemma StillRefreshes(s: Sched)
    requires Still(s)
    ensures var u := UpdateTasks(s);
            && Refresh(s) == Ok(u) && Still(u) && u.mode == s.mode && u.queue == s.queue
            && (Blocked(s) ==> Blocked(u)) && u == s.(running := u.running, paused := u.paused)
  {
    var u := UpdateTasks(s);
    assert u == s.(running := u.running, paused := u.paused) by {
      assert Keep(s.active, s.tasks, LiveOnly) == s.active;
    }
    assert DropNavInt(u) == u by {
      assert Keep(u.navInt, u.tasks, LiveOnly) == u.navInt;
    }
    SameStill(s, u);
    hide UpdateTasks, DropNavInt, Still, Blocked, WellFormed;
  }

  lemma {:induction false} BlockedFetches(s: Sched)
    requires Blocked(s) && s.nav.None?
    ensures Fetch(s) == s
  {
    hide StartGroup, StartStep;
  }

  /** A cancel of the idle scheduler goes through Canceling and returns to Idle in the same call. But for entries of the
      running and paused maps that are not active, only the announcement of Idle and the segment change. */
  lemma CancelIdleReturns(s: Sched)
    requires s.mode == Idle && Still(s) && Blocked(s)
    ensures WellFormed(s) && WellFormed(Enter(s, Canceling, false))
    ensures Update(Enter(s, Canceling, false)) == Ok(Enter(Refresh(Enter(s, Canceling, false)).s, Idle, true))
    ensures var t := Update(Enter(s, Canceling, false)).s;
            t == s.(out := s.out + [OrderStatus(Idle)], segment := None, running := t.running, paused := t.paused)
  {
    var t := Enter(s, Canceling, false);
    SameStill(s, t);
    StillRefreshes(t);
    BlockedFetches(Refresh(t).s);
    hide Refresh, Fetch, UpdateTasks, Blocked, WellFormed;
  }

  // Calls ///////////////////////////////////////////////////////////////////////////////////////

  /** What transitions of tasks leave of the rest of the scheduler. */
  lemma {:induction false} TransitionAllFrame(s: Sched, refs: seq<nat>, tr: A.ActionTransition)
    requires InRange(refs, |s.tasks|)
    ensures var t := TransitionAll(s, refs, tr).s; t == s.(tasks := t.tasks, out := t.out)
    decreases |refs|
  {
    hide A.Effect, A.Next;
    if refs != [] && TaskTransition(s, refs[0], tr).Ok? {
      TransitionAllFrame(TaskTransition(s, refs[0], tr).s, refs[1..], tr);
    }
  }

  lemma CancelActiveMode(s: Sched)
    requires WellFormed(s)
    ensures CancelActive(s).0.s.mode in {s.mode, Canceling} && !CancelActive(s).1
  {
    RefsInRange(s.active, s.tasks);
    TransitionAllFrame(s, RefsOf(s.active), A.DoCancel);
    hide WellFormed, TransitionAll, RefsOf, N.Effect, N.Transfer, ForgetItems, ForgetGroups, StepsToStop;
  }

  lemma PauseActiveMode(s: Sched)
    requires WellFormed(s)
    ensures PauseActive(s).0.s.mode in {s.mode, Pausing} && !PauseActive(s).1
  {
    RefsInRange(s.running, s.tasks);
    TransitionAllFrame(s, RefsOf(s.running), A.DoPause);
    hide WellFormed, TransitionAll, RefsOf, N.Effect, N.Transfer;
  }

  lemma ResumePausedMode(s: Sched)
    requires WellFormed(s)
    ensures ResumePaused(s).0.s.mode in {s.mode, Resuming}
    ensures ResumePaused(s).0.Ok? ==> ResumePaused(s).0.s.mode == Resuming
  {
    RefsInRange(s.paused, s.tasks);
    TransitionAllFrame(s, RefsOf(s.paused), A.DoResume);
    hide WellFormed, TransitionAll, RefsOf, N.Effect, N.Transfer;
  }

  lemma CancelSettles(s: Sched)
    requires WellFormed(s) && Settled(s)
    ensures Settled(Apply(s, OpCancel).s)
  {
    if s.mode == Idle {
      UpdateSettles(Enter(s, Canceling, false));
      hide WellFormed, Update, Settled, CancelActive;
    } else if s.mode == IdlePaused {
      SameStill(s, ClearQueues(s, false));
      hide WellFormed, Still, ForgetItems, ForgetGroups, Blocked;
    } else {
      CancelActiveMode(s);
      hide WellFormed, CancelActive, Update, Still, Blocked;
    }
  }

  lemma PauseSettles(s: Sched)
    requires WellFormed(s) && Settled(s)
    ensures Settled(Apply(s, OpPause).s)
  {
    if s.mode == Idle {
      EnterSettled(s, IdlePaused, true);
    }
    PauseActiveMode(s);
    hide WellFormed, PauseActive, Update, Still, Blocked;
  }

  lemma ResumeSettles(s: Sched)
    requires WellFormed(s) && Settled(s)
    ensures Settled(Apply(s, OpResume).s)
  {
    ResumeIs(s);
    if s.mode == IdlePaused {
      SameStill(s, Enter(s, Idle, true));
      UpdateSettles(Enter(s, Idle, true));
      hide Settled;
    } else if s.mode == Paused {
      ResumePausedMode(s);
      if ResumePaused(s).0.Ok? {
        UpdateSettles(ResumePaused(s).0.s);
      } else {
        BusySettles(ResumePaused(s).0.s);
      }
      hide Settled;
    }
    hide WellFormed, ResumePaused, Update, Still, Blocked, Apply;
  }

  lemma ResumeIs(s: Sched)
    requires WellFormed(s)
    ensures var o := Apply(s, OpResume);
            && WellFormed(Enter(s, Idle, true))
            && (s.mode == IdlePaused ==> o == Update(Enter(s, Idle, true)))
            && (s.mode == Paused && ResumePaused(s).0.Ok? ==> o == Update(ResumePaused(s).0.s))
            && (s.mode == Paused && !ResumePaused(s).0.Ok? ==> o == ResumePaused(s).0)
            && (s.mode != IdlePaused && s.mode != Paused ==> o == Throw(s))
  {
    hide Refers, Update, TransitionAll, NavTransition, RefsOf;
  }

  lemma ActionSettles(s: Sched, op: Op)
    requires WellFormed(s) && op.OpAction? && Settled(s)
    ensures Settled(Apply(s, op).s)
  {
    if op.id in s.active {
      var r, tr := s.active[op.id], op.actionTransition;
      assert s.mode != Idle && s.mode != IdlePaused;
      if TaskTransition(s, r, tr).Ok? {
        var t := TaskTransition(s, r, tr).s;
        assert t.mode == s.mode;
        hide WellFormed, Update, TaskTransition, Settled, Still, Blocked;
        UpdateSettles(t);
      }
    }
  }

  lemma NavigationSettles(s: Sched, op: Op)
    requires WellFormed(s) && op.OpNavigation? && Settled(s)
    ensures Settled(Apply(s, op).s)
  {
    var tr := op.navTransition;
    SettledDrives(s);
    hide *;
    assert op == OpNavigation(tr);
    O.NavigationIs(s, tr);
    if s.nav.Some? {
      O.NavIs(s, tr);
      NavMovesOn(s, tr);
      if NavTransition(s, tr).Ok? {
        UpdateSettles(NavTransition(s, tr).s);
      }
    }
  }

  lemma SettledDrives(s: Sched)
    requires Settled(s)
    ensures s.nav.Some? ==> s.mode != Idle && s.mode != IdlePaused
  {
    hide Blocked, Refreshed;
  }

  lemma NavMovesOn(s: Sched, tr: N.NavTransition)
    requires WellFormed(s) && s.nav.Some?
    ensures WellFormed(NavTransition(s, tr).s) && NavTransition(s, tr).s.mode == s.mode
  {
    hide N.Transfer, N.Effect, Refers;
  }

  lemma IdleInterrupts(s: Sched)
    requires WellFormed(s) && s.active == map[] && s.nav.None?
    ensures DoInterrupt(s) == Ok(s)
  {
    assert RefsOf(s.active) == [];
  }

  lemma {:induction false} DoInterruptFrame(s: Sched)
    requires WellFormed(s)
    ensures DoInterrupt(s).s.mode == s.mode && DoInterrupt(s).s.interrupts == s.interrupts
  {
    if s.interrupts != [] {
      var ceiling := s.interrupts[0].ceiling;
      var nav := if ceiling != NONE && s.nav.Some? then NavTransition(s, N.DoPause) else Ok(s);
      if nav.Ok? {
        RefsInRange(s.active, s.tasks);
        TransitionAllFrame(nav.s, ConflictingRefs(RefsOf(s.active), s.tasks, ceiling), A.DoCancel);
      }
      hide WellFormed, TransitionAll, RefsOf, ConflictingRefs, N.Effect, N.Transfer;
    }
  }

  lemma InterruptSettles(s: Sched)
    requires WellFormed(s) && Settled(s)
    ensures Settled(Finish(StateInterrupt(s)).s)
  {
    hide *;
    O.StateInterruptIs(s);
    O.FinishIs(StateInterrupt(s));
    DoInterruptFrame(s);
    if s.mode == Idle {
      IdleSettled(s);
      IdleInterrupts(s);
    }
    if (s.mode == Idle || s.mode == Active) && DoInterrupt(s).Ok? {
      var t := Enter(DoInterrupt(s).s, Interrupting, true);
      EnteredMode(DoInterrupt(s).s, Interrupting, true);
      O.UpdateIs(t);
      O.StateUpdateIs(t);
      InterruptingRests(t);
      BusySettles(Update(t).s);
    } else if s.mode == Active {
      BusySettles(DoInterrupt(s).s);
    }
  }

  lemma IdleSettled(s: Sched)
    requires Settled(s) && s.mode == Idle
    ensures s.active == map[] && s.nav.None?
  {
    hide Refreshed, Blocked;
  }

  lemma AcceptSettles(s: Sched, op: Op)
    requires WellFormed(s) && Settled(s)
    ensures !op.OpCommit? ==> Settled(Accept(s, op))
    ensures WellFormed(Accept(s, op)) && Accept(s, op).mode == s.mode
    ensures s.mode == Idle || s.mode == IdlePaused ==> Still(Accept(s, op))
  {
    if s.mode == Idle || s.mode == IdlePaused {
      SameStill(s, Accept(s, op));
    }
    hide WellFormed, Still, Blocked;
  }

  lemma ApplySettles(s: Sched, op: Op)
    requires WellFormed(s) && Settled(s)
    ensures Settled(Apply(s, op).s)
  {
    AcceptSettles(s, op);
    match op
    case OpCancel => CancelSettles(s);
    case OpPause => PauseSettles(s);
    case OpResume => ResumeSettles(s);
    case OpUpdate => UpdateSettles(s);
    case OpAction(_, _) => ActionSettles(s, op);
    case OpNavigation(_) => NavigationSettles(s, op);
    case OpInterrupt(_) => hide WellFormed, Settled, StateInterrupt, Finish; InterruptSettles(Accept(s, op));
    case OpEnqueue(_) => hide WellFormed, Settled;
    case OpCommit => hide WellFormed, Settled, Update; UpdateSettles(Accept(s, op));
  }

  lemma NothingSettled()
    ensures Settled(Run([]))
  {
  }

  /** After every call of every run nothing is active in the idle states, and when the scheduler is idle nothing that
      is queued can start. */
  lemma {:induction false} RunSettled(ops: seq<Op>)
    ensures Settled(Run(ops))
  {
    hide *;
    if ops == [] {
      NothingSettled();
    } else {
      var before := ops[..|ops| - 1];
      RunSettled(before);
      RunLast(ops);
      ApplySettles(Run(before), ops[|ops| - 1]);
    }
  }

  lemma StillRests(s: Sched)
    requires Owned(s) && Still(s)
    ensures NothingActive(s) && (Blocked(s) ==> Drained(s))
  {
    NothingLeft(s);
    hide Owned, Refreshed;
  }

  /** No committed work is stranded: after every call of every run with unique ids, an idle scheduler
      has an empty receive queue, no task in any map and no navigation task; an idle-paused one has
      no task and no navigation. */
  lemma {:induction false} IdleIsDrained(ops: seq<Op>)
    requires UniqueIds(ops)
    ensures Rests(Run(ops))
  {
    RunSettled(ops);
    RunOwned(ops);
    hide Owned, Distinct, UniqueIds, Run, Still, Blocked, Drained, NothingActive;
    if Run(ops).mode == Idle || Run(ops).mode == IdlePaused {
      StillRests(Run(ops));
    }
  }
}
