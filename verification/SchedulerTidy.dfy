/** What holds of the scheduler between any two calls of any run. */
module SchedulerTidy {
  import opened Vda
  import opened Events
  import A = ActionTasks
  import N = NavigationTasks
  import opened SchedulerModel
  import O = SchedulerOperations
  import opened SchedulerMoves
  import opened SchedulerAccounts
  import opened SchedulerIdle

  ghost predicate NavLive(s: Sched)
  {
    s.nav.Some? ==> !s.nav.value.state.IsTerminal()
  }

  /** The idle states are settled, a navigation task has not ended, Failed is never entered, and in Paused no
      navigation-interrupting task has ended. */
  ghost predicate Tidy(s: Sched)
  {
    && WellFormed(s) && Settled(s) && NavLive(s) && s.mode != Failed
    && (s.mode == Paused ==> Refreshed(s))
  }

  // Commands ////////////////////////////////////////////////////////////////////////////////////

  lemma CommandKeepsLive(st: A.ActionState, tr: A.ActionTransition)
    requires A.IsCommand(tr) && A.Next(st, tr).Some?
    ensures !st.IsTerminal() && !A.Next(st, tr).value.IsTerminal()
    ensures A.Next(st, tr).value != st && A.Effect(0, A.Next(st, tr).value) != []
  {
  }

  lemma SetTaskRefreshed(s: Sched, r: nat, st: A.ActionState)
    requires Refreshed(s) && r < |s.tasks| && !st.IsTerminal()
    ensures Refreshed(SetTask(s, r, st))
  {
    hide A.Effect;
  }

  lemma {:induction false} CommandsKeepRefreshed(s: Sched, refs: seq<nat>, tr: A.ActionTransition)
    requires InRange(refs, |s.tasks|) && A.IsCommand(tr) && Refreshed(s)
    ensures Refreshed(TransitionAll(s, refs, tr).s)
    decreases |refs|
  {
    hide A.Effect, A.Next, Refreshed;
    if refs != [] {
      var first := TaskTransition(s, refs[0], tr);
      if first.Ok? {
        CommandKeepsLive(s.tasks[refs[0]].state, tr);
        SetTaskRefreshed(s, refs[0], A.Next(s.tasks[refs[0]].state, tr).value);
        CommandsKeepRefreshed(first.s, refs[1..], tr);
      }
    }
  }

  lemma NavCommandKeepsLive(s: Sched, tr: N.NavTransition)
    requires s.nav.Some? && NavLive(s) && (tr.DoPause? || tr.DoResume? || tr.DoCancel?)
    ensures var t := NavTransition(s, tr).s;
            && NavLive(t) && t.mode == s.mode && t.interrupts == s.interrupts
            && (Refreshed(s) ==> Refreshed(t))
  {
    hide N.Effect;
  }

  // Updates /////////////////////////////////////////////////////////////////////////////////////

  /** Whether it returns or throws, refreshing leaves live navigation-interrupting tasks and a live navigation. */
  lemma AnyRefreshRefreshed(s: Sched)
    requires WellFormed(s)
    ensures Refreshed(Refresh(s).s)
  {
    if Refresh(s).Ok? {
      RefreshRefreshed(s);
    } else {
      UpdateTasksLive(s);
      hide UpdateTasks, N.Effect, N.Transfer;
    }
  }

  ghost predicate NavFailed(s: Sched)
  {
    s.nav.Some? && s.nav.value.state.NavFailed?
  }

  /** What updating the tasks leaves of the rest of the scheduler. */
  lemma UpdateTasksFrame(s: Sched)
    requires WellFormed(s)
    ensures var t := UpdateTasks(s);
            && t.tasks == s.tasks && t.navInt == s.navInt && t.mode == s.mode && t.staging == s.staging
            && t.nav == (if NavLive(s) then s.nav else None)
            && t.interrupts == (if NavFailed(s) then [] else s.interrupts)
  {
    UpdateMapsFrame(s);
    hide UpdateMaps, ForgetItems, ForgetGroups, Refers;
  }

  lemma UpdateTasksLive(s: Sched)
    requires WellFormed(s)
    ensures NavLive(UpdateTasks(s))
  {
    UpdateTasksFrame(s);
    hide UpdateTasks;
  }

  lemma EnterRefreshed(s: Sched, mode: Mode, notify: bool)
    requires Refreshed(s)
    ensures var t := Enter(s, mode, notify); Refreshed(t) && NavLive(t) && t.mode == mode
  {
  }

  ghost predicate AfterUpdate(s: Sched)
  {
    NavLive(s) && s.mode != Failed && (s.mode == Paused ==> Refreshed(s))
  }

  lemma EnteredAfter(s: Sched, mode: Mode, notify: bool)
    requires Refreshed(s) && mode != Failed
    ensures AfterUpdate(Enter(s, mode, notify))
  {
    EnterRefreshed(s, mode, notify);
  }

  lemma UpdateIdleTidies(s: Sched)
    requires Still(s) && s.mode == Idle
    ensures AfterUpdate(UpdateIdle(s).0.s)
  {
    FetchRefreshed(s);
    EnteredAfter(Fetch(s), Active, true);
    EnteredAfter(Fetch(s), Idle, false);
    hide Fetch, AfterUpdate, Enter, WellFormed;
  }

  lemma UpdateActiveTidies(s: Sched)
    requires WellFormed(s) && s.mode == Active
    ensures AfterUpdate(UpdateActive(s).0.s)
  {
    AnyRefreshRefreshed(s);
    RefreshKeepsMode(s);
    ThrownAfter(Refresh(s).s);
    var r := Refresh(s).s;
    FetchRefreshed(r);
    EnteredAfter(Fetch(r), Active, false);
    EnteredAfter(Fetch(r), Idle, true);
    hide Fetch, AfterUpdate, Enter, WellFormed, Refresh;
  }

  lemma ThrownAfter(s: Sched)
    requires Refreshed(s) && s.mode != Failed
    ensures AfterUpdate(s)
  {
  }

  lemma UpdateCancelingTidies(s: Sched)
    requires WellFormed(s) && s.mode == Canceling
    ensures AfterUpdate(UpdateCanceling(s).0.s)
  {
    AnyRefreshRefreshed(s);
    RefreshKeepsMode(s);
    ThrownAfter(Refresh(s).s);
    var r := Refresh(s).s;
    FetchRefreshed(r);
    EnteredAfter(Fetch(r), Canceling, false);
    EnteredAfter(Fetch(r), Idle, true);
    hide Fetch, AfterUpdate, Enter, WellFormed, Refresh;
  }

  lemma UpdateResumingTidies(s: Sched)
    requires WellFormed(s) && s.mode == Resuming
    ensures AfterUpdate(UpdateResuming(s).0.s)
  {
    AnyRefreshRefreshed(s);
    RefreshKeepsMode(s);
    ThrownAfter(Refresh(s).s);
    EnteredAfter(Refresh(s).s, Resuming, false);
    EnteredAfter(Refresh(s).s, Active, true);
    hide AfterUpdate, Enter, WellFormed, Refresh;
  }

  lemma UpdatePausingTidies(s: Sched)
    requires WellFormed(s) && s.mode == Pausing
    ensures AfterUpdate(UpdatePausing(s).0.s)
  {
    AnyRefreshRefreshed(s);
    RefreshKeepsMode(s);
    ThrownAfter(Refresh(s).s);
    EnteredAfter(Refresh(s).s, Pausing, false);
    EnteredAfter(Refresh(s).s, Paused, true);
    hide AfterUpdate, Enter, WellFormed, Refresh;
  }

  lemma UpdatePausedTidies(s: Sched)
    requires WellFormed(s) && s.mode == Paused
    ensures AfterUpdate(UpdatePaused(s).0.s)
  {
    AnyRefreshRefreshed(s);
    RefreshKeepsMode(s);
    ThrownAfter(Refresh(s).s);
    EnteredAfter(Refresh(s).s, Paused, false);
    hide AfterUpdate, Enter, WellFormed, Refresh;
  }

  lemma UpdateInterruptingTidies(s: Sched)
    requires WellFormed(s) && s.mode == Interrupting
    ensures AfterUpdate(UpdateInterrupting(s).0.s)
  {
    UpdateTasksLive(s);
    InterruptingRests(s);
    var t := UpdateTasks(s);
    assert FetchInterrupt(t).nav == t.nav by {
      hide UpdateTasks, InstantReady;
      if t.interrupts != [] && InstantReady(t) {
        assert StartInstant(t).nav == t.nav;
      }
    }
    hide UpdateTasks, FetchInterrupt, WellFormed;
  }

  lemma StateUpdateTidies(s: Sched)
    requires WellFormed(s) && s.mode != Failed && (s.mode == Idle || s.mode == IdlePaused ==> Still(s))
    ensures AfterUpdate(StateUpdate(s).0.s)
  {
    hide WellFormed, AfterUpdate, Refreshed;
    hide UpdateIdle, UpdateActive, UpdateCanceling, UpdateResuming, UpdatePausing, UpdatePaused, UpdateInterrupting;
    match s.mode
    case Idle => UpdateIdleTidies(s);
    case IdlePaused => EnteredAfter(s, IdlePaused, false);
    case Active => UpdateActiveTidies(s);
    case Canceling => UpdateCancelingTidies(s);
    case Resuming => UpdateResumingTidies(s);
    case Pausing => UpdatePausingTidies(s);
    case Paused => UpdatePausedTidies(s);
    case Interrupting => UpdateInterruptingTidies(s);
  }

  lemma {:induction false} UpdateTidies(s: Sched)
    requires WellFormed(s) && s.mode != Failed && (s.mode == Idle || s.mode == IdlePaused ==> Still(s))
    ensures AfterUpdate(Update(s).s)
    decreases if s.mode == Resuming then 1 else 0
  {
    var r := StateUpdate(s);
    StateUpdateTidies(s);
    hide StateUpdate, AfterUpdate, WellFormed, Still;
    if r.0.Ok? && r.1 {
      UpdateTidies(r.0.s);
    }
  }

  // Calls ///////////////////////////////////////////////////////////////////////////////////////

  lemma TidyParts(s: Sched)
    requires Tidy(s)
    ensures WellFormed(s) && Settled(s) && NavLive(s) && s.mode != Failed && AfterUpdate(s)
    ensures s.mode == Idle ==> Blocked(s)
    ensures s.mode == Idle || s.mode == IdlePaused ==> Still(s)
    ensures s.mode == Idle || s.mode == IdlePaused ==> s.active == map[] && s.nav.None?
  {
    hide Refreshed, Blocked, WellFormed;
  }

  /** What cancelling leaves of the tasks and the navigation before the queues are cleared. */
  lemma {:induction false} CancelTasksTidies(s: Sched)
    requires Tidy(s) && (s.mode == Active || s.mode == Paused) && InRange(RefsOf(s.active), |s.tasks|)
    ensures var t := TransitionAll(s, RefsOf(s.active), A.DoCancel).s;
            && AfterUpdate(t) && t.mode == s.mode
            && (t.nav.Some? ==> var u := NavTransition(t, N.DoCancel).s; AfterUpdate(u) && u.mode == s.mode)
  {
    var refs := RefsOf(s.active);
    var t := TransitionAll(s, refs, A.DoCancel).s;
    TransitionAllFrame(s, refs, A.DoCancel);
    if Refreshed(s) {
      CommandsKeepRefreshed(s, refs, A.DoCancel);
    }
    if t.nav.Some? {
      NavCommandKeepsLive(t, N.DoCancel);
    }
    hide Settled, WellFormed, TransitionAll, NavTransition, RefsOf, Refreshed;
  }

  lemma ClearedAfter(s: Sched)
    requires AfterUpdate(s)
    ensures AfterUpdate(Enter(ClearQueues(s, true), Canceling, true))
  {
    hide Refreshed, ForgetItems, ForgetGroups, StepsToStop;
  }

  lemma CancelActiveTidies(s: Sched)
    requires Tidy(s) && (s.mode == Active || s.mode == Paused)
    ensures AfterUpdate(CancelActive(s).0.s)
  {
    RefsInRange(s.active, s.tasks);
    CancelTasksTidies(s);
    var t := TransitionAll(s, RefsOf(s.active), A.DoCancel).s;
    ClearedAfter(t);
    if t.nav.Some? {
      ClearedAfter(NavTransition(t, N.DoCancel).s);
    }
    hide Tidy, Refers, TransitionAll, NavTransition, RefsOf, AfterUpdate, ClearQueues, Enter;
  }

  lemma LiveAs(s: Sched, t: Sched)
    requires NavLive(s) && t.nav == s.nav
    ensures NavLive(t)
  {
  }

  lemma BusyAfter(t: Sched)
    requires NavLive(t) && t.mode != Failed && t.mode != Paused
    ensures AfterUpdate(t)
  {
    hide NavLive;
  }

  lemma EnteredBusy(t: Sched, mode: Mode)
    requires NavLive(t) && mode != Failed && mode != Paused
    ensures AfterUpdate(Enter(t, mode, true))
  {
    hide Refreshed;
  }

  lemma PauseActiveTidies(s: Sched)
    requires Tidy(s) && s.mode == Active
    ensures AfterUpdate(PauseActive(s).0.s)
  {
    hide *;
    TidyParts(s);
    O.PauseActiveIs(s);
    var refs := RefsOf(s.running);
    var t := TransitionAll(s, refs, A.DoPause).s;
    TransitionAllFrame(s, refs, A.DoPause);
    LiveAs(s, t);
    BusyAfter(t);
    if t.nav.Some? {
      NavCommandKeepsLive(t, N.DoPause);
      BusyAfter(NavTransition(t, N.DoPause).s);
      EnteredBusy(NavTransition(t, N.DoPause).s, Pausing);
    }
    EnteredBusy(t, Pausing);
  }

  /** Resuming touches no task that has ended, so that the update that follows finds the interrupting tasks live. */
  lemma ResumePausedTidies(s: Sched)
    requires Tidy(s) && s.mode == Paused
    ensures AfterUpdate(ResumePaused(s).0.s) && Refreshed(ResumePaused(s).0.s)
  {
    RefsInRange(s.paused, s.tasks);
    var refs := RefsOf(s.paused);
    var t := TransitionAll(s, refs, A.DoResume).s;
    TransitionAllFrame(s, refs, A.DoResume);
    CommandsKeepRefreshed(s, refs, A.DoResume);
    if t.nav.Some? {
      NavCommandKeepsLive(t, N.DoResume);
      var u := NavTransition(t, N.DoResume).s;
      EnterRefreshed(u, Resuming, true);
    } else {
      EnterRefreshed(t, Resuming, true);
    }
    hide Settled, WellFormed, TransitionAll, NavTransition, RefsOf, Refreshed, Enter;
  }

  lemma DoInterruptTidies(s: Sched)
    requires WellFormed(s) && NavLive(s)
    ensures NavLive(DoInterrupt(s).s)
  {
    if s.interrupts != [] {
      var ceiling := s.interrupts[0].ceiling;
      if s.nav.Some? {
        NavCommandKeepsLive(s, N.DoPause);
      }
      var nav := if ceiling != NONE && s.nav.Some? then NavTransition(s, N.DoPause) else Ok(s);
      if nav.Ok? {
        RefsInRange(s.active, s.tasks);
        TransitionAllFrame(nav.s, ConflictingRefs(RefsOf(s.active), s.tasks, ceiling), A.DoCancel);
      }
      hide WellFormed, TransitionAll, RefsOf, ConflictingRefs, N.Effect, N.Transfer;
    }
  }

  lemma CancelTidies(s: Sched)
    requires Tidy(s)
    ensures AfterUpdate(Apply(s, OpCancel).s)
  {
    TidyParts(s);
    hide Tidy, Settled, Still, Blocked, AfterUpdate, WellFormed, Refreshed;
    CancelIs(s);
    if s.mode == Idle {
      EnteredMode(s, Canceling, false);
      UpdateTidies(Enter(s, Canceling, false));
      hide Apply;
    } else if s.mode == IdlePaused {
      SameAfter(s, ClearQueues(s, false));
      hide Apply, ClearQueues;
    } else if s.mode == Active || s.mode == Paused {
      CancelActiveTidies(s);
      hide Apply;
    } else {
      hide Apply;
    }
  }

  lemma SameAfter(s: Sched, t: Sched)
    requires AfterUpdate(s) && t.mode == s.mode && t.nav == s.nav && t.navInt == s.navInt && t.tasks == s.tasks
    requires WellFormed(t)
    ensures AfterUpdate(t)
  {
    hide WellFormed;
  }

  lemma CancelIs(s: Sched)
    requires WellFormed(s)
    ensures var o := Apply(s, OpCancel);
            && WellFormed(Enter(s, Canceling, false)) && WellFormed(ClearQueues(s, false))
            && ClearQueues(s, false).mode == s.mode && ClearQueues(s, false).nav == s.nav
            && ClearQueues(s, false).navInt == s.navInt && ClearQueues(s, false).tasks == s.tasks
            && (s.mode == Idle ==> o == Update(Enter(s, Canceling, false)))
            && (s.mode == IdlePaused ==> o == Ok(ClearQueues(s, false)))
            && (s.mode == Active || s.mode == Paused ==> o == CancelActive(s).0)
            && (s.mode !in {Idle, IdlePaused, Active, Paused} ==> o == Throw(s))
  {
    CancelActiveMode(s);
    hide Refers, Update, CancelActive, ForgetItems, ForgetGroups;
  }

  lemma PauseIs(s: Sched)
    requires WellFormed(s)
    ensures var o := Apply(s, OpPause);
            && (s.mode == Idle ==> o == Ok(Enter(s, IdlePaused, true)))
            && (s.mode == Active ==> o == PauseActive(s).0)
            && (s.mode !in {Idle, Active} ==> o == Throw(s))
  {
    PauseActiveMode(s);
    hide WellFormed, Update, PauseActive, Enter;
  }

  lemma PauseTidies(s: Sched)
    requires Tidy(s)
    ensures AfterUpdate(Apply(s, OpPause).s)
  {
    TidyParts(s);
    hide Settled, Blocked, AfterUpdate, WellFormed, Refreshed, Tidy;
    PauseIs(s);
    if s.mode == Idle {
      EnteredAfter(s, IdlePaused, true);
    } else if s.mode == Active {
      PauseActiveTidies(s);
    }
    hide Apply, PauseActive, Enter;
  }

  lemma ResumeTidies(s: Sched)
    requires Tidy(s)
    ensures AfterUpdate(Apply(s, OpResume).s)
  {
    TidyParts(s);
    hide *;
    ResumeIs(s);
    if s.mode == IdlePaused {
      StillEntered(s, Idle, true);
      UpdateTidies(Enter(s, Idle, true));
    } else if s.mode == Paused {
      ResumePausedTidies(s);
      ResumePausedMode(s);
      if ResumePaused(s).0.Ok? {
        UpdateTidies(ResumePaused(s).0.s);
      }
    }
  }

  lemma StillEntered(s: Sched, mode: Mode, notify: bool)
    requires Still(s)
    ensures var t := Enter(s, mode, notify); WellFormed(t) && Still(t) && t.mode == mode
  {
  }

  lemma ActionTidies(s: Sched, op: Op)
    requires op.OpAction? && Tidy(s)
    ensures AfterUpdate(Apply(s, op).s)
  {
    TidyParts(s);
    hide Tidy, Settled, Still, Blocked, AfterUpdate, Refreshed;
    if op.id in s.active {
      var r, tr := s.active[op.id], op.actionTransition;
      if TaskTransition(s, r, tr).Ok? {
        var t := TaskTransition(s, r, tr).s;
        assert t.mode == s.mode;
        hide WellFormed, Update, TaskTransition;
        UpdateTidies(t);
      }
    }
  }

  lemma NavigationTidies(s: Sched, op: Op)
    requires op.OpNavigation? && Tidy(s)
    ensures AfterUpdate(Apply(s, op).s)
  {
    TidyParts(s);
    hide Tidy, Settled, Still, Blocked, AfterUpdate, Refreshed;
    if s.nav.Some? {
      var tr := op.navTransition;
      if NavTransition(s, tr).Ok? {
        var t := NavTransition(s, tr).s;
        assert t.mode == s.mode && WellFormed(t);
        hide WellFormed, Update, NavTransition;
        UpdateTidies(t);
      }
    }
  }

  lemma InterruptIs(s: Sched, g: Group)
    requires WellFormed(s)
    ensures var t := s.(interrupts := s.interrupts + [g]);
            && WellFormed(t) && t.nav == s.nav && t.mode == s.mode && t.navInt == s.navInt && t.tasks == s.tasks
            && WellFormed(Enter(DoInterrupt(t).s, Interrupting, true))
            && Apply(s, OpInterrupt(g)) ==
               if s.mode != Idle && s.mode != Active then Throw(t)
               else if DoInterrupt(t).Throw? then DoInterrupt(t)
               else Update(Enter(DoInterrupt(t).s, Interrupting, true))
  {
    hide Refers, DoInterrupt, Update;
  }

  lemma InterruptTidies(s: Sched, g: Group)
    requires Tidy(s)
    ensures AfterUpdate(Apply(s, OpInterrupt(g)).s)
  {
    TidyParts(s);
    hide Tidy, Settled, Still, Blocked, WellFormed, Apply, DoInterrupt, Update;
    InterruptIs(s, g);
    var t := s.(interrupts := s.interrupts + [g]);
    DoInterruptTidies(t);
    DoInterruptFrame(t);
    if s.mode != Idle && s.mode != Active {
      SameAfter(s, t);
    } else if DoInterrupt(t).Ok? {
      UpdateTidies(Enter(DoInterrupt(t).s, Interrupting, true));
    }
  }

  lemma EnqueueTidies(s: Sched, item: Item)
    requires Tidy(s)
    ensures AfterUpdate(Apply(s, OpEnqueue(item)).s)
  {
    hide Settled;
  }

  lemma CommitIs(s: Sched)
    requires WellFormed(s)
    ensures var t := Accept(s, OpCommit);
            && WellFormed(t) && t.mode == s.mode && t.interrupts == s.interrupts && t.nav == s.nav
            && Apply(s, OpCommit) == Update(t)
  {
    hide Refers, Update;
  }

  lemma CommitTidies(s: Sched)
    requires Tidy(s)
    ensures AfterUpdate(Apply(s, OpCommit).s)
  {
    hide *;
    TidyParts(s);
    AcceptSettles(s, OpCommit);
    CommitIs(s);
    UpdateTidies(Accept(s, OpCommit));
  }

  lemma ApplyTidies(s: Sched, op: Op)
    requires Tidy(s)
    ensures Tidy(Apply(s, op).s)
  {
    TidyParts(s);
    ApplySettles(s, op);
    hide *;
    match op {
      case OpCancel => CancelTidies(s);
      case OpPause => PauseTidies(s);
      case OpResume => ResumeTidies(s);
      case OpUpdate => UpdateIs(s); UpdateTidies(s);
      case OpAction(_, _) => ActionTidies(s, op);
      case OpNavigation(_) => NavigationTidies(s, op);
      case OpInterrupt(g) => InterruptTidies(s, g);
      case OpEnqueue(item) => EnqueueTidies(s, item);
      case OpCommit => CommitTidies(s);
    }
    AllTidy(Apply(s, op).s);
  }

  lemma {:induction false} UpdateIs(s: Sched)
    requires WellFormed(s)
    ensures Apply(s, OpUpdate) == Update(s)
  {
    hide WellFormed, Update;
  }

  lemma AllTidy(s: Sched)
    requires WellFormed(s) && Settled(s) && AfterUpdate(s)
    ensures Tidy(s)
  {
    hide WellFormed, Settled, Refreshed;
  }

  lemma NothingTidy()
    ensures Tidy(Run([]))
  {
  }

  /** Every state between two calls of any run is tidy. */
  lemma {:induction false} RunTidy(ops: seq<Op>)
    ensures Tidy(Run(ops))
  {
    hide *;
    if ops == [] {
      NothingTidy();
    } else {
      RunTidy(ops[..|ops| - 1]);
      RunLast(ops);
      ApplyTidies(Run(ops[..|ops| - 1]), ops[|ops| - 1]);
    }
  }
}
