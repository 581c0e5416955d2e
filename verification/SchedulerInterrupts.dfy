/** When a group of instant actions is left waiting although nothing is being interrupted. */
module SchedulerInterrupts {
  import opened Vda
  import opened Events
  import A = ActionTasks
  import N = NavigationTasks
  import opened SchedulerModel
  import O = SchedulerOperations
  import opened SchedulerMoves
  import opened SchedulerIdle
  import opened SchedulerTidy
  import opened SchedulerThrows

  /** A group waits in the interrupt queue, and no update will start it. */
  predicate Stranded(s: Sched)
  {
    s.interrupts != [] && s.mode != Interrupting
  }

  /** The scheduler does not accept the group. */
  ghost predicate Refuses(s: Sched, g: Group)
    requires WellFormed(s)
  {
    var front := (s.interrupts + [g])[0].ceiling;
    !((s.mode == Idle || s.mode == Active) && (front != NONE ==> Drivable(s.nav)) && ConflictsCancelable(s, front))
  }

  /** The call is an instant group that is refused while nothing is being interrupted. */
  ghost predicate Strands(s: Sched, op: Op)
    requires WellFormed(s)
  {
    op.OpInterrupt? && s.mode != Interrupting && Refuses(s, op.group)
  }

  /** The call empties the interrupt queue, or accepts an instant group behind those that wait there. */
  ghost predicate Drains(s: Sched, op: Op)
    requires WellFormed(s)
  {
    match op
    case OpInterrupt(g) => !Refuses(s, g)
    case OpCancel => s.mode == IdlePaused || ((s.mode == Active || s.mode == Paused) && AllCancelable(s))
    case OpNavigation(tr) => tr == N.IsFailed && s.nav.Some?
    case _ => false
  }

  // Updates /////////////////////////////////////////////////////////////////////////////////////

  lemma {:induction false} FetchKeepsInterrupts(s: Sched)
    ensures Fetch(s).interrupts == s.interrupts
    decreases |s.queue|
  {
    hide StartAll, SegmentEnd, N.Effect;
    if s.queue == [] {
    } else if s.queue[0].Actions? {
      if GroupReady(s, s.queue[0].group) {
        FetchKeepsInterrupts(StartGroup(s));
      }
    } else if s.nav.Some? {
    } else if StepReady(s) {
      FetchKeepsInterrupts(StartStep(s));
    }
  }

  lemma RefreshInterrupts(s: Sched)
    requires WellFormed(s)
    ensures Refresh(s).s.interrupts == if NavFailed(s) then [] else s.interrupts
  {
    UpdateTasksFrame(s);
    hide UpdateTasks, N.Effect, N.Transfer;
  }

  lemma InterruptingDrains(s: Sched)
    requires WellFormed(s) && s.mode == Interrupting
    ensures !Stranded(UpdateInterrupting(s).0.s)
  {
    hide UpdateTasks, FetchInterrupt, WellFormed;
  }

  /** The interrupt queue after an update in another state than Interrupting. */
  ghost predicate LeavesQueue(s: Sched, t: Sched)
  {
    && t.mode != Interrupting
    && t.interrupts == (if NavFailed(s) && Refreshes(s.mode) then [] else s.interrupts)
  }

  lemma EnterLeaves(s: Sched, t: Sched, mode: Mode, notify: bool)
    requires LeavesQueue(s, t) && mode != Interrupting
    ensures LeavesQueue(s, Enter(t, mode, notify))
  {
  }

  lemma RefreshLeaves(s: Sched)
    requires WellFormed(s) && Refreshes(s.mode)
    ensures LeavesQueue(s, Refresh(s).s) && LeavesQueue(s, Fetch(Refresh(s).s))
  {
    RefreshInterrupts(s);
    RefreshKeepsMode(s);
    FetchKeepsInterrupts(Refresh(s).s);
    FetchKeepsMode(Refresh(s).s);
    hide Refresh, Fetch, WellFormed, NavFailed;
  }

  lemma FetchingLeaves(s: Sched)
    requires WellFormed(s) && (s.mode == Active || s.mode == Canceling)
    ensures LeavesQueue(s, StateUpdate(s).0.s)
  {
    RefreshLeaves(s);
    var t := Fetch(Refresh(s).s);
    EnterLeaves(s, t, Idle, true);
    EnterLeaves(s, t, s.mode, false);
    hide Refresh, Fetch, WellFormed, LeavesQueue, Enter;
  }

  lemma WaitingLeaves(s: Sched)
    requires WellFormed(s) && (s.mode == Resuming || s.mode == Pausing || s.mode == Paused)
    ensures LeavesQueue(s, StateUpdate(s).0.s)
  {
    hide *;
    RefreshingIs(s.mode);
    RefreshLeaves(s);
    EnterLeaves(s, Refresh(s).s, s.mode, false);
    EnterLeaves(s, Refresh(s).s, Active, true);
    EnterLeaves(s, Refresh(s).s, Paused, true);
    O.StateUpdateIs(s);
    O.UpdateResumingIs(s);
    O.UpdatePausingIs(s);
    O.UpdatePausedIs(s);
  }

  lemma IdleLeaves(s: Sched)
    requires WellFormed(s) && (s.mode == Idle || s.mode == IdlePaused || s.mode == Failed)
    ensures LeavesQueue(s, StateUpdate(s).0.s)
  {
    FetchKeepsInterrupts(s);
    FetchKeepsMode(s);
    hide Fetch, WellFormed, NavFailed;
  }

  lemma StateUpdateInterrupts(s: Sched)
    requires WellFormed(s)
    ensures if s.mode == Interrupting then !Stranded(StateUpdate(s).0.s) else LeavesQueue(s, StateUpdate(s).0.s)
  {
    hide StateUpdate, WellFormed, LeavesQueue;
    match s.mode
    case Interrupting => InterruptingDrains(s); InterruptingIs(s);
    case Active => FetchingLeaves(s);
    case Canceling => FetchingLeaves(s);
    case Resuming => WaitingLeaves(s);
    case Pausing => WaitingLeaves(s);
    case Paused => WaitingLeaves(s);
    case _ => IdleLeaves(s);
  }

  lemma InterruptingIs(s: Sched)
    requires WellFormed(s) && s.mode == Interrupting
    ensures StateUpdate(s) == UpdateInterrupting(s)
  {
    hide UpdateInterrupting, WellFormed;
  }

  lemma {:induction false} UpdateInterrupts(s: Sched)
    requires WellFormed(s)
    ensures if s.mode == Interrupting then !Stranded(Update(s).s) else LeavesQueue(s, Update(s).s)
  {
    hide *;
    StateUpdateInterrupts(s);
    StateUpdateThrows(s);
    UpdateUnfolds(s);
    if StateUpdate(s).1 {
      var t := StateUpdate(s).0.s;
      ResumedNav(s);
      StateUpdateInterrupts(t);
      StateUpdateThrows(t);
      UpdateUnfolds(t);
      LeavesTwice(s, t, StateUpdate(t).0.s);
    }
  }

  lemma LeavesTwice(s: Sched, t: Sched, u: Sched)
    requires LeavesQueue(s, t) && LeavesQueue(t, u) && !NavFailed(t)
    ensures LeavesQueue(s, u)
  {
    hide NavFailed;
  }

  lemma ResumedNav(s: Sched)
    requires WellFormed(s)
    ensures var t := Enter(Refresh(s).s, Active, true); t.mode == Active && WellFormed(t) && !NavFailed(t)
  {
    AnyRefreshRefreshed(s);
    EnterRefreshed(Refresh(s).s, Active, true);
    hide Refresh, Enter;
  }

  // Calls ///////////////////////////////////////////////////////////////////////////////////////

  /** What becomes of the interrupt queue in a call that neither strands nor drains. */
  ghost predicate Settles(s: Sched, op: Op, t: Sched)
    requires WellFormed(s)
  {
    && (Stranded(t) <==> Strands(s, op) || (Stranded(s) && !Drains(s, op)))
    && (Stranded(t) ==> t.interrupts == s.interrupts + (if op.OpInterrupt? then [op.group] else []))
  }

  lemma LiveNotFailed(s: Sched)
    requires NavLive(s)
    ensures !NavFailed(s)
  {
  }

  lemma CancelInterrupts(s: Sched)
    requires WellFormed(s)
    ensures var t := CancelActive(s).0.s;
            t.interrupts == if AllCancelable(s) then [] else s.interrupts
  {
    CancelActiveReturns(s);
    RefsInRange(s.active, s.tasks);
    TransitionAllFrame(s, RefsOf(s.active), A.DoCancel);
    hide WellFormed, TransitionAll, RefsOf, N.Effect, N.Transfer, ForgetItems, ForgetGroups, StepsToStop, AllCancelable;
  }

  /** The interrupt queue after a call other than an instant group. */
  lemma QueueSettles(s: Sched, op: Op, t: Sched)
    requires WellFormed(s) && !op.OpInterrupt?
    requires s.mode == Interrupting ==> !Stranded(t)
    requires s.mode != Interrupting ==>
               t.mode != Interrupting && t.interrupts == if Drains(s, op) then [] else s.interrupts
    ensures Settles(s, op, t)
  {
    hide Drains, WellFormed;
  }

  lemma CancelIdleQueue(s: Sched)
    requires Tidy(s) && s.mode == Idle
    ensures WellFormed(s)
    ensures var t := Apply(s, OpCancel).s; t.mode == Idle && t.interrupts == s.interrupts
  {
    hide *;
    TidyParts(s);
    LiveNotFailed(s);
    CancelIs(s);
    CancelIdleReturns(s);
    EnteredMode(s, Canceling, false);
    UpdateInterrupts(Enter(s, Canceling, false));
    CancelIdleIs(s);
  }

  lemma CancelIdleIs(s: Sched)
    requires WellFormed(s) && WellFormed(Enter(s, Canceling, false)) && !NavFailed(s)
    requires var t := Enter(s, Canceling, false);
             Update(t) == Ok(Enter(Refresh(t).s, Idle, true)) && LeavesQueue(t, Update(t).s)
    ensures var t := Update(Enter(s, Canceling, false)).s; t.mode == Idle && t.interrupts == s.interrupts
    ensures Enter(s, Canceling, false).mode == Canceling
  {
    hide Update, Refresh, Refers;
  }

  lemma CancelBusyQueue(s: Sched)
    requires Tidy(s) && s.mode != Idle
    ensures WellFormed(s)
    ensures var t := Apply(s, OpCancel).s;
            && (t.mode == Interrupting <==> s.mode == Interrupting)
            && t.interrupts == if Drains(s, OpCancel) then [] else s.interrupts
  {
    TidyParts(s);
    CancelIs(s);
    if s.mode == Active || s.mode == Paused {
      CancelInterrupts(s);
      CancelActiveMode(s);
    }
    hide Apply, Update, CancelActive, Refers, Tidy, Still, Blocked, Settled, AllCancelable, ForgetItems, ForgetGroups,
      Enter, NavLive;
  }

  lemma CancelSettlesQueue(s: Sched)
    requires Tidy(s)
    ensures WellFormed(s) && Settles(s, OpCancel, Apply(s, OpCancel).s)
  {
    var t := Apply(s, OpCancel).s;
    if s.mode == Idle {
      CancelIdleQueue(s);
    } else {
      CancelBusyQueue(s);
    }
    hide Apply, WellFormed, Tidy, Settles, AllCancelable;
    QueueSettles(s, OpCancel, t);
  }

  /** A call that neither takes groups in nor can drain the queue. */
  lemma KeptSettles(s: Sched, op: Op, t: Sched)
    requires WellFormed(s) && !op.OpInterrupt? && !op.OpCancel? && !op.OpNavigation?
    requires (t.mode == Interrupting <==> s.mode == Interrupting) && t.interrupts == s.interrupts
    ensures Settles(s, op, t)
  {
    hide WellFormed, Refuses;
  }

  lemma PauseSettlesQueue(s: Sched)
    requires Tidy(s)
    ensures WellFormed(s) && Settles(s, OpPause, Apply(s, OpPause).s)
  {
    hide *;
    TidyParts(s);
    PauseIs(s);
    PauseInterrupts(s);
    PauseActiveMode(s);
    O.EnterIs(s, IdlePaused, true);
    KeptSettles(s, OpPause, Apply(s, OpPause).s);
  }

  lemma PauseInterrupts(s: Sched)
    requires WellFormed(s)
    ensures PauseActive(s).0.s.interrupts == s.interrupts
  {
    RefsInRange(s.running, s.tasks);
    TransitionAllFrame(s, RefsOf(s.running), A.DoPause);
    hide WellFormed, TransitionAll, RefsOf, N.Effect, N.Transfer;
  }

  lemma ResumeInterrupts(s: Sched)
    requires WellFormed(s)
    ensures ResumePaused(s).0.s.interrupts == s.interrupts
  {
    RefsInRange(s.paused, s.tasks);
    TransitionAllFrame(s, RefsOf(s.paused), A.DoResume);
    hide WellFormed, TransitionAll, RefsOf, N.Effect, N.Transfer;
  }

  lemma ResumeQueue(s: Sched)
    requires Tidy(s)
    ensures WellFormed(s)
    ensures var t := Apply(s, OpResume).s;
            (t.mode == Interrupting <==> s.mode == Interrupting) && t.interrupts == s.interrupts
  {
    hide *;
    TidyParts(s);
    ResumeIs(s);
    LiveNotFailed(s);
    if s.mode == IdlePaused {
      StillEntered(s, Idle, true);
      UpdateInterrupts(Enter(s, Idle, true));
      IdleKeepsQueue(s);
    } else if s.mode == Paused {
      ResumeInterrupts(s);
      ResumePausedMode(s);
      ResumePausedTidies(s);
      var t := ResumePaused(s).0.s;
      if ResumePaused(s).0.Ok? {
        RefreshedLive(t);
        UpdateInterrupts(t);
        LiveKeepsQueue(t, Update(t).s);
      }
    }
  }

  lemma RefreshedLive(s: Sched)
    requires Refreshed(s)
    ensures !NavFailed(s)
  {
  }

  lemma LiveKeepsQueue(s: Sched, t: Sched)
    requires LeavesQueue(s, t) && !NavFailed(s)
    ensures t.mode != Interrupting && t.interrupts == s.interrupts
  {
    hide NavFailed;
  }

  lemma IdleKeepsQueue(s: Sched)
    requires WellFormed(Enter(s, Idle, true)) && !NavFailed(s)
    requires LeavesQueue(Enter(s, Idle, true), Update(Enter(s, Idle, true)).s)
    ensures var t := Update(Enter(s, Idle, true)).s; t.mode != Interrupting && t.interrupts == s.interrupts
  {
    hide Update, Refers;
  }

  lemma ResumeSettlesQueue(s: Sched)
    requires Tidy(s)
    ensures WellFormed(s) && Settles(s, OpResume, Apply(s, OpResume).s)
  {
    hide *;
    ResumeQueue(s);
    KeptSettles(s, OpResume, Apply(s, OpResume).s);
  }

  lemma TaskFrame(s: Sched, r: nat, tr: A.ActionTransition)
    requires WellFormed(s) && r < |s.tasks|
    ensures var t := TaskTransition(s, r, tr).s;
            WellFormed(t) && t.mode == s.mode && t.interrupts == s.interrupts && t.nav == s.nav
  {
    hide A.Next, A.Effect;
  }

  lemma ActionSettlesQueue(s: Sched, op: Op)
    requires Tidy(s) && op.OpAction?
    ensures WellFormed(s) && Settles(s, op, Apply(s, op).s)
  {
    hide *;
    TidyParts(s);
    LiveNotFailed(s);
    O.ActionIs(s, op.id, op.actionTransition);
    if op.id in s.active {
      TaskFrame(s, s.active[op.id], op.actionTransition);
      var t := TaskTransition(s, s.active[op.id], op.actionTransition);
      if t.Ok? {
        UpdateSettlesQueue(s, op, t.s);
      } else {
        KeptSettles(s, op, t.s);
      }
    } else {
      KeptSettles(s, op, s);
    }
  }

  /** The queue after a report about the navigation and its update. */
  lemma ReportSettles(s: Sched, op: Op, t: Sched, u: Sched)
    requires WellFormed(s) && op.OpNavigation? && s.nav.Some? && t.mode == s.mode && t.interrupts == s.interrupts
    requires NavFailed(t) <==> op.navTransition == N.IsFailed
    requires Refreshes(s.mode) || s.mode == Interrupting
    requires if t.mode == Interrupting then !Stranded(u) else LeavesQueue(t, u)
    ensures Settles(s, op, u)
  {
    hide WellFormed, NavFailed, Refuses;
  }

  lemma DrivingRefreshes(s: Sched)
    requires WellFormed(s) && s.mode != Failed && s.nav.Some?
    requires s.mode == Idle || s.mode == IdlePaused ==> s.nav.None?
    ensures Refreshes(s.mode) || s.mode == Interrupting
  {
    hide WellFormed;
  }

  lemma NavigationRefused(s: Sched, op: Op)
    requires WellFormed(s) && op.OpNavigation? && (op.navTransition == N.IsFailed ==> s.nav.None?)
    ensures Settles(s, op, s)
  {
    hide WellFormed, Refuses;
  }

  lemma NavFrame(s: Sched, tr: N.NavTransition)
    requires WellFormed(s) && s.nav.Some?
    ensures var t := NavTransition(s, tr).s; WellFormed(t) && t.mode == s.mode && t.interrupts == s.interrupts
    ensures NavTransition(s, tr).Throw? ==> NavTransition(s, tr).s == s
  {
    hide N.Effect, N.Transfer, Refers;
  }

  lemma NavigationSettlesQueue(s: Sched, op: Op)
    requires Tidy(s) && op.OpNavigation?
    ensures WellFormed(s) && Settles(s, op, Apply(s, op).s)
  {
    hide *;
    TidyParts(s);
    O.NavigationIs(s, op.navTransition);
    if s.nav.None? {
      NavigationRefused(s, op);
    } else {
      NavFrame(s, op.navTransition);
      var t := NavTransition(s, op.navTransition);
      if t.Ok? {
        UpdateInterrupts(t.s);
        OnlyFailureFails(s, op.navTransition);
        DrivingRefreshes(s);
        ReportSettles(s, op, t.s, Update(t.s).s);
      } else {
        FailureAccepted(s);
        NavigationRefused(s, op);
      }
    }
  }

  lemma OnlyFailureFails(s: Sched, tr: N.NavTransition)
    requires s.nav.Some? && NavTransition(s, tr).Ok?
    ensures NavFailed(NavTransition(s, tr).s) <==> tr == N.IsFailed
  {
    hide N.Effect;
  }

  lemma FailureAccepted(s: Sched)
    requires s.nav.Some? && NavLive(s)
    ensures NavTransition(s, N.IsFailed).Ok?
  {
    hide N.Effect;
  }

  lemma GroupSettles(s: Sched, g: Group, o: Outcome)
    requires WellFormed(s)
    requires o.Ok? <==> !Refuses(s, g)
    requires o.Throw? ==> o.s.mode == s.mode && o.s.interrupts == s.interrupts + [g]
    requires o.Ok? ==> !Stranded(o.s)
    ensures Settles(s, OpInterrupt(g), o.s)
  {
    hide WellFormed, Refuses;
  }

  lemma RefusesIs(s: Sched, g: Group)
    requires WellFormed(s)
    ensures var front := (s.interrupts + [g])[0].ceiling;
            Refuses(s, g) <==>
            !((s.mode == Idle || s.mode == Active) && (front != NONE ==> Drivable(s.nav)) &&
              ConflictsCancelable(s, front))
  {
    hide WellFormed, Drivable, ConflictsCancelable;
  }

  lemma InterruptSettlesQueue(s: Sched, g: Group)
    requires Tidy(s)
    ensures WellFormed(s) && Settles(s, OpInterrupt(g), Apply(s, OpInterrupt(g)).s)
  {
    hide *;
    TidyParts(s);
    InterruptReturns(s, g);
    RefusesIs(s, g);
    InterruptIs(s, g);
    var t := s.(interrupts := s.interrupts + [g]);
    if Apply(s, OpInterrupt(g)).Ok? {
      EnteredMode(DoInterrupt(t).s, Interrupting, true);
      UpdateInterrupts(Enter(DoInterrupt(t).s, Interrupting, true));
    }
    GroupSettles(s, g, Apply(s, OpInterrupt(g)));
  }

  lemma EnqueueSettlesQueue(s: Sched, item: Item)
    requires Tidy(s)
    ensures WellFormed(s) && Settles(s, OpEnqueue(item), Apply(s, OpEnqueue(item)).s)
  {
    hide Settled, Refers;
  }

  lemma {:induction false} UpdateSettlesQueue(s: Sched, op: Op, t: Sched)
    requires WellFormed(s) && !NavFailed(s) && !op.OpInterrupt? && !op.OpCancel? && !op.OpNavigation?
    requires WellFormed(t) && t.mode == s.mode && t.interrupts == s.interrupts && t.nav == s.nav
    ensures Settles(s, op, Update(t).s)
  {
    UpdateInterrupts(t);
    hide Update, Refers, Settles;
    QueueSettles(s, op, Update(t).s);
  }

  lemma CommitSettlesQueue(s: Sched)
    requires Tidy(s)
    ensures WellFormed(s) && Settles(s, OpCommit, Apply(s, OpCommit).s)
  {
    hide *;
    TidyParts(s);
    LiveNotFailed(s);
    CommitIs(s);
    UpdateSettlesQueue(s, OpCommit, Accept(s, OpCommit));
  }

  lemma UpdateCallSettlesQueue(s: Sched)
    requires Tidy(s)
    ensures WellFormed(s) && Settles(s, OpUpdate, Apply(s, OpUpdate).s)
  {
    hide *;
    TidyParts(s);
    LiveNotFailed(s);
    UpdateIs(s);
    UpdateSettlesQueue(s, OpUpdate, s);
  }

  /** One call strands a group exactly by refusing it, and otherwise leaves stranded groups in the queue exactly when
      it does not drain it. */
  lemma ApplySettlesQueue(s: Sched, op: Op)
    requires Tidy(s)
    ensures WellFormed(s) && Settles(s, op, Apply(s, op).s)
  {
    hide *;
    match op
    case OpCancel => CancelSettlesQueue(s);
    case OpPause => PauseSettlesQueue(s);
    case OpResume => ResumeSettlesQueue(s);
    case OpUpdate => UpdateCallSettlesQueue(s);
    case OpAction(_, _) => ActionSettlesQueue(s, op);
    case OpNavigation(_) => NavigationSettlesQueue(s, op);
    case OpInterrupt(g) => InterruptSettlesQueue(s, g);
    case OpEnqueue(item) => EnqueueSettlesQueue(s, item);
    case OpCommit => CommitSettlesQueue(s);
  }

  // Runs ////////////////////////////////////////////////////////////////////////////////////////

  /** Call i of the run refused a group while nothing was being interrupted, and no later call drained the queue. */
  ghost predicate RefusedAt(ops: seq<Op>, i: nat)
    requires i < |ops|
  {
    && Strands(Run(ops[..i]), ops[i])
    && forall k | i < k < |ops| :: !Drains(Run(ops[..k]), ops[k])
  }

  lemma RefusedBefore(ops: seq<Op>, i: nat)
    requires i < |ops| - 1
    ensures RefusedAt(ops, i) <==>
            RefusedAt(ops[..|ops| - 1], i) && !Drains(Run(ops[..|ops| - 1]), ops[|ops| - 1])
  {
    hide Run, Strands, Drains;
    var n := |ops| - 1;
    var before := ops[..n];
    assert before[..i] == ops[..i] && before[i] == ops[i];
    forall k | i < k < n
      ensures before[..k] == ops[..k] && before[k] == ops[k]
    {
    }
    assert RefusedAt(ops, i) ==> RefusedAt(before, i) && !Drains(Run(before), ops[n]);
    if RefusedAt(before, i) && !Drains(Run(before), ops[n]) {
      forall k | i < k < |ops|
        ensures !Drains(Run(ops[..k]), ops[k])
      {
        if k < n {
          assert !Drains(Run(before[..k]), before[k]);
        }
      }
    }
  }

  lemma RefusedLast(ops: seq<Op>)
    requires ops != []
    ensures RefusedAt(ops, |ops| - 1) <==> Strands(Run(ops[..|ops| - 1]), ops[|ops| - 1])
  {
  }

  ghost predicate Refused(ops: seq<Op>)
  {
    exists i :: 0 <= i < |ops| && RefusedAt(ops, i)
  }

  lemma RefusedHere(ops: seq<Op>, i: nat)
    requires i < |ops| && RefusedAt(ops, i)
    ensures Refused(ops)
  {
    hide RefusedAt;
  }

  lemma RefusedBy(ops: seq<Op>) returns (i: nat)
    requires Refused(ops)
    ensures i < |ops| && RefusedAt(ops, i)
  {
    hide RefusedAt;
    i :| 0 <= i < |ops| && RefusedAt(ops, i);
  }

  lemma RefusedStep(ops: seq<Op>)
    requires ops != []
    ensures var before, op := ops[..|ops| - 1], ops[|ops| - 1];
            Refused(ops) <==> Strands(Run(before), op) || (Refused(before) && !Drains(Run(before), op))
  {
    hide *;
    var n := |ops| - 1;
    var before, op := ops[..n], ops[n];
    RefusedLast(ops);
    if Refused(ops) {
      var i := RefusedBy(ops);
      if i < n {
        RefusedBefore(ops, i);
        RefusedHere(before, i);
      }
    }
    if Strands(Run(before), op) {
      RefusedHere(ops, n);
    }
    if Refused(before) && !Drains(Run(before), op) {
      var i := RefusedBy(before);
      RefusedBefore(ops, i);
      RefusedHere(ops, i);
    }
  }

  lemma SettlesIs(s: Sched, op: Op, t: Sched)
    requires WellFormed(s) && Settles(s, op, t)
    ensures Stranded(t) <==> Strands(s, op) || (Stranded(s) && !Drains(s, op))
  {
    hide Strands, Drains, Stranded, WellFormed;
  }

  /** Exactly when a run leaves a group waiting that no update will start: one of its calls refused a group while
      nothing was being interrupted, and since then no cancel, no navigation failure and no accepted instant group has
      drained the queue. */
  lemma {:induction false} RunStranded(ops: seq<Op>)
    ensures Stranded(Run(ops)) <==> exists i :: 0 <= i < |ops| && RefusedAt(ops, i)
  {
    assert Refused(ops) <==> exists i :: 0 <= i < |ops| && RefusedAt(ops, i);
    hide *;
    RunRefused(ops);
  }

  lemma {:induction false} RunRefused(ops: seq<Op>)
    ensures Stranded(Run(ops)) <==> Refused(ops)
  {
    hide *;
    if ops == [] {
      RunNothing();
    } else {
      var before, op := ops[..|ops| - 1], ops[|ops| - 1];
      RunRefused(before);
      RunTidy(before);
      RunLast(ops);
      ApplySettlesQueue(Run(before), op);
      SettlesIs(Run(before), op, Run(ops));
      RefusedStep(ops);
    }
  }

  lemma RunNothing()
    ensures !Stranded(Run([])) && !Refused([])
  {
  }

  /** In a run in which no instant group is refused, groups wait only while the scheduler is interrupting; in
      particular an idle scheduler has none. */
  lemma {:induction false} AcceptedGroupsStart(ops: seq<Op>)
    requires forall i | 0 <= i < |ops| && ops[i].OpInterrupt? :: Apply(Run(ops[..i]), ops[i]).Ok?
    ensures Run(ops).interrupts != [] ==> Run(ops).mode == Interrupting
  {
    RunStranded(ops);
    if Stranded(Run(ops)) {
      var i :| 0 <= i < |ops| && RefusedAt(ops, i);
      InterruptReturns(Run(ops[..i]), ops[i].group);
      hide Run, Apply, Drivable, ConflictsCancelable;
      assert false;
    }
  }
}
