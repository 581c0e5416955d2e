/** The published order status is the state of the scheduler after every call. */
module SchedulerStatus {
  import opened Events
  import A = ActionTasks
  import N = NavigationTasks
  import opened SchedulerModel
  import opened SchedulerMoves
  import opened SchedulerReports
  import opened SchedulerIdle

  // Moves ///////////////////////////////////////////////////////////////////////////////////////

  lemma MoveAnnounced(s: Sched, m: Move)
    requires Enabled(s, m) && !m.MCancelIdle? && LastStatus(s.out) == s.mode
    ensures LastStatus(Do(s, m).out) == Do(s, m).mode
  {
    if m.MEnter? {
      assert m.notify ==> Do(s, m).out[|Do(s, m).out| - 1] == OrderStatus(m.mode);
    } else {
      MoveAdds(s, m);
      AddsReports(s, Do(s, m), PassedBy(s, m));
      assert Do(s, m).mode == s.mode;
      hide LastStatus, Do, Enabled, Passed;
    }
  }

  lemma {:induction false} PathAnnounced(s: Sched, ms: seq<Move>, t: Sched)
    requires Path(s, ms, t) && LastStatus(s.out) == s.mode && forall m | m in ms :: !m.MCancelIdle?
    ensures LastStatus(t.out) == t.mode
    decreases |ms|
  {
    hide LastStatus, Do, Enabled;
    if ms != [] {
      assert forall m | m in ms[1..] :: m in ms;
      MoveAnnounced(s, ms[0]);
      PathAnnounced(Do(s, ms[0]), ms[1..], t);
    }
  }

  lemma WithinAnnounced(op: Op, s: Sched, ms: seq<Move>, t: Sched)
    requires Path(s, ms, t) && LastStatus(s.out) == s.mode && Within(op, ms) && !op.OpCancel?
    ensures LastStatus(t.out) == t.mode
  {
    hide Path, LastStatus;
    PathAnnounced(s, ms, t);
  }

  // Cancelling //////////////////////////////////////////////////////////////////////////////////

  lemma EnterAnnounced(s: Sched, mode: Mode)
    ensures var t := Enter(s, mode, true); LastStatus(t.out) == t.mode
  {
  }

  /** Cancelling in the idle state is the one change of state that is not announced. It ends in the idle state
      again within the call, because nothing is active and what is queued cannot start. */
  lemma CancelIdleAnnounced(s: Sched)
    requires s.mode == Idle && Still(s) && Blocked(s)
    ensures var t := Apply(s, OpCancel).s; t.mode == Idle && LastStatus(t.out) == Idle
  {
    hide *;
    CancelIdleReturns(s);
    IdleCancelIs(s);
    EnterAnnounced(Refresh(Enter(s, Canceling, false)).s, Idle);
    EnterIs(Refresh(Enter(s, Canceling, false)).s);
  }

  lemma EnterIs(s: Sched)
    ensures Enter(s, Idle, true).mode == Idle
  {
  }

  lemma IdleCancelIs(s: Sched)
    requires WellFormed(s) && s.mode == Idle
    ensures Apply(s, OpCancel) == Update(Enter(s, Canceling, false))
  {
    hide WellFormed, Update, Enter;
  }

  lemma IdlePausedCancels(s: Sched)
    requires WellFormed(s) && s.mode == IdlePaused && LastStatus(s.out) == s.mode
    ensures var t := Apply(s, OpCancel).s; LastStatus(t.out) == t.mode
  {
    ClearAdds(s, false);
    AddsReports(s, ClearQueues(s, false), []);
    hide WellFormed, LastStatus, Adds, ForgetItems, ForgetGroups;
  }

  lemma {:induction false} TasksThenNavAnnounced(s: Sched)
    requires WellFormed(s) && LastStatus(s.out) == s.mode && InRange(RefsOf(s.active), |s.tasks|)
    ensures var t := TransitionAll(s, RefsOf(s.active), A.DoCancel).s;
            && LastStatus(t.out) == t.mode
            && (t.nav.Some? ==> var u := NavTransition(t, N.DoCancel).s; LastStatus(u.out) == u.mode)
  {
    assert A.IsCommand(A.DoCancel) && N.IsCommand(N.DoCancel);
    hide *;
    var t := TransitionAll(s, RefsOf(s.active), A.DoCancel).s;
    var ms := PathTransitionAll(OpPause, s, RefsOf(s.active), A.DoCancel);
    WithinAnnounced(OpPause, s, ms, t);
    if t.nav.Some? {
      var rest := PathNav(OpPause, t, N.DoCancel);
      WithinAnnounced(OpPause, t, rest, NavTransition(t, N.DoCancel).s);
    }
  }

  lemma CancelActiveAnnounced(s: Sched)
    requires WellFormed(s) && LastStatus(s.out) == s.mode
    ensures var t := CancelActive(s).0.s; LastStatus(t.out) == t.mode
  {
    RefsInRange(s.active, s.tasks);
    TasksThenNavAnnounced(s);
    hide WellFormed, TransitionAll, NavTransition, RefsOf, ClearQueues, LastStatus, Enter;
    if CancelActive(s).0.Ok? {
      var t := TransitionAll(s, RefsOf(s.active), A.DoCancel).s;
      var nav :=
        if t.nav.Some? && !t.nav.value.state.IsPaused() && !t.nav.value.state.IsTerminal()
        then NavTransition(t, N.DoCancel) else Ok(t);
      EnterAnnounced(ClearQueues(nav.s, true), Canceling);
    }
  }

  lemma CancelAnnounced(s: Sched)
    requires WellFormed(s) && Settled(s) && LastStatus(s.out) == s.mode
    ensures var t := Apply(s, OpCancel).s; LastStatus(t.out) == t.mode
  {
    if s.mode == Idle {
      CancelIdleAnnounced(s);
    } else if s.mode == IdlePaused {
      IdlePausedCancels(s);
    } else if s.mode == Active || s.mode == Paused {
      CancelActiveAnnounced(s);
      CancelActiveMode(s);
      hide WellFormed, LastStatus, CancelActive;
    } else {
      hide WellFormed, LastStatus;
    }
  }

  // Runs ////////////////////////////////////////////////////////////////////////////////////////

  lemma ApplyAnnounced(s: Sched, op: Op)
    requires WellFormed(s) && Settled(s) && LastStatus(s.out) == s.mode
    ensures var t := Apply(s, op).s; LastStatus(t.out) == t.mode
  {
    hide *;
    if op.OpCancel? {
      CancelAnnounced(s);
    } else {
      AcceptReports(s, op);
      var ms := PathApply(s, op);
      WithinAnnounced(op, Accept(s, op), ms, Apply(s, op).s);
    }
  }

  lemma NothingAnnounced()
    ensures LastStatus(Run([]).out) == Run([]).mode
  {
  }

  /** After every call of every run, returning or throwing, the last published order status is the one
      of the scheduler's state. */
  lemma {:induction false} StatusIsCurrent(ops: seq<Op>)
    ensures LastStatus(Run(ops).out) == Run(ops).mode
  {
    hide *;
    if ops == [] {
      NothingAnnounced();
    } else {
      var before := ops[..|ops| - 1];
      StatusIsCurrent(before);
      RunSettled(before);
      RunLast(ops);
      ApplyAnnounced(Run(before), ops[|ops| - 1]);
    }
  }
}
