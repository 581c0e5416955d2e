/** What the reports taken so far say about the paused tasks and the navigation, and what a report publishes. */
module SchedulerReported {
  import opened Vda
  import opened Events
  import A = ActionTasks
  import N = NavigationTasks
  import ND = NavigationDialogue
  import opened SchedulerModel
  import opened SchedulerMoves
  import opened SchedulerAccounts
  import opened SchedulerOwnership
  import opened SchedulerIdle
  import opened SchedulerTidy
  import T = SchedulerThrows
  import R = SchedulerReports
  import opened SchedulerDialogue

  // The navigation //////////////////////////////////////////////////////////////////////////////

  /** The reports about the navigation that were taken, oldest first. */
  ghost function NavHeard(ops: seq<Op>): seq<N.NavTransition>
  {
    if ops == [] then []
    else
      var before, op := ops[..|ops| - 1], ops[|ops| - 1];
      NavHeard(before) +
      (if op.OpNavigation? && N.IsReport(op.navTransition) && Taken(Run(before), op) then [op.navTransition] else [])
  }

  /** A report or command for the navigation is taken exactly when there is one and its state has the transition. */
  lemma NavTakenExactly(s: Sched, tr: N.NavTransition)
    requires WellFormed(s)
    ensures Taken(s, OpNavigation(tr)) <==> s.nav.Some? && N.Takes(s.nav.value.state, tr, s.nav.value.goal.seqId)
    ensures Taken(s, OpNavigation(tr)) ==>
              && Enabled(s, MNav(tr))
              && Apply(s, OpNavigation(tr)) == Update(Do(s, MNav(tr)))
  {
    hide *;
    T.NavigationIs(s, tr);
    TakenIs(s, OpNavigation(tr));
    if s.nav.Some? {
      N.TransferExactly(s.nav.value, tr);
      if N.Takes(s.nav.value.state, tr, s.nav.value.goal.seqId) {
        NavMoveIs(s, tr);
        if Update(Do(s, MNav(tr))).Throw? {
          UpdateThrown(Do(s, MNav(tr)));
        }
      }
    }
  }

  lemma NavMoveIs(s: Sched, tr: N.NavTransition)
    requires WellFormed(s) && s.nav.Some? && N.Transfer(s.nav.value.state, tr, s.nav.value.goal.seqId).Some?
    ensures Enabled(s, MNav(tr)) && Do(s, MNav(tr)).navInt == s.navInt
    ensures Do(s, MNav(tr)) == SetNav(s, N.Transfer(s.nav.value.state, tr, s.nav.value.goal.seqId).value)
  {
    hide N.Effect, N.Transfer, Refers;
  }

  /** What a move leaves of the navigation. */
  lemma MoveNav(s: Sched, m: Move)
    requires Enabled(s, m) && !m.MNav?
    ensures var t := Do(s, m);
            || t.nav == s.nav
            || (m.MUpdateTasks? && t.nav.None? && s.nav.Some? && s.nav.value.state.IsTerminal())
            || (m.MStep? && s.nav.None? && t.nav.Some? && t.nav.value.state.NavFirstInProgress?)
  {
    hide N.Effect, A.Effect, A.Next, SegmentEnd, ForgetItems, ForgetGroups, StepsToStop, Covered, WellFormed, Keep,
      GroupReady, InstantReady;
  }

  lemma MoveFits(s: Sched, m: Move, heard: seq<N.NavTransition>)
    requires Enabled(s, m) && ND.Fits(s.nav, heard) && (m.MNav? ==> N.IsCommand(m.navTr))
    ensures ND.Fits(Do(s, m).nav, heard)
  {
    if m.MNav? {
      NavFits(s, m.navTr, heard);
      assert !N.IsReport(m.navTr);
      hide Do, Enabled, ND.Fits;
    } else {
      MoveNav(s, m);
      hide Do, Enabled;
    }
  }

  lemma NavFits(s: Sched, tr: N.NavTransition, heard: seq<N.NavTransition>)
    requires Enabled(s, MNav(tr)) && ND.Fits(s.nav, heard)
    ensures ND.Fits(Do(s, MNav(tr)).nav, if N.IsReport(tr) then heard + [tr] else heard)
  {
    N.TransferExactly(s.nav.value, tr);
    ND.FitsNext(s.nav.value, tr, heard);
    hide N.Transfer, N.Effect, ND.Fits, N.Takes, WellFormed;
  }

  ghost predicate NavCommandsOnly(ms: seq<Move>)
  {
    forall m | m in ms && m.MNav? :: N.IsCommand(m.navTr)
  }

  lemma NavCommandsFirst(ms: seq<Move>)
    requires ms != [] && NavCommandsOnly(ms)
    ensures (ms[0].MNav? ==> N.IsCommand(ms[0].navTr)) && NavCommandsOnly(ms[1..])
  {
    assert forall m | m in ms[1..] :: m in ms;
  }

  lemma {:induction false} PathFits(s: Sched, ms: seq<Move>, t: Sched, heard: seq<N.NavTransition>)
    requires Path(s, ms, t) && ND.Fits(s.nav, heard) && NavCommandsOnly(ms)
    ensures ND.Fits(t.nav, heard)
    decreases |ms|
  {
    hide ND.Fits, NavCommandsOnly, Enabled, Do;
    if ms != [] {
      NavCommandsFirst(ms);
      MoveFits(s, ms[0], heard);
      PathFits(Do(s, ms[0]), ms[1..], t, heard);
    }
  }

  lemma WithinNavCommands(op: Op, ms: seq<Move>)
    requires Within(op, ms) && !op.OpNavigation?
    ensures NavCommandsOnly(ms)
  {
  }

  lemma NavHeardNext(ops: seq<Op>)
    requires ops != []
    ensures var before, op := ops[..|ops| - 1], ops[|ops| - 1];
            NavHeard(ops) == NavHeard(before) +
              (if op.OpNavigation? && N.IsReport(op.navTransition) && Taken(Run(before), op)
               then [op.navTransition] else [])
  {
    hide Run, Taken, N.IsReport;
  }

  lemma NothingFits()
    ensures ND.Fits(Run([]).nav, NavHeard([]))
  {
  }

  lemma AcceptNav(s: Sched, op: Op)
    ensures Accept(s, op).nav == s.nav && (op.OpNavigation? ==> op == OpNavigation(op.navTransition))
  {
  }

  /** In every run the state of the navigation fits the reports taken: it is paused, or told to resume, only when its
      last report said so, in progress again only when it reported that, and behind every step stands the report of
      its end. */
  lemma {:induction false} RunFits(ops: seq<Op>)
    ensures ND.Fits(Run(ops).nav, NavHeard(ops))
  {
    hide *;
    if ops == [] {
      NothingFits();
    } else {
      var before, op := ops[..|ops| - 1], ops[|ops| - 1];
      var s := Run(before);
      RunFits(before);
      RunLast(ops);
      NavHeardNext(ops);
      AcceptNav(s, op);
      assert NavHeard(before) + [] == NavHeard(before);
      if op.OpNavigation? {
        var tr := op.navTransition;
        NavTakenExactly(s, tr);
        if Taken(s, op) {
          NavFits(s, tr, NavHeard(before));
          var t := Do(s, MNav(tr));
          var ms := PathUpdate(OpUpdate, t);
          WithinNavCommands(OpUpdate, ms);
          PathFits(t, ms, Run(ops), NavHeard(ops));
        } else {
          Refused(s, op);
        }
      } else {
        var ms := PathApply(s, op);
        WithinNavCommands(op, ms);
        PathFits(Accept(s, op), ms, Run(ops), NavHeard(ops));
      }
    }
  }

  // What a report publishes /////////////////////////////////////////////////////////////////////

  lemma EnterGrows(s: Sched, mode: Mode, notify: bool)
    ensures s.out <= Enter(s, mode, notify).out
  {
  }

  lemma MoveGrows(s: Sched, m: Move)
    requires Enabled(s, m)
    ensures s.out <= Do(s, m).out
  {
    if m.MEnter? {
      EnterGrows(s, m.mode, m.notify);
      assert Do(s, m) == Enter(s, m.mode, m.notify) by { hide Enter; }
    } else if m.MCancelIdle? {
      EnterGrows(s, Canceling, false);
      assert Do(s, m) == Enter(s, Canceling, false) by { hide Enter; }
    } else {
      R.MoveAdds(s, m);
      hide Do, Enabled;
    }
  }

  lemma {:induction false} PathGrows(s: Sched, ms: seq<Move>, t: Sched)
    requires Path(s, ms, t)
    ensures s.out <= t.out
    decreases |ms|
  {
    hide Enabled, Do;
    if ms != [] {
      MoveGrows(s, ms[0]);
      PathGrows(Do(s, ms[0]), ms[1..], t);
    }
  }

  /** A report or command for an action is taken exactly when the action is active and its state has the transition,
      and then what it announces is published first: RUNNING, PAUSED, FINISHED with the result, or FAILED, and
      directly behind an end the forgetting; a command is passed on. */
  lemma ReportPublishes(s: Sched, id: ActionId, tr: A.ActionTransition)
    requires WellFormed(s)
    ensures id in s.active ==> s.active[id] < |s.tasks|
    ensures Taken(s, OpAction(id, tr)) <==> id in s.active && A.Takes(s.tasks[s.active[id]].state, tr)
    ensures Taken(s, OpAction(id, tr)) && !tr.DoStart? ==>
              s.out + (match tr
                       case IsRunning => [ActionStatusChanged(id, RUNNING, None)]
                       case IsPaused => [ActionStatusChanged(id, PAUSED, None)]
                       case IsFinished(result) => [ActionStatusChanged(id, FINISHED, result), ActionForget(id)]
                       case IsFailed => [ActionStatusChanged(id, FAILED, None), ActionForget(id)]
                       case DoPause => [ActionPause(id)]
                       case DoResume => [ActionResume(id)]
                       case DoCancel => [ActionCancel(id)]
                       case _ => []) <= Apply(s, OpAction(id, tr)).s.out
  {
    TakenExactly(s, id, tr);
    if Taken(s, OpAction(id, tr)) {
      var r := s.active[id];
      TaskMoveIs(s, r, tr);
      var t := Do(s, MTask(r, tr));
      assert t.out == s.out + A.Announced(tr, id) by { hide Do, A.Announced; }
      hide Do, Update, Apply, Enabled, Taken, A.Takes;
      var ms := PathUpdate(OpUpdate, t);
      PathGrows(t, ms, Update(t).s);
    }
  }

  /** A report of a node is taken exactly when the vehicle is under way and the node is the goal of the step, and it
      then completes the step: the goal is published as the last node. No other report about the navigation does that.
      */
  lemma CompletesExactly(s: Sched, tr: N.NavTransition)
    requires WellFormed(s)
    ensures tr.ToSeqId? ==>
              (Taken(s, OpNavigation(tr)) <==>
                 && s.nav.Some? && tr.seqId == s.nav.value.goal.seqId
                 && (s.nav.value.state in {N.NavFirstInProgress, N.NavInProgress, N.NavPausing, N.NavCanceling}))
    ensures tr.ToSeqId? && Taken(s, OpNavigation(tr)) ==>
              s.out + [OrderNewLastNode(s.nav.value.goal.nodeId, tr.seqId)] <= Apply(s, OpNavigation(tr)).s.out
    ensures Passed(Apply(s, OpNavigation(tr)).s.out) ==
            Passed(s.out) + (if tr.ToSeqId? && Taken(s, OpNavigation(tr)) then [tr.seqId] else [])
  {
    NavTakenExactly(s, tr);
    assert Passed(s.out) + [] == Passed(s.out);
    if Taken(s, OpNavigation(tr)) {
      var t := Do(s, MNav(tr));
      N.TransferExactly(s.nav.value, tr);
      assert t.out == s.out + N.Announced(tr, s.nav.value) by { hide N.Transfer, N.Effect, N.Announced; }
      R.MoveAdds(s, MNav(tr));
      R.AddsReports(s, t, R.PassedBy(s, MNav(tr)));
      assert R.PassedBy(s, MNav(tr)) == (if tr.ToSeqId? then [tr.seqId] else []);
      hide Do, Update, Apply, Enabled, Taken, Passed, N.Transfer, N.Effect;
      var ms := PathUpdate(OpUpdate, t);
      PathGrows(t, ms, Update(t).s);
      UpdatePasses(t);
    } else {
      Refused(s, OpNavigation(tr));
    }
  }

  /** An update completes no step. */
  lemma {:induction false} UpdatePasses(s: Sched)
    requires WellFormed(s)
    ensures Passed(Update(s).s.out) == Passed(s.out)
  {
    hide *;
    var ms := PathUpdate(OpUpdate, s);
    UpdateWithin(ms);
    PathPasses(s, ms, Update(s).s);
  }

  ghost predicate ResumesOnly(ms: seq<Move>)
  {
    forall m | m in ms :: !m.MTask? && (m.MNav? ==> m.navTr == N.DoResume)
  }

  lemma UpdateWithin(ms: seq<Move>)
    requires Within(OpUpdate, ms)
    ensures ResumesOnly(ms)
  {
  }

  lemma ResumesFirst(ms: seq<Move>)
    requires ms != [] && ResumesOnly(ms)
    ensures !ms[0].MTask? && (ms[0].MNav? ==> ms[0].navTr == N.DoResume) && ResumesOnly(ms[1..])
  {
    assert forall m | m in ms[1..] :: m in ms;
  }

  lemma MovePasses(s: Sched, m: Move)
    requires Enabled(s, m) && (m.MNav? ==> m.navTr == N.DoResume)
    ensures Passed(Do(s, m).out) == Passed(s.out)
  {
    if m.MEnter? {
      EnterPasses(s, m.mode, m.notify);
      assert Do(s, m) == Enter(s, m.mode, m.notify) by { hide Enter; }
    } else if m.MCancelIdle? {
      EnterPasses(s, Canceling, false);
      assert Do(s, m) == Enter(s, Canceling, false) by { hide Enter; }
    } else {
      R.MoveAdds(s, m);
      R.AddsReports(s, Do(s, m), R.PassedBy(s, m));
      assert R.PassedBy(s, m) == [];
      assert Passed(s.out) + [] == Passed(s.out);
      hide Do, Enabled, Passed;
    }
  }

  lemma EnterPasses(s: Sched, mode: Mode, notify: bool)
    ensures Passed(Enter(s, mode, notify).out) == Passed(s.out)
  {
    if notify {
      PassedAppend(s.out, [OrderStatus(mode)]);
      CountsOfOne(OrderStatus(mode), 0);
      hide Passed;
    }
  }

  lemma {:induction false} PathPasses(s: Sched, ms: seq<Move>, t: Sched)
    requires Path(s, ms, t) && ResumesOnly(ms)
    ensures Passed(t.out) == Passed(s.out)
    decreases |ms|
  {
    hide Enabled, Do, Passed, ResumesOnly;
    if ms != [] {
      ResumesFirst(ms);
      MovePasses(s, ms[0]);
      PathPasses(Do(s, ms[0]), ms[1..], t);
    }
  }
}
