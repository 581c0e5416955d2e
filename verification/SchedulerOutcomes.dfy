/** Where the calls of the scheduler lead: the state they end in, and what is left in the queues. */
module SchedulerOutcomes {
  import opened Vda
  import opened Events
  import A = ActionTasks
  import N = NavigationTasks
  import opened SchedulerModel
  import O = SchedulerOperations
  import opened SchedulerMoves
  import opened SchedulerAccounts
  import opened SchedulerOwnership
  import opened SchedulerIdle
  import opened SchedulerTidy
  import opened SchedulerDialogue
  import opened SchedulerReported
  import opened SchedulerPauses

  // Queues //////////////////////////////////////////////////////////////////////////////////////

  /** The navigation steps of a queue. */
  function StepsOf(items: seq<Item>): seq<Item>
  {
    if items == [] then [] else (if items[0].Step? then [items[0]] else []) + StepsOf(items[1..])
  }

  /** These are the steps of the queue up to and with the first that carries a stop hint, or all of them if none does.
      */
  ghost predicate UpToStop(kept: seq<Item>, items: seq<Item>)
  {
    exists n :: 0 <= n <= |items| && kept == StepsOf(items[..n]) && StopsAt(items, n)
  }

  ghost predicate StopsAt(items: seq<Item>, n: nat)
    requires n <= |items|
  {
    && (n < |items| ==> n > 0 && items[n - 1].Step? && items[n - 1].stopHint)
    && (forall i | 0 <= i < n - 1 :: !(items[i].Step? && items[i].stopHint))
  }

  lemma {:induction false} StepsKept(items: seq<Item>) returns (n: nat)
    ensures n <= |items| && StepsToStop(items) == StepsOf(items[..n]) && StopsAt(items, n)
  {
    n := 0;
    if items != [] {
      if items[0].Step? && items[0].stopHint {
        n := 1;
        assert items[..1] == [items[0]] && [items[0]][1..] == [];
      } else {
        var m := StepsKept(items[1..]);
        n := m + 1;
        assert items[..n][1..] == items[1..][..m];
        assert items[..n][0] == items[0];
      }
    }
  }

  /** A cancel that returns from Active or Paused leaves in the queue the steps up to the next stop, drops the waiting
      instant groups and keeps what is staged. From IdlePaused it leaves nothing in the queues but that. */
  lemma CancelKeeps(s: Sched)
    requires Tidy(s)
    ensures WellFormed(s)
    ensures var o := Apply(s, OpCancel);
            && (o.Ok? && (s.mode == Active || s.mode == Paused) ==>
                  && o.s.mode == Canceling && UpToStop(o.s.queue, s.queue) && o.s.interrupts == []
                  && o.s.staging == s.staging)
            && (o.Ok? && s.mode == IdlePaused ==>
                  o.s.mode == IdlePaused && o.s.queue == [] && o.s.interrupts == [] && o.s.staging == s.staging)
            && (o.Ok? && s.mode == Idle ==> o.s.mode == Idle && o.s.queue == s.queue && o.s.staging == s.staging)
  {
    hide *;
    TidyParts(s);
    O.CancelIs(s);
    O.FinishIs(StateCancel(s));
    O.CancelActiveIs(s);
    O.ClearIs(s, false);
    CancelActiveKeeps(s);
    if s.mode == Idle {
      CancelIdleReturns(s);
      O.EnterIs(s, Canceling, false);
      O.EnterIs(Refresh(Enter(s, Canceling, false)).s, Idle, true);
    }
  }

  lemma CancelActiveKeeps(s: Sched)
    requires WellFormed(s)
    ensures var r := CancelActive(s);
            r.0.Ok? ==> r.0.s.mode == Canceling && UpToStop(r.0.s.queue, s.queue) && r.0.s.interrupts == [] &&
                        r.0.s.staging == s.staging && !r.1
  {
    hide *;
    O.CancelActiveIs(s);
    TransitionAllFrame(s, RefsOf(s.active), A.DoCancel);
    TransitionsFormed(s, RefsOf(s.active), A.DoCancel);
    var t := TransitionAll(s, RefsOf(s.active), A.DoCancel).s;
    Cleared(t);
    if t.nav.Some? {
      O.NavIs(t, N.DoCancel);
      NavFormed(t, N.DoCancel);
      Cleared(NavTransition(t, N.DoCancel).s);
    }
  }

  lemma NavFormed(t: Sched, tr: N.NavTransition)
    requires WellFormed(t) && t.nav.Some?
    ensures WellFormed(NavTransition(t, tr).s)
  {
    hide N.Transfer, N.Effect, Refers;
  }

  lemma Cleared(t: Sched)
    requires WellFormed(t)
    ensures var u := Enter(ClearQueues(t, true), Canceling, true);
            u.mode == Canceling && UpToStop(u.queue, t.queue) && u.interrupts == [] && u.staging == t.staging
  {
    var n := StepsKept(t.queue);
    assert UpToStop(StepsToStop(t.queue), t.queue) by { hide StepsOf, StepsToStop, StopsAt; }
    hide *;
    O.ClearIs(t, true);
    O.EnterIs(ClearQueues(t, true), Canceling, true);
  }

  /** The last step that is kept is the one the announced segment ends at. */
  lemma {:induction false} KeptEndsSegment(items: seq<Item>, default: SeqId)
    ensures StepsToStop(items) != [] ==>
              var kept := StepsToStop(items);
              kept[|kept| - 1].Step? && kept[|kept| - 1].goal.seqId == SegmentEnd(items, default)
    ensures StepsToStop(items) == [] ==> SegmentEnd(items, default) == default
  {
    if items != [] {
      KeptEndsSegment(items[1..], if items[0].Step? then items[0].goal.seqId else default);
    }
  }

  /** The report that the navigation has failed, where it is taken, empties the queue and the interrupt queue and ends
      the step; the call returns. */
  lemma FailureClears(s: Sched)
    requires Tidy(s) && s.nav.Some?
    ensures WellFormed(s)
    ensures var o := Apply(s, OpNavigation(N.IsFailed));
            o.Ok? && o.s.queue == [] && o.s.interrupts == [] && o.s.nav.None? && o.s.staging == s.staging
  {
    hide *;
    TidyParts(s);
    LiveFails(s);
    NavTakenExactly(s, N.IsFailed);
    var t := Do(s, MNav(N.IsFailed));
    FailedNav(s);
    FailedUpdate(t);
  }

  lemma LiveFails(s: Sched)
    requires NavLive(s) && s.nav.Some?
    ensures N.Takes(s.nav.value.state, N.IsFailed, s.nav.value.goal.seqId)
  {
  }

  lemma FailedNav(s: Sched)
    requires Enabled(s, MNav(N.IsFailed))
    ensures var t := Do(s, MNav(N.IsFailed));
            && WellFormed(t) && t.nav.Some? && t.nav.value.state.NavFailed? && t.mode == s.mode
            && t.staging == s.staging && t.navInt == s.navInt
  {
    hide N.Effect, Refers;
  }

  /** Nothing is queued and nothing drives. */
  ghost predicate Emptied(s: Sched, staging: seq<Item>)
  {
    WellFormed(s) && s.queue == [] && s.interrupts == [] && s.nav.None? && s.staging == staging
  }

  lemma UpdateTasksFailed(t: Sched)
    requires WellFormed(t) && t.nav.Some? && t.nav.value.state.NavFailed?
    ensures Emptied(UpdateTasks(t), t.staging)
  {
    UpdateTasksFrame(t);
    UpdateTasksRecords(t);
    O.ClearIs(t, false);
    hide UpdateTasks, ClearQueues, Refers, ForgetItems, ForgetGroups;
  }

  lemma MappingEmptied(t: Sched, staging: seq<Item>)
    requires Emptied(t, staging)
    ensures WellFormed(t) && UpdateInterruptMapping(t).Ok? && Emptied(UpdateInterruptMapping(t).s, staging)
  {
    hide Keep, Refers;
  }

  lemma EnterEmptied(t: Sched, staging: seq<Item>, mode: Mode, notify: bool)
    requires Emptied(t, staging)
    ensures Emptied(Enter(t, mode, notify), staging)
  {
    hide Refers;
  }

  lemma {:induction false} FetchEmptied(t: Sched, staging: seq<Item>)
    requires Emptied(t, staging)
    ensures Fetch(t) == t
  {
  }

  lemma EmptiedNav(t: Sched, staging: seq<Item>)
    requires Emptied(t, staging)
    ensures WellFormed(t) && t.nav.None? && t.interrupts == [] && t.queue == [] && t.staging == staging
  {
    hide Refers;
  }

  lemma RefreshEmptied(t: Sched, staging: seq<Item>)
    requires WellFormed(t) && Emptied(UpdateTasks(t), staging)
    ensures Refresh(t).Ok? && Emptied(Refresh(t).s, staging)
  {
    hide *;
    O.RefreshIs(t);
    MappingEmptied(UpdateTasks(t), staging);
  }

  lemma StateUpdateEmptied(t: Sched, staging: seq<Item>)
    requires WellFormed(t) && Emptied(UpdateTasks(t), staging) && t.mode !in {Idle, IdlePaused, Failed}
    ensures StateUpdate(t).0.Ok? && Emptied(StateUpdate(t).0.s, staging)
  {
    hide *;
    O.StateUpdateIs(t);
    RefreshEmptied(t, staging);
    var u := Refresh(t).s;
    EmptiedNav(u, staging);
    FetchEmptied(u, staging);
    forall mode: Mode, notify: bool
      ensures Emptied(Enter(u, mode, notify), staging)
    {
      EnterEmptied(u, staging, mode, notify);
    }
    match t.mode
    case Active => O.UpdateActiveIs(t);
    case Canceling => O.UpdateCancelingIs(t);
    case Resuming => O.UpdateResumingIs(t);
    case Pausing => O.UpdatePausingIs(t);
    case Paused => O.UpdatePausedIs(t);
    case Interrupting =>
      O.UpdateInterruptingIs(t);
      EmptiedNav(UpdateTasks(t), staging);
      NothingInterrupts(UpdateTasks(t));
      EnterEmptied(UpdateTasks(t), staging, Active, true);
      EnterEmptied(UpdateTasks(t), staging, Interrupting, false);
  }

  lemma NothingInterrupts(t: Sched)
    requires WellFormed(t) && t.interrupts == []
    ensures FetchInterrupt(t) == t
  {
  }

  lemma {:induction false} FailedUpdate(t: Sched)
    requires WellFormed(t) && t.nav.Some? && t.nav.value.state.NavFailed? && t.mode !in {Idle, IdlePaused, Failed}
    ensures var o := Update(t);
            o.Ok? && o.s.queue == [] && o.s.interrupts == [] && o.s.nav.None? && o.s.staging == t.staging
  {
    hide *;
    UpdateTasksFailed(t);
    StateUpdateEmptied(t, t.staging);
    O.UpdateIs(t);
    var u := StateUpdate(t).0.s;
    EmptiedNav(u, t.staging);
    if StateUpdate(t).1 {
      StateUpdateModes(t);
      UpdateTasksEmptied(u, t.staging);
      StateUpdateEmptied(u, t.staging);
      EmptiedNav(StateUpdate(u).0.s, t.staging);
      O.UpdateIs(u);
    }
  }

  lemma StateUpdateModes(t: Sched)
    requires WellFormed(t)
    ensures StateUpdate(t).1 ==> StateUpdate(t).0.s.mode == Active
  {
    hide *;
    O.UpdateIs(t);
  }

  lemma UpdateTasksEmptied(t: Sched, staging: seq<Item>)
    requires Emptied(t, staging)
    ensures Emptied(UpdateTasks(t), staging)
  {
    UpdateTasksFrame(t);
    UpdateTasksRecords(t);
    hide UpdateTasks, ClearQueues, Refers;
  }

  // States //////////////////////////////////////////////////////////////////////////////////////

  /** Nothing is active and nothing drives. */
  ghost predicate Quiescent(s: Sched)
  {
    s.active == map[] && s.nav.None?
  }

  lemma RestingIs(t: Sched)
    requires WellFormed(t)
    ensures forall id | id in t.active ::
              t.tasks[t.active[id]].state.IsPaused() <==> Resting(t.tasks[t.active[id]].state)
    ensures t.nav.Some? ==> (t.nav.value.state.IsPaused() <==> NavResting(t.nav))
  {
    hide Refers;
  }

  /** After a refresh the running map is empty exactly when every active action rests, and the paused map exactly when
      none does. */
  lemma RefreshSorts(s: Sched)
    requires Owned(s)
    ensures WellFormed(s)
    ensures var t := Refresh(s).s;
            && WellFormed(t)
            && (t.running == map[] <==> forall id | id in t.active :: Resting(t.tasks[t.active[id]].state))
            && (t.paused == map[] <==> forall id | id in t.active :: !Resting(t.tasks[t.active[id]].state))
            && (t.nav.Some? ==> !t.nav.value.state.IsTerminal())
  {
    hide *;
    OwnedFormed(s);
    var u, t := UpdateTasks(s), Refresh(s).s;
    UpdateTasksSplits(s);
    UpdateTasksOwned(s);
    OwnedFormed(u);
    RefreshKeepsMaps(s);
    AnyRefreshRefreshed(s);
    RefreshedNav(t);
    RestingIs(t);
    Sorted(u);
    assert t.tasks == u.tasks && t.active == u.active;
  }

  lemma RefreshedNav(t: Sched)
    requires Refreshed(t)
    ensures t.nav.Some? ==> !t.nav.value.state.IsTerminal()
  {
    hide WellFormed;
  }

  lemma Sorted(u: Sched)
    requires WellFormed(u) && Partition(u)
    requires forall id | id in u.running :: !u.tasks[u.running[id]].state.IsPaused()
    requires forall id | id in u.paused :: u.tasks[u.paused[id]].state.IsPaused()
    ensures u.running == map[] <==> forall id | id in u.active :: u.tasks[u.active[id]].state.IsPaused()
    ensures u.paused == map[] <==> forall id | id in u.active :: !u.tasks[u.active[id]].state.IsPaused()
  {
    if u.running != map[] {
      var id :| id in u.running;
      PartitionAt(u, id);
    }
    if u.paused != map[] {
      var id :| id in u.paused;
      PartitionAt(u, id);
    }
    forall id | id in u.active
      ensures id in u.running || id in u.paused
    {
      PartitionAt(u, id);
    }
  }

  /** The state that an update which returns leads to, exactly: work makes an idle scheduler active, and an active or
      canceling one is idle again as soon as nothing is active or drives; a pausing one is paused as soon as every
      active action and the navigation rest, a resuming one goes on as soon as none does; and an interrupting one as
      soon as no instant group waits. */
  lemma UpdateLeads(s: Sched)
    requires Owned(s) && Tidy(s) && Apply(s, OpUpdate).Ok?
    ensures WellFormed(Apply(s, OpUpdate).s)
    ensures var t := Apply(s, OpUpdate).s;
            match s.mode
            case Idle => t.mode == if Quiescent(t) then Idle else Active
            case IdlePaused => t.mode == IdlePaused
            case Active => t.mode == if Quiescent(t) then Idle else Active
            case Canceling => t.mode == if Quiescent(t) then Idle else Canceling
            case Pausing =>
              t.mode == if (t.nav.Some? ==> NavResting(t.nav)) &&
                           (forall id | id in t.active :: Resting(t.tasks[t.active[id]].state)) then Paused else Pausing
            case Resuming =>
              t.mode == (if NavResting(t.nav) || (exists id :: id in t.active && Resting(t.tasks[t.active[id]].state))
                         then Resuming else if Quiescent(t) then Idle else Active)
            case Paused => t.mode == Paused
            case Interrupting => t.mode == if t.interrupts == [] then Active else Interrupting
            case Failed => true
  {
    hide *;
    TidyParts(s);
    UpdateIs(s);
    O.UpdateIs(s);
    O.StateUpdateIs(s);
    RefreshSorts(s);
    var o := Refresh(s);
    match s.mode
    case Idle =>
      O.UpdateIdleIs(s);
      FetchStillLive(s);
      Entered(Fetch(s), Active, true);
      Entered(Fetch(s), Idle, false);
    case IdlePaused => Entered(s, IdlePaused, false);
    case Active =>
      O.UpdateActiveIs(s);
      FetchLive(s);
      Entered(Fetch(o.s), Active, false);
      Entered(Fetch(o.s), Idle, true);
    case Canceling =>
      O.UpdateCancelingIs(s);
      FetchLive(s);
      Entered(Fetch(o.s), Canceling, false);
      Entered(Fetch(o.s), Idle, true);
    case Pausing =>
      O.UpdatePausingIs(s);
      RestingIs(o.s);
      Entered(o.s, Paused, true);
      Entered(o.s, Pausing, false);
    case Resuming => ResumingLeads(s);
    case Paused =>
      O.UpdatePausedIs(s);
      Entered(o.s, Paused, false);
    case Interrupting =>
      O.UpdateInterruptingIs(s);
      FetchInterruptFormed(UpdateTasks(s));
      Entered(FetchInterrupt(UpdateTasks(s)), Active, true);
      Entered(FetchInterrupt(UpdateTasks(s)), Interrupting, false);
    case Failed =>
  }

  lemma FetchInterruptFormed(t: Sched)
    requires WellFormed(t)
    ensures WellFormed(FetchInterrupt(t))
  {
    hide Refers, StartInstant, InstantReady;
  }

  lemma Entered(t: Sched, mode: Mode, notify: bool)
    requires WellFormed(t)
    ensures var u := Enter(t, mode, notify);
            && WellFormed(u) && u.mode == mode && u.active == t.active && u.nav == t.nav && u.tasks == t.tasks
            && u.interrupts == t.interrupts && (Quiescent(u) <==> t.active == map[] && t.nav.None?)
  {
    hide Refers;
  }

  lemma {:induction false} FetchStillLive(s: Sched)
    requires Still(s)
    ensures WellFormed(Fetch(s))
  {
    FetchRefreshed(s);
    hide Fetch, WellFormed;
  }

  lemma FetchLive(s: Sched)
    requires WellFormed(s)
    ensures var t := Fetch(Refresh(s).s); WellFormed(t) && (t.nav.Some? ==> !t.nav.value.state.IsTerminal())
  {
    AnyRefreshRefreshed(s);
    FetchRefreshed(Refresh(s).s);
    RefreshedNav(Fetch(Refresh(s).s));
    hide Fetch, Refresh, Refers;
  }

  lemma NoneRests(t: Sched)
    requires WellFormed(t) && NonePaused(t)
    ensures !NavResting(t.nav) && forall id | id in t.active :: !Resting(t.tasks[t.active[id]].state)
  {
    hide Refers;
  }

  lemma {:induction false} ResumingLeads(s: Sched)
    requires Owned(s) && WellFormed(s) && s.mode == Resuming && Update(s).Ok?
    ensures var t := Update(s).s;
            && WellFormed(t)
            && t.mode == (if NavResting(t.nav) || (exists id :: id in t.active && Resting(t.tasks[t.active[id]].state))
                          then Resuming else if Quiescent(t) then Idle else Active)
  {
    hide *;
    var o := Refresh(s);
    O.UpdateIs(s);
    O.StateUpdateIs(s);
    O.UpdateResumingIs(s);
    RefreshSorts(s);
    RestingIs(o.s);
    if StateUpdate(s).0.s.mode == Resuming {
      Entered(o.s, Resuming, false);
      Entered(o.s, Active, true);
    } else {
      Entered(o.s, Resuming, false);
      RefreshedNonePaused(s);
      var u := StateUpdate(s).0.s;
      Entered(o.s, Active, true);
      O.UpdateIs(u);
      O.StateUpdateIs(u);
      O.UpdateActiveIs(u);
      FetchLive(u);
      var v := Fetch(Refresh(u).s);
      Entered(v, Active, false);
      Entered(v, Idle, true);
      var ms := PathUpdate(OpUpdate, u);
      UpdateWithin(ms);
      PathNonePaused(u, ms, Update(u).s);
      NoneRests(Update(u).s);
    }
  }

  /** While the vehicle drives and a step comes next, the segment in force reaches as far as the queue lets it. */
  ghost predicate Reaches(s: Sched)
  {
    s.nav.Some? && s.segment.Some? && s.queue != [] && s.queue[0].Step? ==>
      SegmentEnd(s.queue, s.segment.value.last) == s.segment.value.last
  }

  /** Everything is started that can be, and everything announced that may be. */
  ghost predicate Exhausted(s: Sched)
  {
    Blocked(s) && Reaches(s)
  }

  lemma PatchReaches(s: Sched)
    requires WellFormed(s) && s.queue != [] && s.queue[0].Step?
    ensures Reaches(PatchSegment(s))
  {
    O.PatchIs(s);
    if s.segment.Some? {
      SegmentEndAny(s.queue, s.segment.value.last, SegmentEnd(s.queue, s.segment.value.last));
    }
    hide PatchSegment, SegmentEnd, Refers;
  }

  lemma {:induction false} SegmentEndAny(items: seq<Item>, a: SeqId, b: SeqId)
    requires items != [] && items[0].Step?
    ensures SegmentEnd(items, a) == SegmentEnd(items, b)
  {
  }

  lemma UnreachedReaches(s: Sched)
    requires s.queue == [] || s.queue[0].Actions? || s.nav.None?
    ensures Reaches(s)
  {
  }

  lemma {:induction false} FetchReaches(s: Sched)
    requires WellFormed(s)
    ensures Reaches(Fetch(s))
    decreases |s.queue|
  {
    hide *;
    if s.queue == [] {
      O.FetchNothing(s);
      UnreachedReaches(s);
    } else if s.queue[0].Actions? {
      O.FetchGroupIs(s);
      UnreachedReaches(s);
      if s.active == map[] && (s.nav.None? || s.queue[0].group.ceiling == NONE) {
        GroupMove(s);
        FetchReaches(StartGroup(s));
      }
    } else {
      O.FetchStepIs(s);
      if s.nav.Some? {
        PatchReaches(s);
      } else {
        UnreachedReaches(s);
        if s.navInt == map[] && (s.active == map[] || s.blocking == NONE) {
          StepMove(s);
          FetchReaches(StartStep(s));
        }
      }
    }
  }

  lemma EnterExhausted(t: Sched, mode: Mode, notify: bool)
    requires Exhausted(t)
    ensures Exhausted(Enter(t, mode, notify))
  {
    hide SegmentEnd;
  }

  lemma {:induction false} FetchEnterExhausted(s: Sched, mode: Mode, notify: bool)
    requires WellFormed(s)
    ensures Exhausted(Enter(Fetch(s), mode, notify))
  {
    FetchBlocked(s);
    FetchReaches(s);
    hide Fetch, Blocked, Reaches, Enter;
    EnterExhausted(Fetch(s), mode, notify);
  }

  lemma StateUpdateFetches(s: Sched)
    requires WellFormed(s) && s.mode in {Idle, Active, Canceling} && StateUpdate(s).0.Ok?
    ensures Exhausted(StateUpdate(s).0.s) && !StateUpdate(s).1
  {
    hide *;
    O.StateUpdateIs(s);
    var t := Refresh(s).s;
    match s.mode
    case Idle =>
      O.UpdateIdleIs(s);
      FetchEnterExhausted(s, Active, true);
      FetchEnterExhausted(s, Idle, false);
    case Active =>
      O.UpdateActiveIs(s);
      FetchEnterExhausted(t, Active, false);
      FetchEnterExhausted(t, Idle, true);
    case Canceling =>
      O.UpdateCancelingIs(s);
      FetchEnterExhausted(t, Canceling, false);
      FetchEnterExhausted(t, Idle, true);
  }

  /** An update that returns, from a state in which work is started, leaves nothing in front of the queue that could
      start: a group waits for an active action or, when it blocks, for the navigation, and a step waits for the
      navigation, for an instant action or for a blocking group. The announced segment reaches as far as the queue
      lets it. A resuming scheduler that goes on starts work in the same call. */
  lemma {:induction false} UpdateFetches(s: Sched)
    requires WellFormed(s) && Update(s).Ok?
    ensures s.mode in {Idle, Active, Canceling} || (s.mode == Resuming && Update(s).s.mode != Resuming) ==>
              Exhausted(Update(s).s)
  {
    hide *;
    O.UpdateIs(s);
    if s.mode in {Idle, Active, Canceling} {
      StateUpdateFetches(s);
    } else if s.mode == Resuming {
      O.StateUpdateIs(s);
      O.UpdateResumingIs(s);
      var t := StateUpdate(s).0.s;
      O.EnterIs(Refresh(s).s, Resuming, false);
      if StateUpdate(s).1 {
        O.UpdateIs(t);
        StateUpdateFetches(t);
      }
    }
  }
}
