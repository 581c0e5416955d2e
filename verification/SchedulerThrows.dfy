/** Exactly when cancel, pause, resume, updates and instant groups are refused, and when a refused call leaves the
    scheduler as it was. */
module SchedulerThrows {
  import opened Vda
  import opened Events
  import opened KeyOrder
  import A = ActionTasks
  import N = NavigationTasks
  import opened SchedulerModel
  import O = SchedulerOperations
  import opened SchedulerIdle
  import opened SchedulerTidy

  ghost predicate NoRepeats(refs: seq<nat>)
  {
    forall i, j | 0 <= i < j < |refs| :: refs[i] != refs[j]
  }

  lemma RestNoRepeats(refs: seq<nat>)
    requires NoRepeats(refs) && refs != []
    ensures NoRepeats(refs[1..]) && refs[0] !in refs[1..]
  {
    assert forall i | 0 <= i < |refs[1..]| :: refs[1..][i] == refs[i + 1];
  }

  lemma RestAllows(tasks: seq<Task>, refs: seq<nat>, tr: A.ActionTransition)
    requires InRange(refs, |tasks|) && refs != [] && A.Next(tasks[refs[0]].state, tr).Some?
    ensures (forall i | 0 <= i < |refs| :: A.Next(tasks[refs[i]].state, tr).Some?) <==>
            (forall i | 0 <= i < |refs[1..]| :: A.Next(tasks[refs[1..][i]].state, tr).Some?)
  {
    hide A.Next;
    assert forall i | 0 < i < |refs| :: refs[i] == refs[1..][i - 1];
    assert forall i | 0 <= i < |refs[1..]| :: refs[1..][i] == refs[i + 1];
  }

  lemma FirstForbids(tasks: seq<Task>, refs: seq<nat>, tr: A.ActionTransition)
    requires InRange(refs, |tasks|) && refs != [] && A.Next(tasks[refs[0]].state, tr).None?
    ensures !forall i | 0 <= i < |refs| :: A.Next(tasks[refs[i]].state, tr).Some?
  {
    hide A.Next;
  }

  lemma {:induction false} TransitionAllOk(s: Sched, refs: seq<nat>, tr: A.ActionTransition)
    requires InRange(refs, |s.tasks|) && NoRepeats(refs)
    ensures TransitionAll(s, refs, tr).Ok? <==>
            forall i | 0 <= i < |refs| :: A.Next(s.tasks[refs[i]].state, tr).Some?
    ensures var t := TransitionAll(s, refs, tr).s;
            t == s.(tasks := t.tasks, out := t.out) && |t.tasks| == |s.tasks|
    decreases |refs|
  {
    hide *;
    if refs == [] {
      O.TransitionNone(s, tr);
    } else {
      O.TransitionNext(s, refs, tr);
      O.TaskIs(s, refs[0], tr);
      var first := TaskTransition(s, refs[0], tr);
      if first.Ok? {
        RestNoRepeats(refs);
        TransitionAllOk(first.s, refs[1..], tr);
        assert forall i | 0 <= i < |refs[1..]| :: first.s.tasks[refs[1..][i]] == s.tasks[refs[1..][i]];
        RestAllows(s.tasks, refs, tr);
      } else {
        FirstForbids(s.tasks, refs, tr);
      }
    }
  }

  lemma RefsDistinct(m: TaskMap, tasks: seq<Task>)
    requires Refers(m, tasks)
    ensures InRange(RefsOf(m), |tasks|) && NoRepeats(RefsOf(m))
  {
    RefsInRange(m, tasks);
    var keys := Ascending(m.Keys);
    forall i, j | 0 <= i < j < |keys|
      ensures RefsOf(m)[i] != RefsOf(m)[j]
    {
      assert keys[i] in keys && keys[j] in keys;
    }
  }

  /** The tasks the map refers to are the listed ones. */
  lemma RefsCover(m: TaskMap, tasks: seq<Task>, tr: A.ActionTransition)
    requires Refers(m, tasks) && InRange(RefsOf(m), |tasks|)
    ensures (forall i | 0 <= i < |RefsOf(m)| :: A.Next(tasks[RefsOf(m)[i]].state, tr).Some?) <==>
            (forall id | id in m :: A.Next(tasks[m[id]].state, tr).Some?)
  {
    hide A.Next;
    var keys := Ascending(m.Keys);
    forall id | id in m
      ensures exists i :: 0 <= i < |keys| && keys[i] == id
    {
      assert id in keys;
    }
    forall i | 0 <= i < |keys|
      ensures keys[i] in m && RefsOf(m)[i] == m[keys[i]]
    {
      assert keys[i] in keys;
    }
  }

  // Pause ///////////////////////////////////////////////////////////////////////////////////////

  /** A navigation that can be told to pause. */
  predicate Drivable(nav: Option<N.Nav>)
  {
    nav.None? || nav.value.state.NavFirstInProgress? || nav.value.state.NavInProgress?
  }

  /** One transition for all tasks of a map succeeds exactly when each of them allows it. */
  lemma {:induction false} AllOf(s: Sched, m: TaskMap, tr: A.ActionTransition)
    requires Refers(m, s.tasks)
    ensures InRange(RefsOf(m), |s.tasks|)
    ensures TransitionAll(s, RefsOf(m), tr).Ok? <==> forall id | id in m :: A.Next(s.tasks[m[id]].state, tr).Some?
    ensures var t := TransitionAll(s, RefsOf(m), tr).s; t.nav == s.nav && t.mode == s.mode
  {
    RefsDistinct(m, s.tasks);
    hide A.Next, A.Effect, TransitionAll, RefsOf;
    RefsCover(m, s.tasks, tr);
    TransitionAllOk(s, RefsOf(m), tr);
  }

  lemma DrivablePauses(s: Sched)
    ensures s.nav.Some? ==> (NavTransition(s, N.DoPause).Ok? <==> Drivable(s.nav))
    ensures s.nav.Some? ==> NavTransition(s, N.DoPause).s.mode == s.mode
  {
    hide N.Effect;
  }

  lemma PauseActiveReturns(s: Sched)
    requires WellFormed(s)
    ensures PauseActive(s).0.Ok? <==>
            Drivable(s.nav) && forall id | id in s.running :: A.Next(s.tasks[s.running[id]].state, A.DoPause).Some?
    ensures PauseActive(s).0.Throw? ==> PauseActive(s).0.s.mode == s.mode
    ensures !PauseActive(s).1
  {
    AllOf(s, s.running, A.DoPause);
    DrivablePauses(TransitionAll(s, RefsOf(s.running), A.DoPause).s);
    hide A.Next, A.Effect, N.Effect, N.Transfer, TransitionAll, RefsOf, NavTransition;
  }

  /** Pausing returns exactly when the scheduler is idle, or active with only running or initializing
      tasks in its running map and a navigation that is absent or in progress. Otherwise it throws,
      stays in its state, and may already have told some actions to pause. */
  lemma PauseReturns(s: Sched)
    requires WellFormed(s)
    ensures Apply(s, OpPause).Ok? <==>
            || s.mode == Idle
            || (s.mode == Active && Drivable(s.nav)
                && forall id | id in s.running :: A.Next(s.tasks[s.running[id]].state, A.DoPause).Some?)
    ensures Apply(s, OpPause).Throw? ==> Apply(s, OpPause).s.mode == s.mode
  {
    hide *;
    PauseActiveReturns(s);
    PauseIs(s);
  }

  // Cancel //////////////////////////////////////////////////////////////////////////////////////

  ghost predicate Cancelable(t: Task)
  {
    !t.state.ActionCanceling? && !t.state.IsTerminal()
  }

  lemma CancelableNext(tasks: seq<Task>)
    ensures forall r | 0 <= r < |tasks| :: A.Next(tasks[r].state, A.DoCancel).Some? <==> Cancelable(tasks[r])
  {
  }

  lemma {:induction false} TasksCancel(s: Sched)
    requires WellFormed(s) && InRange(RefsOf(s.active), |s.tasks|)
    ensures TransitionAll(s, RefsOf(s.active), A.DoCancel).Ok? <==>
            forall id | id in s.active :: Cancelable(s.tasks[s.active[id]])
    ensures var t := TransitionAll(s, RefsOf(s.active), A.DoCancel).s; t.nav == s.nav && t.mode == s.mode
  {
    hide A.Next, A.Effect, TransitionAll, RefsOf, Cancelable;
    AllOf(s, s.active, A.DoCancel);
    CancelableNext(s.tasks);
  }

  /** No active task is canceling already or over, and the navigation is not canceling already. */
  ghost predicate AllCancelable(s: Sched)
    requires WellFormed(s)
  {
    && (forall id | id in s.active :: Cancelable(s.tasks[s.active[id]]))
    && (s.nav.Some? ==> !s.nav.value.state.NavCanceling?)
  }

  lemma AllCancelableIs(s: Sched)
    requires WellFormed(s)
    ensures AllCancelable(s) <==>
            && (forall id | id in s.active :: Cancelable(s.tasks[s.active[id]]))
            && (s.nav.Some? ==> !s.nav.value.state.NavCanceling?)
  {
    hide Cancelable, Refers;
  }

  /** A driving navigation can be told to cancel, unless it is canceling already. */
  lemma NavCancels(t: Sched)
    ensures t.nav.Some? ==>
              && NavTransition(t, N.DoCancel).s.mode == t.mode
              && (!t.nav.value.state.IsPaused() && !t.nav.value.state.IsTerminal() ==>
                    (NavTransition(t, N.DoCancel).Ok? <==> !t.nav.value.state.NavCanceling?))
              && (t.nav.value.state.NavCanceling? ==>
                    !t.nav.value.state.IsPaused() && !t.nav.value.state.IsTerminal())
  {
    hide N.Effect;
  }

  lemma ClearedMode(t: Sched)
    ensures Enter(ClearQueues(t, true), Canceling, true).mode == Canceling
  {
    hide ForgetItems, ForgetGroups, StepsToStop;
  }

  lemma CancelActiveReturns(s: Sched)
    requires WellFormed(s)
    ensures CancelActive(s).0.Ok? <==> AllCancelable(s)
    ensures CancelActive(s).0.Throw? ==> CancelActive(s).0.s.mode == s.mode
  {
    hide *;
    O.CancelActiveIs(s);
    TasksCancel(s);
    var t := TransitionAll(s, RefsOf(s.active), A.DoCancel).s;
    NavCancels(t);
    AllCancelableIs(s);
    ClearedMode(t);
    if t.nav.Some? {
      ClearedMode(NavTransition(t, N.DoCancel).s);
    }
  }

  /** A cancel returns exactly in the idle states, and in Active and Paused when everything can be cancelled. */
  lemma CancelReturns(s: Sched)
    requires Tidy(s)
    ensures WellFormed(s)
    ensures Apply(s, OpCancel).Ok? <==>
            || s.mode == Idle || s.mode == IdlePaused
            || ((s.mode == Active || s.mode == Paused) && AllCancelable(s))
    ensures Apply(s, OpCancel).Throw? ==> Apply(s, OpCancel).s.mode == s.mode
  {
    hide *;
    TidyParts(s);
    CancelIs(s);
    CancelActiveReturns(s);
    if s.mode == Idle {
      CancelIdleReturns(s);
    }
  }

  // Resume //////////////////////////////////////////////////////////////////////////////////////

  /** Every paused task can resume and the navigation, if any, is paused. */
  ghost predicate AllResumable(s: Sched)
    requires WellFormed(s)
  {
    && (forall id | id in s.paused :: A.Next(s.tasks[s.paused[id]].state, A.DoResume).Some?)
    && (s.nav.Some? ==> s.nav.value.state.NavPaused?)
  }

  lemma ResumePausedReturns(s: Sched)
    requires WellFormed(s)
    ensures ResumePaused(s).0.Ok? <==> AllResumable(s)
    ensures ResumePaused(s).0.Throw? ==> ResumePaused(s).0.s.mode == s.mode
  {
    AllOf(s, s.paused, A.DoResume);
    PausedResumes(TransitionAll(s, RefsOf(s.paused), A.DoResume).s);
    hide A.Next, A.Effect, N.Effect, N.Transfer, TransitionAll, RefsOf, NavTransition;
  }

  lemma PausedResumes(s: Sched)
    ensures s.nav.Some? ==> (NavTransition(s, N.DoResume).Ok? <==> s.nav.value.state.NavPaused?)
    ensures s.nav.Some? ==> NavTransition(s, N.DoResume).s.mode == s.mode
  {
    hide N.Effect;
  }

  /** The last navigation-interrupting task has ended, and the navigation that is now to resume is not paused. */
  ghost predicate Unresumable(s: Sched)
    requires WellFormed(s)
  {
    && s.navInt != map[] && (forall id | id in s.navInt :: s.tasks[s.navInt[id]].state.IsTerminal())
    && s.nav.Some? && !s.nav.value.state.IsTerminal() && !s.nav.value.state.NavPaused?
  }

  lemma DropsAll(t: Sched)
    requires WellFormed(t)
    ensures DropNavInt(t).navInt == map[] <==> forall id | id in t.navInt :: t.tasks[t.navInt[id]].state.IsTerminal()
    ensures DropNavInt(t) == t.(navInt := DropNavInt(t).navInt)
  {
    var r := DropNavInt(t).navInt;
    assert r == map[] <==> forall id :: id !in r;
  }

  lemma RefreshReturns(s: Sched)
    requires WellFormed(s)
    ensures Refresh(s).Throw? <==> Unresumable(s)
  {
    var t := UpdateTasks(s);
    UpdateTasksFrame(s);
    DropsAll(t);
    if t.nav.Some? {
      PausedResumes(DropNavInt(t));
    }
    hide UpdateTasks, DropNavInt, NavTransition, Refers;
  }

  lemma {:induction false} RefreshedResumable(s: Sched)
    requires Refreshed(s)
    ensures !Unresumable(s)
  {
    if s.navInt != map[] {
      var id :| id in s.navInt;
    }
  }

  lemma StateUpdateThrows(s: Sched)
    requires WellFormed(s)
    ensures var r := StateUpdate(s);
            && (r.0.Throw? <==> s.mode in {Active, Canceling, Resuming, Pausing, Paused} && Refresh(s).Throw?)
            && (r.0.Throw? ==> r.0 == Refresh(s))
            && (r.1 ==> s.mode == Resuming && r.0 == Ok(Enter(Refresh(s).s, Active, true)))
  {
    hide Refresh, Fetch, UpdateTasks, FetchInterrupt, WellFormed, Enter;
  }

  lemma {:induction false} UpdateUnfolds(s: Sched)
    requires WellFormed(s)
    ensures var r := StateUpdate(s); Update(s) == if r.0.Ok? && r.1 then Update(r.0.s) else r.0
  {
    hide StateUpdate, WellFormed;
  }

  /** An update throws exactly when it has to resume a navigation that is not paused. */
  lemma {:induction false} UpdateReturns(s: Sched)
    requires WellFormed(s)
    ensures Update(s).Throw? <==> s.mode in {Active, Canceling, Resuming, Pausing, Paused} && Unresumable(s)
  {
    hide *;
    RefreshReturns(s);
    StateUpdateThrows(s);
    UpdateUnfolds(s);
    if StateUpdate(s).1 {
      var t := Enter(Refresh(s).s, Active, true);
      AnyRefreshRefreshed(s);
      EnterRefreshed(Refresh(s).s, Active, true);
      RefreshedFormed(t);
      RefreshReturns(t);
      RefreshedResumable(t);
      StateUpdateThrows(t);
      UpdateUnfolds(t);
    }
  }

  lemma RefreshedFormed(s: Sched)
    requires Refreshed(s)
    ensures WellFormed(s)
  {
  }

  // Reports /////////////////////////////////////////////////////////////////////////////////////

  /** The states in which an update refreshes the tasks, and with them the tasks that interrupt the navigation. */
  predicate Refreshes(mode: Mode)
  {
    mode in {Active, Canceling, Resuming, Pausing, Paused}
  }

  /** There are tasks that interrupt the navigation, and all of them have ended once task r is in the given state. */
  ghost predicate LastInterruptEnds(s: Sched, r: nat, st: A.ActionState)
    requires WellFormed(s)
  {
    s.navInt != map[] &&
    forall id | id in s.navInt :: (if s.navInt[id] == r then st else s.tasks[s.navInt[id]].state).IsTerminal()
  }

  /** A navigation in this state cannot be told to resume, and there is still one to be told. */
  predicate Unpaused(st: N.NavState)
  {
    !st.IsTerminal() && !st.NavPaused?
  }

  lemma ReportedUnresumable(s: Sched, r: nat, st: A.ActionState)
    requires WellFormed(s) && r < |s.tasks|
    ensures Unresumable(SetTask(s, r, st)) <==>
            LastInterruptEnds(s, r, st) && s.nav.Some? && Unpaused(s.nav.value.state)
    ensures SetTask(s, r, st).mode == s.mode
  {
    var t := SetTask(s, r, st);
    forall id | id in s.navInt
      ensures t.tasks[t.navInt[id]].state == if s.navInt[id] == r then st else s.tasks[s.navInt[id]].state
    {
    }
    hide A.Effect;
  }

  lemma ActionIs(s: Sched, id: ActionId, tr: A.ActionTransition)
    requires WellFormed(s)
    ensures id in s.active ==> s.active[id] < |s.tasks|
    ensures id !in s.active ==> Apply(s, OpAction(id, tr)) == Throw(s)
    ensures id in s.active ==>
              var next := A.Next(s.tasks[s.active[id]].state, tr);
              && (next.None? ==> Apply(s, OpAction(id, tr)) == Throw(s))
              && (next.Some? ==>
                    && WellFormed(SetTask(s, s.active[id], next.value))
                    && Apply(s, OpAction(id, tr)) == Update(SetTask(s, s.active[id], next.value)))
  {
    hide A.Next, A.Effect, Update;
  }

  /** A report about an action returns exactly when the action is active, its state allows the report, and the update
      that follows does not have to resume a navigation that is not paused: it has to when the report ends the last task
      that interrupts the navigation. */
  lemma ActionReturns(s: Sched, id: ActionId, tr: A.ActionTransition)
    requires WellFormed(s)
    ensures id in s.active ==> s.active[id] < |s.tasks|
    ensures Apply(s, OpAction(id, tr)).Ok? <==>
            id in s.active &&
            var next := A.Next(s.tasks[s.active[id]].state, tr);
            next.Some? && !(Refreshes(s.mode) && LastInterruptEnds(s, s.active[id], next.value) &&
                            s.nav.Some? && Unpaused(s.nav.value.state))
  {
    ActionIs(s, id, tr);
    RefreshingIs(s.mode);
    hide *;
    if id in s.active {
      var next := A.Next(s.tasks[s.active[id]].state, tr);
      if next.Some? {
        UpdateReturns(SetTask(s, s.active[id], next.value));
        ReportedUnresumable(s, s.active[id], next.value);
      }
    }
  }

  lemma RefreshingIs(mode: Mode)
    ensures Refreshes(mode) <==> mode in {Active, Canceling, Resuming, Pausing, Paused}
  {
  }

  /** Every task that interrupts the navigation has ended, and there are such tasks. */
  ghost predicate InterruptsEnded(s: Sched)
    requires WellFormed(s)
  {
    s.navInt != map[] && forall id | id in s.navInt :: s.tasks[s.navInt[id]].state.IsTerminal()
  }

  lemma NavigationIs(s: Sched, tr: N.NavTransition)
    requires WellFormed(s)
    ensures s.nav.None? ==> Apply(s, OpNavigation(tr)) == Throw(s)
    ensures s.nav.Some? ==>
              var next := N.Transfer(s.nav.value.state, tr, s.nav.value.goal.seqId);
              && (next.None? ==> Apply(s, OpNavigation(tr)) == Throw(s))
              && (next.Some? ==>
                    && WellFormed(SetNav(s, next.value)) && SetNav(s, next.value).mode == s.mode
                    && (Unresumable(SetNav(s, next.value)) <==> InterruptsEnded(s) && Unpaused(next.value))
                    && Apply(s, OpNavigation(tr)) == Update(SetNav(s, next.value)))
  {
    hide N.Transfer, N.Effect, Update, Refers;
  }

  /** A report about the navigation returns exactly when there is one, its state allows the report, and the update that
      follows does not have to resume a navigation that is not paused. */
  lemma NavigationReturns(s: Sched, tr: N.NavTransition)
    requires WellFormed(s)
    ensures Apply(s, OpNavigation(tr)).Ok? <==>
            s.nav.Some? &&
            var next := N.Transfer(s.nav.value.state, tr, s.nav.value.goal.seqId);
            next.Some? && !(Refreshes(s.mode) && InterruptsEnded(s) && Unpaused(next.value))
  {
    NavigationIs(s, tr);
    RefreshingIs(s.mode);
    hide *;
    if s.nav.Some? {
      var next := N.Transfer(s.nav.value.state, tr, s.nav.value.goal.seqId);
      if next.Some? {
        UpdateReturns(SetNav(s, next.value));
      }
    }
  }

  /** An update, and a commit likewise, returns exactly when it does not have to resume a navigation that is not
      paused. */
  lemma CommitReturns(s: Sched)
    requires WellFormed(s)
    ensures Apply(s, OpCommit).Ok? <==> Apply(s, OpUpdate).Ok?
    ensures Apply(s, OpCommit).Ok? <==>
            !(Refreshes(s.mode) && InterruptsEnded(s) && s.nav.Some? && Unpaused(s.nav.value.state))
  {
    var t := s.(queue := s.queue + s.staging, staging := []);
    assert WellFormed(t) && Apply(s, OpCommit) == Update(t) && Apply(s, OpUpdate) == Update(s) by {
      hide Update, Refers;
    }
    hide Update, Apply;
    UpdateReturns(s);
    UpdateReturns(t);
  }

  /** A resume returns exactly in IdlePaused, and in Paused when everything can resume; the update that follows does
      not throw. */
  lemma ResumeReturns(s: Sched)
    requires Tidy(s)
    ensures WellFormed(s)
    ensures Apply(s, OpResume).Ok? <==> s.mode == IdlePaused || (s.mode == Paused && AllResumable(s))
  {
    hide *;
    TidyParts(s);
    ResumeIs(s);
    ResumePausedReturns(s);
    if s.mode == IdlePaused {
      StillEntered(s, Idle, true);
      UpdateReturns(Enter(s, Idle, true));
    } else if s.mode == Paused {
      ResumePausedTidies(s);
      RefreshedResumable(ResumePaused(s).0.s);
      UpdateReturns(ResumePaused(s).0.s);
    }
  }

  // Instant groups //////////////////////////////////////////////////////////////////////////////

  lemma {:induction false} ConflictingDistinct(refs: seq<nat>, tasks: seq<Task>, ceiling: BlockingType)
    requires InRange(refs, |tasks|) && NoRepeats(refs)
    ensures NoRepeats(ConflictingRefs(refs, tasks, ceiling))
    ensures forall x :: x in ConflictingRefs(refs, tasks, ceiling) <==> x in refs && Conflicts(tasks[x], ceiling)
  {
    if refs != [] {
      assert forall x :: x in refs <==> x == refs[0] || x in refs[1..];
      assert refs[0] !in refs[1..];
      ConflictingDistinct(refs[1..], tasks, ceiling);
    }
  }

  /** The conflicting active tasks can all be told to cancel. */
  ghost predicate ConflictsCancelable(s: Sched, ceiling: BlockingType)
    requires WellFormed(s)
  {
    forall id | id in s.active && Conflicts(s.tasks[s.active[id]], ceiling) :: Cancelable(s.tasks[s.active[id]])
  }

  lemma {:induction false} RefsAreActive(s: Sched)
    requires WellFormed(s)
    ensures forall id | id in s.active :: s.active[id] in RefsOf(s.active)
    ensures forall r | r in RefsOf(s.active) :: exists id :: id in s.active && s.active[id] == r
  {
    var all, keys := RefsOf(s.active), Ascending(s.active.Keys);
    hide RefsOf, Ascending;
    forall id | id in s.active
      ensures s.active[id] in all
    {
      assert id in keys;
      var i :| 0 <= i < |keys| && keys[i] == id;
      assert all[i] == s.active[id];
    }
    forall r | r in all
      ensures exists id :: id in s.active && s.active[id] == r
    {
      var i :| 0 <= i < |all| && all[i] == r;
      assert keys[i] in keys;
    }
  }

  lemma {:induction false} ConflictsCover(s: Sched, ceiling: BlockingType)
    requires WellFormed(s) && InRange(RefsOf(s.active), |s.tasks|) && NoRepeats(RefsOf(s.active))
    ensures var refs := ConflictingRefs(RefsOf(s.active), s.tasks, ceiling);
            (forall i | 0 <= i < |refs| :: A.Next(s.tasks[refs[i]].state, A.DoCancel).Some?) <==>
            ConflictsCancelable(s, ceiling)
  {
    var all := RefsOf(s.active);
    ConflictingDistinct(all, s.tasks, ceiling);
    var refs := ConflictingRefs(all, s.tasks, ceiling);
    CancelableNext(s.tasks);
    RefsAreActive(s);
    hide A.Next, Cancelable, Conflicts, ConflictingRefs, RefsOf, NoRepeats;
    if ConflictsCancelable(s, ceiling) {
      forall i | 0 <= i < |refs|
        ensures A.Next(s.tasks[refs[i]].state, A.DoCancel).Some?
      {
        assert refs[i] in refs && refs[i] in all;
        var id :| id in s.active && s.active[id] == refs[i];
        assert Cancelable(s.tasks[s.active[id]]);
      }
    } else {
      var id :| id in s.active && Conflicts(s.tasks[s.active[id]], ceiling) && !Cancelable(s.tasks[s.active[id]]);
      assert s.active[id] in refs;
      var i :| 0 <= i < |refs| && refs[i] == s.active[id];
      assert !A.Next(s.tasks[refs[i]].state, A.DoCancel).Some?;
    }
  }

  lemma DoInterruptReturns(s: Sched)
    requires WellFormed(s) && s.interrupts != []
    ensures DoInterrupt(s).Ok? <==>
            && (s.interrupts[0].ceiling != NONE ==> Drivable(s.nav))
            && ConflictsCancelable(s, s.interrupts[0].ceiling)
    ensures DoInterrupt(s).s.mode == s.mode && DoInterrupt(s).s.interrupts == s.interrupts
  {
    hide *;
    var ceiling := s.interrupts[0].ceiling;
    ActiveRefers(s);
    RefsDistinct(s.active, s.tasks);
    ConflictingDistinct(RefsOf(s.active), s.tasks, ceiling);
    ConflictsCover(s, ceiling);
    InterruptPauses(s);
    var nav := if ceiling != NONE && s.nav.Some? then NavTransition(s, N.DoPause) else Ok(s);
    TransitionAllOk(nav.s, ConflictingRefs(RefsOf(s.active), s.tasks, ceiling), A.DoCancel);
  }

  lemma ActiveRefers(s: Sched)
    requires WellFormed(s)
    ensures Refers(s.active, s.tasks)
  {
    hide Refers;
  }

  /** The first part of an interruption, and what comes behind it. */
  lemma InterruptPauses(s: Sched)
    requires WellFormed(s) && s.interrupts != [] && InRange(RefsOf(s.active), |s.tasks|)
    ensures var ceiling := s.interrupts[0].ceiling;
            var refs := ConflictingRefs(RefsOf(s.active), s.tasks, ceiling);
            var nav := if ceiling != NONE && s.nav.Some? then NavTransition(s, N.DoPause) else Ok(s);
            && nav.s.tasks == s.tasks && nav.s.mode == s.mode && nav.s.interrupts == s.interrupts
            && (nav.Ok? <==> (ceiling != NONE ==> Drivable(s.nav)))
            && DoInterrupt(s) == if nav.Throw? then nav else TransitionAll(nav.s, refs, A.DoCancel)
  {
    hide TransitionAll, RefsOf, ConflictingRefs, N.Effect, Refers;
  }

  lemma {:induction false} UpdateInterruptingReturns(s: Sched)
    requires WellFormed(s) && s.mode == Interrupting
    ensures Update(s).Ok?
  {
    hide UpdateTasks, FetchInterrupt;
  }

  /** An instant group is accepted exactly when the scheduler is idle or active, the group in front of
      the interrupt queue finds the navigation absent or in progress if it blocks, and every active
      task it conflicts with can still be canceled. A refused group stays in the interrupt queue. */
  lemma InterruptReturns(s: Sched, g: Group)
    requires WellFormed(s)
    ensures var front := (s.interrupts + [g])[0].ceiling;
            Apply(s, OpInterrupt(g)).Ok? <==>
              && (s.mode == Idle || s.mode == Active)
              && (front != NONE ==> Drivable(s.nav))
              && ConflictsCancelable(s, front)
    ensures Apply(s, OpInterrupt(g)).Throw? ==>
              Apply(s, OpInterrupt(g)).s.mode == s.mode && Apply(s, OpInterrupt(g)).s.interrupts == s.interrupts + [g]
  {
    hide *;
    var t := s.(interrupts := s.interrupts + [g]);
    O.InterruptIs(s, g);
    O.FinishIs(StateInterrupt(t));
    DoInterruptReturns(t);
    if (s.mode == Idle || s.mode == Active) && DoInterrupt(t).Ok? {
      O.EnterIs(DoInterrupt(t).s, Interrupting, true);
      UpdateInterruptingReturns(Enter(DoInterrupt(t).s, Interrupting, true));
    }
    SameConflicts(s, t, t.interrupts[0].ceiling);
  }

  lemma SameConflicts(s: Sched, t: Sched, ceiling: BlockingType)
    requires WellFormed(s) && WellFormed(t) && t.tasks == s.tasks && t.active == s.active
    ensures ConflictsCancelable(t, ceiling) == ConflictsCancelable(s, ceiling)
  {
    hide Refers, Conflicts;
  }

  // What a refused call leaves behind ///////////////////////////////////////////////////////////

  lemma {:induction false} OutGrows(s: Sched, refs: seq<nat>, tr: A.ActionTransition)
    requires InRange(refs, |s.tasks|)
    ensures |TransitionAll(s, refs, tr).s.out| >= |s.out|
    decreases |refs|
  {
    hide A.Effect, A.Next;
    if refs != [] && TaskTransition(s, refs[0], tr).Ok? {
      OutGrows(TaskTransition(s, refs[0], tr).s, refs[1..], tr);
    }
  }

  lemma CommandPublishes(id: ActionId, st: A.ActionState, tr: A.ActionTransition)
    requires A.IsCommand(tr) && A.Next(st, tr).Some?
    ensures A.Effect(id, A.Next(st, tr).value) != []
  {
  }

  /** A command given to listed tasks changes nothing exactly when there is none or the first one refuses it. */
  ghost predicate FirstRefuses(s: Sched, refs: seq<nat>, tr: A.ActionTransition)
    requires InRange(refs, |s.tasks|)
  {
    refs == [] || A.Next(s.tasks[refs[0]].state, tr).None?
  }

  lemma {:induction false} FirstDecides(s: Sched, refs: seq<nat>, tr: A.ActionTransition)
    requires InRange(refs, |s.tasks|) && A.IsCommand(tr)
    ensures TransitionAll(s, refs, tr).s == s <==> FirstRefuses(s, refs, tr)
    ensures refs != [] && FirstRefuses(s, refs, tr) ==> TransitionAll(s, refs, tr).Throw?
  {
    if refs != [] && A.Next(s.tasks[refs[0]].state, tr).Some? {
      CommandPublishes(s.tasks[refs[0]].action.id, s.tasks[refs[0]].state, tr);
      OutGrows(TaskTransition(s, refs[0], tr).s, refs[1..], tr);
    }
    hide A.Effect, A.Next;
  }

  lemma CommandsAre()
    ensures A.IsCommand(A.DoPause) && A.IsCommand(A.DoResume) && A.IsCommand(A.DoCancel)
  {
  }

  /** A refused pause changes nothing exactly when the state refuses it, nothing runs, or the running task with the
      smallest id refuses to pause. */
  lemma PauseLeaves(s: Sched)
    requires WellFormed(s) && Apply(s, OpPause).Throw?
    ensures InRange(RefsOf(s.running), |s.tasks|)
    ensures Apply(s, OpPause).s == s <==> s.mode != Active || FirstRefuses(s, RefsOf(s.running), A.DoPause)
  {
    hide *;
    PauseIs(s);
    O.PauseActiveIs(s);
    CommandsAre();
    FirstDecides(s, RefsOf(s.running), A.DoPause);
    var t := TransitionAll(s, RefsOf(s.running), A.DoPause).s;
    if t.nav.Some? {
      O.NavIs(t, N.DoPause);
    }
  }

  /** A refused cancel changes nothing exactly when the state refuses it, nothing is active, or the active task with
      the smallest id refuses to cancel. */
  lemma CancelLeaves(s: Sched)
    requires Tidy(s) && Apply(s, OpCancel).Throw?
    ensures InRange(RefsOf(s.active), |s.tasks|)
    ensures Apply(s, OpCancel).s == s <==>
            (s.mode != Active && s.mode != Paused) || FirstRefuses(s, RefsOf(s.active), A.DoCancel)
  {
    hide *;
    TidyParts(s);
    CancelReturns(s);
    CancelIs(s);
    O.CancelActiveIs(s);
    CommandsAre();
    FirstDecides(s, RefsOf(s.active), A.DoCancel);
    var t := TransitionAll(s, RefsOf(s.active), A.DoCancel).s;
    if t.nav.Some? {
      O.NavIs(t, N.DoCancel);
    }
  }

  /** A refused resume changes nothing exactly when the state refuses it, nothing is paused, or the paused task with the
      smallest id refuses to resume. */
  lemma ResumeLeaves(s: Sched)
    requires Tidy(s) && Apply(s, OpResume).Throw?
    ensures InRange(RefsOf(s.paused), |s.tasks|)
    ensures Apply(s, OpResume).s == s <==> s.mode != Paused || FirstRefuses(s, RefsOf(s.paused), A.DoResume)
  {
    hide *;
    TidyParts(s);
    ResumeReturns(s);
    ResumePausedReturns(s);
    ResumeIs(s);
    O.ResumePausedIs(s);
    CommandsAre();
    FirstDecides(s, RefsOf(s.paused), A.DoResume);
    var t := TransitionAll(s, RefsOf(s.paused), A.DoResume).s;
    if t.nav.Some? {
      O.NavIs(t, N.DoResume);
    }
  }

  /** A refused instant group changes nothing but the interrupt queue exactly when the state refuses it, when the
      navigation has to pause and cannot, or when it need not and the first conflicting task refuses to cancel. */
  lemma InterruptLeaves(s: Sched, g: Group)
    requires WellFormed(s) && Apply(s, OpInterrupt(g)).Throw?
    ensures InRange(RefsOf(s.active), |s.tasks|)
    ensures var front := (s.interrupts + [g])[0].ceiling;
            var conflicts := ConflictingRefs(RefsOf(s.active), s.tasks, front);
            Apply(s, OpInterrupt(g)).s == s.(interrupts := s.interrupts + [g]) <==>
              || (s.mode != Idle && s.mode != Active)
              || (front != NONE && !Drivable(s.nav))
              || ((front == NONE || s.nav.None?) && FirstRefuses(s, conflicts, A.DoCancel))
  {
    RefsInRange(s.active, s.tasks);
    InterruptIs(s, g);
    var t := s.(interrupts := s.interrupts + [g]);
    if (s.mode == Idle || s.mode == Active) && DoInterrupt(t).Ok? {
      UpdateInterruptingReturns(Enter(DoInterrupt(t).s, Interrupting, true));
    }
    if (s.mode == Idle || s.mode == Active) && DoInterrupt(t).Throw? {
      DoInterruptLeaves(t);
    }
    hide DoInterrupt, RefsOf, ConflictingRefs, Drivable, Apply, Update, Refers, Enter;
  }

  lemma {:induction false} DoInterruptIs(t: Sched)
    requires WellFormed(t) && t.interrupts != [] && InRange(RefsOf(t.active), |t.tasks|)
    ensures var front := t.interrupts[0].ceiling;
            var refs := ConflictingRefs(RefsOf(t.active), t.tasks, front);
            if front == NONE || t.nav.None? then DoInterrupt(t) == TransitionAll(t, refs, A.DoCancel)
            else if !Drivable(t.nav) then DoInterrupt(t) == Throw(t)
            else
              var u := SetNav(t, N.NavPausing);
              u.tasks == t.tasks && |u.out| > |t.out| && DoInterrupt(t) == TransitionAll(u, refs, A.DoCancel)
  {
    hide TransitionAll, RefsOf, ConflictingRefs, Refers;
  }

  lemma DoInterruptLeaves(t: Sched)
    requires WellFormed(t) && t.interrupts != [] && InRange(RefsOf(t.active), |t.tasks|) && DoInterrupt(t).Throw?
    ensures var front := t.interrupts[0].ceiling;
            DoInterrupt(t).s == t <==>
              || (front != NONE && !Drivable(t.nav))
              || ((front == NONE || t.nav.None?) &&
                  FirstRefuses(t, ConflictingRefs(RefsOf(t.active), t.tasks, front), A.DoCancel))
  {
    var front := t.interrupts[0].ceiling;
    var refs := ConflictingRefs(RefsOf(t.active), t.tasks, front);
    DoInterruptIs(t);
    hide TransitionAll, RefsOf, ConflictingRefs, A.Next, Refers, DoInterrupt, FirstRefuses, SetNav;
    if front == NONE || t.nav.None? {
      FirstDecides(t, refs, A.DoCancel);
    } else if Drivable(t.nav) {
      OutGrows(SetNav(t, N.NavPausing), refs, A.DoCancel);
    }
  }
}
