/** How the four task maps share the live tasks, when action ids are unique. */
module SchedulerOwnership {
  import opened Vda
  import opened Events
  import A = ActionTasks
  import N = NavigationTasks
  import opened SchedulerModel
  import O = SchedulerOperations
  import opened SchedulerMoves
  import opened SchedulerAccounts

  ghost predicate SubMap(m: TaskMap, n: TaskMap)
  {
    forall id | id in m :: id in n && m[id] == n[id]
  }

  /** The running and the paused tasks split the active ones. */
  ghost predicate Partition(s: Sched)
  {
    && SubMap(s.running, s.active)
    && SubMap(s.paused, s.active)
    && (forall id | id in s.active :: id in s.running <==> id !in s.paused)
  }

  /** Every live task is active. */
  ghost predicate LiveActive(s: Sched)
  {
    forall r | 0 <= r < |s.tasks| && !s.tasks[r].state.IsTerminal() ::
      s.tasks[r].action.id in s.active && s.active[s.tasks[r].action.id] == r
  }

  /** Every live instant task that forbids driving is known to interrupt the navigation. */
  ghost predicate InstantsKnown(s: Sched)
  {
    forall r | 0 <= r < |s.tasks| && !s.tasks[r].state.IsTerminal() && s.tasks[r].instant
               && s.tasks[r].action.blocking != NONE ::
      s.tasks[r].action.id in s.navInt && s.navInt[s.tasks[r].action.id] == r
  }

  ghost predicate Owned(s: Sched)
  {
    WellFormed(s) && Partition(s) && LiveActive(s) && InstantsKnown(s)
  }

  ghost predicate Single(s: Sched, id: ActionId)
  {
    Ledger(s, id) <= 1 && Balanced(s, id)
  }

  /** No id occurs twice among the tasks and the queues. */
  ghost predicate Distinct(s: Sched)
  {
    forall id :: Single(s, id)
  }

  // Moves ///////////////////////////////////////////////////////////////////////////////////////

  lemma {:induction false} InStoreAt(tasks: seq<Task>, r: nat)
    requires r < |tasks|
    ensures InStore(tasks, tasks[r].action.id) >= 1
  {
    if r < |tasks| - 1 {
      InStoreAt(tasks[..|tasks| - 1], r);
    }
  }

  lemma {:induction false} FreshId(s: Sched, id: ActionId)
    requires WellFormed(s) && InStore(s.tasks, id) == 0
    ensures forall r | 0 <= r < |s.tasks| :: s.tasks[r].action.id != id
    ensures id !in s.active && id !in s.running && id !in s.paused && id !in s.navInt
  {
    forall r | 0 <= r < |s.tasks|
      ensures s.tasks[r].action.id != id
    {
      InStoreAt(s.tasks, r);
    }
  }

  lemma StartActionPartition(s: Sched, a: Action, batch: nat, instant: bool)
    requires Partition(s) && a.id !in s.active
    ensures Partition(StartAction(s, a, batch, instant))
  {
    hide A.Effect;
  }

  lemma StartActionLive(s: Sched, a: Action, batch: nat, instant: bool)
    requires LiveActive(s) && a.id !in s.active
    ensures LiveActive(StartAction(s, a, batch, instant))
  {
    hide A.Effect;
    var t := StartAction(s, a, batch, instant);
    forall r | 0 <= r < |t.tasks| && !t.tasks[r].state.IsTerminal()
      ensures t.tasks[r].action.id in t.active && t.active[t.tasks[r].action.id] == r
    {
      if r < |s.tasks| {
        assert t.tasks[r] == s.tasks[r];
      }
    }
  }

  lemma StartActionInstants(s: Sched, a: Action, batch: nat, instant: bool)
    requires InstantsKnown(s) && forall r | 0 <= r < |s.tasks| :: s.tasks[r].action.id != a.id
    ensures InstantsKnown(StartAction(s, a, batch, instant))
  {
    hide A.Effect;
    var t := StartAction(s, a, batch, instant);
    forall r | 0 <= r < |t.tasks| && !t.tasks[r].state.IsTerminal() && t.tasks[r].instant
               && t.tasks[r].action.blocking != NONE
      ensures t.tasks[r].action.id in t.navInt && t.navInt[t.tasks[r].action.id] == r
    {
      if r < |s.tasks| {
        assert t.tasks[r] == s.tasks[r];
      }
    }
  }

  lemma StartActionOwned(s: Sched, a: Action, batch: nat, instant: bool)
    requires Owned(s) && InStore(s.tasks, a.id) == 0
    ensures Owned(StartAction(s, a, batch, instant))
  {
    FreshId(s, a.id);
    StartActionPartition(s, a, batch, instant);
    StartActionLive(s, a, batch, instant);
    StartActionInstants(s, a, batch, instant);
    assert WellFormed(StartAction(s, a, batch, instant));
    hide StartAction, Partition, LiveActive, InstantsKnown, WellFormed;
  }

  lemma {:induction false} StartAllOwned(s: Sched, actions: seq<Action>, batch: nat, instant: bool)
    requires Owned(s)
    requires forall id :: InStore(s.tasks, id) + InActions(actions, id) <= 1
    ensures Owned(StartAll(s, actions, batch, instant))
    decreases |actions|
  {
    if actions != [] {
      var a := actions[0];
      var t := StartAction(s, a, batch, instant);
      assert InStore(s.tasks, a.id) + InActions(actions, a.id) <= 1;
      StartActionOwned(s, a, batch, instant);
      forall id
        ensures InStore(t.tasks, id) + InActions(actions[1..], id) <= 1
      {
        AppendTask(s.tasks, Task(a, A.ActionInitializing, batch, instant), id);
        assert InStore(s.tasks, id) + InActions(actions, id) <= 1;
      }
      hide InStore, Owned, A.Effect;
      StartAllOwned(t, actions[1..], batch, instant);
    }
  }

  lemma GroupFresh(s: Sched)
    requires s.queue != [] && s.queue[0].Actions? && Distinct(s)
    ensures forall id :: InStore(s.tasks, id) + InActions(s.queue[0].group.actions, id) <= 1
  {
    forall id
      ensures InStore(s.tasks, id) + InActions(s.queue[0].group.actions, id) <= 1
    {
      assert Single(s, id);
      assert InItems(s.queue, id) >= InActions(s.queue[0].group.actions, id);
      hide InStore, InActions, InItems, InGroups, Live, Starts, Forgets;
    }
  }

  lemma InstantFresh(s: Sched)
    requires s.interrupts != [] && Distinct(s)
    ensures forall id :: InStore(s.tasks, id) + InActions(s.interrupts[0].actions, id) <= 1
  {
    forall id
      ensures InStore(s.tasks, id) + InActions(s.interrupts[0].actions, id) <= 1
    {
      assert Single(s, id);
      assert InGroups(s.interrupts, id) >= InActions(s.interrupts[0].actions, id);
      hide InStore, InActions, InItems, InGroups, Live, Starts, Forgets;
    }
  }

  lemma SetTaskOwned(s: Sched, r: nat, st: A.ActionState)
    requires Owned(s) && r < |s.tasks| && !s.tasks[r].state.IsTerminal()
    ensures Owned(SetTask(s, r, st))
  {
    hide A.Effect;
  }

  lemma PartitionAt(s: Sched, id: ActionId)
    requires Partition(s)
    ensures id in s.running ==> id in s.active && s.running[id] == s.active[id]
    ensures id in s.paused ==> id in s.active && s.paused[id] == s.active[id]
    ensures id in s.active ==> (id in s.running <==> id !in s.paused)
  {
  }

  /** The three loops of an update, for one id of maps that make up the active map. */
  lemma UpdateMapsAt(s: Sched, id: ActionId)
    requires WellFormed(s) && Partition(s)
    ensures var t := UpdateMaps(s);
            && (id !in s.active ==> id !in t.active && id !in t.running && id !in t.paused)
            && (id in s.active ==>
                  var r := s.active[id];
                  r < |s.tasks| &&
                  var st := s.tasks[r].state;
                  && (id in t.active <==> !st.IsTerminal()) && (id in t.active ==> t.active[id] == r)
                  && (id in t.running <==> !st.IsPaused() && !st.IsTerminal())
                  && (id in t.running ==> t.running[id] == r)
                  && (id in t.paused <==> st.IsPaused() && !st.IsTerminal()) && (id in t.paused ==> t.paused[id] == r))
  {
    PartitionAt(s, id);
    hide Keep, Partition;
  }

  lemma UpdateMapsPartition(s: Sched)
    requires WellFormed(s) && Partition(s)
    ensures Partition(UpdateMaps(s))
  {
    var t := UpdateMaps(s);
    forall id | id in t.active || id in t.running || id in t.paused
      ensures id in s.active
      ensures id in t.running ==> id in t.active && t.running[id] == t.active[id]
      ensures id in t.paused ==> id in t.active && t.paused[id] == t.active[id]
      ensures id in t.active ==> (id in t.running <==> id !in t.paused)
    {
      UpdateMapsAt(s, id);
      PartitionAt(s, id);
      hide *;
    }
    hide UpdateMaps, Refers;
  }

  lemma UpdateMapsLive(s: Sched)
    requires WellFormed(s) && LiveActive(s)
    ensures LiveActive(UpdateMaps(s))
  {
    hide Keep;
  }

  lemma UpdateMapsSelects(s: Sched)
    requires WellFormed(s) && Partition(s)
    ensures var t := UpdateMaps(s);
            && (forall id | id in t.running :: !t.tasks[t.running[id]].state.IsPaused())
            && (forall id | id in t.paused :: t.tasks[t.paused[id]].state.IsPaused())
            && (forall id | id in t.active :: !t.tasks[t.active[id]].state.IsTerminal())
  {
    hide Keep;
  }

  lemma UpdateMapsOwned(s: Sched)
    requires Owned(s)
    ensures Owned(UpdateMaps(s))
  {
    UpdateMapsPartition(s);
    UpdateMapsLive(s);
    assert UpdateMaps(s).tasks == s.tasks && UpdateMaps(s).navInt == s.navInt;
    hide UpdateMaps, Partition, LiveActive, WellFormed;
  }

  ghost predicate SameMaps(s: Sched, t: Sched)
  {
    && t.tasks == s.tasks && t.active == s.active && t.running == s.running
    && t.paused == s.paused && t.navInt == s.navInt
  }

  lemma SameMapsOwned(s: Sched, t: Sched)
    requires Owned(s) && SameMaps(s, t)
    ensures Owned(t)
  {
  }

  lemma UpdateTasksMaps(s: Sched)
    requires WellFormed(s)
    ensures SameMaps(UpdateMaps(s), UpdateTasks(s))
    ensures UpdateTasks(s).nav.Some? ==> !UpdateTasks(s).nav.value.state.IsTerminal()
  {
    hide UpdateMaps, ForgetItems, ForgetGroups, WellFormed;
  }

  /** updateTasks re-establishes the split: afterwards running holds exactly the unpaused and paused
      exactly the paused tasks, both are part of active, and no terminal task is left. */
  lemma UpdateTasksSplits(s: Sched)
    requires Owned(s)
    ensures var t := UpdateTasks(s);
            && Partition(t)
            && (forall id | id in t.running :: !t.tasks[t.running[id]].state.IsPaused())
            && (forall id | id in t.paused :: t.tasks[t.paused[id]].state.IsPaused())
            && (forall id | id in t.active :: !t.tasks[t.active[id]].state.IsTerminal())
            && (t.nav.Some? ==> !t.nav.value.state.IsTerminal())
    ensures var t := UpdateTasks(s);
            && (forall id | id in t.running :: !Resting(t.tasks[t.running[id]].state))
            && (forall id | id in t.paused :: Resting(t.tasks[t.paused[id]].state))
            && (forall id | id in t.active ::
                  !t.tasks[t.active[id]].state.ActionFinished? && !t.tasks[t.active[id]].state.ActionFailed?)
            && (t.nav.Some? ==> !t.nav.value.state.NavDone? && !t.nav.value.state.NavFailed?)
  {
    UpdateMapsPartition(s);
    UpdateMapsSelects(s);
    UpdateTasksMaps(s);
    FlagsMean();
    hide UpdateMaps, UpdateTasks, A.ActionState.IsPaused, A.ActionState.IsTerminal, Resting;
  }

  /** An action that has paused, and may have been told to resume. */
  predicate Resting(st: A.ActionState)
  {
    st.ActionPaused? || st.ActionResuming?
  }

  predicate NavResting(nav: Option<N.Nav>)
  {
    nav.Some? && (nav.value.state.NavPaused? || nav.value.state.NavResuming?)
  }

  lemma FlagsMean()
    ensures forall st: A.ActionState :: st.IsPaused() <==> Resting(st)
    ensures forall st: A.ActionState :: st.IsTerminal() <==> st.ActionFinished? || st.ActionFailed?
    ensures forall st: N.NavState :: st.IsTerminal() <==> st.NavDone? || st.NavFailed?
  {
  }

  lemma UpdateTasksOwned(s: Sched)
    requires Owned(s)
    ensures Owned(UpdateTasks(s))
  {
    UpdateMapsOwned(s);
    UpdateTasksMaps(s);
    SameMapsOwned(UpdateMaps(s), UpdateTasks(s));
  }

  lemma DropNavIntOwned(s: Sched)
    requires Owned(s)
    ensures Owned(DropNavInt(s))
  {
  }

  lemma GroupOwned(s: Sched)
    requires Enabled(s, MGroup) && Owned(s) && Distinct(s)
    ensures Owned(StartGroup(s))
  {
    var g := s.queue[0].group;
    var t := s.(segment := None, blocking := g.ceiling, queue := s.queue[1..],
                hist := s.hist + [GroupStarted(g, false, s.tasks, s.nav)]);
    GroupFresh(s);
    SameMapsOwned(s, t);
    hide Owned, InStore, InActions, Distinct;
    StartAllOwned(t, g.actions, |s.hist|, false);
  }

  lemma InstantOwned(s: Sched)
    requires Enabled(s, MInstant) && Owned(s) && Distinct(s)
    ensures Owned(StartInstant(s))
  {
    var g := s.interrupts[0];
    var t := s.(blocking := g.ceiling, interrupts := s.interrupts[1..],
                hist := s.hist + [GroupStarted(g, true, s.tasks, s.nav)]);
    InstantFresh(s);
    SameMapsOwned(s, t);
    hide Owned, InStore, InActions, Distinct;
    StartAllOwned(t, g.actions, |s.hist|, true);
  }

  lemma OtherMoves(s: Sched, m: Move)
    requires Enabled(s, m) && (m.MNav? || m.MStep? || m.MPatch? || m.MClear? || m.MEnter? || m.MCancelIdle?)
    ensures SameMaps(s, Do(s, m))
  {
    hide N.Effect, N.Transfer, SegmentEnd, ForgetItems, ForgetGroups, StepsToStop, Covered, WellFormed, StepReady;
  }

  lemma RunsOn(s: Sched, r: nat, tr: A.ActionTransition)
    requires Enabled(s, MTask(r, tr))
    ensures !s.tasks[r].state.IsTerminal()
    ensures Do(s, MTask(r, tr)) == SetTask(s, r, A.Next(s.tasks[r].state, tr).value)
  {
    hide SetTask, WellFormed;
  }

  lemma MoveOwned(s: Sched, m: Move)
    requires Enabled(s, m) && Owned(s) && Distinct(s)
    ensures Owned(Do(s, m))
  {
    hide Owned, Distinct, SetTask, A.Next, UpdateTasks, DropNavInt, StartGroup, StartInstant, SameMaps, WellFormed,
      GroupReady, InstantReady, StepReady, StartStep, PatchSegment, SetNav, ClearQueues, Enter, N.Transfer;
    match m
    case MTask(r, tr) =>
      RunsOn(s, r, tr);
      SetTaskOwned(s, r, A.Next(s.tasks[r].state, tr).value);
    case MUpdateTasks => UpdateTasksOwned(s);
    case MDropNavInt => DropNavIntOwned(s);
    case MGroup => GroupOwned(s);
    case MInstant => InstantOwned(s);
    case _ =>
      OtherMoves(s, m);
      SameMapsOwned(s, Do(s, m));
  }

  lemma MoveDistinct(s: Sched, m: Move)
    requires Enabled(s, m) && Distinct(s)
    ensures Distinct(Do(s, m))
  {
    forall id
      ensures Single(Do(s, m), id)
    {
      assert Single(s, id);
      MoveBooks(s, m, id);
    }
  }

  lemma {:induction false} PathOwned(s: Sched, ms: seq<Move>, t: Sched)
    requires Path(s, ms, t) && Owned(s) && Distinct(s)
    ensures Owned(t) && Distinct(t)
    decreases |ms|
  {
    if ms != [] {
      MoveOwned(s, ms[0]);
      MoveDistinct(s, ms[0]);
      PathOwned(Do(s, ms[0]), ms[1..], t);
    }
  }

  // Runs ////////////////////////////////////////////////////////////////////////////////////////

  lemma PrefixUnique(ops: seq<Op>)
    requires UniqueIds(ops) && ops != []
    ensures UniqueIds(ops[..|ops| - 1])
  {
    var before := ops[..|ops| - 1];
    forall id
      ensures HandedOver(before, id) <= 1
    {
      assert HandedOver(ops, id) <= 1;
    }
  }

  lemma AcceptDistinct(ops: seq<Op>)
    requires UniqueIds(ops) && ops != []
    ensures Distinct(Accept(Run(ops[..|ops| - 1]), ops[|ops| - 1]))
  {
    var before, op := ops[..|ops| - 1], ops[|ops| - 1];
    var t := Accept(Run(before), op);
    forall id
      ensures Single(t, id)
    {
      assert HandedOver(ops, id) <= 1;
      Conservation(before, id);
      AcceptBooks(Run(before), op, id);
    }
  }

  lemma AcceptOwned(s: Sched, op: Op)
    requires Owned(s)
    ensures Owned(Accept(s, op))
  {
    SameMapsOwned(s, Accept(s, op));
  }

  /** In every state a run with unique ids reaches, running and paused split the active tasks, every
      live task is active, and every live blocking instant task is known to interrupt driving. */
  lemma {:induction false} RunOwned(ops: seq<Op>)
    requires UniqueIds(ops)
    ensures Owned(Run(ops)) && Distinct(Run(ops))
  {
    if ops == [] {
      forall id
        ensures Single(INITIAL, id)
      {
        Conservation([], id);
      }
    } else {
      var before, op := ops[..|ops| - 1], ops[|ops| - 1];
      PrefixUnique(ops);
      RunOwned(before);
      AcceptDistinct(ops);
      AcceptOwned(Run(before), op);
      hide Owned, Distinct, Apply, Accept, UniqueIds;
      var ms := PathApply(Run(before), op);
      PathOwned(Accept(Run(before), op), ms, Run(ops));
    }
  }

  /** What the last call of a run starts from. */
  lemma LastCall(ops: seq<Op>)
    requires UniqueIds(ops) && ops != []
    ensures UniqueIds(ops[..|ops| - 1])
    ensures var s := Accept(Run(ops[..|ops| - 1]), ops[|ops| - 1]); Owned(s) && Distinct(s)
  {
    PrefixUnique(ops);
    RunOwned(ops[..|ops| - 1]);
    AcceptDistinct(ops);
    AcceptOwned(Run(ops[..|ops| - 1]), ops[|ops| - 1]);
    hide Owned, Distinct, Apply, Accept, UniqueIds;
  }

  lemma RefreshKeepsMaps(s: Sched)
    requires WellFormed(s)
    ensures var u, t := UpdateTasks(s), Refresh(s).s;
            && WellFormed(t) && t.running == u.running && t.paused == u.paused && t.active == u.active
            && t.tasks == u.tasks
  {
    hide UpdateTasks, Refers, N.Effect, N.Transfer, Keep;
  }

  lemma UpdatePausingPauses(s: Sched)
    requires WellFormed(s)
    requires UpdatePausing(s).0.Ok? && UpdatePausing(s).0.s.mode == Paused
    ensures var u, t := UpdateTasks(s), UpdatePausing(s).0.s;
            && t.running == u.running == map[] && t.paused == u.paused && t.active == u.active && t.tasks == u.tasks
            && (t.nav.Some? ==> t.nav.value.state.IsPaused())
  {
    hide *;
    O.UpdatePausingIs(s);
    O.RefreshIs(s);
    RefreshKeepsMaps(s);
    O.EnterIs(Refresh(s).s, Paused, true);
    O.EnterIs(Refresh(s).s, Pausing, false);
  }

  /** When pausing completes, every active action is paused and the navigation is absent or paused. */
  lemma PausingCompletes(s: Sched)
    requires Owned(s) && s.mode == Pausing
    requires StateUpdate(s).0.Ok? && StateUpdate(s).0.s.mode == Paused
    ensures var t := StateUpdate(s).0.s;
            && (forall id | id in t.active :: t.tasks[t.active[id]].state.IsPaused())
            && (t.nav.Some? ==> t.nav.value.state.IsPaused())
    ensures var t := StateUpdate(s).0.s;
            && (forall id | id in t.active :: Resting(t.tasks[t.active[id]].state))
            && (t.nav.Some? ==> NavResting(t.nav))
  {
    FlagsMean();
    assert StateUpdate(s) == UpdatePausing(s);
    hide UpdatePausing, UpdateTasks, StateUpdate;
    UpdateTasksSplits(s);
    UpdatePausingPauses(s);
  }
}
