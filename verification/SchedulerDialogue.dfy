/** What the scheduler publishes about its actions against the reports it takes, over whole runs. */
module SchedulerDialogue {
  import opened Vda
  import opened Events
  import A = ActionTasks
  import N = NavigationTasks
  import opened ActionDialogue
  import opened SchedulerModel
  import O = SchedulerOperations
  import opened SchedulerMoves
  import opened SchedulerAccounts
  import opened SchedulerOwnership
  import opened SchedulerIdle
  import opened SchedulerTidy
  import T = SchedulerThrows

  /** A call is refused when it throws and leaves everything as it was. */
  ghost predicate Taken(s: Sched, op: Op)
    requires WellFormed(s)
  {
    Apply(s, op) != Throw(s)
  }

  /** The reports about an action that were taken, oldest first. */
  ghost function Heard(ops: seq<Op>, id: ActionId): seq<A.ActionTransition>
  {
    if ops == [] then []
    else
      var before, op := ops[..|ops| - 1], ops[|ops| - 1];
      Heard(before, id) +
      (if op.OpAction? && op.id == id && A.IsReport(op.actionTransition) && Taken(Run(before), op)
       then [op.actionTransition] else [])
  }

  /** The task of an action, if it has one, is in a state that fits what was heard from it and said about it. */
  ghost predicate Knows(s: Sched, id: ActionId, heard: seq<A.ActionTransition>)
  {
    && (InStore(s.tasks, id) == 0 ==> Said(s.out, id) == [] && heard == [])
    && (forall r | 0 <= r < |s.tasks| && s.tasks[r].action.id == id ::
          Told(s.tasks[r].state, id, heard, Said(s.out, id)))
  }

  // What is taken ///////////////////////////////////////////////////////////////////////////////

  lemma RefreshThrown(s: Sched)
    requires WellFormed(s) && Refresh(s).Throw?
    ensures Refresh(s).s.navInt == map[] && s.navInt != map[]
  {
    UpdateTasksMaps(s);
    UpdateMapsFrame(s);
    hide UpdateTasks, UpdateMaps, N.Transfer, N.Effect, Refers, Keep;
  }

  lemma {:induction false} UpdateThrown(s: Sched)
    requires WellFormed(s) && Update(s).Throw?
    ensures Update(s).s.navInt == map[] && s.navInt != map[]
  {
    hide *;
    T.StateUpdateThrows(s);
    T.UpdateUnfolds(s);
    T.UpdateReturns(s);
    T.RefreshReturns(s);
    RefreshThrown(s);
  }

  /** A report or command for an action is taken exactly when the action is active and its state has the transition. */
  lemma TakenExactly(s: Sched, id: ActionId, tr: A.ActionTransition)
    requires WellFormed(s)
    ensures id in s.active ==> s.active[id] < |s.tasks| && s.tasks[s.active[id]].action.id == id
    ensures Taken(s, OpAction(id, tr)) <==> id in s.active && A.Takes(s.tasks[s.active[id]].state, tr)
    ensures Taken(s, OpAction(id, tr)) ==>
              && Enabled(s, MTask(s.active[id], tr))
              && Apply(s, OpAction(id, tr)) == Update(Do(s, MTask(s.active[id], tr)))
  {
    hide *;
    T.ActionIs(s, id, tr);
    TakenIs(s, OpAction(id, tr));
    ActiveIs(s, id);
    if id in s.active {
      var r := s.active[id];
      A.TransitionExactly(s.tasks[r].state, tr, id);
      if A.Takes(s.tasks[r].state, tr) {
        TaskSetIs(s, r, tr);
        if Update(Do(s, MTask(r, tr))).Throw? {
          UpdateThrown(Do(s, MTask(r, tr)));
        }
      }
    }
  }

  lemma TakenIs(s: Sched, op: Op)
    requires WellFormed(s)
    ensures Taken(s, op) <==> Apply(s, op) != Throw(s)
  {
    hide Apply, WellFormed;
  }

  lemma ActiveIs(s: Sched, id: ActionId)
    requires WellFormed(s)
    ensures id in s.active ==> s.active[id] < |s.tasks| && s.tasks[s.active[id]].action.id == id
  {
  }

  lemma TaskSetIs(s: Sched, r: nat, tr: A.ActionTransition)
    requires WellFormed(s) && r < |s.tasks| && A.Next(s.tasks[r].state, tr).Some?
    ensures Enabled(s, MTask(r, tr)) && Do(s, MTask(r, tr)).navInt == s.navInt
    ensures Do(s, MTask(r, tr)) == SetTask(s, r, A.Next(s.tasks[r].state, tr).value)
  {
    hide A.Effect, A.Next, Refers;
  }

  // Moves that say nothing about actions ////////////////////////////////////////////////////////

  /** Nothing is said about any action, though actions may be forgotten. */
  ghost predicate Untold(out: seq<Event>)
  {
    forall e | e in out :: e.ActionForget? || e.NavigationNextNode? || e.NavigationUpcomingSegment? ||
      e.NavigationControl? || e.OrderNewLastNode? || e.OrderStatus?
  }

  /** Nor is the navigation told anything but steps and segments. */
  ghost predicate Unsaid(out: seq<Event>)
  {
    Untold(out) && forall e | e in out :: !e.NavigationControl?
  }

  lemma {:induction false} UnsaidAppend(a: seq<Event>, b: seq<Event>, id: ActionId)
    requires Untold(b)
    ensures Said(a + b, id) == Said(a, id)
  {
    if b == [] {
      assert a + b == a;
    } else {
      var init, last := b[..|b| - 1], b[|b| - 1];
      assert (a + b)[..|a + b| - 1] == a + init && last in b && !About(last, id);
      assert forall e | e in init :: e in b;
      UnsaidAppend(a, init, id);
      assert Said(a + b, id) == Said(a + init, id);
    }
  }

  lemma {:induction false} ForgetsUnsaid(actions: seq<Action>)
    ensures Unsaid(ForgetActions(actions))
  {
    if actions != [] {
      ForgetsUnsaid(actions[1..]);
    }
  }

  lemma {:induction false} ItemsUnsaid(items: seq<Item>)
    ensures Unsaid(ForgetItems(items))
  {
    if items != [] {
      ItemsUnsaid(items[1..]);
      if items[0].Actions? {
        ForgetsUnsaid(items[0].group.actions);
      }
    }
  }

  lemma {:induction false} GroupsUnsaid(groups: seq<Group>)
    ensures Unsaid(ForgetGroups(groups))
  {
    if groups != [] {
      GroupsUnsaid(groups[1..]);
      ForgetsUnsaid(groups[0].actions);
    }
  }

  lemma NavUnsaid(n: N.Nav)
    ensures Untold(N.Effect(n)) && (n.state.NavFirstInProgress? ==> Unsaid(N.Effect(n)))
  {
  }

  /** What is published after a state says nothing about actions. */
  ghost predicate SaysNothing(s: Sched, t: Sched)
  {
    exists b: seq<Event> :: t.out == s.out + b && Unsaid(b)
  }

  lemma NothingSaid(s: Sched, t: Sched, b: seq<Event>)
    requires t.out == s.out + b && Unsaid(b)
    ensures SaysNothing(s, t)
  {
    hide Unsaid;
  }

  lemma NothingAdded(s: Sched, t: Sched)
    requires t.out == s.out
    ensures SaysNothing(s, t)
  {
    assert t.out == s.out + [];
  }

  lemma ClearSays(s: Sched, keepNav: bool)
    ensures SaysNothing(s, ClearQueues(s, keepNav))
  {
    ItemsUnsaid(s.queue);
    GroupsUnsaid(s.interrupts);
    Associative(s.out, ForgetItems(s.queue), ForgetGroups(s.interrupts));
    assert Unsaid(ForgetItems(s.queue) + ForgetGroups(s.interrupts));
    hide Unsaid, ForgetItems, ForgetGroups;
    NothingSaid(s, ClearQueues(s, keepNav), ForgetItems(s.queue) + ForgetGroups(s.interrupts));
  }

  lemma UpdateTasksSays(s: Sched)
    requires WellFormed(s)
    ensures SaysNothing(s, UpdateTasks(s))
  {
    UpdateTasksRecords(s);
    ClearSays(s, false);
    hide UpdateTasks, ClearQueues, Unsaid;
    if !(s.nav.Some? && s.nav.value.state.NavFailed?) {
      NothingAdded(s, UpdateTasks(s));
    }
  }

  lemma OneUnsaid(s: Sched, t: Sched, e: Event)
    requires t.out == s.out + [e] && (e.NavigationUpcomingSegment? || e.OrderStatus?)
    ensures SaysNothing(s, t)
  {
    NothingSaid(s, t, [e]);
  }

  lemma StepSays(s: Sched)
    requires WellFormed(s) && s.queue != [] && s.queue[0].Step?
    ensures SaysNothing(s, StartStep(s))
  {
    O.DriveIs(s);
    NavUnsaid(StartStep(s).nav.value);
    hide StartStep, Unsaid, N.Effect;
    NothingSaid(s, StartStep(s), N.Effect(StartStep(s).nav.value));
  }

  lemma PatchSays(s: Sched)
    requires WellFormed(s)
    ensures SaysNothing(s, PatchSegment(s))
  {
    O.PatchIs(s);
    hide PatchSegment, SaysNothing, SegmentEnd, Refers;
    if PatchSegment(s) == s {
      NothingAdded(s, s);
    } else {
      var last := SegmentEnd(s.queue, s.segment.value.last);
      OneUnsaid(s, PatchSegment(s), NavigationUpcomingSegment(Add32(s.segment.value.last, 1), last));
    }
  }

  lemma EnterSays(s: Sched, mode: Mode, notify: bool)
    ensures SaysNothing(s, Enter(s, mode, notify))
  {
    hide SaysNothing;
    if notify {
      OneUnsaid(s, Enter(s, mode, notify), OrderStatus(mode));
    } else {
      NothingAdded(s, Enter(s, mode, notify));
    }
  }

  lemma {:induction false} SetNavSays(s: Sched, st: N.NavState, id: ActionId)
    requires s.nav.Some?
    ensures Said(SetNav(s, st).out, id) == Said(s.out, id) && SetNav(s, st).tasks == s.tasks
  {
    var n := s.nav.value.(state := st);
    NavUnsaid(n);
    hide Untold, N.Effect, Said;
    UnsaidAppend(s.out, N.Effect(n), id);
  }

  /** Only the moves of tasks and the starts of groups say something about actions, and only the moves of the navigation
      tell it something. */
  lemma OthersSayNothing(s: Sched, m: Move)
    requires Enabled(s, m) && !m.MTask? && !m.MNav? && !m.MGroup? && !m.MInstant?
    ensures SaysNothing(s, Do(s, m)) && Do(s, m).tasks == s.tasks
  {
    hide SaysNothing, SetNav, UpdateTasks, StartStep, PatchSegment, ClearQueues, Enter, N.Transfer, GroupReady,
      InstantReady, StepReady, Refers;
    match m
    case MUpdateTasks =>
      UpdateTasksSays(s);
      UpdateTasksRecords(s);
      QuietTasks(s, m);
    case MDropNavInt => NothingAdded(s, Do(s, m));
    case MStep =>
      StepSays(s);
      OtherMoves(s, m);
    case MPatch =>
      PatchSays(s);
      OtherMoves(s, m);
    case MClear(keepNav) =>
      ClearSays(s, keepNav);
      OtherMoves(s, m);
    case MEnter(mode, notify) =>
      EnterSays(s, mode, notify);
      OtherMoves(s, m);
    case MCancelIdle =>
      EnterSays(s, Canceling, false);
      OtherMoves(s, m);
  }

  // Moves of tasks //////////////////////////////////////////////////////////////////////////////

  lemma KnowsAfterNothing(s: Sched, t: Sched, id: ActionId, heard: seq<A.ActionTransition>)
    requires Knows(s, id, heard) && SaysNothing(s, t) && t.tasks == s.tasks
    ensures Knows(t, id, heard)
  {
    var b :| t.out == s.out + b && Unsaid(b);
    assert Untold(b);
    hide *;
    UnsaidAppend(s.out, b, id);
    SameKnows(s, t, id, heard);
  }

  lemma {:induction false} SameKnows(s: Sched, t: Sched, id: ActionId, heard: seq<A.ActionTransition>)
    requires Knows(s, id, heard) && Said(t.out, id) == Said(s.out, id) && t.tasks == s.tasks
    ensures Knows(t, id, heard)
  {
    hide Told, Said, InStore;
  }

  lemma {:induction false} InStoreTwice(tasks: seq<Task>, i: nat, j: nat)
    requires i < j < |tasks| && tasks[i].action.id == tasks[j].action.id
    ensures InStore(tasks, tasks[i].action.id) >= 2
  {
    var n := |tasks| - 1;
    if j < n {
      InStoreTwice(tasks[..n], i, j);
    } else {
      InStoreAt(tasks[..n], i);
    }
  }

  lemma {:induction false} InStoreOne(tasks: seq<Task>, id: ActionId, r: nat)
    requires InStore(tasks, id) <= 1 && r < |tasks| && tasks[r].action.id == id
    ensures InStore(tasks, id) == 1 && forall q | 0 <= q < |tasks| && tasks[q].action.id == id :: q == r
  {
    InStoreAt(tasks, r);
    forall q | 0 <= q < |tasks| && tasks[q].action.id == id
      ensures q == r
    {
      hide InStore;
      if q < r {
        InStoreTwice(tasks, q, r);
      } else if r < q {
        InStoreTwice(tasks, r, q);
      }
    }
  }

  lemma {:induction false} KnowsAt(s: Sched, id: ActionId, heard: seq<A.ActionTransition>, r: nat)
    requires Knows(s, id, heard) && r < |s.tasks| && s.tasks[r].action.id == id
    ensures Told(s.tasks[r].state, id, heard, Said(s.out, id))
  {
    hide Told, Said, InStore;
  }

  lemma TaskMoveIs(s: Sched, r: nat, tr: A.ActionTransition)
    requires Enabled(s, MTask(r, tr))
    ensures r < |s.tasks| && A.Takes(s.tasks[r].state, tr) && A.Next(s.tasks[r].state, tr).Some?
    ensures !s.tasks[r].state.IsTerminal()
    ensures var st, id := A.Next(s.tasks[r].state, tr).value, s.tasks[r].action.id;
            Do(s, MTask(r, tr)) == s.(tasks := s.tasks[r := s.tasks[r].(state := st)],
                                      out := s.out + A.Announced(tr, id))
  {
    A.TransitionExactly(s.tasks[r].state, tr, s.tasks[r].action.id);
    RunsOn(s, r, tr);
    hide A.Next, A.Effect, A.Announced, A.Takes, Refers;
  }

  lemma {:induction false} OthersKnow(s: Sched, t: Sched, r: nat, id: ActionId, heard: seq<A.ActionTransition>)
    requires Knows(s, id, heard) && r < |s.tasks| && s.tasks[r].action.id != id
    requires |t.tasks| == |s.tasks| && t.tasks[r].action.id != id
    requires forall q | 0 <= q < |s.tasks| && q != r :: t.tasks[q] == s.tasks[q]
    requires Said(t.out, id) == Said(s.out, id) && InStore(t.tasks, id) == InStore(s.tasks, id)
    ensures Knows(t, id, heard)
  {
    hide Told, Said, InStore;
  }

  lemma {:induction false} OnlyKnows(t: Sched, id: ActionId, heard: seq<A.ActionTransition>, r: nat)
    requires r < |t.tasks| && InStore(t.tasks, id) == 1
    requires forall q | 0 <= q < |t.tasks| && t.tasks[q].action.id == id :: q == r
    requires Told(t.tasks[r].state, id, heard, Said(t.out, id))
    ensures Knows(t, id, heard)
  {
    hide Told, Said, InStore;
  }

  /** A transition of another action's task. */
  lemma OtherTaskKnows(s: Sched, r: nat, tr: A.ActionTransition, id: ActionId, heard: seq<A.ActionTransition>)
    requires Enabled(s, MTask(r, tr)) && s.tasks[r].action.id != id && Knows(s, id, heard)
    ensures Knows(Do(s, MTask(r, tr)), id, heard)
  {
    hide *;
    TaskMoveIs(s, r, tr);
    var owner := s.tasks[r].action.id;
    SaidOnTransition(tr, owner, id);
    SaidAppend(s.out, A.Announced(tr, owner), id);
    SetState(s.tasks, r, A.Next(s.tasks[r].state, tr).value, id);
    assert Said(s.out, id) + [] == Said(s.out, id);
    OthersKnow(s, Do(s, MTask(r, tr)), r, id, heard);
  }

  /** A transition of the action's own task continues its dialogue. */
  lemma OwnTaskKnows(s: Sched, r: nat, tr: A.ActionTransition, heard: seq<A.ActionTransition>)
    requires Enabled(s, MTask(r, tr)) && Knows(s, s.tasks[r].action.id, heard)
    requires InStore(s.tasks, s.tasks[r].action.id) <= 1
    ensures Knows(Do(s, MTask(r, tr)), s.tasks[r].action.id, if A.IsReport(tr) then heard + [tr] else heard)
  {
    hide *;
    TaskMoveIs(s, r, tr);
    var st, id := A.Next(s.tasks[r].state, tr).value, s.tasks[r].action.id;
    KnowsAt(s, id, heard, r);
    ToldNext(s.tasks[r].state, tr, id, heard, Said(s.out, id));
    SaidOnTransition(tr, id, id);
    SaidAppend(s.out, A.Announced(tr, id), id);
    SetState(s.tasks, r, st, id);
    InStoreOne(s.tasks, id, r);
    OnlyKnows(Do(s, MTask(r, tr)), id, if A.IsReport(tr) then heard + [tr] else heard, r);
  }

  // Starts //////////////////////////////////////////////////////////////////////////////////////

  lemma {:induction false} StartSays(s: Sched, a: Action, batch: nat, instant: bool, id: ActionId)
    ensures Said(StartAction(s, a, batch, instant).out, id) ==
            Said(s.out, id) + (if a.id == id then SaidOn(A.DoStart, id) else [])
  {
    A.TransitionExactly(A.ActionWaiting, A.DoStart, a.id);
    SaidOnTransition(A.DoStart, a.id, id);
    SaidAppend(s.out, A.Announced(A.DoStart, a.id), id);
    hide Said, SaidOn, A.Effect;
  }

  lemma {:induction false} FreshKnows(s: Sched, t: Sched, task: Task, id: ActionId, heard: seq<A.ActionTransition>)
    requires Knows(s, id, heard) && t.tasks == s.tasks + [task] && task.action.id != id
    requires Said(t.out, id) == Said(s.out, id) && InStore(t.tasks, id) == InStore(s.tasks, id)
    ensures Knows(t, id, heard)
  {
    hide Told, Said, InStore;
  }

  lemma {:induction false} NotKnown(s: Sched, id: ActionId, heard: seq<A.ActionTransition>)
    requires Knows(s, id, heard) && InStore(s.tasks, id) == 0
    ensures Said(s.out, id) == [] && heard == []
  {
    hide Told, Said, InStore;
  }

  lemma {:induction false} StartTaskIs(s: Sched, a: Action, batch: nat, instant: bool, id: ActionId)
    ensures StartAction(s, a, batch, instant).tasks == s.tasks + [Task(a, A.ActionInitializing, batch, instant)]
    ensures InActions([a], id) == if a.id == id then 1 else 0
  {
    hide A.Effect;
  }

  lemma {:induction false} StartKnows(s: Sched, a: Action, batch: nat, instant: bool, id: ActionId,
                                      heard: seq<A.ActionTransition>)
    requires Knows(s, id, heard) && InStore(s.tasks, id) + InActions([a], id) <= 1
    ensures Knows(StartAction(s, a, batch, instant), id, heard)
  {
    hide *;
    var task := Task(a, A.ActionInitializing, batch, instant);
    var t := StartAction(s, a, batch, instant);
    StartTaskIs(s, a, batch, instant, id);
    StartSays(s, a, batch, instant, id);
    AppendTask(s.tasks, task, id);
    if a.id == id {
      NotKnown(s, id, heard);
      ToldStarts(id);
      NotInStore(s.tasks, id);
      assert [] + SaidOn(A.DoStart, id) == SaidOn(A.DoStart, id);
      OnlyKnows(t, id, [], |s.tasks|);
    } else {
      assert Said(s.out, id) + [] == Said(s.out, id);
      FreshKnows(s, t, task, id, heard);
    }
  }

  lemma {:induction false} NotInStore(tasks: seq<Task>, id: ActionId)
    requires InStore(tasks, id) == 0
    ensures forall r | 0 <= r < |tasks| :: tasks[r].action.id != id
  {
    forall r | 0 <= r < |tasks|
      ensures tasks[r].action.id != id
    {
      InStoreAt(tasks, r);
    }
  }

  lemma {:induction false} InActionsSplit(actions: seq<Action>, id: ActionId)
    requires actions != []
    ensures InActions(actions, id) == InActions([actions[0]], id) + InActions(actions[1..], id)
    ensures InActions([actions[0]], id) == if actions[0].id == id then 1 else 0
  {
  }

  lemma {:induction false} StartAllKnows(s: Sched, actions: seq<Action>, batch: nat, instant: bool, id: ActionId,
                                         heard: seq<A.ActionTransition>)
    requires Knows(s, id, heard) && InStore(s.tasks, id) + InActions(actions, id) <= 1
    ensures Knows(StartAll(s, actions, batch, instant), id, heard)
    decreases |actions|
  {
    if actions != [] {
      InActionsSplit(actions, id);
      StartKnows(s, actions[0], batch, instant, id, heard);
      var t := StartAction(s, actions[0], batch, instant);
      AppendTask(s.tasks, Task(actions[0], A.ActionInitializing, batch, instant), id);
      assert InStore(t.tasks, id) == InStore(s.tasks, id) + InActions([actions[0]], id) by {
        hide InStore, InActions, A.Effect;
      }
      hide InStore, InActions, Knows, StartAction;
      StartAllKnows(t, actions[1..], batch, instant, id, heard);
    }
  }

  lemma GroupKnows(s: Sched, id: ActionId, heard: seq<A.ActionTransition>)
    requires Enabled(s, MGroup) && Distinct(s) && Knows(s, id, heard)
    ensures Knows(Do(s, MGroup), id, heard)
  {
    GroupEnabled(s);
    GroupFresh(s);
    O.GroupIs(s);
    var g := s.queue[0].group;
    var t := s.(segment := None, blocking := g.ceiling, queue := s.queue[1..],
                hist := s.hist + [GroupStarted(g, false, s.tasks, s.nav)]);
    hide InStore, InActions, Knows, StartAll, StartGroup, Distinct, GroupReady, Refers;
    NothingAdded(s, t);
    KnowsAfterNothing(s, t, id, heard);
    StartAllKnows(t, g.actions, |s.hist|, false, id, heard);
  }

  lemma InstantKnows(s: Sched, id: ActionId, heard: seq<A.ActionTransition>)
    requires Enabled(s, MInstant) && Distinct(s) && Knows(s, id, heard)
    ensures Knows(Do(s, MInstant), id, heard)
  {
    InstantFresh(s);
    O.InstantIs(s);
    var g := s.interrupts[0];
    var t := s.(blocking := g.ceiling, interrupts := s.interrupts[1..],
                hist := s.hist + [GroupStarted(g, true, s.tasks, s.nav)]);
    hide InStore, InActions, Knows, StartAll, StartInstant, Distinct, InstantReady, Refers;
    NothingAdded(s, t);
    KnowsAfterNothing(s, t, id, heard);
    StartAllKnows(t, g.actions, |s.hist|, true, id, heard);
  }

  lemma {:induction false} SingleStore(s: Sched, id: ActionId)
    requires Distinct(s)
    ensures InStore(s.tasks, id) <= 1
  {
    assert Single(s, id);
    hide InStore, InItems, InGroups, Live, Starts, Forgets;
  }

  lemma NoReport(tr: A.ActionTransition)
    ensures A.IsCommand(tr) ==> !A.IsReport(tr)
  {
  }

  /** A move that takes no report leaves what is known about an action as it is. */
  lemma MoveKnows(s: Sched, m: Move, id: ActionId, heard: seq<A.ActionTransition>)
    requires Enabled(s, m) && Distinct(s) && Knows(s, id, heard) && (m.MTask? ==> A.IsCommand(m.tr))
    ensures Knows(Do(s, m), id, heard)
  {
    match m
    case MTask(r, tr) =>
      NoReport(tr);
      SingleStore(s, id);
      hide Distinct, Knows, Do, InStore, A.IsReport, A.IsCommand;
      if s.tasks[r].action.id == id {
        OwnTaskKnows(s, r, tr, heard);
      } else {
        OtherTaskKnows(s, r, tr, id, heard);
      }
    case MNav(tr) =>
      SetNavSays(s, N.Transfer(s.nav.value.state, tr, s.nav.value.goal.seqId).value, id);
      hide Knows, SetNav, Said, N.Transfer, Distinct, Refers;
      SameKnows(s, Do(s, m), id, heard);
    case MGroup => GroupKnows(s, id, heard);
    case MInstant => InstantKnows(s, id, heard);
    case _ =>
      OthersSayNothing(s, m);
      hide *;
      KnowsAfterNothing(s, Do(s, m), id, heard);
  }

  ghost predicate OnlyCommands(ms: seq<Move>)
  {
    forall m | m in ms && m.MTask? :: A.IsCommand(m.tr)
  }

  lemma CommandsFirst(ms: seq<Move>)
    requires ms != [] && OnlyCommands(ms)
    ensures (ms[0].MTask? ==> A.IsCommand(ms[0].tr)) && OnlyCommands(ms[1..])
  {
    assert forall m | m in ms[1..] :: m in ms;
  }

  lemma {:induction false} PathKnows(s: Sched, ms: seq<Move>, t: Sched, id: ActionId, heard: seq<A.ActionTransition>)
    requires Path(s, ms, t) && Owned(s) && Distinct(s) && Knows(s, id, heard) && OnlyCommands(ms)
    ensures Knows(t, id, heard)
    decreases |ms|
  {
    hide Owned, Distinct, Knows, OnlyCommands, Enabled, Do;
    if ms != [] {
      CommandsFirst(ms);
      MoveOwned(s, ms[0]);
      MoveDistinct(s, ms[0]);
      MoveKnows(s, ms[0], id, heard);
      PathKnows(Do(s, ms[0]), ms[1..], t, id, heard);
    }
  }

  lemma WithinCommands(op: Op, ms: seq<Move>)
    requires Within(op, ms) && !op.OpAction?
    ensures OnlyCommands(ms)
  {
  }

  lemma AcceptKnows(s: Sched, op: Op, id: ActionId, heard: seq<A.ActionTransition>)
    requires Knows(s, id, heard)
    ensures Knows(Accept(s, op), id, heard)
  {
    assert Accept(s, op).out == s.out && Accept(s, op).tasks == s.tasks;
    hide *;
    SameKnows(s, Accept(s, op), id, heard);
  }

  // Runs ////////////////////////////////////////////////////////////////////////////////////////

  lemma ActionFormed(s: Sched, op: Op)
    requires op.OpAction?
    ensures Accept(s, op) == s
  {
  }

  /** A call about an action that is taken. */
  lemma ReportKnows(s: Sched, op: Op, id: ActionId, heard: seq<A.ActionTransition>)
    requires op.OpAction? && Owned(s) && Distinct(s) && Knows(s, id, heard) && WellFormed(s) && Taken(s, op)
    ensures Knows(Apply(s, op).s, id,
                  heard + if op.id == id && A.IsReport(op.actionTransition) then [op.actionTransition] else [])
  {
    hide *;
    var tr := op.actionTransition;
    assert op == OpAction(op.id, tr);
    TakenExactly(s, op.id, tr);
    SingleStore(s, op.id);
    var r := s.active[op.id];
    var m := MTask(r, tr);
    var more := heard + if op.id == id && A.IsReport(tr) then [tr] else [];
    if op.id == id {
      OwnTaskKnows(s, r, tr, heard);
      assert more == if A.IsReport(tr) then heard + [tr] else heard;
    } else {
      OtherTaskKnows(s, r, tr, id, heard);
      assert more == heard;
    }
    MoveOwned(s, m);
    MoveDistinct(s, m);
    var ms := PathUpdate(OpUpdate, Do(s, m));
    WithinCommands(OpUpdate, ms);
    PathKnows(Do(s, m), ms, Update(Do(s, m)).s, id, more);
  }

  lemma HeardNext(ops: seq<Op>, id: ActionId)
    requires ops != []
    ensures var before, op := ops[..|ops| - 1], ops[|ops| - 1];
            Heard(ops, id) == Heard(before, id) +
              (if op.OpAction? && op.id == id && A.IsReport(op.actionTransition) && Taken(Run(before), op)
               then [op.actionTransition] else [])
  {
    hide Run, Taken, A.IsReport;
  }

  lemma {:induction false} NothingKnown(id: ActionId)
    ensures Knows(Run([]), id, Heard([], id))
  {
  }

  /** In every run with unique ids, each task is in a state that fits the reports taken and what was said. */
  lemma {:induction false} RunKnows(ops: seq<Op>, id: ActionId)
    requires UniqueIds(ops)
    ensures Knows(Run(ops), id, Heard(ops, id))
  {
    hide *;
    if ops == [] {
      NothingKnown(id);
    } else {
      var before, op := ops[..|ops| - 1], ops[|ops| - 1];
      var s := Run(before);
      PrefixUnique(ops);
      RunKnows(before, id);
      RunLast(ops);
      HeardNext(ops, id);
      LastCall(ops);
      var t := Accept(s, op);
      AcceptKnows(s, op, id, Heard(before, id));
      if op.OpAction? {
        ActionFormed(s, op);
        if Taken(s, op) {
          ReportKnows(s, op, id, Heard(before, id));
        } else {
          Refused(s, op);
          assert Heard(ops, id) == Heard(before, id);
        }
      } else {
        assert Heard(ops, id) == Heard(before, id);
        var ms := PathApply(s, op);
        WithinCommands(op, ms);
        PathKnows(t, ms, Run(ops), id, Heard(before, id));
      }
    }
  }

  lemma Refused(s: Sched, op: Op)
    requires WellFormed(s) && !Taken(s, op)
    ensures Apply(s, op).s == s
  {
    hide Apply, WellFormed;
  }

  lemma {:induction false} InStoreSome(tasks: seq<Task>, id: ActionId) returns (r: nat)
    requires InStore(tasks, id) > 0
    ensures r < |tasks| && tasks[r].action.id == id
  {
    r := |tasks| - 1;
    if tasks[r].action.id != id {
      r := InStoreSome(tasks[..r], id);
    }
  }

  /** The task of an action that was started. */
  lemma StartedTask(ops: seq<Op>, id: ActionId) returns (r: nat)
    requires UniqueIds(ops) && Starts(Run(ops).out, id) > 0
    ensures r < |Run(ops).tasks| && Run(ops).tasks[r].action.id == id
    ensures Told(Run(ops).tasks[r].state, id, Heard(ops, id), Said(Run(ops).out, id))
  {
    hide *;
    Conservation(ops, id);
    r := InStoreSome(Run(ops).tasks, id);
    RunKnows(ops, id);
    KnowsAt(Run(ops), id, Heard(ops, id), r);
  }

  lemma {:induction false} DueAtEnd(id: ActionId, heard: seq<A.ActionTransition>)
    requires Reports(heard)
    ensures forall result: Option<string> ::
              StatusDue(id, heard) == ActionStatusChanged(id, FINISHED, result) <==>
                heard != [] && heard[|heard| - 1] == A.IsFinished(result)
    ensures StatusDue(id, heard) == ActionStatusChanged(id, FAILED, None) <==>
              heard != [] && heard[|heard| - 1] == A.IsFailed
  {
    NotDueEarlier(id, heard);
  }

  /** An end is due only behind the report of the end. */
  lemma {:induction false} NotDueEarlier(id: ActionId, heard: seq<A.ActionTransition>)
    requires Reports(heard)
    ensures EndsLife(StatusDue(id, heard)) ==> heard != [] && A.Ends(heard[|heard| - 1])
  {
    if heard != [] && heard[|heard| - 1].IsInitializing? {
      assert Reports(heard[..|heard| - 1]);
      NotDueEarlier(id, heard[..|heard| - 1]);
    }
  }

  /** In every run with unique ids, the last status published for an action that was started is the one that is due
      after the reports taken from it: INITIALIZING at first, then that of the last report, a repeated initialization
      aside. So it is FINISHED with a result, or FAILED, exactly when the last report says so. */
  lemma {:induction false} StatusReported(ops: seq<Op>, id: ActionId)
    requires UniqueIds(ops) && Starts(Run(ops).out, id) > 0
    ensures var status, heard := StatusOf(Run(ops).out, id), Heard(ops, id);
            && status == Some(StatusDue(id, heard))
            && (forall result: Option<string> ::
                  status == Some(ActionStatusChanged(id, FINISHED, result)) <==>
                    heard != [] && heard[|heard| - 1] == A.IsFinished(result))
            && (status == Some(ActionStatusChanged(id, FAILED, None)) <==>
                  heard != [] && heard[|heard| - 1] == A.IsFailed)
  {
    var r := StartedTask(ops, id);
    StatusSaid(Run(ops).out, id);
    ToldParts(Run(ops).tasks[r].state, id, Heard(ops, id), Said(Run(ops).out, id));
    DueAtEnd(id, Heard(ops, id));
    hide Told, Run, Heard, Said, StatusOf, StatusDue, Reports, UniqueIds, Starts;
  }

  /** In every run with unique ids, what is said about an action is in order: first INITIALIZING and the start, a resume
      only while it is PAUSED, only the end once it was told to cancel, and nothing behind its end. */
  lemma {:induction false} SpokenInOrder(ops: seq<Op>, id: ActionId)
    requires UniqueIds(ops)
    ensures Spoken(Said(Run(ops).out, id), id)
  {
    hide *;
    RunKnows(ops, id);
    if InStore(Run(ops).tasks, id) > 0 {
      var r := InStoreSome(Run(ops).tasks, id);
      KnowsAt(Run(ops), id, Heard(ops, id), r);
      ToldParts(Run(ops).tasks[r].state, id, Heard(ops, id), Said(Run(ops).out, id));
    } else {
      NothingSpoken(Run(ops), id, Heard(ops, id));
    }
  }

  lemma {:induction false} NothingSpoken(s: Sched, id: ActionId, heard: seq<A.ActionTransition>)
    requires Knows(s, id, heard) && InStore(s.tasks, id) == 0
    ensures Spoken(Said(s.out, id), id)
  {
    hide Told, Said, InStore;
  }

  lemma {:induction false} LiveOne(tasks: seq<Task>, id: ActionId, r: nat)
    requires InStore(tasks, id) <= 1 && r < |tasks| && tasks[r].action.id == id
    ensures Live(tasks, id) == if tasks[r].state.IsTerminal() then 0 else 1
    decreases |tasks|
  {
    var n := |tasks| - 1;
    if r < n {
      InStoreAt(tasks[..n], r);
      LiveOne(tasks[..n], id, r);
    } else {
      LiveInStore(tasks[..n], id);
    }
  }

  lemma EndedHeard(st: A.ActionState, id: ActionId, heard: seq<A.ActionTransition>, said: seq<Event>)
    requires Told(st, id, heard, said)
    ensures st.IsTerminal() <==> heard != [] && A.Ends(heard[|heard| - 1])
  {
    hide Spoken, StatusOf, StatusDue, Reports, LastSaid, Closed;
  }

  /** An action that was started is forgotten exactly when its last report is that of its end. */
  lemma {:induction false} ForgottenReported(ops: seq<Op>, id: ActionId)
    requires UniqueIds(ops) && Starts(Run(ops).out, id) > 0
    ensures Forgets(Run(ops).out, id) == 1 <==> Heard(ops, id) != [] && A.Ends(Heard(ops, id)[|Heard(ops, id)| - 1])
  {
    var s := Run(ops);
    var r := StartedTask(ops, id);
    EndedHeard(s.tasks[r].state, id, Heard(ops, id), Said(s.out, id));
    RunOwned(ops);
    SingleStore(s, id);
    LiveOne(s.tasks, id, r);
    Conservation(ops, id);
    assert HandedOver(ops, id) <= 1;
    hide *;
  }
}
