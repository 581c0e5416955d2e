/** What the actions and the navigation are told by each call, apart from starts, steps and segments. */
module SchedulerCommands {
  import opened Vda
  import opened Events
  import opened KeyOrder
  import A = ActionTasks
  import N = NavigationTasks
  import AD = ActionDialogue
  import opened NavigationDialogue
  import opened SchedulerModel
  import O = SchedulerOperations
  import opened SchedulerMoves
  import opened SchedulerAccounts
  import opened SchedulerIdle
  import opened SchedulerTidy
  import T = SchedulerThrows
  import opened SchedulerDialogue

  // Moves that do not control the navigation ////////////////////////////////////////////////////

  ghost predicate NoCommand(out: seq<Event>)
  {
    forall e | e in out :: !Directs(e)
  }

  lemma {:induction false} NoCommandAppend(a: seq<Event>, b: seq<Event>)
    requires NoCommand(b)
    ensures Commands(a + b) == Commands(a)
  {
    if b == [] {
      assert a + b == a;
    } else {
      var init, last := b[..|b| - 1], b[|b| - 1];
      assert (a + b)[..|a + b| - 1] == a + init && last in b;
      assert forall e | e in init :: e in b;
      NoCommandAppend(a, init);
      assert Commands(a + b) == Commands(a + init);
    }
  }

  lemma StartCommands(s: Sched, a: Action, batch: nat, instant: bool)
    ensures Commands(StartAction(s, a, batch, instant).out) == Commands(s.out)
  {
    A.TransitionExactly(A.ActionWaiting, A.DoStart, a.id);
    AD.CommandsAnnounced(A.DoStart, a.id);
    hide A.Effect, A.Announced, Commands;
    CommandsAppend(s.out, A.Announced(A.DoStart, a.id));
  }

  lemma {:induction false} StartAllCommands(s: Sched, actions: seq<Action>, batch: nat, instant: bool)
    ensures Commands(StartAll(s, actions, batch, instant).out) == Commands(s.out)
    decreases |actions|
  {
    hide Commands, StartAction;
    if actions != [] {
      StartCommands(s, actions[0], batch, instant);
      StartAllCommands(StartAction(s, actions[0], batch, instant), actions[1..], batch, instant);
    }
  }

  lemma NothingCommands(s: Sched, t: Sched)
    requires SaysNothing(s, t)
    ensures Commands(t.out) == Commands(s.out)
  {
    var b :| t.out == s.out + b && Unsaid(b);
    hide Untold, Commands;
    NoCommandAppend(s.out, b);
  }

  lemma {:induction false} FetchCommands(s: Sched)
    requires WellFormed(s)
    ensures Commands(Fetch(s).out) == Commands(s.out)
    decreases |s.queue|
  {
    hide *;
    if s.queue == [] {
      O.FetchNothing(s);
    } else if s.queue[0].Actions? {
      O.FetchGroupIs(s);
      if s.active == map[] && (s.nav.None? || s.queue[0].group.ceiling == NONE) {
        GroupMove(s);
        GroupCommands(s);
        FetchCommands(StartGroup(s));
      }
    } else {
      O.FetchStepIs(s);
      if s.nav.Some? {
        PatchSays(s);
        NothingCommands(s, PatchSegment(s));
      } else if s.navInt == map[] && (s.active == map[] || s.blocking == NONE) {
        StepMove(s);
        StepSays(s);
        NothingCommands(s, StartStep(s));
        FetchCommands(StartStep(s));
      }
    }
  }

  lemma GroupCommands(s: Sched)
    requires s.queue != [] && s.queue[0].Actions?
    ensures Commands(StartGroup(s).out) == Commands(s.out)
  {
    O.GroupIs(s);
    var g := s.queue[0].group;
    hide StartGroup, StartAll, Commands;
    StartAllCommands(s.(segment := None, blocking := g.ceiling, queue := s.queue[1..],
                        hist := s.hist + [GroupStarted(g, false, s.tasks, s.nav)]), g.actions, |s.hist|, false);
  }

  lemma InstantCommands(s: Sched)
    requires WellFormed(s)
    ensures Commands(FetchInterrupt(s).out) == Commands(s.out)
  {
    if s.interrupts != [] {
      O.InstantIs(s);
      var g := s.interrupts[0];
      hide StartInstant, StartAll, Commands, InstantReady;
      StartAllCommands(s.(blocking := g.ceiling, interrupts := s.interrupts[1..],
                          hist := s.hist + [GroupStarted(g, true, s.tasks, s.nav)]), g.actions, |s.hist|, true);
    }
  }

  lemma EnterCommands(s: Sched, mode: Mode, notify: bool)
    ensures Commands(Enter(s, mode, notify).out) == Commands(s.out)
  {
    EnterSays(s, mode, notify);
    NothingCommands(s, Enter(s, mode, notify));
    hide SaysNothing, Commands, Enter;
  }

  // Transitions of tasks ////////////////////////////////////////////////////////////////////////

  ghost predicate Listed(m: TaskMap, keys: seq<ActionId>, tasks: seq<Task>)
  {
    forall i | 0 <= i < |keys| :: keys[i] in m && m[keys[i]] < |tasks| && tasks[m[keys[i]]].action.id == keys[i]
  }

  /** The command for one action after the other, up to the first that refuses it. */
  ghost function ToEach(tasks: seq<Task>, m: TaskMap, keys: seq<ActionId>, tr: A.ActionTransition): seq<Event>
    requires Listed(m, keys, tasks)
  {
    if keys == [] || !A.Takes(tasks[m[keys[0]]].state, tr) then []
    else A.Commanded(tr, keys[0]) + ToEach(tasks, m, keys[1..], tr)
  }

  lemma {:induction false} ToEachSame(tasks: seq<Task>, after: seq<Task>, m: TaskMap, keys: seq<ActionId>,
                                      tr: A.ActionTransition)
    requires Listed(m, keys, tasks) && Listed(m, keys, after)
    requires forall i | 0 <= i < |keys| :: after[m[keys[i]]] == tasks[m[keys[i]]]
    ensures ToEach(after, m, keys, tr) == ToEach(tasks, m, keys, tr)
  {
    hide A.Takes, A.Commanded;
    if keys != [] {
      assert forall i | 0 <= i < |keys[1..]| :: keys[1..][i] == keys[i + 1];
      ToEachSame(tasks, after, m, keys[1..], tr);
    }
  }

  lemma {:induction false} ToEachNext(tasks: seq<Task>, m: TaskMap, keys: seq<ActionId>, tr: A.ActionTransition)
    requires Listed(m, keys, tasks) && keys != []
    ensures Listed(m, keys[1..], tasks) && keys[0] in m && m[keys[0]] < |tasks|
    ensures ToEach(tasks, m, keys, tr) ==
            if A.Takes(tasks[m[keys[0]]].state, tr)
            then A.Commanded(tr, keys[0]) + ToEach(tasks, m, keys[1..], tr) else []
  {
    hide A.Takes, A.Commanded;
  }

  ghost predicate RefersTo(refs: seq<nat>, m: TaskMap, keys: seq<ActionId>)
  {
    |refs| == |keys| && forall i | 0 <= i < |keys| :: keys[i] in m && refs[i] == m[keys[i]]
  }

  ghost predicate Rising(keys: seq<ActionId>)
  {
    forall i, j | 0 <= i < j < |keys| :: keys[i] < keys[j]
  }

  lemma TaskCommands(s: Sched, r: nat, tr: A.ActionTransition)
    requires r < |s.tasks|
    ensures var o, takes := TaskTransition(s, r, tr), A.Takes(s.tasks[r].state, tr);
            && (o.Ok? <==> takes) && |o.s.tasks| == |s.tasks| && o.s.tasks[r].action == s.tasks[r].action
            && Commands(o.s.out) ==
               Commands(s.out) + (if takes then A.Commanded(tr, s.tasks[r].action.id) else [])
            && (forall q | 0 <= q < |s.tasks| && q != r :: o.s.tasks[q] == s.tasks[q])
  {
    O.TaskIs(s, r, tr);
    var id := s.tasks[r].action.id;
    A.TransitionExactly(s.tasks[r].state, tr, id);
    AD.CommandsAnnounced(tr, id);
    CommandsAppend(s.out, A.Announced(tr, id));
    assert Commands(s.out) + [] == Commands(s.out);
    hide TaskTransition, A.Next, A.Effect, A.Announced, A.Commanded, A.Takes, Commands;
  }

  lemma RestRefers(refs: seq<nat>, m: TaskMap, keys: seq<ActionId>)
    requires RefersTo(refs, m, keys) && refs != []
    ensures RefersTo(refs[1..], m, keys[1..]) && keys != [] && keys[0] in m && refs[0] == m[keys[0]]
    ensures Rising(keys) ==> Rising(keys[1..])
  {
  }

  lemma RestListed(before: seq<Task>, after: seq<Task>, m: TaskMap, keys: seq<ActionId>)
    requires Listed(m, keys, before) && keys != [] && Rising(keys) && |after| == |before|
    requires after[m[keys[0]]].action == before[m[keys[0]]].action
    requires forall q | 0 <= q < |before| && q != m[keys[0]] :: after[q] == before[q]
    ensures Listed(m, keys[1..], before) && Listed(m, keys[1..], after)
    ensures forall i | 0 <= i < |keys[1..]| :: after[m[keys[1..][i]]] == before[m[keys[1..][i]]]
  {
    var rest := keys[1..];
    forall i | 0 <= i < |rest|
      ensures rest[i] in m && m[rest[i]] < |before| && m[rest[i]] != m[keys[0]]
    {
      assert rest[i] == keys[i + 1] && keys[0] < keys[i + 1];
    }
  }

  /** A command for all tasks of a map reaches them in the order of their ids, up to the first that refuses it. */
  lemma {:induction false} TransitionAllCommands(s: Sched, refs: seq<nat>, tr: A.ActionTransition, m: TaskMap,
                                                 keys: seq<ActionId>)
    requires InRange(refs, |s.tasks|) && RefersTo(refs, m, keys) && Listed(m, keys, s.tasks) && Rising(keys)
    ensures Commands(TransitionAll(s, refs, tr).s.out) == Commands(s.out) + ToEach(s.tasks, m, keys, tr)
    decreases |refs|
  {
    hide *;
    if refs == [] {
      O.TransitionNone(s, tr);
      NoneToEach(s.tasks, m, keys, tr);
      assert keys == [] by { RefersLength(refs, m, keys); }
    } else {
      O.TransitionNext(s, refs, tr);
      RestRefers(refs, m, keys);
      ToEachNext(s.tasks, m, keys, tr);
      TaskCommands(s, refs[0], tr);
      var o := TaskTransition(s, refs[0], tr);
      if o.Ok? {
        RestListed(s.tasks, o.s.tasks, m, keys);
        TransitionAllCommands(o.s, refs[1..], tr, m, keys[1..]);
        ToEachSame(s.tasks, o.s.tasks, m, keys[1..], tr);
        ListedAt(m, keys, s.tasks, 0);
        Associative(Commands(s.out), A.Commanded(tr, keys[0]), ToEach(s.tasks, m, keys[1..], tr));
      }
    }
  }

  lemma RefersLength(refs: seq<nat>, m: TaskMap, keys: seq<ActionId>)
    requires RefersTo(refs, m, keys)
    ensures |refs| == |keys|
  {
  }

  lemma ListedAt(m: TaskMap, keys: seq<ActionId>, tasks: seq<Task>, i: nat)
    requires Listed(m, keys, tasks) && i < |keys|
    ensures keys[i] in m && m[keys[i]] < |tasks| && tasks[m[keys[i]]].action.id == keys[i]
  {
  }

  lemma {:induction false} NoneToEach(tasks: seq<Task>, m: TaskMap, keys: seq<ActionId>, tr: A.ActionTransition)
    requires Listed(m, keys, tasks)
    ensures keys == [] ==> ToEach(tasks, m, keys, tr) == []
  {
  }

  /** The tasks of a map are reached in the order of their ids. */
  lemma MapListed(m: TaskMap, tasks: seq<Task>)
    requires Refers(m, tasks)
    ensures var keys := Ascending(m.Keys); Listed(m, keys, tasks) && Rising(keys) && RefersTo(RefsOf(m), m, keys)
  {
    var keys := Ascending(m.Keys);
    forall i | 0 <= i < |keys|
      ensures keys[i] in m && m[keys[i]] < |tasks| && tasks[m[keys[i]]].action.id == keys[i]
    {
      assert keys[i] in keys;
    }
  }

  /** The ids whose tasks cannot run beside a group with this ceiling: all of them if it is HARD, else the HARD ones. */
  ghost function Hampered(tasks: seq<Task>, m: TaskMap, keys: seq<ActionId>, ceiling: BlockingType): seq<ActionId>
    requires Listed(m, keys, tasks)
  {
    if keys == [] then []
    else
      (if ceiling == HARD || tasks[m[keys[0]]].action.blocking == HARD then [keys[0]] else []) +
      Hampered(tasks, m, keys[1..], ceiling)
  }

  lemma {:induction false} HamperedNext(tasks: seq<Task>, m: TaskMap, refs: seq<nat>, keys: seq<ActionId>,
                                        ceiling: BlockingType)
    requires InRange(refs, |tasks|) && RefersTo(refs, m, keys) && Listed(m, keys, tasks) && refs != []
    ensures keys != [] && keys[0] in m && m[keys[0]] == refs[0] < |tasks| && tasks[refs[0]].action.id == keys[0]
    ensures InRange(refs[1..], |tasks|) && Listed(m, keys[1..], tasks)
    ensures var hampered := ceiling == HARD || tasks[refs[0]].action.blocking == HARD;
            && ConflictingRefs(refs, tasks, ceiling) ==
               (if hampered then [refs[0]] else []) + ConflictingRefs(refs[1..], tasks, ceiling)
            && Hampered(tasks, m, keys, ceiling) ==
               (if hampered then [keys[0]] else []) + Hampered(tasks, m, keys[1..], ceiling)
  {
  }

  lemma OneMore(m: TaskMap, refs: seq<nat>, keys: seq<ActionId>, tasks: seq<Task>, k: ActionId)
    requires RefersTo(refs, m, keys) && Listed(m, keys, tasks) && Rising(keys)
    requires k in m && m[k] < |tasks| && tasks[m[k]].action.id == k && forall x | x in keys :: k < x
    ensures RefersTo([m[k]] + refs, m, [k] + keys) && Listed(m, [k] + keys, tasks) && Rising([k] + keys)
  {
    assert forall i | 0 <= i < |keys| :: keys[i] in keys;
  }

  lemma FirstBelow(keys: seq<ActionId>)
    requires Rising(keys) && keys != []
    ensures forall x | x in keys[1..] :: keys[0] < x
  {
  }

  lemma {:induction false} NothingListed(refs: seq<nat>, m: TaskMap, keys: seq<ActionId>, tasks: seq<Task>,
                                         ceiling: BlockingType)
    requires RefersTo(refs, m, keys) && Listed(m, keys, tasks) && refs == []
    ensures InRange(refs, |tasks|) && ConflictingRefs(refs, tasks, ceiling) == []
    ensures Hampered(tasks, m, keys, ceiling) == []
    ensures RefersTo([], m, []) && Listed(m, [], tasks) && Rising([])
  {
  }

  lemma {:induction false} ConflictsListed(tasks: seq<Task>, m: TaskMap, refs: seq<nat>, keys: seq<ActionId>,
                                           ceiling: BlockingType)
    requires InRange(refs, |tasks|) && RefersTo(refs, m, keys) && Listed(m, keys, tasks) && Rising(keys)
    ensures var some := Hampered(tasks, m, keys, ceiling);
            && RefersTo(ConflictingRefs(refs, tasks, ceiling), m, some) && Listed(m, some, tasks) && Rising(some)
            && forall k | k in some :: k in keys
    decreases |refs|
  {
    hide *;
    if refs != [] {
      RestRefers(refs, m, keys);
      HamperedNext(tasks, m, refs, keys, ceiling);
      ConflictsListed(tasks, m, refs[1..], keys[1..], ceiling);
      FirstBelow(keys);
      OneMore(m, ConflictingRefs(refs[1..], tasks, ceiling), Hampered(tasks, m, keys[1..], ceiling), tasks, keys[0]);
      assert [] + ConflictingRefs(refs[1..], tasks, ceiling) == ConflictingRefs(refs[1..], tasks, ceiling);
      assert [] + Hampered(tasks, m, keys[1..], ceiling) == Hampered(tasks, m, keys[1..], ceiling);
      assert forall k | k in keys[1..] :: k in keys;
    } else {
      NothingListed(refs, m, keys, tasks, ceiling);
    }
  }

  // Transitions of the navigation ///////////////////////////////////////////////////////////////

  /** A transition of the navigation tells it what its column says, or is refused. */
  lemma NavCommands(s: Sched, tr: N.NavTransition)
    requires s.nav.Some?
    ensures var n, o := s.nav.value, NavTransition(s, tr);
            && (o.Ok? <==> N.Takes(n.state, tr, n.goal.seqId)) && (o.Throw? ==> o == Throw(s))
            && Commands(o.s.out) == Commands(s.out) + (if o.Ok? then N.Told(tr) else [])
            && o.s == s.(nav := o.s.nav, out := o.s.out)
  {
    var n := s.nav.value;
    N.TransferExactly(n, tr);
    O.NavIs(s, tr);
    CommandsAnnounced(tr, n);
    CommandsAppend(s.out, N.Announced(tr, n));
    hide N.Transfer, N.Effect, N.Takes, N.Told, N.Announced, Commands;
  }

  /** All tasks that interrupt the navigation have ended, and it is paused. */
  ghost predicate Resumes(s: Sched)
    requires WellFormed(s)
  {
    && s.navInt != map[]
    && (forall id | id in s.navInt ::
          s.tasks[s.navInt[id]].state.ActionFailed? || s.tasks[s.navInt[id]].state.ActionFinished?)
    && s.nav.Some? && s.nav.value.state.NavPaused?
  }

  lemma ResumesIs(s: Sched)
    requires WellFormed(s)
    ensures Resumes(s) <==>
            && s.navInt != map[] && (forall id | id in s.navInt :: s.tasks[s.navInt[id]].state.IsTerminal())
            && s.nav.Some? && s.nav.value.state.NavPaused?
  {
    hide Refers;
  }

  lemma MappingIs(t: Sched)
    requires WellFormed(t)
    ensures var u := DropNavInt(t);
            UpdateInterruptMapping(t) ==
            if u.navInt != t.navInt && u.navInt == map[] && u.nav.Some? then NavTransition(u, N.DoResume) else Ok(u)
  {
    hide DropNavInt, NavTransition;
  }

  lemma MappingCommands(t: Sched)
    requires WellFormed(t)
    ensures Commands(UpdateInterruptMapping(t).s.out) ==
            Commands(t.out) + (if Resumes(t) then [NavigationControl(Resume)] else [])
  {
    var u := DropNavInt(t);
    MappingIs(t);
    T.DropsAll(t);
    ResumesIs(t);
    if u.nav.Some? {
      NavCommands(u, N.DoResume);
    }
    assert Commands(t.out) + [] == Commands(t.out);
    hide DropNavInt, NavTransition, Resumes, Refers, Commands, UpdateInterruptMapping;
  }

  /** A refresh tells the navigation to resume exactly when the last of the tasks that interrupt it has ended and it is
      paused. */
  lemma RefreshCommands(s: Sched)
    requires WellFormed(s)
    ensures Commands(Refresh(s).s.out) == Commands(s.out) + (if Resumes(s) then [NavigationControl(Resume)] else [])
  {
    var t := UpdateTasks(s);
    O.RefreshIs(s);
    UpdateTasksFrame(s);
    UpdateTasksSays(s);
    NothingCommands(s, t);
    MappingCommands(t);
    ResumesIs(s);
    ResumesIs(t);
    hide Refresh, UpdateTasks, UpdateInterruptMapping, Commands, Resumes, Refers, SaysNothing;
  }

  lemma RefreshedNotResumes(s: Sched)
    requires Refreshed(s)
    ensures WellFormed(s) && !Resumes(s)
  {
    if s.navInt != map[] {
      var id :| id in s.navInt;
    }
  }

  lemma StateUpdateCommands(s: Sched)
    requires WellFormed(s)
    ensures Commands(StateUpdate(s).0.s.out) ==
            Commands(s.out) + (if T.Refreshes(s.mode) && Resumes(s) then [NavigationControl(Resume)] else [])
    ensures StateUpdate(s).1 ==> StateUpdate(s).0.s == Enter(Refresh(s).s, Active, true)
  {
    hide *;
    O.StateUpdateIs(s);
    T.RefreshingIs(s.mode);
    var o := Refresh(s);
    assert Commands(s.out) + [] == Commands(s.out);
    RefreshCommands(s);
    match s.mode
    case Idle => IdleCommands(s);
    case IdlePaused => EnterCommands(s, IdlePaused, false);
    case Active =>
      O.UpdateActiveIs(s);
      FetchEnterCommands(o.s);
    case Canceling =>
      O.UpdateCancelingIs(s);
      FetchEnterCommands(o.s);
    case Resuming =>
      O.UpdateResumingIs(s);
      EnterCommands(o.s, Resuming, false);
      EnterCommands(o.s, Active, true);
    case Pausing =>
      O.UpdatePausingIs(s);
      EnterCommands(o.s, Pausing, false);
      EnterCommands(o.s, Paused, true);
    case Paused =>
      O.UpdatePausedIs(s);
      EnterCommands(o.s, Paused, false);
    case Failed => EnterCommands(s, Failed, false);
    case Interrupting => InterruptingCommands(s);
  }

  lemma {:induction false} FetchEnterCommands(s: Sched)
    requires WellFormed(s)
    ensures forall mode: Mode, notify: bool :: Commands(Enter(Fetch(s), mode, notify).out) == Commands(s.out)
  {
    FetchCommands(s);
    forall mode: Mode, notify: bool
      ensures Commands(Enter(Fetch(s), mode, notify).out) == Commands(s.out)
    {
      EnterCommands(Fetch(s), mode, notify);
    }
  }

  lemma IdleCommands(s: Sched)
    requires WellFormed(s)
    ensures Commands(UpdateIdle(s).0.s.out) == Commands(s.out) && !UpdateIdle(s).1
  {
    hide *;
    O.UpdateIdleIs(s);
    FetchEnterCommands(s);
  }

  lemma InterruptingCommands(s: Sched)
    requires WellFormed(s)
    ensures Commands(UpdateInterrupting(s).0.s.out) == Commands(s.out) && !UpdateInterrupting(s).1
  {
    hide *;
    O.UpdateInterruptingIs(s);
    var t := UpdateTasks(s);
    UpdateTasksSays(s);
    NothingCommands(s, t);
    InstantCommands(t);
    EnterCommands(FetchInterrupt(t), Active, true);
    EnterCommands(FetchInterrupt(t), Interrupting, false);
  }

  /** An update tells the navigation to resume exactly when it refreshes the tasks, the last of those that interrupt the
      navigation has ended, and the navigation is paused; it tells it nothing else. */
  lemma {:induction false} UpdateCommands(s: Sched)
    requires WellFormed(s)
    ensures Commands(Update(s).s.out) ==
            Commands(s.out) + (if T.Refreshes(s.mode) && Resumes(s) then [NavigationControl(Resume)] else [])
  {
    hide *;
    O.UpdateIs(s);
    StateUpdateCommands(s);
    if StateUpdate(s).0.Ok? && StateUpdate(s).1 {
      var t := StateUpdate(s).0.s;
      AnyRefreshRefreshed(s);
      EnterRefreshed(Refresh(s).s, Active, true);
      RefreshedNotResumes(t);
      StateUpdateCommands(t);
      O.UpdateIs(t);
      assert Commands(t.out) + [] == Commands(t.out);
    }
  }

  // Calls ///////////////////////////////////////////////////////////////////////////////////////

  lemma FinishCommands(r: StateResult)
    requires WellFormed(r.0.s)
    ensures Commands(Finish(r).s.out) ==
            Commands(r.0.s.out) +
            (if r.0.Ok? && r.1 && T.Refreshes(r.0.s.mode) && Resumes(r.0.s) then [NavigationControl(Resume)] else [])
  {
    hide *;
    O.FinishIs(r);
    UpdateCommands(r.0.s);
    assert Commands(r.0.s.out) + [] == Commands(r.0.s.out);
  }

  lemma ClearCommands(s: Sched, keepNav: bool)
    ensures Commands(ClearQueues(s, keepNav).out) == Commands(s.out)
  {
    ClearSays(s, keepNav);
    NothingCommands(s, ClearQueues(s, keepNav));
    hide SaysNothing, Commands, ClearQueues;
  }

  /** The command for the tasks of a map, in the order of their ids, up to the first that refuses it. */
  ghost function ToAll(s: Sched, m: TaskMap, tr: A.ActionTransition): seq<Event>
    requires Refers(m, s.tasks)
  {
    MapListed(m, s.tasks);
    ToEach(s.tasks, m, Ascending(m.Keys), tr)
  }

  lemma {:induction false} TasksCommands(s: Sched, m: TaskMap, tr: A.ActionTransition)
    requires WellFormed(s) && Refers(m, s.tasks)
    ensures InRange(RefsOf(m), |s.tasks|)
    ensures var t := TransitionAll(s, RefsOf(m), tr).s;
            && WellFormed(t) && Commands(t.out) == Commands(s.out) + ToAll(s, m, tr)
            && t == s.(tasks := t.tasks, out := t.out)
  {
    MapListed(m, s.tasks);
    RefsInRange(m, s.tasks);
    assert ToAll(s, m, tr) == ToEach(s.tasks, m, Ascending(m.Keys), tr);
    hide *;
    TransitionAllCommands(s, RefsOf(m), tr, m, Ascending(m.Keys));
    TransitionAllFrame(s, RefsOf(m), tr);
    TransitionsFormed(s, RefsOf(m), tr);
  }

  lemma Formed(s: Sched)
    requires WellFormed(s)
    ensures Refers(s.active, s.tasks) && Refers(s.running, s.tasks) && Refers(s.paused, s.tasks)
  {
    hide Refers;
  }

  /** A navigation that is told nothing by a cancel: it rests. */
  predicate Rests(st: N.NavState)
  {
    st.NavPaused? || st.NavResuming?
  }

  lemma DrivesOrRests(st: N.NavState, goal: SeqId)
    ensures !st.IsPaused() && !st.IsTerminal() <==> !Rests(st) && !st.NavFailed? && !st.NavDone?
    ensures N.Takes(st, N.DoPause, goal) <==> N.Driving(st)
    ensures N.Takes(st, N.DoResume, goal) <==> st.NavPaused?
    ensures N.Takes(st, N.DoCancel, goal) <==> !st.NavFailed? && !st.NavDone? && !st.NavCanceling?
    ensures N.Told(N.DoPause) == [NavigationControl(Pause)] && N.Told(N.DoResume) == [NavigationControl(Resume)]
    ensures N.Told(N.DoCancel) == [NavigationControl(Cancel)]
  {
  }

  lemma PauseActiveCommands(s: Sched)
    requires WellFormed(s)
    ensures var r := PauseActive(s);
            && Refers(s.running, s.tasks) && !r.1
            && Commands(r.0.s.out) == Commands(s.out) + ToAll(s, s.running, A.DoPause) +
                                      (if r.0.Ok? && s.nav.Some? then [NavigationControl(Pause)] else [])
  {
    hide *;
    Formed(s);
    O.PauseActiveIs(s);
    TasksCommands(s, s.running, A.DoPause);
    var t := TransitionAll(s, RefsOf(s.running), A.DoPause).s;
    assert Commands(t.out) + [] == Commands(t.out);
    if t.nav.Some? {
      NavCommands(t, N.DoPause);
      DrivesOrRests(t.nav.value.state, t.nav.value.goal.seqId);
      EnterCommands(NavTransition(t, N.DoPause).s, Pausing, true);
    } else {
      EnterCommands(t, Pausing, true);
    }
  }

  lemma ResumePausedCommands(s: Sched)
    requires WellFormed(s)
    ensures var r := ResumePaused(s);
            && Refers(s.paused, s.tasks)
            && Commands(r.0.s.out) == Commands(s.out) + ToAll(s, s.paused, A.DoResume) +
                                      (if r.0.Ok? && s.nav.Some? then [NavigationControl(Resume)] else [])
            && (r.0.Ok? ==> r.0.s.nav.None? || !r.0.s.nav.value.state.NavPaused?)
  {
    hide *;
    O.ResumePausedIs(s);
    Formed(s);
    TasksCommands(s, s.paused, A.DoResume);
    var t := TransitionAll(s, RefsOf(s.paused), A.DoResume).s;
    assert Commands(t.out) + [] == Commands(t.out);
    if t.nav.Some? {
      NavCommands(t, N.DoResume);
      ResumedNav(t);
      DrivesOrRests(t.nav.value.state, t.nav.value.goal.seqId);
      EnterCommands(NavTransition(t, N.DoResume).s, Resuming, true);
      O.EnterIs(NavTransition(t, N.DoResume).s, Resuming, true);
    } else {
      EnterCommands(t, Resuming, true);
      O.EnterIs(t, Resuming, true);
    }
  }

  lemma ResumedNav(s: Sched)
    requires WellFormed(s) && s.nav.Some?
    ensures var o := NavTransition(s, N.DoResume);
            WellFormed(o.s) && (o.Ok? ==> o.s.nav.Some? && !o.s.nav.value.state.NavPaused?)
  {
    hide N.Effect, Refers;
  }

  lemma CancelActiveCommands(s: Sched)
    requires WellFormed(s) && NavLive(s)
    ensures var r := CancelActive(s);
            && Refers(s.active, s.tasks) && !r.1
            && Commands(r.0.s.out) ==
               Commands(s.out) + ToAll(s, s.active, A.DoCancel) +
               (if r.0.Ok? && s.nav.Some? && !Rests(s.nav.value.state) then [NavigationControl(Cancel)] else [])
  {
    NavLiveIs(s);
    hide *;
    O.CancelActiveIs(s);
    Formed(s);
    TasksCommands(s, s.active, A.DoCancel);
    var t := TransitionAll(s, RefsOf(s.active), A.DoCancel).s;
    assert Commands(t.out) + [] == Commands(t.out);
    ClearEnterCommands(t);
    if t.nav.Some? {
      NavCommands(t, N.DoCancel);
      DrivesOrRests(t.nav.value.state, t.nav.value.goal.seqId);
      ClearEnterCommands(NavTransition(t, N.DoCancel).s);
    }
  }

  lemma NavLiveIs(s: Sched)
    requires NavLive(s)
    ensures s.nav.Some? ==> !s.nav.value.state.NavFailed? && !s.nav.value.state.NavDone?
  {
  }

  lemma ClearEnterCommands(s: Sched)
    ensures Commands(Enter(ClearQueues(s, true), Canceling, true).out) == Commands(s.out)
  {
    hide *;
    ClearCommands(s, true);
    EnterCommands(ClearQueues(s, true), Canceling, true);
  }

  /** The cancels for the active tasks that cannot run beside a group with this ceiling. */
  ghost function ToHampered(s: Sched, ceiling: BlockingType): seq<Event>
    requires WellFormed(s)
  {
    MapListed(s.active, s.tasks);
    ConflictsListed(s.tasks, s.active, RefsOf(s.active), Ascending(s.active.Keys), ceiling);
    ToEach(s.tasks, s.active, Hampered(s.tasks, s.active, Ascending(s.active.Keys), ceiling), A.DoCancel)
  }

  /** The navigation in the way of a group that blocks is told to pause when it drives; if it cannot be, nothing is
      told to anyone. Otherwise the hampered actions are told to cancel. */
  ghost function ToInterrupted(s: Sched, front: Group): seq<Event>
    requires WellFormed(s)
  {
    if front.ceiling == NONE || s.nav.None? then ToHampered(s, front.ceiling)
    else if N.Driving(s.nav.value.state) then [NavigationControl(Pause)] + ToHampered(s, front.ceiling)
    else []
  }

  lemma {:induction false} HamperedCommands(s: Sched, t: Sched, ceiling: BlockingType)
    requires WellFormed(s) && InRange(RefsOf(s.active), |s.tasks|) && t.tasks == s.tasks
    ensures InRange(ConflictingRefs(RefsOf(s.active), s.tasks, ceiling), |t.tasks|)
    ensures Commands(TransitionAll(t, ConflictingRefs(RefsOf(s.active), s.tasks, ceiling), A.DoCancel).s.out) ==
            Commands(t.out) + ToHampered(s, ceiling)
  {
    MapListed(s.active, s.tasks);
    var keys := Ascending(s.active.Keys);
    ConflictsListed(s.tasks, s.active, RefsOf(s.active), keys, ceiling);
    var some := Hampered(s.tasks, s.active, keys, ceiling);
    assert ToHampered(s, ceiling) == ToEach(s.tasks, s.active, some, A.DoCancel);
    hide *;
    TransitionAllCommands(t, ConflictingRefs(RefsOf(s.active), s.tasks, ceiling), A.DoCancel, s.active, some);
  }

  lemma DoInterruptCommands(s: Sched)
    requires WellFormed(s) && s.interrupts != []
    ensures Commands(DoInterrupt(s).s.out) == Commands(s.out) + ToInterrupted(s, s.interrupts[0])
  {
    var ceiling := s.interrupts[0].ceiling;
    RefsInRange(s.active, s.tasks);
    var refs := ConflictingRefs(RefsOf(s.active), s.tasks, ceiling);
    InterruptFirst(s);
    hide Commands, DoInterrupt, RefsOf, ConflictingRefs, TransitionAll, NavTransition, ToHampered, Refers, N.Driving;
    assert Commands(s.out) + [] == Commands(s.out);
    if ceiling != NONE && s.nav.Some? {
      NavCommands(s, N.DoPause);
      DrivesOrRests(s.nav.value.state, s.nav.value.goal.seqId);
      var o := NavTransition(s, N.DoPause);
      HamperedCommands(s, o.s, ceiling);
      Associative(Commands(s.out), [NavigationControl(Pause)], ToHampered(s, ceiling));
    } else {
      HamperedCommands(s, s, ceiling);
    }
  }

  lemma InterruptFirst(s: Sched)
    requires WellFormed(s) && s.interrupts != [] && InRange(RefsOf(s.active), |s.tasks|)
    ensures var ceiling := s.interrupts[0].ceiling;
            var refs := ConflictingRefs(RefsOf(s.active), s.tasks, ceiling);
            var nav := if ceiling != NONE && s.nav.Some? then NavTransition(s, N.DoPause) else Ok(s);
            && nav.s.tasks == s.tasks
            && DoInterrupt(s) == if nav.Throw? then nav else TransitionAll(nav.s, refs, A.DoCancel)
  {
    hide TransitionAll, RefsOf, ConflictingRefs, N.Transfer, N.Effect, Refers;
  }

  /** What a call tells actions and navigation, apart from starts, steps and segments: everything, in its order and in
      every case, throws included. A pause, resume or cancel reaches the tasks in the order of their ids, up to the
      first that refuses; one that returns then tells a navigation that is there to pause, to resume or, unless it
      rests, to cancel. An instant group that blocks first pauses a navigation that drives. Whatever ends the last
      task that interrupts the navigation resumes it when it is paused. */
  lemma CommandsExactly(s: Sched, op: Op)
    requires Tidy(s)
    ensures WellFormed(s) && Refers(s.active, s.tasks) && Refers(s.running, s.tasks) && Refers(s.paused, s.tasks)
    ensures var o := Apply(s, op);
            Commands(o.s.out) == Commands(s.out) +
            match op
            case OpPause =>
              (if s.mode == Active then ToAll(s, s.running, A.DoPause) else []) +
              (if o.Ok? && s.nav.Some? then [NavigationControl(Pause)] else [])
            case OpResume =>
              (if s.mode == Paused then ToAll(s, s.paused, A.DoResume) else []) +
              (if o.Ok? && s.nav.Some? then [NavigationControl(Resume)] else [])
            case OpCancel =>
              (if s.mode == Active || s.mode == Paused then ToAll(s, s.active, A.DoCancel) else []) +
              (if o.Ok? && s.nav.Some? && !Rests(s.nav.value.state) then [NavigationControl(Cancel)] else [])
            case OpInterrupt(g) =>
              (if s.mode == Idle || s.mode == Active then ToInterrupted(s, (s.interrupts + [g])[0]) else [])
            case OpUpdate => if T.Refreshes(s.mode) && Resumes(s) then [NavigationControl(Resume)] else []
            case OpCommit => if T.Refreshes(s.mode) && Resumes(s) then [NavigationControl(Resume)] else []
            case OpEnqueue(_) => []
            case OpAction(id, tr) =>
              (if id in s.active && A.Takes(s.tasks[s.active[id]].state, tr)
               then A.Commanded(tr, id) +
                    (if T.Refreshes(s.mode) && ResumesAfter(s, s.active[id], tr)
                     then [NavigationControl(Resume)] else [])
               else [])
            case OpNavigation(tr) =>
              (if s.nav.Some? && N.Takes(s.nav.value.state, tr, s.nav.value.goal.seqId)
               then N.Told(tr) + (if T.Refreshes(s.mode) && T.InterruptsEnded(s) && tr.IsPaused?
                                then [NavigationControl(Resume)] else [])
               else [])
  {
    hide *;
    TidyParts(s);
    Formed(s);
    match op
    case OpPause => PauseCommands(s);
    case OpResume => ResumeCommands(s);
    case OpCancel => CancelCommands(s);
    case OpInterrupt(g) => InterruptCommands(s, g);
    case OpUpdate =>
      UpdateIs(s);
      UpdateCommands(s);
    case OpCommit => CommitCommands(s);
    case OpEnqueue(item) => EnqueueCommands(s, item);
    case OpAction(id, tr) => ActionCommands(s, id, tr);
    case OpNavigation(tr) => NavigationCommands(s, tr);
  }

  /** The same once task r has taken a transition. */
  ghost predicate ResumesAfter(s: Sched, r: nat, tr: A.ActionTransition)
    requires WellFormed(s)
  {
    && s.navInt != map[]
    && (forall id | id in s.navInt ::
          if s.navInt[id] == r then A.Ends(tr)
          else s.tasks[s.navInt[id]].state.ActionFailed? || s.tasks[s.navInt[id]].state.ActionFinished?)
    && s.nav.Some? && s.nav.value.state.NavPaused?
  }

  lemma PauseCommands(s: Sched)
    requires Tidy(s)
    ensures WellFormed(s) && Refers(s.running, s.tasks)
    ensures var o := Apply(s, OpPause);
            Commands(o.s.out) == Commands(s.out) + ((if s.mode == Active then ToAll(s, s.running, A.DoPause) else []) +
                                                    if o.Ok? && s.nav.Some? then [NavigationControl(Pause)] else [])
  {
    hide *;
    TidyParts(s);
    O.PauseIs(s);
    O.FinishIs(StatePause(s));
    PauseActiveCommands(s);
    EnterCommands(s, IdlePaused, true);
    assert Commands(s.out) + ([] + []) == Commands(s.out);
    Associative(Commands(s.out), ToAll(s, s.running, A.DoPause), [NavigationControl(Pause)]);
    Associative(Commands(s.out), ToAll(s, s.running, A.DoPause), []);
  }

  lemma ResumeCommands(s: Sched)
    requires Tidy(s)
    ensures WellFormed(s) && Refers(s.paused, s.tasks)
    ensures var o := Apply(s, OpResume);
            Commands(o.s.out) == Commands(s.out) + ((if s.mode == Paused then ToAll(s, s.paused, A.DoResume) else []) +
                                                    if o.Ok? && s.nav.Some? then [NavigationControl(Resume)] else [])
  {
    hide *;
    TidyParts(s);
    O.ResumeIs(s);
    T.ResumeReturns(s);
    T.ResumePausedReturns(s);
    ResumePausedCommands(s);
    FinishCommands(StateResume(s));
    EnterCommands(s, Idle, true);
    O.EnterIs(s, Idle, true);
    T.RefreshingIs(Idle);
    assert Commands(s.out) + ([] + []) == Commands(s.out);
    var r := ResumePaused(s).0.s;
    assert Commands(r.out) + [] == Commands(r.out);
    NotResuming(StateResume(s).0.s);
    Associative(Commands(s.out), ToAll(s, s.paused, A.DoResume), [NavigationControl(Resume)]);
    Associative(Commands(s.out), ToAll(s, s.paused, A.DoResume), []);
  }

  lemma NotResuming(s: Sched)
    requires WellFormed(s)
    ensures (s.nav.None? || !s.nav.value.state.NavPaused?) ==> !Resumes(s)
  {
  }

  lemma CancelCommands(s: Sched)
    requires Tidy(s)
    ensures WellFormed(s) && Refers(s.active, s.tasks)
    ensures var o := Apply(s, OpCancel);
            Commands(o.s.out) == Commands(s.out) +
            ((if s.mode == Active || s.mode == Paused then ToAll(s, s.active, A.DoCancel) else []) +
             if o.Ok? && s.nav.Some? && !Rests(s.nav.value.state) then [NavigationControl(Cancel)] else [])
  {
    hide *;
    TidyParts(s);
    O.CancelIs(s);
    O.FinishIs(StateCancel(s));
    CancelActiveCommands(s);
    ClearCommands(s, false);
    assert Commands(s.out) + ([] + []) == Commands(s.out);
    Associative(Commands(s.out), ToAll(s, s.active, A.DoCancel), [NavigationControl(Cancel)]);
    Associative(Commands(s.out), ToAll(s, s.active, A.DoCancel), []);
    if s.mode == Idle {
      CancelIdleReturns(s);
      O.EnterIs(s, Canceling, false);
      EnterCommands(s, Canceling, false);
      UpdateCommands(Enter(s, Canceling, false));
      NotResuming(Enter(s, Canceling, false));
    }
  }

  lemma InterruptedSame(s: Sched, t: Sched, front: Group)
    requires WellFormed(s) && WellFormed(t) && t.tasks == s.tasks && t.active == s.active && t.nav == s.nav
    ensures ToInterrupted(t, front) == ToInterrupted(s, front)
  {
    hide N.Driving, ToEach, Hampered, Refers, Listed;
  }

  lemma InterruptCommands(s: Sched, g: Group)
    requires WellFormed(s)
    ensures Commands(Apply(s, OpInterrupt(g)).s.out) == Commands(s.out) +
            if s.mode == Idle || s.mode == Active then ToInterrupted(s, (s.interrupts + [g])[0]) else []
  {
    var t := s.(interrupts := s.interrupts + [g]);
    O.InterruptIs(s, g);
    hide *;
    InterruptedSame(s, t, t.interrupts[0]);
    DoInterruptCommands(t);
    var u := DoInterrupt(t).s;
    FinishCommands(StateInterrupt(t));
    EnterCommands(u, Interrupting, true);
    EnteredMode(u, Interrupting, true);
    T.RefreshingIs(Interrupting);
    assert Commands(s.out) + [] == Commands(s.out) && Commands(u.out) + [] == Commands(u.out);
  }

  lemma CommitCommands(s: Sched)
    requires WellFormed(s)
    ensures Commands(Apply(s, OpCommit).s.out) ==
            Commands(s.out) + if T.Refreshes(s.mode) && Resumes(s) then [NavigationControl(Resume)] else []
  {
    var t := s.(queue := s.queue + s.staging, staging := []);
    O.CommitIs(s);
    UpdateCommands(t);
    assert Resumes(t) == Resumes(s) by { hide Refers; }
    hide Resumes, Update, Commands, Apply, Refers;
  }

  lemma EnqueueCommands(s: Sched, item: Item)
    requires WellFormed(s)
    ensures Commands(Apply(s, OpEnqueue(item)).s.out) == Commands(s.out) + []
  {
    hide Commands, Refers;
  }

  lemma SetTaskResumes(s: Sched, r: nat, tr: A.ActionTransition)
    requires Enabled(s, MTask(r, tr))
    ensures WellFormed(s)
    ensures var t := Do(s, MTask(r, tr));
            && (Resumes(t) <==> ResumesAfter(s, r, tr)) && t.mode == s.mode
            && Commands(t.out) == Commands(s.out) + A.Commanded(tr, s.tasks[r].action.id)
  {
    TaskMoveIs(s, r, tr);
    A.TransitionExactly(s.tasks[r].state, tr, 0);
    AD.CommandsAnnounced(tr, s.tasks[r].action.id);
    CommandsAppend(s.out, A.Announced(tr, s.tasks[r].action.id));
    hide Do, Commands, A.Next, A.Effect, A.Announced, A.Commanded, A.Takes, Enabled;
  }

  lemma ActionCommands(s: Sched, id: ActionId, tr: A.ActionTransition)
    requires WellFormed(s)
    ensures id in s.active ==> s.active[id] < |s.tasks|
    ensures Commands(Apply(s, OpAction(id, tr)).s.out) ==
            Commands(s.out) +
            if id in s.active && A.Takes(s.tasks[s.active[id]].state, tr)
            then A.Commanded(tr, id) +
                 (if T.Refreshes(s.mode) && ResumesAfter(s, s.active[id], tr)
                  then [NavigationControl(Resume)] else [])
            else []
  {
    hide *;
    TakenExactly(s, id, tr);
    assert Commands(s.out) + [] == Commands(s.out);
    if Taken(s, OpAction(id, tr)) {
      var t := Do(s, MTask(s.active[id], tr));
      SetTaskResumes(s, s.active[id], tr);
      UpdateCommands(t);
      Associative(Commands(s.out), A.Commanded(tr, id), [NavigationControl(Resume)]);
      Associative(Commands(s.out), A.Commanded(tr, id), []);
    } else {
      Refused(s, OpAction(id, tr));
    }
  }

  lemma NavigationCommands(s: Sched, tr: N.NavTransition)
    requires WellFormed(s)
    ensures Commands(Apply(s, OpNavigation(tr)).s.out) ==
            Commands(s.out) +
            if s.nav.Some? && N.Takes(s.nav.value.state, tr, s.nav.value.goal.seqId)
            then N.Told(tr) + (if T.Refreshes(s.mode) && T.InterruptsEnded(s) && tr.IsPaused?
                             then [NavigationControl(Resume)] else [])
            else []
  {
    hide *;
    O.NavigationIs(s, tr);
    assert Commands(s.out) + [] == Commands(s.out);
    if s.nav.Some? {
      NavCommands(s, tr);
      if NavTransition(s, tr).Ok? {
        var t := NavTransition(s, tr).s;
        NavResumes(s, tr);
        UpdateCommands(t);
        var resumes := T.Refreshes(s.mode) && T.InterruptsEnded(s) && tr.IsPaused?;
        var more := if resumes then [NavigationControl(Resume)] else [];
        assert Commands(s.out) + N.Told(tr) + more == Commands(s.out) + (N.Told(tr) + more);
      }
    }
  }

  lemma NavResumes(s: Sched, tr: N.NavTransition)
    requires WellFormed(s) && s.nav.Some? && NavTransition(s, tr).Ok?
    ensures var t := NavTransition(s, tr).s;
            WellFormed(t) && t.mode == s.mode && (Resumes(t) <==> T.InterruptsEnded(s) && tr.IsPaused?)
  {
    hide N.Effect, Refers;
  }

  /** The command for every one of the actions. */
  ghost function ToEveryone(keys: seq<ActionId>, tr: A.ActionTransition): seq<Event>
  {
    if keys == [] then [] else A.Commanded(tr, keys[0]) + ToEveryone(keys[1..], tr)
  }

  lemma {:induction false} NobodyRefuses(tasks: seq<Task>, m: TaskMap, keys: seq<ActionId>, tr: A.ActionTransition)
    requires Listed(m, keys, tasks) && forall i | 0 <= i < |keys| :: A.Takes(tasks[m[keys[i]]].state, tr)
    ensures ToEach(tasks, m, keys, tr) == ToEveryone(keys, tr)
  {
    hide A.Takes, A.Commanded;
    if keys != [] {
      assert forall i | 0 <= i < |keys[1..]| :: keys[1..][i] == keys[i + 1];
      NobodyRefuses(tasks, m, keys[1..], tr);
    }
  }

  lemma {:induction false} AllTake(s: Sched, m: TaskMap, tr: A.ActionTransition)
    requires Refers(m, s.tasks) && InRange(RefsOf(m), |s.tasks|) && TransitionAll(s, RefsOf(m), tr).Ok?
    ensures ToAll(s, m, tr) == ToEveryone(Ascending(m.Keys), tr)
  {
    T.AllOf(s, m, tr);
    MapListed(m, s.tasks);
    var keys := Ascending(m.Keys);
    forall i | 0 <= i < |keys|
      ensures keys[i] in m && A.Takes(s.tasks[m[keys[i]]].state, tr)
    {
      assert keys[i] in keys;
      A.TransitionExactly(s.tasks[m[keys[i]]].state, tr, 0);
    }
    hide TransitionAll, A.Takes, A.Next;
    NobodyRefuses(s.tasks, m, keys, tr);
  }

  /** A pause, resume or cancel that returns has reached every one of the tasks. */
  lemma ReturningReachesAll(s: Sched)
    requires Tidy(s)
    ensures WellFormed(s) && Refers(s.active, s.tasks) && Refers(s.running, s.tasks) && Refers(s.paused, s.tasks)
    ensures s.mode == Active && Apply(s, OpPause).Ok? ==>
              ToAll(s, s.running, A.DoPause) == ToEveryone(Ascending(s.running.Keys), A.DoPause)
    ensures s.mode == Paused && Apply(s, OpResume).Ok? ==>
              ToAll(s, s.paused, A.DoResume) == ToEveryone(Ascending(s.paused.Keys), A.DoResume)
    ensures (s.mode == Active || s.mode == Paused) && Apply(s, OpCancel).Ok? ==>
              ToAll(s, s.active, A.DoCancel) == ToEveryone(Ascending(s.active.Keys), A.DoCancel)
  {
    hide *;
    TidyParts(s);
    Formed(s);
    O.PauseIs(s);
    O.FinishIs(StatePause(s));
    O.PauseActiveIs(s);
    if TransitionAll(s, RefsOf(s.running), A.DoPause).Ok? {
      AllTake(s, s.running, A.DoPause);
    }
    O.ResumeIs(s);
    O.FinishIs(StateResume(s));
    O.ResumePausedIs(s);
    if TransitionAll(s, RefsOf(s.paused), A.DoResume).Ok? {
      AllTake(s, s.paused, A.DoResume);
    }
    O.CancelIs(s);
    O.FinishIs(StateCancel(s));
    O.CancelActiveIs(s);
    if TransitionAll(s, RefsOf(s.active), A.DoCancel).Ok? {
      AllTake(s, s.active, A.DoCancel);
    }
  }
}
