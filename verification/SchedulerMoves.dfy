/** Every call of the scheduler is a chain of a few kinds of small moves. An invariant of the moves
    therefore holds in every state the scheduler passes through, at every published event. */
module SchedulerMoves {
  import opened Vda
  import opened Events
  import A = ActionTasks
  import N = NavigationTasks
  import opened SchedulerModel
  import O = SchedulerOperations

  datatype Move =
    | MTask(r: nat, tr: A.ActionTransition)
    | MNav(navTr: N.NavTransition)
    | MUpdateTasks
    | MDropNavInt
    | MGroup
    | MStep
    | MPatch
    | MInstant
    | MClear(keepNav: bool)
    | MEnter(mode: Mode, notify: bool)
    | MCancelIdle // the one change of state that is not announced

  ghost predicate Enabled(s: Sched, m: Move)
  {
    && WellFormed(s)
    && match m
       case MTask(r, tr) => r < |s.tasks| && A.Next(s.tasks[r].state, tr).Some?
       case MNav(tr) => s.nav.Some? && N.Transfer(s.nav.value.state, tr, s.nav.value.goal.seqId).Some?
       case MUpdateTasks => true
       case MDropNavInt => true
       case MGroup => s.queue != [] && s.queue[0].Actions? && GroupReady(s, s.queue[0].group)
       case MStep => s.queue != [] && s.queue[0].Step? && StepReady(s)
       case MPatch => s.queue != [] && s.queue[0].Step?
       case MInstant => s.interrupts != [] && InstantReady(s)
       case MClear(_) => true
       case MEnter(mode, notify) => notify || mode == s.mode
       case MCancelIdle => s.mode == Idle
  }

  function Do(s: Sched, m: Move): (t: Sched)
    requires Enabled(s, m)
    ensures WellFormed(t)
  {
    match m
    case MTask(r, tr) => SetTask(s, r, A.Next(s.tasks[r].state, tr).value)
    case MNav(tr) => SetNav(s, N.Transfer(s.nav.value.state, tr, s.nav.value.goal.seqId).value)
    case MUpdateTasks => UpdateTasks(s)
    case MDropNavInt => DropNavInt(s)
    case MGroup => StartGroup(s)
    case MStep => StartStep(s)
    case MPatch => PatchSegment(s)
    case MInstant => StartInstant(s)
    case MClear(keepNav) => ClearQueues(s, keepNav)
    case MEnter(mode, notify) => Enter(s, mode, notify)
    case MCancelIdle => Enter(s, Canceling, false)
  }

  lemma StepEnabled(s: Sched)
    requires Enabled(s, MStep)
    ensures WellFormed(s) && s.queue != [] && s.queue[0].Step? && StepReady(s)
  {
    hide WellFormed, StepReady;
  }

  lemma GroupEnabled(s: Sched)
    requires Enabled(s, MGroup)
    ensures WellFormed(s) && s.queue != [] && s.queue[0].Actions? && GroupReady(s, s.queue[0].group)
  {
    hide WellFormed, GroupReady;
  }

  /** No task is started, and none comes back to life. */
  ghost predicate TasksStay(s: Sched, t: Sched)
  {
    && |t.tasks| == |s.tasks|
    && (forall r | 0 <= r < |s.tasks| :: t.tasks[r] == s.tasks[r].(state := t.tasks[r].state))
    && (forall r | 0 <= r < |s.tasks| && s.tasks[r].state.IsTerminal() :: t.tasks[r].state.IsTerminal())
  }

  lemma OneTaskStays(s: Sched, t: Sched, r: nat, tr: A.ActionTransition)
    requires r < |s.tasks| && A.Next(s.tasks[r].state, tr).Some?
    requires t.tasks == s.tasks[r := s.tasks[r].(state := A.Next(s.tasks[r].state, tr).value)]
    ensures TasksStay(s, t)
  {
    assert !s.tasks[r].state.IsTerminal();
    hide A.Next;
  }

  lemma TasksStayThemselves(s: Sched, t: Sched)
    requires t.tasks == s.tasks
    ensures TasksStay(s, t)
  {
  }

  /** The moves that start nothing leave the records, the blocking type and the staged items as they are. */
  lemma QuietMoves(s: Sched, m: Move)
    requires Enabled(s, m) && !m.MGroup? && !m.MInstant? && !m.MStep? && !m.MPatch?
    ensures var t := Do(s, m);
            && TasksStay(s, t) && t.hist == s.hist && t.blocking == s.blocking && t.staging == s.staging
            && (t.nav.Some? ==> s.nav.Some?)
            && (t.interrupts == s.interrupts || t.interrupts == [])
  {
    QuietFields(s, m);
    if m.MTask? {
      OneTaskStays(s, Do(s, m), m.r, m.tr);
    } else {
      QuietTasks(s, m);
      hide *;
      TasksStayThemselves(s, Do(s, m));
    }
  }

  lemma QuietFields(s: Sched, m: Move)
    requires Enabled(s, m) && !m.MGroup? && !m.MInstant? && !m.MStep? && !m.MPatch?
    ensures var t := Do(s, m);
            && t.hist == s.hist && t.blocking == s.blocking && t.staging == s.staging
            && (t.nav.Some? ==> s.nav.Some?)
            && (t.interrupts == s.interrupts || t.interrupts == [])
  {
    hide N.Effect, N.Transfer, A.Next, A.Effect, ForgetItems, ForgetGroups, StepsToStop, WellFormed, Keep;
  }

  lemma QuietTasks(s: Sched, m: Move)
    requires Enabled(s, m) && !m.MTask? && !m.MGroup? && !m.MInstant? && !m.MStep? && !m.MPatch?
    ensures Do(s, m).tasks == s.tasks
  {
    hide N.Effect, N.Transfer, ForgetItems, ForgetGroups, StepsToStop, WellFormed, Keep;
  }

  ghost predicate Legal(s: Sched, ms: seq<Move>)
    decreases |ms|
  {
    ms == [] || (Enabled(s, ms[0]) && Legal(Do(s, ms[0]), ms[1..]))
  }

  ghost function Play(s: Sched, ms: seq<Move>): Sched
    requires Legal(s, ms)
    decreases |ms|
  {
    if ms == [] then s else Play(Do(s, ms[0]), ms[1..])
  }

  /** A chain that leads from one state to another. */
  ghost predicate Path(s: Sched, ms: seq<Move>, t: Sched)
  {
    Legal(s, ms) && Play(s, ms) == t
  }

  lemma Join(s: Sched, a: seq<Move>, t: Sched, b: seq<Move>, u: Sched)
    requires Path(s, a, t) && Path(t, b, u)
    ensures Path(s, a + b, u)
    decreases |a|
  {
    if a == [] {
      assert a + b == b;
    } else {
      assert (a + b)[1..] == a[1..] + b;
      Join(Do(s, a[0]), a[1..], t, b, u);
    }
  }

  lemma One(s: Sched, m: Move)
    requires Enabled(s, m)
    ensures Path(s, [m], Do(s, m))
  {
    assert [m][1..] == [];
  }

  /** The chain may clear queues or change the state unannounced only where the call does, and it gives commands: the
      only reports in it are the one of the call. An update tells no task anything, and the navigation only to resume.
      */
  ghost predicate Within(op: Op, ms: seq<Move>)
  {
    && (forall m | m in ms && (m.MClear? || m.MCancelIdle?) :: op.OpCancel?)
    && (forall m | m in ms && m.MTask? :: !op.OpUpdate?)
    && (forall m | m in ms && m.MNav? && op.OpUpdate? :: m.navTr == N.DoResume)
    && (forall m | m in ms && m.MTask? && !A.IsCommand(m.tr) :: op.OpAction? && op.actionTransition == m.tr)
    && (forall m | m in ms && m.MNav? && !N.IsCommand(m.navTr) :: op == OpNavigation(m.navTr))
  }

  lemma PathTransitionAll(op: Op, s: Sched, refs: seq<nat>, tr: A.ActionTransition) returns (ms: seq<Move>)
    requires WellFormed(s) && InRange(refs, |s.tasks|) && A.IsCommand(tr) && !op.OpUpdate?
    ensures Path(s, ms, TransitionAll(s, refs, tr).s) && Within(op, ms)
    decreases |refs|
  {
    ms := [];
    if refs != [] {
      var first := TaskTransition(s, refs[0], tr);
      if first.Ok? {
        One(s, MTask(refs[0], tr));
        var rest := PathTransitionAll(op, first.s, refs[1..], tr);
        Join(s, [MTask(refs[0], tr)], first.s, rest, TransitionAll(first.s, refs[1..], tr).s);
        ms := [MTask(refs[0], tr)] + rest;
      }
    }
  }

  lemma PathNav(op: Op, s: Sched, tr: N.NavTransition) returns (ms: seq<Move>)
    requires WellFormed(s) && s.nav.Some?
    requires (N.IsCommand(tr) && (op.OpUpdate? ==> tr == N.DoResume)) || op == OpNavigation(tr)
    ensures Path(s, ms, NavTransition(s, tr).s) && Within(op, ms) && WellFormed(NavTransition(s, tr).s)
  {
    ms := [];
    if NavTransition(s, tr).Ok? {
      One(s, MNav(tr));
      ms := [MNav(tr)];
    }
  }

  lemma Nothing(op: Op, s: Sched)
    ensures Path(s, [], s) && Within(op, [])
  {
  }

  lemma NoMoves(op: Op, s: Sched) returns (ms: seq<Move>)
    ensures Path(s, ms, s) && Within(op, ms)
  {
    ms := [];
  }

  /** One move, neither a clearing nor a failure, and then the rest. */
  lemma Then(op: Op, s: Sched, m: Move, t: Sched, rest: seq<Move>, u: Sched) returns (ms: seq<Move>)
    requires Enabled(s, m) && Do(s, m) == t && Path(t, rest, u) && Within(op, rest)
    requires m.MGroup? || m.MPatch? || m.MStep?
    ensures Path(s, ms, u) && Within(op, ms)
  {
    One(s, m);
    Join(s, [m], t, rest, u);
    ms := [m] + rest;
    hide Path, Enabled, Do;
  }

  lemma GroupMove(s: Sched)
    requires WellFormed(s) && s.queue != [] && s.queue[0].Actions?
    requires s.active == map[] && (s.nav.None? || s.queue[0].group.ceiling == NONE)
    ensures Enabled(s, MGroup) && Do(s, MGroup) == StartGroup(s)
    ensures WellFormed(StartGroup(s)) && |StartGroup(s).queue| < |s.queue|
  {
    hide StartGroup, Refers;
  }

  lemma StepMove(s: Sched)
    requires WellFormed(s) && s.queue != [] && s.queue[0].Step?
    requires s.nav.None? && s.navInt == map[] && (s.active == map[] || s.blocking == NONE)
    ensures Enabled(s, MStep) && Do(s, MStep) == StartStep(s)
    ensures WellFormed(StartStep(s)) && |StartStep(s).queue| < |s.queue|
  {
    hide StartStep, Refers;
  }

  lemma PatchMove(s: Sched)
    requires WellFormed(s) && s.queue != [] && s.queue[0].Step?
    ensures Enabled(s, MPatch) && Do(s, MPatch) == PatchSegment(s)
  {
    hide PatchSegment, Refers;
  }

  lemma PathFetch(op: Op, s: Sched) returns (ms: seq<Move>)
    requires WellFormed(s)
    ensures Path(s, ms, Fetch(s)) && Within(op, ms)
    decreases |s.queue|
  {
    hide *;
    ms := [];
    Nothing(op, s);
    if s.queue == [] {
      O.FetchNothing(s);
    } else if s.queue[0].Actions? {
      O.FetchGroupIs(s);
      if s.active == map[] && (s.nav.None? || s.queue[0].group.ceiling == NONE) {
        GroupMove(s);
        var rest := PathFetch(op, StartGroup(s));
        ms := Then(op, s, MGroup, StartGroup(s), rest, Fetch(s));
      }
    } else {
      O.FetchStepIs(s);
      if s.nav.Some? {
        PatchMove(s);
        var rest := NoMoves(op, PatchSegment(s));
        ms := Then(op, s, MPatch, PatchSegment(s), rest, Fetch(s));
      } else if s.navInt == map[] && (s.active == map[] || s.blocking == NONE) {
        StepMove(s);
        var rest := PathFetch(op, StartStep(s));
        ms := Then(op, s, MStep, StartStep(s), rest, Fetch(s));
      }
    }
  }

  lemma JoinWithin(op: Op, s: Sched, a: seq<Move>, t: Sched, b: seq<Move>, u: Sched)
    requires Path(s, a, t) && Path(t, b, u) && Within(op, a) && Within(op, b)
    ensures Path(s, a + b, u) && Within(op, a + b)
  {
    Join(s, a, t, b, u);
    hide Path;
  }

  lemma PathUpdateAndDrop(op: Op, s: Sched)
    requires WellFormed(s)
    ensures Path(s, [MUpdateTasks, MDropNavInt], DropNavInt(UpdateTasks(s)))
    ensures Within(op, [MUpdateTasks, MDropNavInt])
  {
    var t := UpdateTasks(s);
    One(s, MUpdateTasks);
    One(t, MDropNavInt);
    hide UpdateTasks, DropNavInt, Path;
    Join(s, [MUpdateTasks], t, [MDropNavInt], DropNavInt(t));
    assert [MUpdateTasks] + [MDropNavInt] == [MUpdateTasks, MDropNavInt];
  }

  lemma PathRefresh(op: Op, s: Sched) returns (ms: seq<Move>)
    requires WellFormed(s)
    ensures Path(s, ms, Refresh(s).s) && Within(op, ms) && [MUpdateTasks] <= ms
  {
    var t := UpdateTasks(s);
    var u := DropNavInt(t);
    PathUpdateAndDrop(op, s);
    ms := [MUpdateTasks, MDropNavInt];
    if u.navInt != t.navInt && u.navInt == map[] && u.nav.Some? {
      var rest := PathNav(op, u, N.DoResume);
      assert Refresh(s).s == NavTransition(u, N.DoResume).s;
      hide *;
      JoinWithin(op, s, ms, u, rest, NavTransition(u, N.DoResume).s);
      ms := ms + rest;
    } else {
      assert Refresh(s).s == u;
      hide *;
    }
  }

  lemma PathThenEnter(op: Op, s: Sched, a: seq<Move>, t: Sched, mode: Mode, notify: bool) returns (ms: seq<Move>)
    requires Path(s, a, t) && WellFormed(t) && Within(op, a)
    requires notify || mode == t.mode
    ensures Path(s, ms, Enter(t, mode, notify)) && Within(op, ms) && a <= ms
  {
    One(t, MEnter(mode, notify));
    Join(s, a, t, [MEnter(mode, notify)], Enter(t, mode, notify));
    ms := a + [MEnter(mode, notify)];
  }

  /** updateTasks, updateTasksInterruptMapping and, unless that throws, updateFetchNext. */
  lemma PathRefreshFetch(op: Op, s: Sched) returns (ms: seq<Move>)
    requires WellFormed(s)
    ensures Path(s, ms, if Refresh(s).Throw? then Refresh(s).s else Fetch(Refresh(s).s)) && Within(op, ms)
    ensures [MUpdateTasks] <= ms
  {
    ms := PathRefresh(op, s);
    if Refresh(s).Ok? {
      var rest := PathFetch(op, Refresh(s).s);
      Join(s, ms, Refresh(s).s, rest, Fetch(Refresh(s).s));
      ms := ms + rest;
    }
  }

  lemma PathUpdateIdle(op: Op, s: Sched) returns (ms: seq<Move>)
    requires WellFormed(s) && s.mode == Idle
    ensures Path(s, ms, UpdateIdle(s).0.s) && Within(op, ms)
  {
    ms := PathFetch(op, s);
    FetchKeepsMode(s);
    var t := Fetch(s);
    var active := t.nav.Some? || t.active != map[];
    ms := PathThenEnter(op, s, ms, t, if active then Active else Idle, active);
  }

  lemma {:induction false} FetchKeepsMode(s: Sched)
    ensures Fetch(s).mode == s.mode
    decreases |s.queue|
  {
    if s.queue != [] && s.queue[0].Actions? {
      FetchKeepsMode(StartGroup(s));
    } else if s.queue != [] {
      FetchKeepsMode(StartStep(s));
    }
  }

  lemma RefreshKeepsMode(s: Sched)
    requires WellFormed(s)
    ensures Refresh(s).s.mode == s.mode
  {
  }

  lemma PathUpdateActive(op: Op, s: Sched) returns (ms: seq<Move>)
    requires WellFormed(s) && s.mode == Active
    ensures Path(s, ms, UpdateActive(s).0.s) && Within(op, ms) && [MUpdateTasks] <= ms
  {
    ms := PathRefreshFetch(op, s);
    RefreshKeepsMode(s);
    if Refresh(s).Ok? {
      var t := Fetch(Refresh(s).s);
      FetchKeepsMode(Refresh(s).s);
      var idle := t.active == map[] && (t.nav.None? || t.nav.value.state.IsTerminal());
      ms := PathThenEnter(op, s, ms, t, if idle then Idle else Active, idle);
    }
  }

  lemma PathUpdateCanceling(op: Op, s: Sched) returns (ms: seq<Move>)
    requires WellFormed(s) && s.mode == Canceling
    ensures Path(s, ms, UpdateCanceling(s).0.s) && Within(op, ms) && [MUpdateTasks] <= ms
  {
    ms := PathRefreshFetch(op, s);
    RefreshKeepsMode(s);
    if Refresh(s).Ok? {
      var t := Fetch(Refresh(s).s);
      FetchKeepsMode(Refresh(s).s);
      var idle := t.active == map[] && t.nav.None?;
      ms := PathThenEnter(op, s, ms, t, if idle then Idle else Canceling, idle);
    }
  }

  lemma PathUpdateResuming(op: Op, s: Sched) returns (ms: seq<Move>)
    requires WellFormed(s) && s.mode == Resuming
    ensures Path(s, ms, UpdateResuming(s).0.s) && Within(op, ms) && [MUpdateTasks] <= ms
  {
    ms := PathRefresh(op, s);
    RefreshKeepsMode(s);
    if Refresh(s).Ok? {
      var t := Refresh(s).s;
      var wait := t.paused != map[] || (t.nav.Some? && t.nav.value.state.IsPaused());
      ms := PathThenEnter(op, s, ms, t, if wait then Resuming else Active, !wait);
    }
  }

  lemma PathUpdatePausing(op: Op, s: Sched) returns (ms: seq<Move>)
    requires WellFormed(s) && s.mode == Pausing
    ensures Path(s, ms, UpdatePausing(s).0.s) && Within(op, ms) && [MUpdateTasks] <= ms
  {
    ms := PathRefresh(op, s);
    RefreshKeepsMode(s);
    if Refresh(s).Ok? {
      var t := Refresh(s).s;
      var wait := t.running != map[] || (t.nav.Some? && !t.nav.value.state.IsPaused());
      ms := PathThenEnter(op, s, ms, t, if wait then Pausing else Paused, !wait);
    }
  }

  lemma PathUpdatePaused(op: Op, s: Sched) returns (ms: seq<Move>)
    requires WellFormed(s) && s.mode == Paused
    ensures Path(s, ms, UpdatePaused(s).0.s) && Within(op, ms) && [MUpdateTasks] <= ms
  {
    ms := PathRefresh(op, s);
    RefreshKeepsMode(s);
    if Refresh(s).Ok? {
      ms := PathThenEnter(op, s, ms, Refresh(s).s, Paused, false);
    }
  }

  lemma PathUpdateInterrupting(op: Op, s: Sched) returns (ms: seq<Move>)
    requires WellFormed(s) && s.mode == Interrupting
    ensures Path(s, ms, UpdateInterrupting(s).0.s) && Within(op, ms) && [MUpdateTasks] <= ms
  {
    var t := UpdateTasks(s);
    One(s, MUpdateTasks);
    ms := [MUpdateTasks];
    var u := FetchInterrupt(t);
    if t.interrupts != [] && InstantReady(t) {
      One(t, MInstant);
      Join(s, ms, t, [MInstant], u);
      ms := ms + [MInstant];
    }
    var done := u.interrupts == [];
    ms := PathThenEnter(op, s, ms, u, if done then Active else Interrupting, done);
  }

  lemma PathStay(op: Op, s: Sched) returns (ms: seq<Move>)
    requires WellFormed(s)
    ensures Path(s, ms, Enter(s, s.mode, false)) && Within(op, ms)
  {
    One(s, MEnter(s.mode, false));
    ms := [MEnter(s.mode, false)];
  }

  lemma PathStateUpdate(op: Op, s: Sched) returns (ms: seq<Move>)
    requires WellFormed(s)
    ensures Path(s, ms, StateUpdate(s).0.s) && Within(op, ms)
    ensures s.mode !in {Idle, IdlePaused, Failed} ==> [MUpdateTasks] <= ms
  {
    match s.mode
    case Idle => ms := PathUpdateIdle(op, s);
    case IdlePaused => ms := PathStay(op, s);
    case Active => ms := PathUpdateActive(op, s);
    case Canceling => ms := PathUpdateCanceling(op, s);
    case Resuming => ms := PathUpdateResuming(op, s);
    case Pausing => ms := PathUpdatePausing(op, s);
    case Paused => ms := PathUpdatePaused(op, s);
    case Failed => ms := PathStay(op, s);
    case Interrupting => ms := PathUpdateInterrupting(op, s);
  }

  lemma PathUpdate(op: Op, s: Sched) returns (ms: seq<Move>)
    requires WellFormed(s)
    ensures Path(s, ms, Update(s).s) && Within(op, ms)
    ensures s.mode !in {Idle, IdlePaused, Failed} ==> [MUpdateTasks] <= ms
    decreases if s.mode == Resuming then 1 else 0
  {
    var r := StateUpdate(s);
    ms := PathStateUpdate(op, s);
    if r.0.Ok? && r.1 {
      var rest := PathUpdate(op, r.0.s);
      Join(s, ms, r.0.s, rest, Update(r.0.s).s);
      ms := ms + rest;
    }
  }

  lemma PathFinish(op: Op, s: Sched, a: seq<Move>, r: StateResult) returns (ms: seq<Move>)
    requires WellFormed(r.0.s) && Path(s, a, r.0.s) && Within(op, a)
    ensures Path(s, ms, Finish(r).s) && Within(op, ms)
  {
    ms := a;
    if r.0.Ok? && r.1 {
      var rest := PathUpdate(op, r.0.s);
      Join(s, ms, r.0.s, rest, Update(r.0.s).s);
      ms := ms + rest;
    }
  }

  lemma WithinBoth(op: Op, a: seq<Move>, b: seq<Move>)
    requires Within(op, a) && Within(op, b)
    ensures Within(op, a + b)
  {
  }

  lemma {:induction false} TransitionsFormed(s: Sched, refs: seq<nat>, tr: A.ActionTransition)
    requires WellFormed(s) && InRange(refs, |s.tasks|)
    ensures WellFormed(TransitionAll(s, refs, tr).s)
  {
    hide WellFormed, TransitionAll;
  }

  lemma ClearMove(s: Sched)
    requires WellFormed(s)
    ensures Path(s, [MClear(true)], ClearQueues(s, true)) && WellFormed(ClearQueues(s, true))
    ensures Within(OpCancel, [MClear(true)])
  {
    One(s, MClear(true));
    O.ClearIs(s, true);
    hide ClearQueues, Path, Refers;
  }

  lemma PathCancelActive(s: Sched) returns (ms: seq<Move>)
    requires WellFormed(s)
    ensures Path(s, ms, CancelActive(s).0.s) && Within(OpCancel, ms)
  {
    assert A.IsCommand(A.DoCancel) && N.IsCommand(N.DoCancel);
    hide *;
    var op := OpCancel;
    O.CancelActiveIs(s);
    ms := PathTransitionAll(op, s, RefsOf(s.active), A.DoCancel);
    var o := TransitionAll(s, RefsOf(s.active), A.DoCancel);
    if o.Ok? {
      var t := o.s;
      var stop := t.nav.Some? && !t.nav.value.state.IsPaused() && !t.nav.value.state.IsTerminal();
      var nav := if stop then NavTransition(t, N.DoCancel) else Ok(t);
      TransitionsFormed(s, RefsOf(s.active), A.DoCancel);
      if stop {
        var rest := PathNav(op, t, N.DoCancel);
        Join(s, ms, t, rest, nav.s);
        WithinBoth(op, ms, rest);
        ms := ms + rest;
      }
      if nav.Ok? {
        ClearMove(nav.s);
        Join(s, ms, nav.s, [MClear(true)], ClearQueues(nav.s, true));
        WithinBoth(op, ms, [MClear(true)]);
        ms := PathThenEnter(op, s, ms + [MClear(true)], ClearQueues(nav.s, true), Canceling, true);
      }
    }
  }

  lemma PathTasksThenNav(op: Op, s: Sched, refs: seq<nat>, tr: A.ActionTransition, navTr: N.NavTransition, mode: Mode)
    returns (ms: seq<Move>)
    requires WellFormed(s) && InRange(refs, |s.tasks|) && A.IsCommand(tr) && N.IsCommand(navTr) && !op.OpUpdate?
    ensures var tasks := TransitionAll(s, refs, tr);
            var nav := if tasks.Ok? && tasks.s.nav.Some? then NavTransition(tasks.s, navTr) else tasks;
            Path(s, ms, if nav.Throw? then nav.s else Enter(nav.s, mode, true))
    ensures Within(op, ms)
  {
    hide *;
    var tasks := TransitionAll(s, refs, tr);
    ms := PathTransitionAll(op, s, refs, tr);
    if tasks.Ok? {
      var nav := tasks;
      if tasks.s.nav.Some? {
        nav := NavTransition(tasks.s, navTr);
        var rest := PathNav(op, tasks.s, navTr);
        JoinWithin(op, s, ms, tasks.s, rest, nav.s);
        ms := ms + rest;
      }
      if nav.Ok? {
        ms := PathThenEnter(op, s, ms, nav.s, mode, true);
      }
    }
  }

  lemma NothingWithin(op: Op, s: Sched)
    ensures Path(s, [], s) && Within(op, [])
  {
  }

  lemma PathDoInterrupt(op: Op, s: Sched) returns (ms: seq<Move>)
    requires WellFormed(s) && op.OpInterrupt?
    ensures Path(s, ms, DoInterrupt(s).s) && Within(op, ms)
  {
    ms := [];
    NothingWithin(op, s);
    if s.interrupts == [] {
      assert DoInterrupt(s).s == s;
    } else {
      var ceiling := s.interrupts[0].ceiling;
      var nav := if ceiling != NONE && s.nav.Some? then NavTransition(s, N.DoPause) else Ok(s);
      if ceiling != NONE && s.nav.Some? {
        ms := PathNav(op, s, N.DoPause);
      }
      if nav.Ok? {
        RefsInRange(s.active, s.tasks);
        var refs := ConflictingRefs(RefsOf(s.active), s.tasks, ceiling);
        assert nav.s.tasks == s.tasks && WellFormed(nav.s);
        assert DoInterrupt(s).s == TransitionAll(nav.s, refs, A.DoCancel).s;
        hide *;
        var rest := PathTransitionAll(op, nav.s, refs, A.DoCancel);
        JoinWithin(op, s, ms, nav.s, rest, TransitionAll(nav.s, refs, A.DoCancel).s);
        ms := ms + rest;
      } else {
        assert DoInterrupt(s).s == nav.s;
        hide *;
      }
    }
  }

  lemma PathStateInterrupt(op: Op, s: Sched) returns (ms: seq<Move>)
    requires WellFormed(s) && op.OpInterrupt?
    ensures Path(s, ms, StateInterrupt(s).0.s) && Within(op, ms)
  {
    ms := [];
    if s.mode == Idle || s.mode == Active {
      ms := PathDoInterrupt(op, s);
      if DoInterrupt(s).Ok? {
        ms := PathThenEnter(op, s, ms, DoInterrupt(s).s, Interrupting, true);
      }
    }
  }

  /** What a call hands over before anything else happens. */
  function Accept(s: Sched, op: Op): (t: Sched)
    ensures WellFormed(s) ==> WellFormed(t)
  {
    match op
    case OpInterrupt(g) => s.(interrupts := s.interrupts + [g])
    case OpEnqueue(item) => s.(staging := s.staging + [item])
    case OpCommit => s.(queue := s.queue + s.staging, staging := [])
    case _ => s
  }

  /** The last call of a run. */
  lemma {:induction false} RunLast(ops: seq<Op>)
    requires ops != []
    ensures var s := Run(ops[..|ops| - 1]); WellFormed(s) && Run(ops) == Apply(s, ops[|ops| - 1]).s
  {
    hide Apply, WellFormed;
  }

  lemma PathCancel(s: Sched) returns (ms: seq<Move>)
    requires WellFormed(s)
    ensures Path(s, ms, Apply(s, OpCancel).s) && Within(OpCancel, ms)
  {
    ms := [];
    if s.mode == Idle {
      One(s, MCancelIdle);
      ms := [MCancelIdle];
    } else if s.mode == IdlePaused {
      One(s, MClear(false));
      ms := [MClear(false)];
    } else if s.mode == Active || s.mode == Paused {
      ms := PathCancelActive(s);
    }
    ms := PathFinish(OpCancel, s, ms, StateCancel(s));
  }

  lemma PathPause(s: Sched) returns (ms: seq<Move>)
    requires WellFormed(s)
    ensures Path(s, ms, Apply(s, OpPause).s) && Within(OpPause, ms)
  {
    ms := [];
    if s.mode == Idle {
      ms := PathThenEnter(OpPause, s, [], s, IdlePaused, true);
    } else if s.mode == Active {
      RefsInRange(s.running, s.tasks);
      ms := PathTasksThenNav(OpPause, s, RefsOf(s.running), A.DoPause, N.DoPause, Pausing);
    }
    ms := PathFinish(OpPause, s, ms, StatePause(s));
  }

  lemma PathResume(s: Sched) returns (ms: seq<Move>)
    requires WellFormed(s)
    ensures Path(s, ms, Apply(s, OpResume).s) && Within(OpResume, ms)
  {
    ms := [];
    if s.mode == IdlePaused {
      ms := PathThenEnter(OpResume, s, [], s, Idle, true);
    } else if s.mode == Paused {
      RefsInRange(s.paused, s.tasks);
      ms := PathTasksThenNav(OpResume, s, RefsOf(s.paused), A.DoResume, N.DoResume, Resuming);
    }
    ms := PathFinish(OpResume, s, ms, StateResume(s));
  }

  lemma PathAction(op: Op, s: Sched) returns (ms: seq<Move>)
    requires WellFormed(s) && op.OpAction?
    ensures Path(s, ms, Apply(s, op).s) && Within(op, ms)
  {
    ms := [];
    if op.id in s.active {
      var r, tr := s.active[op.id], op.actionTransition;
      var o := TaskTransition(s, r, tr);
      if o.Ok? {
        One(s, MTask(r, tr));
        var rest := PathUpdate(op, o.s);
        Join(s, [MTask(r, tr)], o.s, rest, Update(o.s).s);
        ms := [MTask(r, tr)] + rest;
      }
    }
  }

  lemma PathNavigation(op: Op, s: Sched) returns (ms: seq<Move>)
    requires WellFormed(s) && op.OpNavigation?
    ensures Path(s, ms, Apply(s, op).s) && Within(op, ms)
  {
    ms := [];
    if s.nav.Some? {
      ms := PathNav(op, s, op.navTransition);
      var o := NavTransition(s, op.navTransition);
      if o.Ok? {
        var rest := PathUpdate(op, o.s);
        Join(s, ms, o.s, rest, Update(o.s).s);
        ms := ms + rest;
      }
    }
  }

  lemma PathInterrupt(op: Op, s: Sched) returns (ms: seq<Move>)
    requires WellFormed(s) && op.OpInterrupt?
    ensures Path(Accept(s, op), ms, Apply(s, op).s) && Within(op, ms)
  {
    var t := Accept(s, op);
    ms := PathStateInterrupt(op, t);
    ms := PathFinish(op, t, ms, StateInterrupt(t));
  }

  /** Every call, whether it returns or throws, is its hand-over followed by a chain of moves. */
  lemma PathApply(s: Sched, op: Op) returns (ms: seq<Move>)
    requires WellFormed(s)
    ensures Path(Accept(s, op), ms, Apply(s, op).s) && Within(op, ms)
  {
    match op
    case OpCancel => ms := PathCancel(s);
    case OpPause => ms := PathPause(s);
    case OpResume => ms := PathResume(s);
    case OpUpdate => ms := PathUpdate(op, s);
    case OpAction(_, _) => ms := PathAction(op, s);
    case OpNavigation(_) => ms := PathNavigation(op, s);
    case OpInterrupt(_) => ms := PathInterrupt(op, s);
    case OpEnqueue(_) => ms := [];
    case OpCommit => ms := PathUpdate(op, Accept(s, op));
  }
}
