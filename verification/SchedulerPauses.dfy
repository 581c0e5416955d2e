/** What a paused scheduler has been told by the actions and the vehicle, and a resumed one. */
module SchedulerPauses {
  import opened Vda
  import opened Events
  import A = ActionTasks
  import N = NavigationTasks
  import opened ActionDialogue
  import ND = NavigationDialogue
  import opened SchedulerModel
  import O = SchedulerOperations
  import opened SchedulerMoves
  import opened SchedulerAccounts
  import opened SchedulerOwnership
  import opened SchedulerIdle
  import opened SchedulerTidy
  import opened SchedulerDialogue
  import opened SchedulerReported

  // Tasks in a pause ////////////////////////////////////////////////////////////////////////////

  /** The pause flag of a task means that its last report, and its last status, is that it is paused. */
  lemma {:induction false} PausedTold(st: A.ActionState, id: ActionId, heard: seq<A.ActionTransition>, said: seq<Event>)
    requires Told(st, id, heard, said)
    ensures st.IsPaused() ==>
              && heard != [] && heard[|heard| - 1] == A.IsPaused && ActionCancel(id) !in said
              && StatusOf(said, id) == Some(ActionStatusChanged(id, PAUSED, None))
    ensures !st.IsPaused() && heard != [] && heard[|heard| - 1] == A.IsPaused ==> ActionCancel(id) in said
  {
    assert said[|said| - 1] in said;
    hide Spoken, StatusOf, Reports;
  }

  /** An action in the paused map was last published as PAUSED. */
  ghost predicate PausedSaid(s: Sched, id: ActionId)
  {
    id in s.paused ==> StatusOf(s.out, id) == Some(ActionStatusChanged(id, PAUSED, None))
  }

  lemma {:induction false} StatusKept(a: seq<Event>, b: seq<Event>, id: ActionId)
    requires forall e | e in b :: !(e.ActionStatusChanged? && e.id == id)
    ensures StatusOf(a + b, id) == StatusOf(a, id)
  {
    if b == [] {
      assert a + b == a;
    } else {
      var init, last := b[..|b| - 1], b[|b| - 1];
      assert (a + b)[..|a + b| - 1] == a + init && last in b;
      assert forall e | e in init :: e in b;
      StatusKept(a, init, id);
    }
  }

  lemma {:induction false} SamePausedSaid(s: Sched, t: Sched, id: ActionId)
    requires PausedSaid(s, id) && t.paused == s.paused && StatusOf(t.out, id) == StatusOf(s.out, id)
    ensures PausedSaid(t, id)
  {
    hide StatusOf;
  }

  lemma CommandPausedSaid(s: Sched, r: nat, tr: A.ActionTransition, id: ActionId)
    requires Enabled(s, MTask(r, tr)) && PausedSaid(s, id) && A.IsCommand(tr)
    ensures PausedSaid(Do(s, MTask(r, tr)), id)
  {
    TaskMoveIs(s, r, tr);
    var owner := s.tasks[r].action.id;
    assert forall e | e in A.Announced(tr, owner) :: !e.ActionStatusChanged?;
    hide Do, Enabled, A.Announced, A.Next, StatusOf, A.IsCommand, A.Takes;
    StatusKept(s.out, A.Announced(tr, owner), id);
    SamePausedSaid(s, Do(s, MTask(r, tr)), id);
  }

  lemma {:induction false} StartStatus(s: Sched, a: Action, batch: nat, instant: bool, id: ActionId)
    requires a.id != id
    ensures StatusOf(StartAction(s, a, batch, instant).out, id) == StatusOf(s.out, id)
    ensures StartAction(s, a, batch, instant).paused == s.paused
  {
    A.TransitionExactly(A.ActionWaiting, A.DoStart, a.id);
    hide A.Effect, StatusOf;
    StatusKept(s.out, A.Announced(A.DoStart, a.id), id);
  }

  lemma {:induction false} StartAllStatus(s: Sched, actions: seq<Action>, batch: nat, instant: bool, id: ActionId)
    requires InActions(actions, id) == 0
    ensures StatusOf(StartAll(s, actions, batch, instant).out, id) == StatusOf(s.out, id)
    ensures StartAll(s, actions, batch, instant).paused == s.paused
    decreases |actions|
  {
    hide StatusOf, StartAction;
    if actions != [] {
      InActionsSplit(actions, id);
      StartStatus(s, actions[0], batch, instant, id);
      StartAllStatus(StartAction(s, actions[0], batch, instant), actions[1..], batch, instant, id);
    }
  }

  lemma {:induction false} PausedInStore(s: Sched, id: ActionId)
    requires WellFormed(s) && id in s.paused
    ensures InStore(s.tasks, id) >= 1
  {
    InStoreAt(s.tasks, s.paused[id]);
  }

  lemma StartsPausedSaid(s: Sched, m: Move, id: ActionId)
    requires Enabled(s, m) && (m.MGroup? || m.MInstant?) && Distinct(s) && PausedSaid(s, id)
    ensures PausedSaid(Do(s, m), id)
  {
    if id in s.paused {
      PausedInStore(s, id);
      if m.MGroup? {
        GroupEnabled(s);
        GroupFresh(s);
        O.GroupIs(s);
        var g := s.queue[0].group;
        hide StartAll, StartGroup, InStore, InActions, StatusOf, Distinct, GroupReady, Refers;
        assert InStore(s.tasks, id) + InActions(g.actions, id) <= 1;
        StartAllStatus(s.(segment := None, blocking := g.ceiling, queue := s.queue[1..],
                          hist := s.hist + [GroupStarted(g, false, s.tasks, s.nav)]), g.actions, |s.hist|, false, id);
      } else {
        InstantFresh(s);
        O.InstantIs(s);
        var g := s.interrupts[0];
        hide StartAll, StartInstant, InStore, InActions, StatusOf, Distinct, InstantReady, Refers;
        assert InStore(s.tasks, id) + InActions(g.actions, id) <= 1;
        StartAllStatus(s.(blocking := g.ceiling, interrupts := s.interrupts[1..],
                          hist := s.hist + [GroupStarted(g, true, s.tasks, s.nav)]), g.actions, |s.hist|, true, id);
      }
    } else {
      StartsKeepPaused(s, m);
      hide Do, Enabled, Distinct;
    }
  }

  lemma StartsKeepPaused(s: Sched, m: Move)
    requires Enabled(s, m) && (m.MGroup? || m.MInstant?)
    ensures Do(s, m).paused == s.paused
  {
    hide StartAll, WellFormed, GroupReady, InstantReady;
  }

  lemma NothingPausedSaid(s: Sched, t: Sched, id: ActionId)
    requires PausedSaid(s, id) && SaysNothing(s, t) && t.paused == s.paused
    ensures PausedSaid(t, id)
  {
    var b :| t.out == s.out + b && Unsaid(b);
    assert forall e | e in b :: !e.ActionStatusChanged?;
    hide StatusOf, Untold;
    StatusKept(s.out, b, id);
  }

  lemma NavPausedSaid(s: Sched, tr: N.NavTransition, id: ActionId)
    requires Enabled(s, MNav(tr)) && PausedSaid(s, id)
    ensures PausedSaid(Do(s, MNav(tr)), id)
  {
    var n := s.nav.value.(state := N.Transfer(s.nav.value.state, tr, s.nav.value.goal.seqId).value);
    assert forall e | e in N.Effect(n) :: !e.ActionStatusChanged?;
    hide StatusOf, N.Transfer, N.Effect, Refers;
    StatusKept(s.out, N.Effect(n), id);
  }

  /** Sorting the tasks anew leaves in the paused map only actions that were last published as PAUSED. */
  lemma UpdatePausedSaid(s: Sched, id: ActionId, heard: seq<A.ActionTransition>)
    requires Owned(s) && Knows(s, id, heard) && Enabled(s, MUpdateTasks)
    ensures PausedSaid(Do(s, MUpdateTasks), id)
  {
    var t := Do(s, MUpdateTasks);
    assert t == UpdateTasks(s) by { hide UpdateTasks; }
    UpdateTasksSplits(s);
    UpdateTasksOwned(s);
    OthersSayNothing(s, MUpdateTasks);
    OwnedFormed(t);
    hide *;
    KnowsAfterNothing(s, t, id, heard);
    PausedKnown(t, id, heard);
  }

  lemma OwnedFormed(t: Sched)
    requires Owned(t)
    ensures WellFormed(t)
  {
    hide WellFormed, Partition, LiveActive, InstantsKnown;
  }

  lemma PausedKnown(t: Sched, id: ActionId, heard: seq<A.ActionTransition>)
    requires WellFormed(t) && Knows(t, id, heard)
    requires forall k | k in t.paused :: t.tasks[t.paused[k]].state.IsPaused()
    ensures PausedSaid(t, id)
  {
    if id in t.paused {
      var r := t.paused[id];
      KnowsAt(t, id, heard, r);
      PausedTold(t.tasks[r].state, id, heard, Said(t.out, id));
      StatusSaid(t.out, id);
    }
    hide StatusOf, Told, Knows, Said;
  }

  lemma MovePausedSaid(s: Sched, m: Move, id: ActionId, heard: seq<A.ActionTransition>)
    requires Enabled(s, m) && Owned(s) && Distinct(s) && Knows(s, id, heard) && (m.MTask? ==> A.IsCommand(m.tr))
    requires m.MUpdateTasks? || PausedSaid(s, id)
    ensures PausedSaid(Do(s, m), id)
  {
    hide *;
    match m
    case MTask(r, tr) => CommandPausedSaid(s, r, tr, id);
    case MNav(tr) => NavPausedSaid(s, tr, id);
    case MUpdateTasks => UpdatePausedSaid(s, id, heard);
    case MDropNavInt => DropPausedSaid(s, id);
    case MGroup => StartsPausedSaid(s, m, id);
    case MInstant => StartsPausedSaid(s, m, id);
    case _ =>
      OthersSayNothing(s, m);
      OtherMoves(s, m);
      SameMapsPaused(s, Do(s, m));
      NothingPausedSaid(s, Do(s, m), id);
  }

  lemma SameMapsPaused(s: Sched, t: Sched)
    requires SameMaps(s, t)
    ensures t.paused == s.paused
  {
  }

  lemma DropPausedSaid(s: Sched, id: ActionId)
    requires Enabled(s, MDropNavInt) && PausedSaid(s, id)
    ensures PausedSaid(Do(s, MDropNavInt), id)
  {
    hide StatusOf, Keep, Refers;
  }

  lemma {:induction false} PathPausedSaid(s: Sched, ms: seq<Move>, t: Sched, id: ActionId,
                                          heard: seq<A.ActionTransition>)
    requires Path(s, ms, t) && Owned(s) && Distinct(s) && Knows(s, id, heard) && OnlyCommands(ms)
    requires PausedSaid(s, id) || [MUpdateTasks] <= ms
    ensures PausedSaid(t, id)
    decreases |ms|
  {
    hide Owned, Distinct, Knows, OnlyCommands, Enabled, Do, PausedSaid;
    if ms != [] {
      CommandsFirst(ms);
      MoveOwned(s, ms[0]);
      MoveDistinct(s, ms[0]);
      MoveKnows(s, ms[0], id, heard);
      MovePausedSaid(s, ms[0], id, heard);
      PathPausedSaid(Do(s, ms[0]), ms[1..], t, id, heard);
    }
  }

  lemma NothingPaused(id: ActionId)
    ensures PausedSaid(Run([]), id)
  {
  }

  lemma AcceptPausedSaid(s: Sched, op: Op, id: ActionId)
    requires PausedSaid(s, id)
    ensures PausedSaid(Accept(s, op), id)
  {
    hide StatusOf;
  }

  lemma UpdatingMode(s: Sched, id: ActionId)
    requires Tidy(s) && id in s.active
    ensures s.mode !in {Idle, IdlePaused, Failed}
  {
    TidyParts(s);
    hide Settled, Tidy;
  }

  lemma TaskMoveMode(s: Sched, r: nat, tr: A.ActionTransition)
    requires Enabled(s, MTask(r, tr))
    ensures Do(s, MTask(r, tr)).mode == s.mode
  {
    TaskMoveIs(s, r, tr);
    hide Do, Enabled;
  }

  /** In every run with unique ids, each action in the paused map was last published as PAUSED. */
  lemma {:induction false} RunPausedSaid(ops: seq<Op>, id: ActionId)
    requires UniqueIds(ops)
    ensures PausedSaid(Run(ops), id)
  {
    hide *;
    if ops == [] {
      NothingPaused(id);
    } else {
      var before, op := ops[..|ops| - 1], ops[|ops| - 1];
      var s := Run(before);
      PrefixUnique(ops);
      RunPausedSaid(before, id);
      RunKnows(before, id);
      RunLast(ops);
      LastCall(ops);
      AcceptKnows(s, op, id, Heard(before, id));
      AcceptPausedSaid(s, op, id);
      if op.OpAction? {
        ActionFormed(s, op);
        if Taken(s, op) {
          ReportPausedSaid(before, op, id);
        } else {
          Refused(s, op);
        }
      } else {
        var ms := PathApply(s, op);
        WithinCommands(op, ms);
        PathPausedSaid(Accept(s, op), ms, Run(ops), id, Heard(before, id));
      }
    }
  }

  lemma {:induction false} ReportPausedSaid(before: seq<Op>, op: Op, id: ActionId)
    requires op.OpAction? && WellFormed(Run(before)) && Taken(Run(before), op)
    requires Owned(Run(before)) && Distinct(Run(before)) && Knows(Run(before), id, Heard(before, id))
    ensures PausedSaid(Apply(Run(before), op).s, id)
  {
    hide *;
    var s, tr := Run(before), op.actionTransition;
    assert op == OpAction(op.id, tr);
    TakenExactly(s, op.id, tr);
    RunTidy(before);
    UpdatingMode(s, op.id);
    var m := MTask(s.active[op.id], tr);
    var t := Do(s, m);
    TaskMoveMode(s, s.active[op.id], tr);
    MoveOwned(s, m);
    MoveDistinct(s, m);
    SingleStore(s, op.id);
    var more := if op.id == id && A.IsReport(tr) then Heard(before, id) + [tr] else Heard(before, id);
    if op.id == id {
      OwnTaskKnows(s, s.active[op.id], tr, Heard(before, id));
    } else {
      OtherTaskKnows(s, s.active[op.id], tr, id, Heard(before, id));
    }
    var ms := PathUpdate(OpUpdate, t);
    WithinCommands(OpUpdate, ms);
    PathPausedSaid(t, ms, Update(t).s, id, more);
  }

  // Completing a pause //////////////////////////////////////////////////////////////////////////

  /** A call that changes the state of a pausing or resuming scheduler is an update, after a report that is taken or a
      commit. */
  lemma UpdatesFrom(ops: seq<Op>) returns (u: Sched)
    requires UniqueIds(ops) && ops != [] && Run(ops[..|ops| - 1]).mode in {Pausing, Resuming}
    requires Run(ops).mode != Run(ops[..|ops| - 1]).mode
    ensures Owned(u) && WellFormed(u) && u.mode == Run(ops[..|ops| - 1]).mode && Run(ops) == Update(u).s
  {
    hide *;
    var before, op := ops[..|ops| - 1], ops[|ops| - 1];
    var s := Run(before);
    RunLast(ops);
    LastCall(ops);
    u := Accept(s, op);
    OwnedFormed(u);
    AcceptMode(s, op);
    match op
    case OpUpdate => UpdateIs(s);
    case OpCommit => O.CommitIs(s);
    case OpAction(id, tr) =>
      TakenExactly(s, id, tr);
      if Taken(s, op) {
        u := Do(s, MTask(s.active[id], tr));
        TaskMoveMode(s, s.active[id], tr);
        MoveOwned(s, MTask(s.active[id], tr));
        OwnedFormed(u);
      } else {
        Refused(s, op);
      }
    case OpNavigation(tr) =>
      NavTakenExactly(s, tr);
      if Taken(s, op) {
        u := Do(s, MNav(tr));
        NavMoveMode(s, tr);
        MoveOwned(s, MNav(tr));
        OwnedFormed(u);
      } else {
        Refused(s, op);
      }
    case _ => StaysPausing(s, op);
  }

  lemma AcceptMode(s: Sched, op: Op)
    ensures Accept(s, op).mode == s.mode
    ensures op == OpUpdate || op.OpAction? || op.OpNavigation? ==> Accept(s, op) == s
    ensures op == OpCommit ==> Accept(s, op) == s.(queue := s.queue + s.staging, staging := [])
  {
  }

  lemma NavMoveMode(s: Sched, tr: N.NavTransition)
    requires Enabled(s, MNav(tr))
    ensures Do(s, MNav(tr)).mode == s.mode
  {
    hide N.Transfer, N.Effect, Refers;
  }

  lemma StaysPausing(s: Sched, op: Op)
    requires WellFormed(s) && s.mode in {Pausing, Resuming}
    requires op == OpPause || op == OpResume || op == OpCancel || op.OpInterrupt? || op.OpEnqueue?
    ensures Apply(s, op).s.mode == s.mode
  {
    hide *;
    match op
    case OpPause =>
      O.PauseIs(s);
      O.FinishIs(StatePause(s));
    case OpResume =>
      O.ResumeIs(s);
      O.FinishIs(StateResume(s));
    case OpCancel =>
      O.CancelIs(s);
      O.FinishIs(StateCancel(s));
    case OpInterrupt(g) =>
      O.InterruptIs(s, g);
      O.FinishIs(StateInterrupt(s.(interrupts := s.interrupts + [g])));
    case OpEnqueue(item) => EnqueueMode(s, item);
  }

  lemma EnqueueMode(s: Sched, item: Item)
    requires WellFormed(s)
    ensures Apply(s, OpEnqueue(item)).s.mode == s.mode
  {
  }

  lemma {:induction false} PausingThrows(u: Sched)
    requires WellFormed(u) && u.mode == Pausing
    ensures Update(u) == StateUpdate(u).0
    ensures StateUpdate(u).0.Throw? ==> StateUpdate(u).0.s.mode == Pausing
  {
    hide *;
    O.UpdateIs(u);
    O.StateUpdateIs(u);
    O.UpdatePausingIs(u);
    RefreshKeepsMode(u);
  }

  lemma {:induction false} ActiveReported(t: Sched, id: ActionId, heard: seq<A.ActionTransition>)
    requires WellFormed(t) && id in t.active && t.tasks[t.active[id]].state.IsPaused() && Knows(t, id, heard)
    ensures heard != [] && heard[|heard| - 1] == A.IsPaused
    ensures StatusOf(t.out, id) == Some(ActionStatusChanged(id, PAUSED, None))
  {
    var r := t.active[id];
    KnowsAt(t, id, heard, r);
    PausedTold(t.tasks[r].state, id, heard, Said(t.out, id));
    StatusSaid(t.out, id);
    hide StatusOf, Told, Knows, Said;
  }

  lemma NavReported(t: Sched, heard: seq<N.NavTransition>)
    requires t.nav.Some? && ND.Fits(t.nav, heard)
    ensures t.nav.value.state.IsPaused() ==> heard != [] && heard[|heard| - 1] == N.IsPaused
    ensures !t.nav.value.state.IsPaused() && heard != [] && heard[|heard| - 1] == N.IsPaused ==>
              t.nav.value.state.NavCanceling?
  {
  }

  /** When a pausing scheduler becomes paused, every active action has reported, and has last been published, that it is
      paused, and so has the navigation if there is one. */
  lemma {:induction false} PausingReported(ops: seq<Op>)
    requires UniqueIds(ops) && ops != [] && Run(ops[..|ops| - 1]).mode == Pausing && Run(ops).mode == Paused
    ensures forall id | id in Run(ops).active ::
              && Heard(ops, id) != [] && Heard(ops, id)[|Heard(ops, id)| - 1] == A.IsPaused
              && StatusOf(Run(ops).out, id) == Some(ActionStatusChanged(id, PAUSED, None))
    ensures Run(ops).nav.Some? ==> NavHeard(ops) != [] && NavHeard(ops)[|NavHeard(ops)| - 1] == N.IsPaused
  {
    hide *;
    var t := Run(ops);
    var u := UpdatesFrom(ops);
    PausingThrows(u);
    PausingCompletes(u);
    RunOwned(ops);
    OwnedFormed(t);
    forall id | id in t.active
      ensures Heard(ops, id) != [] && Heard(ops, id)[|Heard(ops, id)| - 1] == A.IsPaused
      ensures StatusOf(t.out, id) == Some(ActionStatusChanged(id, PAUSED, None))
    {
      RunKnows(ops, id);
      ActiveReported(t, id, Heard(ops, id));
    }
    RunFits(ops);
    if t.nav.Some? {
      NavReported(t, NavHeard(ops));
    }
  }

  // Completing a resume /////////////////////////////////////////////////////////////////////////

  /** No active action and no navigation has its pause flag set. */
  ghost predicate NonePaused(s: Sched)
  {
    && (forall id | id in s.active :: s.active[id] < |s.tasks| && !s.tasks[s.active[id]].state.IsPaused())
    && (s.nav.Some? ==> !s.nav.value.state.IsPaused())
  }

  lemma StartNonePaused(s: Sched, a: Action, batch: nat, instant: bool)
    requires NonePaused(s)
    ensures NonePaused(StartAction(s, a, batch, instant))
  {
    hide A.Effect;
  }

  lemma {:induction false} StartAllNonePaused(s: Sched, actions: seq<Action>, batch: nat, instant: bool)
    requires NonePaused(s)
    ensures NonePaused(StartAll(s, actions, batch, instant))
    decreases |actions|
  {
    hide NonePaused, StartAction;
    if actions != [] {
      StartNonePaused(s, actions[0], batch, instant);
      StartAllNonePaused(StartAction(s, actions[0], batch, instant), actions[1..], batch, instant);
    }
  }

  lemma StartsNonePaused(s: Sched, m: Move)
    requires Enabled(s, m) && (m.MGroup? || m.MInstant?) && NonePaused(s)
    ensures NonePaused(Do(s, m))
  {
    if m.MGroup? {
      GroupEnabled(s);
      O.GroupIs(s);
      var g := s.queue[0].group;
      hide StartAll, StartGroup, GroupReady, Refers;
      StartAllNonePaused(s.(segment := None, blocking := g.ceiling, queue := s.queue[1..],
                            hist := s.hist + [GroupStarted(g, false, s.tasks, s.nav)]), g.actions, |s.hist|, false);
    } else {
      O.InstantIs(s);
      var g := s.interrupts[0];
      hide StartAll, StartInstant, InstantReady, Refers;
      StartAllNonePaused(s.(blocking := g.ceiling, interrupts := s.interrupts[1..],
                            hist := s.hist + [GroupStarted(g, true, s.tasks, s.nav)]), g.actions, |s.hist|, true);
    }
  }

  lemma FewerNonePaused(s: Sched, t: Sched)
    requires NonePaused(s) && t.tasks == s.tasks && SubMap(t.active, s.active)
    requires t.nav == s.nav || t.nav.None? || t.nav.value.state.NavFirstInProgress?
    ensures NonePaused(t)
  {
  }

  lemma MoveActive(s: Sched, m: Move)
    requires Enabled(s, m) && !m.MTask? && !m.MNav? && !m.MGroup? && !m.MInstant?
    ensures SubMap(Do(s, m).active, s.active)
  {
    if m.MUpdateTasks? {
      UpdateTasksMaps(s);
      hide UpdateTasks, Refers;
    } else if m.MDropNavInt? {
      hide Keep, Refers;
    } else {
      OtherMoves(s, m);
      hide Do, Enabled;
    }
  }

  lemma MoveNonePaused(s: Sched, m: Move)
    requires Enabled(s, m) && NonePaused(s) && !m.MTask? && (m.MNav? ==> m.navTr == N.DoResume)
    ensures NonePaused(Do(s, m))
  {
    if m.MNav? {
      NotResumable(s);
    } else if m.MGroup? || m.MInstant? {
      StartsNonePaused(s, m);
    } else {
      MoveActive(s, m);
      MoveNav(s, m);
      OthersSayNothing(s, m);
      hide *;
      FewerNonePaused(s, Do(s, m));
    }
  }

  lemma NotResumable(s: Sched)
    requires NonePaused(s)
    ensures !Enabled(s, MNav(N.DoResume))
  {
    hide WellFormed;
  }

  lemma {:induction false} PathNonePaused(s: Sched, ms: seq<Move>, t: Sched)
    requires Path(s, ms, t) && NonePaused(s) && ResumesOnly(ms)
    ensures NonePaused(t)
    decreases |ms|
  {
    hide NonePaused, ResumesOnly, Enabled, Do;
    if ms != [] {
      ResumesFirst(ms);
      MoveNonePaused(s, ms[0]);
      PathNonePaused(Do(s, ms[0]), ms[1..], t);
    }
  }

  lemma RefreshedNonePaused(u: Sched)
    requires Owned(u) && u.mode == Resuming && WellFormed(u) && StateUpdate(u).0.s.mode != Resuming
    ensures StateUpdate(u).0.Ok? && StateUpdate(u).1 && NonePaused(StateUpdate(u).0.s)
  {
    hide *;
    O.StateUpdateIs(u);
    O.UpdateResumingIs(u);
    O.RefreshIs(u);
    RefreshKeepsMode(u);
    RefreshKeepsMaps(u);
    UpdateTasksSplits(u);
    O.EnterIs(Refresh(u).s, Active, true);
    O.EnterIs(Refresh(u).s, Resuming, false);
    RunningOnlyNonePaused(UpdateTasks(u), StateUpdate(u).0.s);
  }

  lemma RunningOnlyNonePaused(v: Sched, t: Sched)
    requires WellFormed(v) && Partition(v) && v.paused == map[] && t.active == v.active && t.tasks == v.tasks
    requires forall id | id in v.running :: !v.tasks[v.running[id]].state.IsPaused()
    requires t.nav.Some? ==> !t.nav.value.state.IsPaused()
    ensures NonePaused(t)
  {
    forall id | id in t.active
      ensures t.active[id] < |t.tasks| && !t.tasks[t.active[id]].state.IsPaused()
    {
      assert id in v.running;
    }
  }

  lemma {:induction false} ActiveMoved(t: Sched, id: ActionId, heard: seq<A.ActionTransition>)
    requires WellFormed(t) && id in t.active && NonePaused(t) && Knows(t, id, heard)
    ensures heard == [] || heard[|heard| - 1] != A.IsPaused || ActionCancel(id) in Said(t.out, id)
  {
    var r := t.active[id];
    KnowsAt(t, id, heard, r);
    PausedTold(t.tasks[r].state, id, heard, Said(t.out, id));
    hide Told, Knows, Said;
  }

  lemma NonePausedNav(t: Sched)
    requires NonePaused(t)
    ensures t.nav.Some? ==> !t.nav.value.state.IsPaused()
  {
  }

  /** When a resuming scheduler goes on, no active action has last reported that it is paused, unless it is told to
      cancel, and neither has the navigation. */
  lemma {:induction false} ResumingReported(ops: seq<Op>)
    requires UniqueIds(ops) && ops != [] && Run(ops[..|ops| - 1]).mode == Resuming && Run(ops).mode != Resuming
    ensures forall id | id in Run(ops).active ::
              || Heard(ops, id) == [] || Heard(ops, id)[|Heard(ops, id)| - 1] != A.IsPaused
              || ActionCancel(id) in Said(Run(ops).out, id)
    ensures Run(ops).nav.Some? ==>
              || NavHeard(ops) == [] || NavHeard(ops)[|NavHeard(ops)| - 1] != N.IsPaused
              || Run(ops).nav.value.state.NavCanceling?
  {
    hide *;
    var t := Run(ops);
    var u := UpdatesFrom(ops);
    O.UpdateIs(u);
    RefreshedNonePaused(u);
    var v := StateUpdate(u).0.s;
    var ms := PathUpdate(OpUpdate, v);
    UpdateWithin(ms);
    PathNonePaused(v, ms, t);
    RunOwned(ops);
    OwnedFormed(t);
    forall id | id in t.active
      ensures || Heard(ops, id) == [] || Heard(ops, id)[|Heard(ops, id)| - 1] != A.IsPaused
              || ActionCancel(id) in Said(t.out, id)
    {
      RunKnows(ops, id);
      ActiveMoved(t, id, Heard(ops, id));
    }
    RunFits(ops);
    NonePausedNav(t);
    if t.nav.Some? {
      NavReported(t, NavHeard(ops));
    }
  }
}
