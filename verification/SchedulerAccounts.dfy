/** Where every action is: waiting in a queue, live, or forgotten. */
module SchedulerAccounts {
  import opened Vda
  import opened Events
  import A = ActionTasks
  import N = NavigationTasks
  import opened SchedulerModel
  import opened SchedulerMoves

  /** How many tasks with this id were ever created. */
  function InStore(tasks: seq<Task>, id: ActionId): nat
  {
    if tasks == [] then 0
    else InStore(tasks[..|tasks| - 1], id) + (if tasks[|tasks| - 1].action.id == id then 1 else 0)
  }

  predicate LiveAs(t: Task, id: ActionId)
  {
    t.action.id == id && !t.state.IsTerminal()
  }

  /** How many tasks with this id are neither finished nor failed. */
  function Live(tasks: seq<Task>, id: ActionId): nat
  {
    if tasks == [] then 0
    else Live(tasks[..|tasks| - 1], id) + (if LiveAs(tasks[|tasks| - 1], id) then 1 else 0)
  }

  /** How often an id waits in the three queues. */
  function Waiting(s: Sched, id: ActionId): nat
  {
    InItems(s.queue, id) + InItems(s.staging, id) + InGroups(s.interrupts, id)
  }

  /** Everything handed over is waiting, live or forgotten. */
  function Ledger(s: Sched, id: ActionId): nat
  {
    Waiting(s, id) + Live(s.tasks, id) + Forgets(s.out, id)
  }

  /** Every task in the store was started once, and the tasks that ended were forgotten. */
  ghost predicate Balanced(s: Sched, id: ActionId)
  {
    && Starts(s.out, id) == InStore(s.tasks, id)
    && InStore(s.tasks, id) <= Live(s.tasks, id) + Forgets(s.out, id)
    && (forall r | 0 <= r < |s.tasks| :: s.tasks[r].state != A.ActionWaiting)
  }

  ghost predicate SameBooks(s: Sched, t: Sched, id: ActionId)
  {
    Ledger(t, id) == Ledger(s, id) && (Balanced(s, id) ==> Balanced(t, id))
  }

  // Task states /////////////////////////////////////////////////////////////////////////////////

  lemma {:induction false} SetState(tasks: seq<Task>, r: nat, st: A.ActionState, id: ActionId)
    requires r < |tasks| && !tasks[r].state.IsTerminal()
    ensures var after := tasks[r := tasks[r].(state := st)];
            && InStore(after, id) == InStore(tasks, id)
            && Live(after, id) + (if st.IsTerminal() && tasks[r].action.id == id then 1 else 0) == Live(tasks, id)
    decreases |tasks|
  {
    var n := |tasks| - 1;
    var after := tasks[r := tasks[r].(state := st)];
    if r < n {
      assert after[..n] == tasks[..n][r := tasks[r].(state := st)];
      SetState(tasks[..n], r, st, id);
    } else {
      assert after[..n] == tasks[..n];
    }
  }

  lemma {:induction false} AppendTask(tasks: seq<Task>, t: Task, id: ActionId)
    ensures InStore(tasks + [t], id) == InStore(tasks, id) + (if t.action.id == id then 1 else 0)
    ensures Live(tasks + [t], id) == Live(tasks, id) + (if LiveAs(t, id) then 1 else 0)
  {
    assert (tasks + [t])[..|tasks + [t]| - 1] == tasks;
  }

  // Moves ///////////////////////////////////////////////////////////////////////////////////////

  lemma TaskBooks(s: Sched, r: nat, tr: A.ActionTransition, id: ActionId)
    requires Enabled(s, MTask(r, tr)) && s.tasks[r].state != A.ActionWaiting
    ensures SameBooks(s, Do(s, MTask(r, tr)), id)
  {
    TaskStepIs(s, r, tr);
    hide A.Effect, A.Next, Do, Enabled, WellFormed, SameBooks;
    TaskStateBooks(s, r, A.Next(s.tasks[r].state, tr).value, id);
  }

  lemma TaskStepIs(s: Sched, r: nat, tr: A.ActionTransition)
    requires Enabled(s, MTask(r, tr)) && s.tasks[r].state != A.ActionWaiting
    ensures !s.tasks[r].state.IsTerminal() && A.Next(s.tasks[r].state, tr).Some?
    ensures var st := A.Next(s.tasks[r].state, tr).value;
            && st != A.ActionInitializing && st != A.ActionWaiting
            && Do(s, MTask(r, tr)) == s.(tasks := s.tasks[r := s.tasks[r].(state := st)],
                                         out := s.out + A.Effect(s.tasks[r].action.id, st))
  {
    hide WellFormed, A.Effect;
  }

  lemma TaskStateBooks(s: Sched, r: nat, st: A.ActionState, id: ActionId)
    requires r < |s.tasks| && !s.tasks[r].state.IsTerminal()
    requires st != A.ActionInitializing && st != A.ActionWaiting
    ensures SameBooks(s, s.(tasks := s.tasks[r := s.tasks[r].(state := st)],
                            out := s.out + A.Effect(s.tasks[r].action.id, st)), id)
  {
    hide Forgets, Starts, Live, InStore, A.Effect, InItems, InGroups;
    var effect := A.Effect(s.tasks[r].action.id, st);
    SetState(s.tasks, r, st, id);
    A.EffectCounts(s.tasks[r].action.id, st, id);
    ForgetsAppend(s.out, effect, id);
    StartsAppend(s.out, effect, id);
  }

  lemma NavBooks(s: Sched, n: N.Nav, t: Sched, id: ActionId)
    requires t.out == s.out + N.Effect(n) && t.tasks == s.tasks
    requires Waiting(t, id) == Waiting(s, id)
    ensures SameBooks(s, t, id)
  {
    N.EffectCounts(n, id);
    ForgetsAppend(s.out, N.Effect(n), id);
    StartsAppend(s.out, N.Effect(n), id);
    hide Forgets, Starts, Live, InStore, N.Effect;
  }

  lemma StartActionBooks(s: Sched, a: Action, batch: nat, instant: bool, id: ActionId)
    ensures var t := StartAction(s, a, batch, instant);
            && Ledger(t, id) == Ledger(s, id) + (if a.id == id then 1 else 0)
            && (Balanced(s, id) ==> Balanced(t, id))
  {
    var effect := A.Effect(a.id, A.ActionInitializing);
    AppendTask(s.tasks, Task(a, A.ActionInitializing, batch, instant), id);
    A.EffectCounts(a.id, A.ActionInitializing, id);
    ForgetsAppend(s.out, effect, id);
    StartsAppend(s.out, effect, id);
    hide Forgets, Starts, Live, InStore, A.Effect;
  }

  lemma {:induction false} StartAllBooks(s: Sched, actions: seq<Action>, batch: nat, instant: bool, id: ActionId)
    ensures var t := StartAll(s, actions, batch, instant);
            && Ledger(t, id) == Ledger(s, id) + InActions(actions, id)
            && (Balanced(s, id) ==> Balanced(t, id))
    decreases |actions|
  {
    hide Forgets, Starts, Live, InStore, Ledger, Balanced;
    if actions != [] {
      StartActionBooks(s, actions[0], batch, instant, id);
      StartAllBooks(StartAction(s, actions[0], batch, instant), actions[1..], batch, instant, id);
    }
  }

  lemma {:induction false} ForgetActionsCount(actions: seq<Action>, id: ActionId)
    ensures Forgets(ForgetActions(actions), id) == InActions(actions, id)
    ensures Starts(ForgetActions(actions), id) == 0
    ensures Quiet(ForgetActions(actions)) && Passed(ForgetActions(actions)) == []
  {
    if actions == [] {
      CountsOfNone(id);
    } else {
      var first := ActionForget(actions[0].id);
      CountsOfOne(first, id);
      ForgetActionsCount(actions[1..], id);
      ForgetsAppend([first], ForgetActions(actions[1..]), id);
      StartsAppend([first], ForgetActions(actions[1..]), id);
      PassedAppend([first], ForgetActions(actions[1..]));
      hide Forgets, Starts, Passed;
    }
  }

  lemma {:induction false} ForgetItemsCount(items: seq<Item>, id: ActionId)
    ensures Forgets(ForgetItems(items), id) == InItems(items, id)
    ensures Starts(ForgetItems(items), id) == 0
    ensures Quiet(ForgetItems(items)) && Passed(ForgetItems(items)) == []
  {
    CountsOfNone(id);
    hide Forgets, Starts, Passed;
    if items != [] {
      var first := if items[0].Actions? then ForgetActions(items[0].group.actions) else [];
      if items[0].Actions? {
        ForgetActionsCount(items[0].group.actions, id);
      }
      ForgetItemsCount(items[1..], id);
      ForgetsAppend(first, ForgetItems(items[1..]), id);
      StartsAppend(first, ForgetItems(items[1..]), id);
      PassedAppend(first, ForgetItems(items[1..]));
    }
  }

  lemma {:induction false} ForgetGroupsCount(groups: seq<Group>, id: ActionId)
    ensures Forgets(ForgetGroups(groups), id) == InGroups(groups, id)
    ensures Starts(ForgetGroups(groups), id) == 0
    ensures Quiet(ForgetGroups(groups)) && Passed(ForgetGroups(groups)) == []
  {
    CountsOfNone(id);
    hide Forgets, Starts, Passed;
    if groups != [] {
      var first := ForgetActions(groups[0].actions);
      ForgetActionsCount(groups[0].actions, id);
      ForgetGroupsCount(groups[1..], id);
      ForgetsAppend(first, ForgetGroups(groups[1..]), id);
      StartsAppend(first, ForgetGroups(groups[1..]), id);
      PassedAppend(first, ForgetGroups(groups[1..]));
    }
  }

  lemma {:induction false} StepsHoldNoActions(items: seq<Item>, id: ActionId)
    ensures InItems(StepsToStop(items), id) == 0
  {
    if items != [] {
      StepsHoldNoActions(items[1..], id);
    }
  }

  lemma ClearBooks(s: Sched, keepNav: bool, id: ActionId)
    ensures SameBooks(s, ClearQueues(s, keepNav), id)
  {
    hide Forgets, Starts, Live, InStore, InItems, InGroups, StepsToStop, ForgetItems, ForgetGroups;
    ClearCounts(s.out, s.queue, s.interrupts, id);
    StepsHoldNoActions(s.queue, id);
    NoneInside(id);
  }

  lemma {:induction false} NoneInside(id: ActionId)
    ensures InItems([], id) == 0 && InGroups([], id) == 0
  {
  }

  lemma {:induction false} ClearCounts(out: seq<Event>, items: seq<Item>, groups: seq<Group>, id: ActionId)
    ensures var after := out + ForgetItems(items) + ForgetGroups(groups);
            && Forgets(after, id) == Forgets(out, id) + InItems(items, id) + InGroups(groups, id)
            && Starts(after, id) == Starts(out, id)
  {
    hide *;
    ForgetItemsCount(items, id);
    ForgetGroupsCount(groups, id);
    ForgetsAppend(out, ForgetItems(items), id);
    ForgetsAppend(out + ForgetItems(items), ForgetGroups(groups), id);
    StartsAppend(out, ForgetItems(items), id);
    StartsAppend(out + ForgetItems(items), ForgetGroups(groups), id);
  }

  lemma UpdateMapsFrame(s: Sched)
    requires WellFormed(s)
    ensures var t := UpdateMaps(s); t == s.(running := t.running, paused := t.paused, active := t.active)
  {
    hide Keep;
  }

  ghost predicate SameRecords(s: Sched, t: Sched)
  {
    && t.tasks == s.tasks && t.out == s.out && t.hist == s.hist && t.blocking == s.blocking
    && t.queue == s.queue && t.staging == s.staging && t.interrupts == s.interrupts
  }

  lemma UpdateTasksRecords(s: Sched)
    requires WellFormed(s)
    ensures s.nav.Some? && s.nav.value.state.NavFailed? ==> SameRecords(ClearQueues(s, false), UpdateTasks(s))
    ensures !(s.nav.Some? && s.nav.value.state.NavFailed?) ==> SameRecords(s, UpdateTasks(s))
  {
  }

  lemma UpdateTasksBooks(s: Sched, id: ActionId)
    requires WellFormed(s)
    ensures SameBooks(s, UpdateTasks(s), id)
  {
    UpdateTasksRecords(s);
    ClearBooks(s, false, id);
    hide Forgets, Starts, Live, InStore, InItems, InGroups, UpdateTasks, ClearQueues;
  }

  lemma GroupBooks(s: Sched, id: ActionId)
    requires Enabled(s, MGroup)
    ensures SameBooks(s, StartGroup(s), id)
  {
    var g := s.queue[0].group;
    var t := s.(segment := None, blocking := g.ceiling, queue := s.queue[1..],
                hist := s.hist + [GroupStarted(g, false, s.tasks, s.nav)]);
    assert InItems(s.queue, id) == InActions(g.actions, id) + InItems(t.queue, id);
    assert Ledger(t, id) + InActions(g.actions, id) == Ledger(s, id);
    StartAllBooks(t, g.actions, |s.hist|, false, id);
    hide Forgets, Starts, Live, InStore, InItems, InGroups, StartAll;
  }

  lemma InstantBooks(s: Sched, id: ActionId)
    requires Enabled(s, MInstant)
    ensures SameBooks(s, StartInstant(s), id)
  {
    var g := s.interrupts[0];
    var t := s.(blocking := g.ceiling, interrupts := s.interrupts[1..],
                hist := s.hist + [GroupStarted(g, true, s.tasks, s.nav)]);
    assert InGroups(s.interrupts, id) == InActions(g.actions, id) + InGroups(t.interrupts, id);
    assert Ledger(t, id) + InActions(g.actions, id) == Ledger(s, id);
    StartAllBooks(t, g.actions, |s.hist|, true, id);
    hide Forgets, Starts, Live, InStore, InItems, InGroups, StartAll;
  }

  lemma StepBooks(s: Sched, id: ActionId)
    requires Enabled(s, MStep)
    ensures SameBooks(s, StartStep(s), id)
  {
    assert InItems(s.queue, id) == InItems(s.queue[1..], id);
    NavBooks(s, StartStep(s).nav.value, StartStep(s), id);
  }

  lemma QuietOneBooks(s: Sched, e: Event, t: Sched, id: ActionId)
    requires !e.ActionStart? && !e.ActionForget?
    requires t.out == s.out + [e] && t.tasks == s.tasks && Waiting(t, id) == Waiting(s, id)
    ensures SameBooks(s, t, id)
  {
    CountsOfOne(e, id);
    ForgetsAppend(s.out, [e], id);
    StartsAppend(s.out, [e], id);
    hide Forgets, Starts, Live, InStore;
  }

  lemma PatchBooks(s: Sched, id: ActionId)
    ensures SameBooks(s, PatchSegment(s), id)
  {
    var t := PatchSegment(s);
    if t.out != s.out {
      QuietOneBooks(s, t.out[|s.out|], t, id);
    }
  }

  lemma EnterBooks(s: Sched, mode: Mode, notify: bool, id: ActionId)
    ensures SameBooks(s, Enter(s, mode, notify), id)
  {
    if notify {
      QuietOneBooks(s, OrderStatus(mode), Enter(s, mode, notify), id);
    }
  }

  lemma MoveBooks(s: Sched, m: Move, id: ActionId)
    requires Enabled(s, m) && Balanced(s, id)
    ensures SameBooks(s, Do(s, m), id)
  {
    match m
    case MTask(r, tr) => TaskBooks(s, r, tr, id);
    case MNav(tr) => NavBooks(s, Do(s, m).nav.value, Do(s, m), id);
    case MUpdateTasks => UpdateTasksBooks(s, id);
    case MDropNavInt =>
    case MGroup => GroupBooks(s, id);
    case MStep => StepBooks(s, id);
    case MPatch => PatchBooks(s, id);
    case MInstant => InstantBooks(s, id);
    case MClear(keepNav) => ClearBooks(s, keepNav, id);
    case MEnter(mode, notify) => EnterBooks(s, mode, notify, id);
    case MCancelIdle => EnterBooks(s, Canceling, false, id);
  }

  lemma {:induction false} PathBooks(s: Sched, ms: seq<Move>, t: Sched, id: ActionId)
    requires Path(s, ms, t) && Balanced(s, id)
    ensures Ledger(t, id) == Ledger(s, id) && Balanced(t, id)
    decreases |ms|
  {
    if ms != [] {
      MoveBooks(s, ms[0], id);
      PathBooks(Do(s, ms[0]), ms[1..], t, id);
    }
  }

  // Runs ////////////////////////////////////////////////////////////////////////////////////////

  /** How often a call hands over an id. */
  function InOp(op: Op, id: ActionId): nat
  {
    match op
    case OpInterrupt(g) => InActions(g.actions, id)
    case OpEnqueue(item) => InItem(item, id)
    case _ => 0
  }

  function HandedOver(ops: seq<Op>, id: ActionId): nat
  {
    if ops == [] then 0 else HandedOver(ops[..|ops| - 1], id) + InOp(ops[|ops| - 1], id)
  }

  lemma AcceptBooks(s: Sched, op: Op, id: ActionId)
    ensures Ledger(Accept(s, op), id) == Ledger(s, id) + InOp(op, id)
    ensures Balanced(s, id) ==> Balanced(Accept(s, op), id)
  {
    hide Forgets, Starts, Live, InStore;
    match op
    case OpInterrupt(g) =>
      InGroupsAppend(s.interrupts, [g], id);
      assert InGroups([g], id) == InActions(g.actions, id) + InGroups([], id);
    case OpEnqueue(item) =>
      InItemsAppend(s.staging, [item], id);
      assert InItems([item], id) == InItem(item, id) + InItems([], id);
    case OpCommit =>
      InItemsAppend(s.queue, s.staging, id);
    case _ =>
  }

  /** Conservation: over every run, whatever throws, the actions handed over are exactly those
      waiting, live or forgotten; each action was started as often as it has a task; and every
      action that was started is still live or was forgotten. */
  lemma {:induction false} Conservation(ops: seq<Op>, id: ActionId)
    ensures var s := Run(ops);
            && HandedOver(ops, id) == Waiting(s, id) + Live(s.tasks, id) + Forgets(s.out, id)
            && Starts(s.out, id) == InStore(s.tasks, id)
            && Starts(s.out, id) <= Live(s.tasks, id) + Forgets(s.out, id)
    ensures Balanced(Run(ops), id)
  {
    if ops == [] {
      CountsOfNone(id);
    } else {
      var before, op := ops[..|ops| - 1], ops[|ops| - 1];
      Conservation(before, id);
      AcceptBooks(Run(before), op, id);
      var ms := PathApply(Run(before), op);
      PathBooks(Accept(Run(before), op), ms, Run(ops), id);
    }
  }

  ghost predicate UniqueIds(ops: seq<Op>)
  {
    forall id :: HandedOver(ops, id) <= 1
  }

  /** With unique ids, each action handed over is in exactly one place; it is started and forgotten
      at most once, and forgotten exactly when it is neither waiting nor live. */
  lemma {:induction false} EachActionOnce(ops: seq<Op>, id: ActionId)
    requires HandedOver(ops, id) == 1
    ensures var s := Run(ops);
            && Waiting(s, id) + Live(s.tasks, id) + Forgets(s.out, id) == 1
            && Starts(s.out, id) <= 1
            && (Forgets(s.out, id) == 1 <==> Waiting(s, id) == 0 && Live(s.tasks, id) == 0)
            && (Waiting(s, id) == 1 ==> Starts(s.out, id) == 0)
            && (Live(s.tasks, id) == 1 ==> Starts(s.out, id) == 1)
  {
    Conservation(ops, id);
    LiveInStore(Run(ops).tasks, id);
  }

  lemma {:induction false} LiveInStore(tasks: seq<Task>, id: ActionId)
    ensures Live(tasks, id) <= InStore(tasks, id)
  {
    if tasks != [] {
      LiveInStore(tasks[..|tasks| - 1], id);
    }
  }
}
