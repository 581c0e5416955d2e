/** What the scheduler reports: its order status and the nodes the vehicle has passed. */
module SchedulerReports {
  import opened Vda
  import opened Events
  import A = ActionTasks
  import N = NavigationTasks
  import opened SchedulerModel
  import opened SchedulerMoves
  import opened SchedulerAccounts
  import opened SchedulerHistory

  /** What a move publishes apart from a status: no status, and a passed node only when a navigation
      step is done. */
  ghost predicate Adds(s: Sched, t: Sched, passed: seq<SeqId>)
  {
    && s.out <= t.out
    && Quiet(t.out[|s.out|..])
    && Passed(t.out[|s.out|..]) == passed
    && t.mode == s.mode
  }

  lemma AddsReports(s: Sched, t: Sched, passed: seq<SeqId>)
    requires Adds(s, t, passed)
    ensures LastStatus(t.out) == LastStatus(s.out) && Passed(t.out) == Passed(s.out) + passed
  {
    var more := t.out[|s.out|..];
    assert t.out == s.out + more;
    LastStatusAppend(s.out, more);
    PassedAppend(s.out, more);
  }

  lemma {:induction false} AddsMore(s: Sched, t: Sched, out: seq<Event>, passed: seq<SeqId>)
    requires t.out == s.out + out && Quiet(out) && Passed(out) == passed && t.mode == s.mode
    ensures Adds(s, t, passed)
  {
    assert t.out[|s.out|..] == out;
  }

  lemma AddsNothing(s: Sched, t: Sched)
    requires t.out == s.out && t.mode == s.mode
    ensures Adds(s, t, [])
  {
    CountsOfNone(0);
    assert t.out[|s.out|..] == [];
  }

  lemma QuietAppend(a: seq<Event>, b: seq<Event>)
    requires Quiet(a) && Quiet(b)
    ensures Quiet(a + b)
  {
  }

  lemma Suffixes(x: seq<Event>, y: seq<Event>, z: seq<Event>)
    requires x <= y <= z
    ensures x <= z && z[|x|..] == y[|x|..] + z[|y|..]
  {
    assert z == y + z[|y|..];
    assert y == x + y[|x|..];
  }

  lemma AddsTwice(s: Sched, t: Sched, u: Sched, passed: seq<SeqId>)
    requires Adds(s, t, []) && Adds(t, u, passed)
    ensures Adds(s, u, passed)
  {
    var a, b := t.out[|s.out|..], u.out[|t.out|..];
    Suffixes(s.out, t.out, u.out);
    QuietAppend(a, b);
    PassedAppend(a, b);
    hide Quiet, Passed;
    assert [] + passed == passed;
  }

  lemma {:induction false} StartAllAdds(s: Sched, actions: seq<Action>, batch: nat, instant: bool)
    ensures Adds(s, StartAll(s, actions, batch, instant), [])
    decreases |actions|
  {
    if actions == [] {
      AddsNothing(s, s);
    } else {
      var t := StartAction(s, actions[0], batch, instant);
      A.EffectCounts(actions[0].id, A.ActionInitializing, 0);
      AddsMore(s, t, A.Effect(actions[0].id, A.ActionInitializing), []);
      hide Adds, A.Effect;
      StartAllAdds(t, actions[1..], batch, instant);
      AddsTwice(s, t, StartAll(s, actions, batch, instant), []);
    }
  }

  lemma ClearAdds(s: Sched, keepNav: bool)
    ensures Adds(s, ClearQueues(s, keepNav), [])
  {
    hide *;
    var a, b := ForgetItems(s.queue), ForgetGroups(s.interrupts);
    ForgetItemsCount(s.queue, 0);
    ForgetGroupsCount(s.interrupts, 0);
    QuietAppend(a, b);
    PassedAppend(a, b);
    ClearOut(s, keepNav);
    AddsMore(s, ClearQueues(s, keepNav), a + b, []);
  }

  lemma ClearOut(s: Sched, keepNav: bool)
    ensures var t := ClearQueues(s, keepNav);
            t.out == s.out + (ForgetItems(s.queue) + ForgetGroups(s.interrupts)) && t.mode == s.mode
  {
    hide ForgetItems, ForgetGroups, StepsToStop;
    Associative(s.out, ForgetItems(s.queue), ForgetGroups(s.interrupts));
  }

  lemma UpdateTasksAdds(s: Sched)
    requires WellFormed(s)
    ensures Adds(s, UpdateTasks(s), [])
  {
    UpdateTasksRecords(s);
    ClearAdds(s, false);
    AddsNothing(s, s);
    assert UpdateTasks(s).mode == s.mode by {
      hide UpdateMaps, ForgetItems, ForgetGroups;
      assert UpdateMaps(s).mode == s.mode by {
        UpdateMapsFrame(s);
      }
    }
    hide UpdateTasks, Quiet, Passed, WellFormed;
  }

  /** The node a move reports as passed, if any. */
  ghost function PassedBy(s: Sched, m: Move): seq<SeqId>
    requires Enabled(s, m)
  {
    if m.MNav? && Do(s, m).nav.value.state.NavDone? then [s.nav.value.goal.seqId] else []
  }

  lemma NavAdds(s: Sched, tr: N.NavTransition)
    requires Enabled(s, MNav(tr))
    ensures Adds(s, Do(s, MNav(tr)), PassedBy(s, MNav(tr)))
  {
    var t := Do(s, MNav(tr));
    N.EffectCounts(t.nav.value, 0);
    hide N.Effect, Quiet, Passed, Adds;
    AddsMore(s, t, N.Effect(t.nav.value), PassedBy(s, MNav(tr)));
  }

  lemma StepAdds(s: Sched)
    requires Enabled(s, MStep)
    ensures Adds(s, StartStep(s), [])
  {
    hide Passed, Quiet, Adds, N.Effect, SegmentEnd, WellFormed;
    var t := StartStep(s);
    N.EffectCounts(t.nav.value, 0);
    AddsMore(s, t, N.Effect(t.nav.value), []);
  }

  lemma PatchAdds(s: Sched)
    ensures Adds(s, PatchSegment(s), [])
  {
    var t := PatchSegment(s);
    if t.out == s.out {
      AddsNothing(s, t);
    } else {
      CountsOfOne(t.out[|s.out|], 0);
      assert Quiet([t.out[|s.out|]]);
      hide Passed, Adds, SegmentEnd;
      AddsMore(s, t, [t.out[|s.out|]], []);
    }
  }

  lemma TaskAdds(s: Sched, r: nat, tr: A.ActionTransition)
    requires Enabled(s, MTask(r, tr))
    ensures Adds(s, Do(s, MTask(r, tr)), [])
  {
    var st := A.Next(s.tasks[r].state, tr).value;
    var id := s.tasks[r].action.id;
    A.EffectCounts(id, st, 0);
    hide A.Effect, Quiet, Passed, Adds, A.Next;
    AddsMore(s, Do(s, MTask(r, tr)), A.Effect(id, st), []);
  }

  lemma MoveAdds(s: Sched, m: Move)
    requires Enabled(s, m) && !m.MEnter? && !m.MCancelIdle?
    ensures Adds(s, Do(s, m), PassedBy(s, m))
  {
    match m
    case MTask(r, tr) => TaskAdds(s, r, tr);
    case MNav(tr) => NavAdds(s, tr);
    case MUpdateTasks => UpdateTasksAdds(s);
    case MDropNavInt => AddsNothing(s, Do(s, m));
    case MGroup =>
      var g := s.queue[0].group;
      hide Adds;
      StartAllAdds(s.(segment := None, blocking := g.ceiling, queue := s.queue[1..],
                      hist := s.hist + [GroupStarted(g, false, s.tasks, s.nav)]), g.actions, |s.hist|, false);
      AddsFrame(s, s.(segment := None, blocking := g.ceiling, queue := s.queue[1..],
                      hist := s.hist + [GroupStarted(g, false, s.tasks, s.nav)]), Do(s, m));
    case MStep => StepAdds(s);
    case MPatch => PatchAdds(s);
    case MInstant =>
      var g := s.interrupts[0];
      hide Adds;
      StartAllAdds(s.(blocking := g.ceiling, interrupts := s.interrupts[1..],
                      hist := s.hist + [GroupStarted(g, true, s.tasks, s.nav)]), g.actions, |s.hist|, true);
      AddsFrame(s, s.(blocking := g.ceiling, interrupts := s.interrupts[1..],
                      hist := s.hist + [GroupStarted(g, true, s.tasks, s.nav)]), Do(s, m));
    case MClear(keepNav) => ClearAdds(s, keepNav);
  }

  lemma AddsFrame(s: Sched, u: Sched, t: Sched)
    requires u.out == s.out && u.mode == s.mode && Adds(u, t, [])
    ensures Adds(s, t, [])
  {
  }

  lemma AcceptReports(s: Sched, op: Op)
    ensures Accept(s, op).out == s.out && Accept(s, op).mode == s.mode && Accept(s, op).nav == s.nav
  {
  }

  // Passed nodes ////////////////////////////////////////////////////////////////////////////////

  /** The goals of the navigation steps among the items. */
  function Goals(items: seq<Item>): seq<SeqId>
  {
    if items == [] then []
    else (if items[0].Step? then [items[0].goal.seqId] else []) + Goals(items[1..])
  }

  lemma {:induction false} GoalsOfCons(items: seq<Item>)
    requires items != []
    ensures Goals(items) == (if items[0].Step? then [items[0].goal.seqId] else []) + Goals(items[1..])
  {
  }

  lemma {:induction false} GoalsAppend(a: seq<Item>, b: seq<Item>)
    ensures Goals(a + b) == Goals(a) + Goals(b)
  {
    if a == [] {
      assert a + b == b;
    } else {
      hide *;
      AppendTail(a, b);
      GoalsOfCons(a);
      GoalsOfCons(a + b);
      GoalsAppend(a[1..], b);
      Associative(if a[0].Step? then [a[0].goal.seqId] else [], Goals(a[1..]), Goals(b));
    }
  }

  lemma {:induction false} GoalsToStop(items: seq<Item>)
    ensures Goals(StepsToStop(items)) <= Goals(items)
  {
    if items != [] {
      var item, rest := items[0], items[1..];
      var steps := StepsToStop(rest);
      GoalsToStop(rest);
      var one := if item.Step? then [item.goal.seqId] else [];
      assert Goals(items) == one + Goals(rest);
      if item.Actions? {
        assert StepsToStop(items) == steps;
      } else if item.stopHint {
        assert StepsToStop(items) == [item] && [item][1..] == [];
        assert Goals([item]) == one + Goals([]) && Goals([]) == [];
      } else {
        assert StepsToStop(items) == [item] + steps && ([item] + steps)[1..] == steps;
        assert Goals([item] + steps) == one + Goals(steps);
      }
      hide *;
    }
  }

  /** The goal being driven to, if any. */
  function Driving(nav: Option<N.Nav>): seq<SeqId>
  {
    if nav.Some? && !nav.value.state.IsTerminal() then [nav.value.goal.seqId] else []
  }

  /** The passed nodes, the current goal and the goals to come. */
  function Route(s: Sched): seq<SeqId>
  {
    Passed(s.out) + Driving(s.nav) + (Goals(s.queue) + Goals(s.staging))
  }

  /** The route is what is left of the goals when some are dropped: each goal at most once, in their order. */
  ghost predicate Follows(route: seq<SeqId>, goals: seq<SeqId>)
    decreases |goals|
  {
    route == [] ||
    (goals != [] &&
     (Follows(route, goals[..|goals| - 1]) ||
      (route[|route| - 1] == goals[|goals| - 1] && Follows(route[..|route| - 1], goals[..|goals| - 1]))))
  }

  /** The route is strictly ascending and consists of goals that were handed over. */
  ghost predicate RouteOk(route: seq<SeqId>, goals: seq<SeqId>)
  {
    Strict(route) && forall i | 0 <= i < |route| :: route[i] in goals
  }

  lemma {:induction false} FollowsInit(route: seq<SeqId>, goals: seq<SeqId>)
    requires Follows(route, goals) && route != []
    ensures Follows(route[..|route| - 1], goals)
    decreases |goals|
  {
    if Follows(route, goals[..|goals| - 1]) {
      FollowsInit(route, goals[..|goals| - 1]);
    }
  }

  lemma {:induction false} FollowsStart(a: seq<SeqId>, b: seq<SeqId>, goals: seq<SeqId>)
    requires Follows(a + b, goals)
    ensures Follows(a, goals)
    decreases |b|
  {
    if b == [] {
      assert a + b == a;
    } else {
      FollowsInit(a + b, goals);
      assert (a + b)[..|a + b| - 1] == a + b[..|b| - 1];
      FollowsStart(a, b[..|b| - 1], goals);
    }
  }

  lemma {:induction false} Thin(a: seq<SeqId>, b: seq<SeqId>, c: seq<SeqId>, goals: seq<SeqId>)
    requires Follows(a + b + c, goals)
    ensures Follows(a + c, goals)
    decreases |goals|
  {
    if c == [] {
      assert a + b + c == a + b && a + c == a;
      FollowsStart(a, b, goals);
    } else if Follows(a + b + c, goals[..|goals| - 1]) {
      Thin(a, b, c, goals[..|goals| - 1]);
    } else {
      assert (a + b + c)[..|a + b + c| - 1] == a + b + c[..|c| - 1];
      assert (a + c)[..|a + c| - 1] == a + c[..|c| - 1];
      Thin(a, b, c[..|c| - 1], goals[..|goals| - 1]);
    }
  }

  /** What follows ascending goals ascends itself. */
  lemma {:induction false} FollowsStrictly(route: seq<SeqId>, goals: seq<SeqId>)
    requires Follows(route, goals) && Strict(goals)
    ensures RouteOk(route, goals)
    decreases |goals|
  {
    if route != [] {
      var fewer := goals[..|goals| - 1];
      if Follows(route, fewer) {
        FollowsStrictly(route, fewer);
      } else {
        var shorter := route[..|route| - 1];
        FollowsStrictly(shorter, fewer);
        forall i | 0 <= i < |shorter|
          ensures route[i] in goals && route[i] < route[|route| - 1]
        {
          assert shorter[i] in fewer;
        }
        assert forall i | 0 <= i < |shorter| :: route[i] == shorter[i];
      }
    }
  }

  /** A move that reports no node and takes nothing from the route but possibly some goals. */
  lemma Regroup(p: seq<SeqId>, d: seq<SeqId>, driven: seq<SeqId>, q: seq<SeqId>, dropped: seq<SeqId>, g: seq<SeqId>)
    ensures p + (d + driven) + ((q + dropped) + g) == p + d + driven + (q + dropped + g)
    ensures p + d + (q + dropped + g) == p + d + q + dropped + g
    ensures p + [] + d + (q + g) == p + d + q + g
  {
  }

  lemma {:induction false} ThinRoute(s: Sched, t: Sched, driven: seq<SeqId>, dropped: seq<SeqId>, goals: seq<SeqId>)
    requires Adds(s, t, []) && Follows(Route(s), goals) && t.staging == s.staging
    requires Driving(s.nav) == Driving(t.nav) + driven && Goals(s.queue) == Goals(t.queue) + dropped
    ensures Follows(Route(t), goals)
  {
    AddsReports(s, t, []);
    var p, d, q, g := Passed(s.out), Driving(t.nav), Goals(t.queue), Goals(s.staging);
    assert Route(s) == p + (d + driven) + ((q + dropped) + g) && Route(t) == p + [] + d + (q + g);
    hide *;
    Regroup(p, d, driven, q, dropped, g);
    Thin(p + d, driven, q + dropped + g, goals);
    Thin(p + d + q, dropped, g, goals);
  }

  lemma NavDriving(s: Sched, tr: N.NavTransition)
    requires Enabled(s, MNav(tr))
    ensures var t := Do(s, MNav(tr));
            && t.nav.Some? && t.queue == s.queue && t.staging == s.staging
            && Driving(s.nav) == [s.nav.value.goal.seqId]
            && Driving(t.nav) == if t.nav.value.state.IsTerminal() then [] else [s.nav.value.goal.seqId]
  {
    hide N.Effect, Refers;
  }

  lemma Shift(p: seq<SeqId>, d: seq<SeqId>, q: seq<SeqId>, g: seq<SeqId>)
    ensures p + d + [] + (q + g) == p + d + (q + g)
    ensures p + [] + ((d + q) + g) == p + d + (q + g)
  {
  }

  lemma {:induction false} NavRoute(s: Sched, tr: N.NavTransition, goals: seq<SeqId>)
    requires Enabled(s, MNav(tr)) && Follows(Route(s), goals)
    ensures Follows(Route(Do(s, MNav(tr))), goals)
  {
    var m := MNav(tr);
    var t := Do(s, m);
    NavAdds(s, tr);
    NavDriving(s, tr);
    AddsReports(s, t, PassedBy(s, m));
    hide Do, Enabled, Passed, Goals, Adds, LastStatus, Driving, Follows;
    if t.nav.value.state.NavDone? {
      Shift(Passed(s.out), Driving(s.nav), Goals(s.queue), Goals(s.staging));
    } else if t.nav.value.state.NavFailed? {
      ThinRoute(s, t, Driving(s.nav), [], goals);
    } else {
      ThinRoute(s, t, [], [], goals);
    }
  }

  lemma StepDriving(s: Sched)
    requires Enabled(s, MStep)
    ensures var t := StartStep(s);
            && t.staging == s.staging
            && Driving(s.nav) == []
            && Goals(s.queue) == Driving(t.nav) + Goals(t.queue)
  {
    hide N.Effect, SegmentEnd, Refers;
  }

  lemma {:induction false} StepRoute(s: Sched, goals: seq<SeqId>)
    requires Enabled(s, MStep) && Follows(Route(s), goals)
    ensures Follows(Route(StartStep(s)), goals)
  {
    var t := StartStep(s);
    StepAdds(s);
    StepDriving(s);
    AddsReports(s, t, []);
    hide StartStep, Passed, Goals, Adds, LastStatus, Follows, Driving;
    assert Passed(t.out) == Passed(s.out);
    Shift(Passed(s.out), Driving(t.nav), Goals(t.queue), Goals(t.staging));
  }

  lemma {:induction false} GroupRoute(s: Sched, goals: seq<SeqId>)
    requires Enabled(s, MGroup) && Follows(Route(s), goals)
    ensures Follows(Route(StartGroup(s)), goals)
  {
    var t := StartGroup(s);
    MoveAdds(s, MGroup);
    assert Goals(s.queue) == Goals(s.queue[1..]);
    assert t.nav == s.nav && t.staging == s.staging;
    hide StartGroup, Passed, Goals, Adds, Follows, Driving, PassedBy;
    ThinRoute(s, t, [], [], goals);
  }

  lemma {:induction false} UpdateTasksRoute(s: Sched, goals: seq<SeqId>)
    requires WellFormed(s) && Follows(Route(s), goals)
    ensures Follows(Route(UpdateTasks(s)), goals)
  {
    var t := UpdateTasks(s);
    UpdateTasksAdds(s);
    UpdateTasksRecords(s);
    assert Driving(t.nav) == Driving(s.nav) by { UpdateTasksNav(s); }
    assert Goals([]) == [];
    hide UpdateTasks, Passed, Goals, Adds, Follows, Driving, ForgetItems, ForgetGroups;
    if t.queue == s.queue {
      ThinRoute(s, t, [], [], goals);
    } else {
      ThinRoute(s, t, [], Goals(s.queue), goals);
    }
  }

  lemma UpdateTasksNav(s: Sched)
    requires WellFormed(s)
    ensures UpdateTasks(s).nav == s.nav || (s.nav.Some? && s.nav.value.state.IsTerminal() && UpdateTasks(s).nav.None?)
  {
    UpdateMapsFrame(s);
    hide UpdateMaps, ForgetItems, ForgetGroups;
  }

  lemma {:induction false} ClearRoute(s: Sched, keepNav: bool, goals: seq<SeqId>)
    requires Follows(Route(s), goals)
    ensures Follows(Route(ClearQueues(s, keepNav)), goals)
  {
    var t := ClearQueues(s, keepNav);
    ClearAdds(s, keepNav);
    GoalsToStop(s.queue);
    assert Goals([]) == [];
    assert Goals(t.queue) <= Goals(s.queue);
    hide Passed, Goals, Adds, Follows, Driving, ForgetItems, ForgetGroups, StepsToStop;
    assert Goals(s.queue) == Goals(t.queue) + Goals(s.queue)[|Goals(t.queue)|..];
    ThinRoute(s, t, [], Goals(s.queue)[|Goals(t.queue)|..], goals);
  }

  lemma EnterRoute(s: Sched, mode: Mode, notify: bool)
    ensures Route(Enter(s, mode, notify)) == Route(s)
  {
    hide Passed, Goals, Driving;
    StatusPasses(s.out, mode);
  }

  lemma {:induction false} StatusPasses(out: seq<Event>, mode: Mode)
    ensures Passed(out + [OrderStatus(mode)]) == Passed(out)
  {
    hide Passed;
    CountsOfOne(OrderStatus(mode), 0);
    PassedAppend(out, [OrderStatus(mode)]);
    assert Passed(out) + [] == Passed(out);
  }

  lemma {:induction false} SameRoute(s: Sched, m: Move, goals: seq<SeqId>)
    requires Enabled(s, m) && Follows(Route(s), goals) && (m.MTask? || m.MDropNavInt? || m.MPatch? || m.MInstant?)
    ensures Follows(Route(Do(s, m)), goals)
  {
    var t := Do(s, m);
    MoveAdds(s, m);
    assert t.nav == s.nav && t.queue == s.queue && t.staging == s.staging by {
      hide A.Effect, SegmentEnd, Keep, Follows, Adds;
    }
    hide Passed, Goals, Adds, Follows, Driving, Do, Enabled;
    ThinRoute(s, t, [], [], goals);
  }

  lemma {:induction false} MoveRoute(s: Sched, m: Move, goals: seq<SeqId>)
    requires Enabled(s, m) && Follows(Route(s), goals)
    ensures Follows(Route(Do(s, m)), goals)
  {
    match m
    case MNav(tr) => NavRoute(s, tr, goals);
    case MUpdateTasks => UpdateTasksRoute(s, goals);
    case MGroup => GroupRoute(s, goals);
    case MStep => StepRoute(s, goals);
    case MClear(keepNav) => ClearRoute(s, keepNav, goals);
    case MEnter(mode, notify) => EnterRoute(s, mode, notify);
    case MCancelIdle => EnterRoute(s, Canceling, false);
    case _ => SameRoute(s, m, goals);
  }

  lemma {:induction false} PathRoute(s: Sched, ms: seq<Move>, t: Sched, goals: seq<SeqId>)
    requires Path(s, ms, t) && Follows(Route(s), goals)
    ensures Follows(Route(t), goals)
    decreases |ms|
  {
    if ms != [] {
      MoveRoute(s, ms[0], goals);
      hide Follows, Route, Do, Enabled;
      PathRoute(Do(s, ms[0]), ms[1..], t, goals);
    }
  }

  lemma {:induction false} AppendGoal(route: seq<SeqId>, goals: seq<SeqId>, more: seq<SeqId>)
    requires Follows(route, goals)
    ensures Follows(route + more, goals + more)
    decreases |more|
  {
    if more == [] {
      assert route + more == route && goals + more == goals;
    } else {
      var fewer := more[..|more| - 1];
      AppendGoal(route, goals, fewer);
      assert (route + more)[..|route + more| - 1] == route + fewer;
      assert (goals + more)[..|goals + more| - 1] == goals + fewer;
    }
  }

  lemma AcceptRoute(s: Sched, op: Op)
    ensures Route(Accept(s, op)) == Route(s) + Goals(if op.OpEnqueue? then [op.item] else [])
  {
    hide Passed, Goals, Driving;
    NoGoals();
    var p, d, q, g := Passed(s.out), Driving(s.nav), Goals(s.queue), Goals(s.staging);
    if op.OpEnqueue? {
      GoalsAppend(s.staging, [op.item]);
      assert p + d + (q + (g + Goals([op.item]))) == p + d + (q + g) + Goals([op.item]);
    } else if op.OpCommit? {
      GoalsAppend(s.queue, s.staging);
      assert p + d + ((q + g) + []) == p + d + (q + g);
    }
  }

  lemma NoGoals()
    ensures Goals([]) == []
  {
  }

  /** In every run, with any orders, cancels, failures and throws in it, the nodes reported as passed, the current goal
      and the goals to come follow the goals that were handed over: each at most once and in their order. */
  lemma {:induction false} RunRoute(ops: seq<Op>)
    ensures Follows(Route(Run(ops)), Goals(EnqueuedItems(ops)))
  {
    if ops == [] {
      assert Route(INITIAL) == [];
    } else {
      var before, op := ops[..|ops| - 1], ops[|ops| - 1];
      var more := if op.OpEnqueue? then [op.item] else [];
      var goals := Goals(EnqueuedItems(before));
      assert EnqueuedItems(ops) == EnqueuedItems(before) + more;
      hide Follows, Route, Apply, Accept, Goals, EnqueuedItems;
      GoalsAppend(EnqueuedItems(before), more);
      RunRoute(before);
      AcceptRoute(Run(before), op);
      AppendGoal(Route(Run(before)), goals, Goals(more));
      var ms := PathApply(Run(before), op);
      PathRoute(Accept(Run(before), op), ms, Run(ops), Goals(EnqueuedItems(ops)));
    }
  }

  lemma {:induction false} RouteStart(s: Sched)
    ensures Route(s) == Passed(s.out) + (Driving(s.nav) + (Goals(s.queue) + Goals(s.staging)))
  {
    hide Passed, Driving, Goals;
  }

  /** The nodes reported as passed follow the goals handed over; where those ascend, the passed nodes ascend. */
  lemma {:induction false} PassedAscends(ops: seq<Op>)
    ensures Follows(Passed(Run(ops).out), Goals(EnqueuedItems(ops)))
    ensures Strict(Goals(EnqueuedItems(ops))) ==> RouteOk(Passed(Run(ops).out), Goals(EnqueuedItems(ops)))
  {
    hide *;
    var s, goals := Run(ops), Goals(EnqueuedItems(ops));
    RunRoute(ops);
    RouteStart(s);
    FollowsStart(Passed(s.out), Driving(s.nav) + (Goals(s.queue) + Goals(s.staging)), goals);
    if Strict(goals) {
      FollowsStrictly(Passed(s.out), goals);
    }
  }
}
