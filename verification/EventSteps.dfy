/** The steps of the interpreter, on the value of its iterator.

    `Pending` says what an iterator still has to yield. Every step keeps it, minus the event the step yields,
    so that iterating over an order yields exactly its stream. `Walked` says what it has walked over. */
module EventSteps {
  import opened Vda
  import opened Graphs
  import opened Interpretation
  import opened Trails

  datatype IterState =
    | HandlingInitial
    | HandlingPreNodeAction
    | HandlingNodeAction
    | HandlingNodeActionQueue
    | HandlingPreEdgeAction
    | HandlingEdgeAction
    | HandlingEdgeActionQueue
    | HandlingActionYield
    | HandlingNavigation
    | HandlingTransition
    | PreDone
    | Done

  /** The value of an iterator; `actions` is what lies between its two action iterators. */
  datatype Iter = Iter(
    state: IterState,
    n: nat,
    e: nat,
    actions: seq<Action>,
    group: seq<Action>,
    ceiling: BlockingType,
    buffered: seq<Group>,
    stop: bool,
    goal: Option<Node>,
    via: Option<Edge>,
    graph: Option<Elements>)

  const FRESH: Iter := Iter(HandlingInitial, 0, 0, [], [], NONE, [], false, None, None, None)

  datatype Outcome = Yielded(event: Yield) | Finished | Thrown

  // Termination /////////////////////////////////////////////////////////////////////////////////

  /** What holds for every order, however malformed. */
  ghost predicate Inv(o: Order, it: Iter)
  {
    && it.n <= |o.nodes| && it.e <= |o.edges|
    && (!it.state.HandlingInitial? && !it.state.HandlingPreNodeAction? && !it.state.PreDone? && !it.state.Done? ==>
          it.n < |o.nodes|)
    && (it.state.PreDone? ==> it.graph.Some?)
  }

  function Phase(st: IterState): nat
  {
    match st
    case HandlingInitial => 8
    case HandlingPreEdgeAction => 7
    case HandlingEdgeAction => 6
    case HandlingEdgeActionQueue => 6
    case HandlingNavigation => 5
    case HandlingActionYield => 4
    case HandlingPreNodeAction => 3
    case HandlingNodeAction => 2
    case HandlingNodeActionQueue => 2
    case HandlingTransition => 1
    case PreDone => 1
    case Done => 0
  }

  /** Orders the steps between an action state and its queue state. */
  function Turn(it: Iter): nat
  {
    match it.state
    case HandlingEdgeAction => if it.actions != [] && it.group == [] then 0 else 3
    case HandlingNodeAction => if it.actions != [] && it.group == [] then 0 else 3
    case HandlingEdgeActionQueue => if it.group != [] then 2 else 1
    case HandlingNodeActionQueue => if it.group != [] then 2 else 1
    case PreDone => if it.goal.Some? then 1 else 0
    case _ => 0
  }

  function NodesLeft(o: Order, it: Iter): nat
  {
    if it.n <= |o.nodes| then |o.nodes| - it.n else 0
  }

  /** Lexicographically less in nodes left, phase, actions left, turn, and buffered groups. */
  predicate Less(o: Order, b: Iter, a: Iter)
  {
    || NodesLeft(o, b) < NodesLeft(o, a)
    || (NodesLeft(o, b) == NodesLeft(o, a) &&
        (|| Phase(b.state) < Phase(a.state)
         || (Phase(b.state) == Phase(a.state) &&
             (|| |b.actions| < |a.actions|
              || (|b.actions| == |a.actions| &&
                  (|| Turn(b) < Turn(a)
                   || (Turn(b) == Turn(a) && |b.buffered| < |a.buffered|)))))))
  }

  lemma LessTransitive(o: Order, a: Iter, b: Iter, c: Iter)
    requires Less(o, b, a) && Less(o, c, b)
    ensures Less(o, c, a)
  {
  }

  // What is pending /////////////////////////////////////////////////////////////////////////////

  /** The sections of a stream that are still to come. */
  datatype Plan = Plan(news: seq<Action>, leg: Option<Leg>, stopHint: bool, groups: seq<Group>, rest: seq<Yield>)

  function Leads(it: Iter): Option<Leg>
  {
    if it.goal.Some? && it.via.Some? then Some(Leg(it.goal.value, it.via.value)) else None
  }

  function Both(actions: seq<Action>, more: seq<Action>): seq<Action>
  {
    actions + more
  }

  function Hint(stop: bool, actions: seq<Action>): bool
  {
    stop || AnyBlocks(actions)
  }

  // the groups still to come in an action state, in a queue state, and before the actions `more`
  function ActionGroups(buffered: seq<Group>, group: seq<Action>, actions: seq<Action>, more: seq<Action>): seq<Group>
  {
    buffered + GroupsFrom(group, actions) + Groups(more)
  }

  function QueueGroups(buffered: seq<Group>, group: seq<Action>, actions: seq<Action>, more: seq<Action>): seq<Group>
  {
    buffered + Flush(group) + Groups(actions) + Groups(more)
  }

  function MoreGroups(buffered: seq<Group>, more: seq<Action>): seq<Group>
  {
    buffered + Groups(more)
  }

  // the plan in an action state and in a queue state
  function ActionPlan(stop: bool, buffered: seq<Group>, group: seq<Action>, actions: seq<Action>, more: seq<Action>,
                      leg: Option<Leg>, rest: seq<Yield>): Plan
  {
    Plan(Both(actions, more), leg, Hint(stop, Both(actions, more)), ActionGroups(buffered, group, actions, more), rest)
  }

  function QueuePlan(stop: bool, buffered: seq<Group>, group: seq<Action>, actions: seq<Action>, more: seq<Action>,
                     leg: Option<Leg>, rest: seq<Yield>): Plan
  {
    Plan(Both(actions, more), leg, Hint(stop, Both(actions, more)), QueueGroups(buffered, group, actions, more), rest)
  }

  // the plan before the actions `more`
  function MorePlan(stop: bool, buffered: seq<Group>, more: seq<Action>, leg: Option<Leg>, rest: seq<Yield>): Plan
  {
    Plan(more, leg, Hint(stop, more), MoreGroups(buffered, more), rest)
  }

  function PlanOf(o: Order, it: Iter): Plan
    requires |o.nodes| == |o.edges| + 1 && Inv(o, it)
  {
    var here := EdgeActions(o, it.n);
    var passed := if it.n > 0 then EdgeActions(o, it.n - 1) else [];
    match it.state
    case HandlingInitial => Plan([], None, false, [], Stream(o))
    case HandlingPreNodeAction => Plan([], None, false, [], EventsFrom(o, it.n))
    case HandlingNodeAction =>
      ActionPlan(it.stop, it.buffered, it.group, it.actions, here, LegTo(o, it.n), EventsFrom(o, it.n + 1))
    case HandlingNodeActionQueue =>
      QueuePlan(it.stop, it.buffered, it.group, it.actions, here, LegTo(o, it.n), EventsFrom(o, it.n + 1))
    case HandlingTransition =>
      if it.n < BaseCount(o.nodes) then MorePlan(it.stop, it.buffered, here, LegTo(o, it.n), EventsFrom(o, it.n + 1))
      else Plan([], None, false, [], [GraphYield(o)])
    case HandlingPreEdgeAction => MorePlan(it.stop, it.buffered, passed, Leads(it), EventsFrom(o, it.n))
    case HandlingEdgeAction =>
      ActionPlan(it.stop, it.buffered, it.group, it.actions, [], Leads(it), EventsFrom(o, it.n))
    case HandlingEdgeActionQueue =>
      QueuePlan(it.stop, it.buffered, it.group, it.actions, [], Leads(it), EventsFrom(o, it.n))
    case HandlingNavigation => Plan([], Leads(it), it.stop, it.buffered, EventsFrom(o, it.n))
    case HandlingActionYield => Plan([], None, false, it.buffered, EventsFrom(o, it.n))
    case PreDone => Plan([], Leads(it), it.stop, it.buffered, [GraphYield(o)])
    case Done => Plan([], None, false, [], [])
  }

  function Flatten(p: Plan): seq<Yield>
  {
    Section(p.news, p.leg, p.stopHint, p.groups, p.rest)
  }

  /** The events an iterator has still to yield. */
  function Pending(o: Order, it: Iter): seq<Yield>
    requires |o.nodes| == |o.edges| + 1 && Inv(o, it)
  {
    Flatten(PlanOf(o, it))
  }

  // What every step keeps ///////////////////////////////////////////////////////////////////////

  /** The edge iterator is one behind the node iterator and the graph holds what was passed. */
  ghost predicate Positioned(o: Order, n: nat, e: nat, graph: Option<Elements>)
    requires Walkable(o)
  {
    && n <= |o.nodes| && n <= FrontEdges(o.edges) + 1
    && (if n == 0 then e == 0 && graph == None else e == n - 1 && graph == Some(GraphOf(o, n)))
  }

  ghost predicate NoLeg(it: Iter)
  {
    it.goal.None? && it.via.None?
  }

  /** Behind a transition the step to the node just passed is pending. */
  ghost predicate LegPending(o: Order, n: nat, goal: Option<Node>, via: Option<Edge>)
    requires Walkable(o)
  {
    && 0 < n < |o.nodes|
    && (if n == 1 then goal.None? && via.None? else goal == Some(o.nodes[n - 1]) && via == Some(o.edges[n - 2]))
  }

  ghost predicate Ready(o: Order, it: Iter)
    requires Walkable(o)
  {
    && it.ceiling == CeilingOf(it.group)
    && match it.state
       case HandlingInitial => it == FRESH
       case HandlingPreNodeAction =>
         && Positioned(o, it.n, it.e, it.graph) && NoLeg(it) && it.group == [] && it.buffered == [] && !it.stop
         && it.n < |o.nodes| && (it.n == 0 ==> NodeActions(o, 0) == o.nodes[0].actions)
       case HandlingNodeAction => Positioned(o, it.n, it.e, it.graph) && NoLeg(it) && it.n < BaseCount(o.nodes)
       case HandlingNodeActionQueue => Positioned(o, it.n, it.e, it.graph) && NoLeg(it) && it.n < BaseCount(o.nodes)
       case HandlingTransition =>
         && Positioned(o, it.n, it.e, it.graph) && NoLeg(it) && it.group == []
         && (it.n >= BaseCount(o.nodes) ==> it.buffered == [] && !it.stop)
       case HandlingPreEdgeAction =>
         Positioned(o, it.n, it.e, it.graph) && LegPending(o, it.n, it.goal, it.via) && it.group == []
       case HandlingEdgeAction => Positioned(o, it.n, it.e, it.graph) && LegPending(o, it.n, it.goal, it.via)
       case HandlingEdgeActionQueue => Positioned(o, it.n, it.e, it.graph) && LegPending(o, it.n, it.goal, it.via)
       case HandlingNavigation =>
         Positioned(o, it.n, it.e, it.graph) && LegPending(o, it.n, it.goal, it.via) && it.group == []
       case HandlingActionYield =>
         Positioned(o, it.n, it.e, it.graph) && NoLeg(it) && it.group == [] && !it.stop && 0 < it.n
       case PreDone =>
         it.n == |o.nodes| && it.graph == Some(GraphOf(o, it.n)) && it.group == [] && (it.goal.Some? <==> it.via.Some?)
       case Done => true
  }

  ghost predicate Good(o: Order, it: Iter)
  {
    Walkable(o) && Inv(o, it) && Ready(o, it)
  }

  /** A step without an event changes nothing about what is pending. */
  ghost predicate Silent(o: Order, a: Iter, b: Iter)
  {
    && Inv(o, b) && Less(o, b, a)
    && (Good(o, a) ==> Good(o, b) && Pending(o, b) == Pending(o, a))
  }

  /** A step with an event yields the first pending one. */
  ghost predicate Yields(o: Order, a: Iter, event: Yield, b: Iter)
  {
    && Inv(o, b) && Less(o, b, a)
    && (Good(o, a) ==> Good(o, b) && Pending(o, a) == [event] + Pending(o, b))
  }

  ghost predicate Steps(o: Order, a: Iter, r: Outcome, b: Iter)
  {
    match r
    case Yielded(event) => Yields(o, a, event, b)
    case Finished => Good(o, a) ==> Pending(o, a) == []
    case Thrown => !Good(o, a)
  }

  lemma Chain(o: Order, a: Iter, b: Iter, r: Outcome, c: Iter)
    requires Silent(o, a, b) && Steps(o, b, r, c)
    ensures Steps(o, a, r, c)
  {
    hide Good, Pending, Less;
    if r.Yielded? {
      LessTransitive(o, a, b, c);
    }
  }

  // The trail ///////////////////////////////////////////////////////////////////////////////////

  /** What was walked over, for any order. */
  ghost predicate Walked(o: Order, it: Iter)
  {
    && Inv(o, it) && Spot(o, it.n, it.e, it.graph)
    && (it.state.PreDone? || it.state.Done? ==> 0 < it.n == |o.nodes| && it.e == |o.edges|)
  }

  ghost predicate Trail(o: Order, a: Iter, b: Iter)
  {
    Walked(o, a) ==> Walked(o, b)
  }

  ghost predicate Trailed(o: Order, a: Iter, r: Outcome, b: Iter)
  {
    !r.Thrown? ==> Trail(o, a, b) && (r.Finished? ==> b.state.Done?)
  }

  lemma TrailChain(o: Order, a: Iter, b: Iter, r: Outcome, c: Iter)
    requires Trail(o, a, b) && Trailed(o, b, r, c)
    ensures Trailed(o, a, r, c)
  {
    hide Walked;
  }

  /** A step that moves neither iterator. */
  lemma Stays(o: Order, a: Iter, b: Iter)
    requires Inv(o, b) && b.n == a.n && b.e == a.e && b.graph == a.graph
    requires b.state.PreDone? || b.state.Done? ==> a.state.PreDone?
    ensures Trail(o, a, b)
  {
    hide Spot;
  }

  lemma YieldsStays(o: Order, a: Iter, event: Yield, b: Iter)
    requires Yields(o, a, event, b) && b.n == a.n && b.e == a.e && b.graph == a.graph
    requires b.state.PreDone? || b.state.Done? ==> a.state.PreDone?
    ensures Trailed(o, a, Yielded(event), b)
  {
    hide Good, Pending, Less, Inv, Spot;
    Stays(o, a, b);
  }

  lemma SilentStays(o: Order, a: Iter, b: Iter)
    requires Silent(o, a, b) && b.n == a.n && b.e == a.e && b.graph == a.graph
    requires b.state.PreDone? || b.state.Done? ==> a.state.PreDone?
    ensures Trail(o, a, b)
  {
    hide Good, Pending, Less, Inv, Spot;
    Stays(o, a, b);
  }

  // Steps within the actions of a node or an edge ///////////////////////////////////////////////

  lemma SamePlan(o: Order, a: Iter, b: Iter)
    requires Inv(o, a) && Inv(o, b) && Less(o, b, a)
    requires Good(o, a) ==> Good(o, b) && PlanOf(o, b) == PlanOf(o, a)
    ensures Silent(o, a, b)
  {
    hide PlanOf, Good, Less, Flatten;
  }

  lemma StepIsSilent(o: Order, a: Iter, b: Iter)
    requires Inv(o, b) && Less(o, b, a)
    requires Good(o, a) ==> Good(o, b) && Pending(o, b) == Pending(o, a)
    ensures Silent(o, a, b)
  {
  }

  /** The first new action of a plan is its first event. */
  lemma FirstNews(p: Plan, q: Plan, a: Action)
    requires p == q.(news := [a] + q.news)
    ensures Flatten(p) == [NewAction(a)] + Flatten(q)
  {
    assert NewActions(p.news) == [NewAction(a)] + NewActions(q.news);
  }

  lemma FirstStep(p: Plan, q: Plan, leg: Leg)
    requires p.news == [] && p.leg == Some(leg) && q == Plan([], None, q.stopHint, p.groups, p.rest)
    ensures Flatten(p) == [NavigationStep(leg.goal, leg.via, p.stopHint)] + Flatten(q)
  {
    assert NewActions([]) == [];
  }

  lemma FirstGroup(p: Plan, q: Plan, g: Group)
    requires p.news == [] && p.leg == None && p == q.(groups := [g] + q.groups, stopHint := p.stopHint)
    ensures Flatten(p) == [GroupOf(g)] + Flatten(q)
  {
    assert NewActions([]) == [];
    assert GroupYields(p.groups) == [GroupOf(g)] + GroupYields(q.groups);
  }

  lemma OnlyRest(p: Plan)
    requires p.news == [] && p.leg == None && p.groups == []
    ensures Flatten(p) == p.rest
  {
    assert NewActions([]) == [] && GroupYields([]) == [];
  }

  lemma BlocksMore(a: Action, rest: seq<Action>)
    ensures AnyBlocks([a] + rest) <==> a.blocking != NONE || AnyBlocks(rest)
  {
    var all := [a] + rest;
    if i :| 0 <= i < |all| && all[i].blocking != NONE {
      if i > 0 {
        assert rest[i - 1] == all[i];
      }
    }
    assert all[0] == a && forall i | 0 <= i < |rest| :: all[i + 1] == rest[i];
  }

  lemma {:induction false} CeilingMore(group: seq<Action>, a: Action)
    ensures CeilingOf(group + [a]) == Ceil(CeilingOf(group), a.blocking)
  {
    assert (group + [a])[..|group|] == group;
  }

  // What the steps do to plans //////////////////////////////////////////////////////////////////

  lemma {:induction false} LeavingGroups(group: seq<Action>, actions: seq<Action>)
    requires actions == [] || actions[0].blocking == HARD
    ensures GroupsFrom(group, actions) == Flush(group) + Groups(actions)
  {
    if actions != [] {
      var one, rest := Flush([actions[0]]), GroupsFrom([], actions[1..]);
      assert Groups(actions) == [] + one + rest;
      assert GroupsFrom(group, actions) == Flush(group) + one + rest;
      hide *;
      assert Flush(group) + one + rest == Flush(group) + ([] + one + rest);
    } else {
      assert Flush(group) + [] == Flush(group);
    }
  }

  lemma LeavingBuffered(buffered: seq<Group>, group: seq<Action>, actions: seq<Action>, more: seq<Action>)
    requires actions == [] || actions[0].blocking == HARD
    ensures ActionGroups(buffered, group, actions, more) == QueueGroups(buffered, group, actions, more)
  {
    LeavingGroups(group, actions);
    Associative(buffered, Flush(group), Groups(actions));
    hide GroupsFrom, Groups, Flush;
  }

  /** Leaving an action state changes nothing about what is to come. */
  lemma Leaving(stop: bool, buffered: seq<Group>, group: seq<Action>, actions: seq<Action>, more: seq<Action>,
                leg: Option<Leg>, rest: seq<Yield>)
    requires actions == [] || actions[0].blocking == HARD
    ensures ActionPlan(stop, buffered, group, actions, more, leg, rest) ==
            QueuePlan(stop, buffered, group, actions, more, leg, rest)
  {
    LeavingBuffered(buffered, group, actions, more);
    hide ActionGroups, QueueGroups, Both, Hint;
  }

  lemma TakingGroups(buffered: seq<Group>, group: seq<Action>, actions: seq<Action>, more: seq<Action>)
    requires actions != [] && (actions[0].blocking == HARD ==> group == [])
    ensures ActionGroups(buffered, group, actions, more) ==
            if actions[0].blocking == HARD then QueueGroups(buffered, group + [actions[0]], actions[1..], more)
            else ActionGroups(buffered, group + [actions[0]], actions[1..], more)
  {
    if actions[0].blocking == HARD {
      var one, rest := Flush([actions[0]]), Groups(actions[1..]);
      assert group + [actions[0]] == [actions[0]];
      assert GroupsFrom(group, actions) == [] + one + rest;
      hide GroupsFrom, Flush, Groups;
      assert buffered + ([] + one + rest) == buffered + one + rest;
    }
  }

  lemma TakingHint(actions: seq<Action>, more: seq<Action>, stop: bool)
    requires actions != []
    ensures Both(actions, more) == [actions[0]] + Both(actions[1..], more)
    ensures Hint(stop, Both(actions, more)) == Hint(stop || actions[0].blocking != NONE, Both(actions[1..], more))
  {
    BlocksMore(actions[0], Both(actions[1..], more));
    assert Both(actions, more) == [actions[0]] + Both(actions[1..], more);
    hide AnyBlocks, Both;
  }

  /** Taking an action yields it as a new action. */
  lemma Taking(stop: bool, buffered: seq<Group>, group: seq<Action>, actions: seq<Action>, more: seq<Action>,
               leg: Option<Leg>, rest: seq<Yield>)
    requires actions != [] && (actions[0].blocking == HARD ==> group == [])
    ensures var a, left := actions[0], actions[1..];
            Flatten(ActionPlan(stop, buffered, group, actions, more, leg, rest)) ==
            [NewAction(a)] +
            Flatten(if a.blocking == HARD then QueuePlan(true, buffered, group + [a], left, more, leg, rest)
                    else ActionPlan(stop || a.blocking != NONE, buffered, group + [a], left, more, leg, rest))
  {
    var a, left := actions[0], actions[1..];
    TakingGroups(buffered, group, actions, more);
    TakingHint(actions, more, stop);
    var p := ActionPlan(stop, buffered, group, actions, more, leg, rest);
    var q := if a.blocking == HARD then QueuePlan(true, buffered, group + [a], left, more, leg, rest)
             else ActionPlan(stop || a.blocking != NONE, buffered, group + [a], left, more, leg, rest);
    hide ActionGroups, QueueGroups, Both, Hint, Flatten;
    FirstNews(p, q, a);
  }

  /** Queueing the group changes nothing about what is to come. */
  lemma Flushing(buffered: seq<Group>, group: seq<Action>, actions: seq<Action>, more: seq<Action>)
    ensures QueueGroups(buffered, group, actions, more) == ActionGroups(buffered + Flush(group), [], actions, more)
    ensures QueueGroups(buffered, group, actions, more) == QueueGroups(buffered + Flush(group), [], actions, more)
    ensures QueueGroups(buffered, group, [], more) == MoreGroups(buffered + Flush(group), more)
    ensures Both([], more) == more
  {
    assert Groups([]) == [] && Flush([]) == [];
    hide GroupsFrom, Flush;
    var b := buffered + Flush(group);
    assert b + [] == b;
  }

  lemma Entering(buffered: seq<Group>, more: seq<Action>)
    ensures MoreGroups(buffered, more) == ActionGroups(buffered, [], more, [])
    ensures Both(more, []) == more
    ensures MoreGroups(buffered, []) == buffered
    ensures !AnyBlocks([])
  {
    assert Groups([]) == [];
    hide GroupsFrom, Flush;
    assert buffered + Groups(more) + [] == buffered + Groups(more);
  }

  function Taken(a: Iter, queue: IterState): Iter
    requires a.actions != []
  {
    var action := a.actions[0];
    a.(state := if action.blocking == HARD then queue else a.state,
       stop := a.stop || action.blocking != NONE,
       ceiling := Ceil(a.ceiling, action.blocking),
       group := a.group + [action],
       actions := a.actions[1..])
  }

  function Flushed(a: Iter): Iter
  {
    if a.group == [] then a
    else a.(buffered := a.buffered + [Group(a.group, a.ceiling)], group := [], ceiling := NONE)
  }

  lemma FlushedIs(a: Iter)
    requires a.ceiling == CeilingOf(a.group)
    ensures Flushed(a) == a.(buffered := a.buffered + Flush(a.group), group := [], ceiling := CeilingOf([]))
  {
    assert a.buffered + [] == a.buffered;
  }

  lemma PendingIs(o: Order, a: Iter)
    requires |o.nodes| == |o.edges| + 1 && Inv(o, a)
    ensures Pending(o, a) == Flatten(PlanOf(o, a))
  {
  }

  // The plans of the four states with actions /////////////////////////////////////////////////////

  lemma {:induction false} NodeActionPlanIs(o: Order, a: Iter)
    requires |o.nodes| == |o.edges| + 1 && Inv(o, a) && a.state.HandlingNodeAction?
    ensures PlanOf(o, a) ==
            ActionPlan(a.stop, a.buffered, a.group, a.actions, EdgeActions(o, a.n), LegTo(o, a.n),
                       EventsFrom(o, a.n + 1))
  {
    hide ActionPlan, QueuePlan, MorePlan, EventsFrom, EdgeActions, BaseCount, GraphOf, Stream, GraphYield, LegTo, Leads;
  }

  lemma {:induction false} NodeQueuePlanIs(o: Order, a: Iter)
    requires |o.nodes| == |o.edges| + 1 && Inv(o, a) && a.state.HandlingNodeActionQueue?
    ensures PlanOf(o, a) ==
            QueuePlan(a.stop, a.buffered, a.group, a.actions, EdgeActions(o, a.n), LegTo(o, a.n),
                       EventsFrom(o, a.n + 1))
  {
    hide ActionPlan, QueuePlan, MorePlan, EventsFrom, EdgeActions, BaseCount, GraphOf, Stream, GraphYield, LegTo, Leads;
  }

  lemma {:induction false} EdgeActionPlanIs(o: Order, a: Iter)
    requires |o.nodes| == |o.edges| + 1 && Inv(o, a) && a.state.HandlingEdgeAction?
    ensures PlanOf(o, a) ==
            ActionPlan(a.stop, a.buffered, a.group, a.actions, [], Leads(a), EventsFrom(o, a.n))
  {
    hide ActionPlan, QueuePlan, MorePlan, EventsFrom, EdgeActions, BaseCount, GraphOf, Stream, GraphYield, LegTo, Leads;
  }

  lemma {:induction false} EdgeQueuePlanIs(o: Order, a: Iter)
    requires |o.nodes| == |o.edges| + 1 && Inv(o, a) && a.state.HandlingEdgeActionQueue?
    ensures PlanOf(o, a) ==
            QueuePlan(a.stop, a.buffered, a.group, a.actions, [], Leads(a), EventsFrom(o, a.n))
  {
    hide ActionPlan, QueuePlan, MorePlan, EventsFrom, EdgeActions, BaseCount, GraphOf, Stream, GraphYield, LegTo, Leads;
  }

  // Node actions ////////////////////////////////////////////////////////////////////////////////

  lemma NodeLeftPlan(o: Order, a: Iter)
    requires |o.nodes| == |o.edges| + 1 && Inv(o, a) && a.state.HandlingNodeAction?
    requires a.actions == [] || a.actions[0].blocking == HARD
    ensures PlanOf(o, a.(state := HandlingNodeActionQueue)) == PlanOf(o, a)
  {
    hide EdgeActions, LegTo, EventsFrom, BaseCount, PlanOf, ActionPlan, QueuePlan;
    NodeActionPlanIs(o, a);
    NodeQueuePlanIs(o, a.(state := HandlingNodeActionQueue));
    Leaving(a.stop, a.buffered, a.group, a.actions, EdgeActions(o, a.n), LegTo(o, a.n), EventsFrom(o, a.n + 1));
  }

  lemma NodeActionLess(o: Order, a: Iter)
    requires Inv(o, a) && a.state.HandlingNodeAction?
    requires a.actions == [] || (a.actions[0].blocking == HARD && a.group != [])
    ensures var b := a.(state := HandlingNodeActionQueue); Inv(o, b) && Less(o, b, a)
  {
  }

  lemma NodeActionLeaves(o: Order, a: Iter)
    requires Inv(o, a) && a.state.HandlingNodeAction?
    requires a.actions == [] || (a.actions[0].blocking == HARD && a.group != [])
    ensures Silent(o, a, a.(state := HandlingNodeActionQueue))
  {
    var b := a.(state := HandlingNodeActionQueue);
    LeadsIs(a);
    LeadsIs(b);
    hide *;
    NodeActionLess(o, a);
    if Good(o, a) {
      NodeParts(o, a);
      NodeParts(o, b);
      WalkableParts(o);
      NodeLeftPlan(o, a);
    }
    SamePlan(o, a, b);
  }

  lemma NodeTakenPending(o: Order, a: Iter)
    requires a.state.HandlingNodeAction? && a.actions != [] && (a.actions[0].blocking == HARD ==> a.group == [])
    requires |o.nodes| == |o.edges| + 1 && Inv(o, a) && Inv(o, Taken(a, HandlingNodeActionQueue))
    ensures Pending(o, a) == [NewAction(a.actions[0])] + Pending(o, Taken(a, HandlingNodeActionQueue))
  {
    hide EdgeActions, LegTo, EventsFrom, BaseCount, PlanOf, ActionPlan, QueuePlan, Flatten;
    NodeActionPlanIs(o, a);
    if a.actions[0].blocking == HARD {
      NodeQueuePlanIs(o, Taken(a, HandlingNodeActionQueue));
    } else {
      NodeActionPlanIs(o, Taken(a, HandlingNodeActionQueue));
    }
    Taking(a.stop, a.buffered, a.group, a.actions, EdgeActions(o, a.n), LegTo(o, a.n), EventsFrom(o, a.n + 1));
  }

  lemma NodeParts(o: Order, a: Iter)
    requires a.state.HandlingNodeAction? || a.state.HandlingNodeActionQueue?
    ensures Good(o, a) <==>
            && Walkable(o) && Inv(o, a) && a.ceiling == CeilingOf(a.group)
            && Positioned(o, a.n, a.e, a.graph) && NoLeg(a) && a.n < BaseCount(o.nodes)
  {
    hide Positioned, LegPending, CeilingOf, BaseCount, Walkable;
  }

  lemma NodeTakenReady(o: Order, a: Iter)
    requires a.state.HandlingNodeAction? && a.actions != [] && Good(o, a)
    ensures Good(o, Taken(a, HandlingNodeActionQueue))
  {
    hide Good, Positioned, LegPending, CeilingOf, BaseCount, Ceil, Walkable;
    NodeParts(o, a);
    NodeParts(o, Taken(a, HandlingNodeActionQueue));
    CeilingMore(a.group, a.actions[0]);
  }

  lemma NodeTakenLess(o: Order, a: Iter)
    requires Inv(o, a) && a.state.HandlingNodeAction?
    requires a.actions != [] && (a.actions[0].blocking == HARD ==> a.group == [])
    ensures var b := Taken(a, HandlingNodeActionQueue); Inv(o, b) && Less(o, b, a)
  {
  }

  lemma NodeActionTakes(o: Order, a: Iter)
    requires Inv(o, a) && a.state.HandlingNodeAction?
    requires a.actions != [] && (a.actions[0].blocking == HARD ==> a.group == [])
    ensures Yields(o, a, NewAction(a.actions[0]), Taken(a, HandlingNodeActionQueue))
  {
    hide *;
    NodeTakenLess(o, a);
    if Good(o, a) {
      NodeTakenReady(o, a);
      NodeParts(o, a);
      WalkableParts(o);
      NodeTakenPending(o, a);
    }
    StepYields(o, a, NewAction(a.actions[0]), Taken(a, HandlingNodeActionQueue));
  }

  lemma NodeQueueLess(o: Order, a: Iter, b: Iter)
    requires Inv(o, a) && a.state.HandlingNodeActionQueue?
    requires b == Flushed(a.(state := if a.actions != [] then HandlingNodeAction else HandlingTransition))
    ensures Inv(o, b) && Less(o, b, a)
  {
  }

  lemma NodeQueueReady(o: Order, a: Iter, b: Iter)
    requires a.state.HandlingNodeActionQueue? && Good(o, a) && Inv(o, b)
    requires b == Flushed(a.(state := if a.actions != [] then HandlingNodeAction else HandlingTransition))
    ensures Good(o, b)
  {
    var to := a.(state := if a.actions != [] then HandlingNodeAction else HandlingTransition);
    FlushedLegs(to);
    LeadsIs(to);
    LeadsIs(a);
    hide *;
    NodeParts(o, a);
    FlushedIs(to);
    if a.actions != [] {
      NodeParts(o, b);
    } else {
      TransitionEnough(o, b);
    }
  }

  lemma FlushedLegs(a: Iter)
    ensures NoLeg(Flushed(a)) <==> NoLeg(a)
  {
  }

  lemma TransitionEnough(o: Order, b: Iter)
    requires b.state.HandlingTransition? && Walkable(o) && Inv(o, b) && b.ceiling == CeilingOf(b.group)
    requires Positioned(o, b.n, b.e, b.graph) && NoLeg(b) && b.group == [] && b.n < BaseCount(o.nodes)
    ensures Good(o, b)
  {
    hide Positioned, NoLeg, CeilingOf, BaseCount, Walkable;
  }

  /** Queueing the group, in terms of plans. */
  lemma FlushingPlans(stop: bool, buffered: seq<Group>, group: seq<Action>, actions: seq<Action>, more: seq<Action>,
                      leg: Option<Leg>, rest: seq<Yield>)
    ensures QueuePlan(stop, buffered, group, actions, more, leg, rest) ==
            ActionPlan(stop, buffered + Flush(group), [], actions, more, leg, rest)
    ensures QueuePlan(stop, buffered, group, [], more, leg, rest) ==
            MorePlan(stop, buffered + Flush(group), more, leg, rest)
  {
    Flushing(buffered, group, actions, more);
    hide ActionGroups, QueueGroups, MoreGroups, Both, Hint, Flush;
  }

  lemma NodeQueuePlan(o: Order, a: Iter, b: Iter)
    requires |o.nodes| == |o.edges| + 1 && o.nodes != [] && a.state.HandlingNodeActionQueue? && Inv(o, a) && Inv(o, b)
    requires a.n < BaseCount(o.nodes)
    requires var to := a.(state := if a.actions != [] then HandlingNodeAction else HandlingTransition);
             b == to.(buffered := a.buffered + Flush(a.group), group := [], ceiling := b.ceiling)
    ensures PlanOf(o, b) == PlanOf(o, a)
  {
    hide *;
    NodeQueuePlanIs(o, a);
    FlushingPlans(a.stop, a.buffered, a.group, a.actions, EdgeActions(o, a.n), LegTo(o, a.n), EventsFrom(o, a.n + 1));
    if a.actions != [] {
      NodeActionPlanIs(o, b);
    } else {
      WalkPlan(o, b);
    }
  }

  lemma NodeQueueLeaves(o: Order, a: Iter)
    requires Inv(o, a) && a.state.HandlingNodeActionQueue?
    ensures Silent(o, a, Flushed(a.(state := if a.actions != [] then HandlingNodeAction else HandlingTransition)))
  {
    var to := a.(state := if a.actions != [] then HandlingNodeAction else HandlingTransition);
    var b := Flushed(to);
    hide *;
    NodeQueueLess(o, a, b);
    if Good(o, a) {
      NodeParts(o, a);
      WalkableParts(o);
      FlushedIs(to);
      NodeQueueReady(o, a, b);
      NodeQueuePlan(o, a, b);
    }
    SamePlan(o, a, b);
  }

  function NodeEntered(o: Order, a: Iter): Iter
    requires a.n < |o.nodes|
  {
    if o.nodes[a.n].released then a.(state := HandlingNodeAction, actions := o.nodes[a.n].actions)
    else a.(state := HandlingTransition)
  }

  // the events from a node on, as the plan of its first action state
  lemma EventsUnfold(o: Order, n: nat, actions: seq<Action>)
    requires |o.nodes| == |o.edges| + 1 && n < BaseCount(o.nodes) && actions == NodeActions(o, n)
    ensures var here := EdgeActions(o, n);
            EventsFrom(o, n) == Flatten(ActionPlan(false, [], [], actions, here, LegTo(o, n), EventsFrom(o, n + 1)))
  {
    var here := EdgeActions(o, n);
    assert [] + GroupsFrom([], actions) == Groups(actions);
    hide GroupsFrom, Groups, BaseCount, AnyBlocks, EdgeActions, NodeActions, LegTo, Section;
  }

  lemma NodeEnteredReady(o: Order, a: Iter)
    requires Good(o, a) && a.state.HandlingPreNodeAction? && a.n < |o.nodes|
    ensures Good(o, NodeEntered(o, a))
    ensures if o.nodes[a.n].released then a.n < BaseCount(o.nodes) && NodeActions(o, a.n) == o.nodes[a.n].actions
            else a.n >= BaseCount(o.nodes)
  {
    NodePlace(o, a);
    NodeReleased(o, a.n);
    hide Positioned, NoLeg, CeilingOf, BaseCount, FrontEdges, Walkable;
  }

  lemma NodePlace(o: Order, a: Iter)
    requires Good(o, a) && a.state.HandlingPreNodeAction?
    ensures Walkable(o) && a.n <= FrontEdges(o.edges) + 1
  {
    hide CeilingOf, BaseCount, GraphOf, Walkable, FrontEdges;
  }

  lemma {:induction false} PreNodePlan(o: Order, a: Iter)
    requires |o.nodes| == |o.edges| + 1 && Inv(o, a) && a.state.HandlingPreNodeAction?
    ensures PlanOf(o, a) == Plan([], None, false, [], EventsFrom(o, a.n))
  {
    hide ActionPlan, QueuePlan, ActionGroups, QueueGroups, MoreGroups, Both, Hint, AnyBlocks, EventsFrom,
      EdgeActions, CeilingOf, BaseCount, GraphOf, Stream, GraphYield, LegTo, NodeActions, GroupsFrom, Groups, Flush,
      Ceil, Walkable, Section, Flatten;
  }

  lemma {:induction false} NodeEnteredPlan(o: Order, a: Iter)
    requires |o.nodes| == |o.edges| + 1 && Inv(o, a) && a.state.HandlingPreNodeAction? && a.n < |o.nodes|
    requires a.group == [] && a.buffered == [] && !a.stop
    ensures var b := NodeEntered(o, a);
            var actions, here := o.nodes[a.n].actions, EdgeActions(o, a.n);
            && Inv(o, b)
            && (o.nodes[a.n].released ==>
                  PlanOf(o, b) == ActionPlan(false, [], [], actions, here, LegTo(o, a.n), EventsFrom(o, a.n + 1)))
            && (!o.nodes[a.n].released && a.n >= BaseCount(o.nodes) ==>
                  PlanOf(o, b) == Plan([], None, false, [], [GraphYield(o)]))
  {
    hide ActionPlan, QueuePlan, ActionGroups, QueueGroups, MoreGroups, Both, Hint, AnyBlocks, EventsFrom,
      EdgeActions, CeilingOf, BaseCount, GraphOf, Stream, GraphYield, LegTo, NodeActions, GroupsFrom, Groups, Flush,
      Ceil, Walkable, Section, Flatten;
  }

  lemma NodeEnteredPending(o: Order, a: Iter)
    requires a.state.HandlingPreNodeAction? && a.n < |o.nodes| && Good(o, a) && Good(o, NodeEntered(o, a))
    requires if o.nodes[a.n].released then a.n < BaseCount(o.nodes) && NodeActions(o, a.n) == o.nodes[a.n].actions
             else a.n >= BaseCount(o.nodes)
    ensures Pending(o, NodeEntered(o, a)) == Pending(o, a)
  {
    hide *;
    PreNodeParts(o, a);
    PreNodePlan(o, a);
    NodeEnteredPlan(o, a);
    PendingIs(o, a);
    PendingIs(o, NodeEntered(o, a));
    OnlyRest(PlanOf(o, a));
    if o.nodes[a.n].released {
      EventsUnfold(o, a.n, o.nodes[a.n].actions);
    } else {
      OnlyRest(PlanOf(o, NodeEntered(o, a)));
      EventsEnd(o, a.n);
    }
  }

  lemma PreNodeParts(o: Order, a: Iter)
    requires Good(o, a) && a.state.HandlingPreNodeAction?
    ensures o.nodes != [] && |o.nodes| == |o.edges| + 1 && Inv(o, a) && a.group == [] && a.buffered == [] && !a.stop
  {
    WalkableParts(o);
    hide Positioned, CeilingOf, Walkable, NodeActions;
  }

  lemma {:induction false} EventsEnd(o: Order, n: nat)
    requires |o.nodes| == |o.edges| + 1 && n >= BaseCount(o.nodes)
    ensures EventsFrom(o, n) == [GraphYield(o)]
  {
  }

  lemma PreNodeLeaves(o: Order, a: Iter)
    requires Inv(o, a) && a.state.HandlingPreNodeAction? && a.n < |o.nodes|
    ensures Silent(o, a, NodeEntered(o, a))
  {
    if Good(o, a) {
      NodeEnteredReady(o, a);
      NodeEnteredPending(o, a);
    }
    assert Inv(o, NodeEntered(o, a)) && Less(o, NodeEntered(o, a), a);
    hide *;
    StepIsSilent(o, a, NodeEntered(o, a));
  }

  // Edge actions ////////////////////////////////////////////////////////////////////////////////

  lemma EdgeLeftPlan(o: Order, a: Iter)
    requires |o.nodes| == |o.edges| + 1 && Inv(o, a) && a.state.HandlingEdgeAction?
    requires a.actions == [] || a.actions[0].blocking == HARD
    ensures PlanOf(o, a.(state := HandlingEdgeActionQueue)) == PlanOf(o, a)
  {
    hide EdgeActions, LegTo, EventsFrom, BaseCount, PlanOf, ActionPlan, QueuePlan;
    EdgeActionPlanIs(o, a);
    EdgeQueuePlanIs(o, a.(state := HandlingEdgeActionQueue));
    Leaving(a.stop, a.buffered, a.group, a.actions, [], Leads(a), EventsFrom(o, a.n));
  }

  lemma EdgeActionLess(o: Order, a: Iter)
    requires Inv(o, a) && a.state.HandlingEdgeAction?
    requires a.actions == [] || (a.actions[0].blocking == HARD && a.group != [])
    ensures var b := a.(state := HandlingEdgeActionQueue); Inv(o, b) && Less(o, b, a)
  {
  }

  lemma EdgeActionLeaves(o: Order, a: Iter)
    requires Inv(o, a) && a.state.HandlingEdgeAction?
    requires a.actions == [] || (a.actions[0].blocking == HARD && a.group != [])
    ensures Silent(o, a, a.(state := HandlingEdgeActionQueue))
  {
    var b := a.(state := HandlingEdgeActionQueue);
    LeadsIs(a);
    LeadsIs(b);
    hide *;
    EdgeActionLess(o, a);
    if Good(o, a) {
      EdgeParts(o, a);
      EdgeParts(o, b);
      WalkableParts(o);
      EdgeLeftPlan(o, a);
    }
    SamePlan(o, a, b);
  }

  lemma EdgeTakenPending(o: Order, a: Iter)
    requires a.state.HandlingEdgeAction? && a.actions != [] && (a.actions[0].blocking == HARD ==> a.group == [])
    requires |o.nodes| == |o.edges| + 1 && Inv(o, a) && Inv(o, Taken(a, HandlingEdgeActionQueue))
    ensures Pending(o, a) == [NewAction(a.actions[0])] + Pending(o, Taken(a, HandlingEdgeActionQueue))
  {
    hide EdgeActions, LegTo, EventsFrom, BaseCount, PlanOf, ActionPlan, QueuePlan, Flatten;
    EdgeActionPlanIs(o, a);
    if a.actions[0].blocking == HARD {
      EdgeQueuePlanIs(o, Taken(a, HandlingEdgeActionQueue));
    } else {
      EdgeActionPlanIs(o, Taken(a, HandlingEdgeActionQueue));
    }
    Taking(a.stop, a.buffered, a.group, a.actions, [], Leads(a), EventsFrom(o, a.n));
  }

  lemma EdgeParts(o: Order, a: Iter)
    requires a.state.HandlingEdgeAction? || a.state.HandlingEdgeActionQueue?
    ensures Good(o, a) <==>
            && Walkable(o) && Inv(o, a) && a.ceiling == CeilingOf(a.group)
            && Positioned(o, a.n, a.e, a.graph) && LegPending(o, a.n, a.goal, a.via)
  {
    hide Positioned, LegPending, CeilingOf, BaseCount, Walkable;
  }

  lemma EdgeTakenReady(o: Order, a: Iter)
    requires a.state.HandlingEdgeAction? && a.actions != [] && Good(o, a)
    ensures Good(o, Taken(a, HandlingEdgeActionQueue))
  {
    hide Good, Positioned, LegPending, CeilingOf, BaseCount, Ceil, Walkable;
    EdgeParts(o, a);
    EdgeParts(o, Taken(a, HandlingEdgeActionQueue));
    CeilingMore(a.group, a.actions[0]);
  }

  lemma EdgeTakenLess(o: Order, a: Iter)
    requires Inv(o, a) && a.state.HandlingEdgeAction?
    requires a.actions != [] && (a.actions[0].blocking == HARD ==> a.group == [])
    ensures var b := Taken(a, HandlingEdgeActionQueue); Inv(o, b) && Less(o, b, a)
  {
  }

  lemma EdgeActionTakes(o: Order, a: Iter)
    requires Inv(o, a) && a.state.HandlingEdgeAction?
    requires a.actions != [] && (a.actions[0].blocking == HARD ==> a.group == [])
    ensures Yields(o, a, NewAction(a.actions[0]), Taken(a, HandlingEdgeActionQueue))
  {
    hide *;
    EdgeTakenLess(o, a);
    if Good(o, a) {
      EdgeTakenReady(o, a);
      EdgeParts(o, a);
      WalkableParts(o);
      EdgeTakenPending(o, a);
    }
    StepYields(o, a, NewAction(a.actions[0]), Taken(a, HandlingEdgeActionQueue));
  }

  lemma EdgeQueueFlushes(o: Order, a: Iter)
    requires Inv(o, a) && a.state.HandlingEdgeActionQueue? && a.group != []
    ensures Silent(o, a, Flushed(a))
  {
    Flushing(a.buffered, a.group, a.actions, []);
    hide Positioned, LegPending, ActionGroups, QueueGroups, MoreGroups, Both, Hint, EventsFrom, EdgeActions,
      CeilingOf, Flatten, Flush, BaseCount, GraphOf, Stream, GraphYield, LegTo, NodeActions;
    if Good(o, a) {
      FlushedIs(a);
    }
    SamePlan(o, a, Flushed(a));
  }

  lemma EdgeQueueLeaves(o: Order, a: Iter)
    requires Inv(o, a) && a.state.HandlingEdgeActionQueue? && a.group == []
    ensures Silent(o, a, a.(state := if a.actions != [] then HandlingEdgeAction else HandlingNavigation))
  {
    Flushing(a.buffered, a.group, a.actions, []);
    Entering(a.buffered, []);
    assert a.buffered + Flush([]) == a.buffered;
    hide Positioned, LegPending, ActionGroups, QueueGroups, MoreGroups, Both, EventsFrom, EdgeActions, CeilingOf,
      Flatten, Flush, BaseCount, AnyBlocks, GraphOf, Stream, GraphYield, LegTo, NodeActions;
    SamePlan(o, a, a.(state := if a.actions != [] then HandlingEdgeAction else HandlingNavigation));
  }

  function EdgeEntered(o: Order, a: Iter): Iter
    requires a.e < |o.edges|
  {
    if o.edges[a.e].released then a.(state := HandlingEdgeAction, actions := o.edges[a.e].actions)
    else a.(state := HandlingNavigation)
  }

  lemma EdgeEnteredPlan(o: Order, a: Iter)
    requires |o.nodes| == |o.edges| + 1 && Inv(o, a) && a.state.HandlingPreEdgeAction?
    requires a.e < |o.edges| && a.e == a.n - 1 && a.group == []
    ensures PlanOf(o, EdgeEntered(o, a)) == PlanOf(o, a)
  {
    Entering(a.buffered, o.edges[a.e].actions);
    assert EdgeActions(o, a.n - 1) == if o.edges[a.e].released then o.edges[a.e].actions else [];
    assert Hint(a.stop, []) == a.stop;
    hide ActionPlan, QueuePlan, ActionGroups, QueueGroups, MoreGroups, Both, Hint, AnyBlocks, EventsFrom,
      EdgeActions, CeilingOf, BaseCount, GraphOf, Stream, GraphYield, LegTo, NodeActions, GroupsFrom, Groups, Flush,
      Ceil, Walkable, Section, Flatten;
  }

  lemma EdgeEnteredReady(o: Order, a: Iter)
    requires Good(o, a) && a.state.HandlingPreEdgeAction? && a.e < |o.edges|
    ensures Good(o, EdgeEntered(o, a)) && a.e == a.n - 1 && a.group == []
  {
    hide CeilingOf, BaseCount, GraphOf, Walkable;
  }

  lemma EdgeEnteredLess(o: Order, a: Iter)
    requires Inv(o, a) && a.state.HandlingPreEdgeAction? && a.e < |o.edges|
    ensures Inv(o, EdgeEntered(o, a)) && Less(o, EdgeEntered(o, a), a)
  {
  }

  lemma PreEdgeLeaves(o: Order, a: Iter)
    requires Inv(o, a) && a.state.HandlingPreEdgeAction? && a.e < |o.edges|
    ensures Silent(o, a, EdgeEntered(o, a))
  {
    if Good(o, a) {
      assert |o.nodes| == |o.edges| + 1;
      EdgeEnteredReady(o, a);
      hide *;
      EdgeEnteredPlan(o, a);
    }
    EdgeEnteredLess(o, a);
    hide *;
    SamePlan(o, a, EdgeEntered(o, a));
  }

  // Navigation and yields ///////////////////////////////////////////////////////////////////////

  lemma NavigationParts(o: Order, a: Iter)
    requires a.state.HandlingNavigation?
    ensures Good(o, a) <==>
            && Walkable(o) && Inv(o, a) && a.ceiling == CeilingOf(a.group)
            && Positioned(o, a.n, a.e, a.graph) && LegPending(o, a.n, a.goal, a.via) && a.group == []
  {
    hide Positioned, LegPending, CeilingOf, Walkable;
  }

  lemma ActionYieldParts(o: Order, a: Iter)
    requires a.state.HandlingActionYield?
    ensures Good(o, a) <==>
            && Walkable(o) && Inv(o, a) && a.ceiling == CeilingOf(a.group)
            && Positioned(o, a.n, a.e, a.graph) && NoLeg(a) && a.group == [] && !a.stop && 0 < a.n
  {
    hide Positioned, NoLeg, CeilingOf, Walkable;
  }

  lemma PreNodeEnough(o: Order, a: Iter)
    requires a.state.HandlingPreNodeAction? && Walkable(o) && Inv(o, a) && a.ceiling == CeilingOf(a.group)
    requires Positioned(o, a.n, a.e, a.graph) && NoLeg(a) && a.group == [] && a.buffered == [] && !a.stop
    requires 0 < a.n < |o.nodes|
    ensures Good(o, a)
  {
    hide Positioned, NoLeg, CeilingOf, Walkable;
  }

  lemma PreDoneParts(o: Order, a: Iter)
    requires a.state.PreDone?
    ensures Good(o, a) ==>
              && Walkable(o) && |o.nodes| == |o.edges| + 1 && o.nodes != [] && Inv(o, a)
              && a.ceiling == CeilingOf(a.group) && a.n == |o.nodes| && a.graph == Some(GraphOf(o, a.n))
              && a.group == [] && (a.goal.Some? <==> a.via.Some?)
    ensures Walkable(o) && Inv(o, a) && a.ceiling == CeilingOf(a.group) && |o.nodes| == |o.edges| + 1 &&
            o.nodes != [] && a.n == |o.nodes| && a.graph == Some(GraphOf(o, a.n)) && a.group == [] &&
            (a.goal.Some? <==> a.via.Some?) ==>
              Good(o, a)
  {
    if Good(o, a) {
      WalkableParts(o);
    }
    hide CeilingOf, GraphOf, Walkable;
  }

  lemma DoneGood(o: Order, a: Iter)
    requires a.state.Done? && Walkable(o) && Inv(o, a) && a.ceiling == CeilingOf(a.group)
    ensures Good(o, a)
  {
    hide CeilingOf, Walkable;
  }

  lemma {:induction false} PlainPlan(o: Order, a: Iter)
    requires |o.nodes| == |o.edges| + 1 && o.nodes != [] && Inv(o, a)
    ensures a.state.HandlingNavigation? ==>
              PlanOf(o, a) == Plan([], Leads(a), a.stop, a.buffered, EventsFrom(o, a.n))
    ensures a.state.HandlingActionYield? ==> PlanOf(o, a) == Plan([], None, false, a.buffered, EventsFrom(o, a.n))
    ensures a.state.PreDone? ==> PlanOf(o, a) == Plan([], Leads(a), a.stop, a.buffered, [GraphYield(o)])
    ensures a.state.Done? ==> PlanOf(o, a) == Plan([], None, false, [], [])
  {
    hide ActionPlan, QueuePlan, MorePlan, EventsFrom, EdgeActions, BaseCount, GraphYield, Stream, LegTo, Leads;
  }

  lemma LeadsIs(a: Iter)
    ensures a.goal.Some? && a.via.Some? ==> Leads(a) == Some(Leg(a.goal.value, a.via.value))
    ensures !(a.goal.Some? && a.via.Some?) ==> Leads(a) == None
    ensures NoLeg(a) <==> a.goal.None? && a.via.None?
  {
  }

  lemma HeadAndTail<T>(s: seq<T>)
    requires s != []
    ensures s == [s[0]] + s[1..]
  {
  }

  /** Without a step to come, the stop hint says nothing. */
  lemma IdleHint(p: Plan)
    requires p.leg == None
    ensures Flatten(p) == Flatten(p.(stopHint := false))
  {
  }

  // the steps of the states without actions only go down
  lemma NavigationLess(o: Order, a: Iter, b: Iter)
    requires Inv(o, a) && a.state.HandlingNavigation? && b.state.HandlingActionYield? && b.n == a.n && b.e == a.e
    ensures Inv(o, b) && Less(o, b, a)
  {
  }

  lemma NavigationGood(o: Order, a: Iter, b: Iter)
    requires a.state.HandlingNavigation? && Good(o, a) && Inv(o, b)
    requires b == a.(state := HandlingActionYield, stop := false, goal := None, via := None)
    ensures o.nodes != [] && |o.nodes| == |o.edges| + 1 && Inv(o, a) && Good(o, b)
  {
    assert NoLeg(b);
    hide *;
    NavigationParts(o, a);
    ActionYieldParts(o, b);
    WalkableParts(o);
    LegPlace(o, a.n, a.goal, a.via);
  }

  lemma LegPlace(o: Order, n: nat, goal: Option<Node>, via: Option<Edge>)
    requires Walkable(o) && LegPending(o, n, goal, via)
    ensures 0 < n < |o.nodes|
  {
    hide Walkable;
  }

  lemma NavigationLeaves(o: Order, a: Iter)
    requires Inv(o, a) && a.state.HandlingNavigation? && NoLeg(a)
    ensures Silent(o, a, a.(state := HandlingActionYield, stop := false))
  {
    var b := a.(state := HandlingActionYield, stop := false);
    hide *;
    NavigationLess(o, a, b);
    LeadsIs(a);
    if Good(o, a) {
      NavigationGood(o, a, b);
      PlainPlan(o, a);
      PlainPlan(o, b);
      PendingIs(o, a);
      PendingIs(o, b);
      IdleHint(PlanOf(o, a));
    }
    StepIsSilent(o, a, b);
  }

  lemma StepYields(o: Order, a: Iter, event: Yield, b: Iter)
    requires Inv(o, b) && Less(o, b, a)
    requires Good(o, a) ==> Good(o, b) && Pending(o, a) == [event] + Pending(o, b)
    ensures Yields(o, a, event, b)
  {
  }

  lemma NavigationYields(o: Order, a: Iter)
    requires Inv(o, a) && a.state.HandlingNavigation? && a.goal.Some? && a.via.Some?
    ensures Yields(o, a, NavigationStep(a.goal.value, a.via.value, a.stop),
                   a.(state := HandlingActionYield, stop := false, goal := None, via := None))
  {
    var b := a.(state := HandlingActionYield, stop := false, goal := None, via := None);
    hide *;
    NavigationLess(o, a, b);
    LeadsIs(a);
    if Good(o, a) {
      NavigationGood(o, a, b);
      PlainPlan(o, a);
      PlainPlan(o, b);
      PendingIs(o, a);
      PendingIs(o, b);
      FirstStep(PlanOf(o, a), PlanOf(o, b), Leg(a.goal.value, a.via.value));
    }
    StepYields(o, a, NavigationStep(a.goal.value, a.via.value, a.stop), b);
  }

  lemma ActionYieldLess(o: Order, a: Iter, b: Iter)
    requires Inv(o, a) && a.state.HandlingActionYield? && b.n == a.n && b.e == a.e && b.actions == a.actions
    requires b.state.HandlingPreNodeAction? || (b.state == a.state && |b.buffered| < |a.buffered|)
    ensures Inv(o, b) && Less(o, b, a)
  {
  }

  lemma ActionYieldPlace(o: Order, a: Iter)
    requires Inv(o, a) && a.state.HandlingActionYield?
    ensures a.n < |o.nodes|
  {
  }

  lemma ActionYieldLeaves(o: Order, a: Iter)
    requires Inv(o, a) && a.state.HandlingActionYield? && a.buffered == []
    ensures Silent(o, a, a.(state := HandlingPreNodeAction))
  {
    var b := a.(state := HandlingPreNodeAction);
    LeadsIs(a);
    LeadsIs(b);
    hide *;
    ActionYieldLess(o, a, b);
    ActionYieldPlace(o, a);
    if Good(o, a) {
      ActionYieldParts(o, a);
      PreNodeEnough(o, b);
      WalkableParts(o);
      PlainPlan(o, a);
      PreNodePlan(o, b);
      PendingIs(o, a);
      PendingIs(o, b);
    }
    StepIsSilent(o, a, b);
  }

  lemma ActionYieldYields(o: Order, a: Iter)
    requires Inv(o, a) && a.state.HandlingActionYield? && a.buffered != []
    ensures Yields(o, a, GroupOf(a.buffered[0]), a.(buffered := a.buffered[1..]))
  {
    var b := a.(buffered := a.buffered[1..]);
    LeadsIs(a);
    LeadsIs(b);
    hide *;
    ActionYieldLess(o, a, b);
    if Good(o, a) {
      ActionYieldParts(o, a);
      ActionYieldParts(o, b);
      WalkableParts(o);
      PlainPlan(o, a);
      PlainPlan(o, b);
      PendingIs(o, a);
      PendingIs(o, b);
      HeadAndTail(a.buffered);
      FirstGroup(PlanOf(o, a), PlanOf(o, b), a.buffered[0]);
    }
    StepYields(o, a, GroupOf(a.buffered[0]), b);
  }

  // The first and the last steps ////////////////////////////////////////////////////////////////

  function Begun(o: Order, a: Iter): Iter
    requires a.n < |o.nodes| && a.e <= |o.edges|
  {
    a.(state :=
         if a.e == |o.edges| || (o.nodes[a.n].seqId < o.edges[a.e].seqId && o.updateId == 0) then HandlingPreNodeAction
         else HandlingTransition)
  }

  lemma InitialParts(o: Order, a: Iter)
    requires Good(o, a) && a.state.HandlingInitial?
    ensures a == FRESH && Walkable(o) && o.nodes != [] && |o.nodes| == |o.edges| + 1 && Inv(o, a)
    ensures Positioned(o, 0, 0, None) && NoLeg(FRESH) && CeilingOf([]) == NONE
    ensures PlanOf(o, a) == Plan([], None, false, [], Stream(o))
    ensures FRESH.n == 0 && FRESH.e == 0 && FRESH.buffered == [] && !FRESH.stop
  {
    WalkableParts(o);
    hide Walkable, Stream, FrontEdges;
  }

  lemma BegunGood(o: Order, b: Iter)
    requires Walkable(o) && o.nodes != [] && |o.nodes| == |o.edges| + 1 && NoLeg(FRESH) && CeilingOf([]) == NONE
    requires Positioned(o, 0, 0, None)
    requires b == FRESH.(state := HandlingPreNodeAction) || b == FRESH.(state := HandlingTransition)
    requires b.state.HandlingPreNodeAction? ==> NodeActions(o, 0) == o.nodes[0].actions
    ensures Good(o, b) && Inv(o, b)
  {
    hide Walkable, Positioned, CeilingOf, NodeActions, BaseCount;
  }

  lemma FirstActions(o: Order)
    requires Walkable(o) && o.nodes != [] && |o.nodes| == |o.edges| + 1
    ensures var b := Begun(o, FRESH);
            && (b == FRESH.(state := HandlingPreNodeAction) || b == FRESH.(state := HandlingTransition))
            && NodeActions(o, 0) == if b.state.HandlingPreNodeAction? then o.nodes[0].actions else []
  {
    WalkableParts(o);
    hide Walkable;
  }

  lemma NoActionsPlan(more: seq<Action>, leg: Option<Leg>, rest: seq<Yield>)
    ensures ActionPlan(false, [], [], [], more, leg, rest) == MorePlan(false, [], more, leg, rest)
  {
    Leaving(false, [], [], [], more, leg, rest);
    FlushingPlans(false, [], [], [], more, leg, rest);
    assert [] + Flush([]) == [];
    hide ActionPlan, QueuePlan, MorePlan;
  }

  lemma {:induction false} InitialPending(o: Order, a: Iter)
    requires Good(o, a) && a.state.HandlingInitial?
    ensures o.nodes != [] && |o.nodes| == |o.edges| + 1 && Inv(o, a) && Pending(o, a) == Stream(o)
    ensures var b := Begun(o, a); Good(o, b) && Inv(o, b) && Pending(o, b) == EventsFrom(o, 0)
  {
    hide *;
    InitialParts(o, a);
    PendingIs(o, a);
    OnlyRest(PlanOf(o, a));
    FirstActions(o);
    var b := Begun(o, a);
    BegunGood(o, b);
    PendingIs(o, b);
    if b.state.HandlingPreNodeAction? {
      PreNodePlan(o, b);
      OnlyRest(PlanOf(o, b));
    } else {
      WalkPlan(o, b);
      if 0 < BaseCount(o.nodes) {
        EventsUnfold(o, 0, []);
        NoActionsPlan(EdgeActions(o, 0), LegTo(o, 0), EventsFrom(o, 1));
      } else {
        EventsEnd(o, 0);
        OnlyRest(PlanOf(o, b));
      }
    }
  }

  lemma BegunLess(o: Order, a: Iter)
    requires Inv(o, a) && a.state.HandlingInitial? && a.n < |o.nodes|
    ensures Inv(o, Begun(o, a)) && Less(o, Begun(o, a), a)
  {
  }

  lemma InitialLeaves(o: Order, a: Iter)
    requires Inv(o, a) && a.state.HandlingInitial? && a.n < |o.nodes|
    ensures o.updateId == 0 ==> Yields(o, a, ClearActions, Begun(o, a))
    ensures o.updateId > 0 ==> Silent(o, a, Begun(o, a))
  {
    BegunLess(o, a);
    if Good(o, a) {
      InitialPending(o, a);
      StreamStarts(o);
    }
    hide Good, Pending, EventsFrom, Begun, Less, Inv, Stream;
  }

  lemma {:induction false} StreamStarts(o: Order)
    requires o.nodes != [] && |o.nodes| == |o.edges| + 1
    ensures Stream(o) == if o.updateId == 0 then [ClearActions] + EventsFrom(o, 0) else EventsFrom(o, 0)
  {
    hide EventsFrom;
    assert [] + EventsFrom(o, 0) == EventsFrom(o, 0);
  }

  lemma PreDoneLess(o: Order, a: Iter, b: Iter)
    requires Inv(o, a) && a.state.PreDone? && b.n == a.n && b.e == a.e && b.actions == a.actions && b.graph == a.graph
    requires b.state.Done? || (b.state == a.state && a.goal.Some? && b.goal.None?) ||
             (b.state == a.state && b.goal == a.goal && |b.buffered| < |a.buffered|)
    ensures Inv(o, b) && Less(o, b, a)
  {
  }

  lemma PreDoneStep(o: Order, a: Iter)
    requires Inv(o, a) && a.state.PreDone? && a.goal.Some? && a.via.Some?
    ensures Yields(o, a, NavigationStep(a.goal.value, a.via.value, a.stop),
                   a.(goal := None, via := None, stop := false))
  {
    var b := a.(goal := None, via := None, stop := false);
    hide *;
    PreDoneLess(o, a, b);
    LeadsIs(a);
    LeadsIs(b);
    if Good(o, a) {
      PreDoneParts(o, a);
      PreDoneParts(o, b);
      PlainPlan(o, a);
      PlainPlan(o, b);
      PendingIs(o, a);
      PendingIs(o, b);
      FirstStep(PlanOf(o, a), PlanOf(o, b), Leg(a.goal.value, a.via.value));
    }
    StepYields(o, a, NavigationStep(a.goal.value, a.via.value, a.stop), b);
  }

  lemma PreDoneGroup(o: Order, a: Iter)
    requires Inv(o, a) && a.state.PreDone? && !(a.goal.Some? && a.via.Some?) && a.buffered != []
    ensures Yields(o, a, GroupOf(a.buffered[0]), a.(buffered := a.buffered[1..]))
  {
    var b := a.(buffered := a.buffered[1..]);
    hide *;
    PreDoneLess(o, a, b);
    LeadsIs(a);
    LeadsIs(b);
    if Good(o, a) {
      PreDoneParts(o, a);
      PreDoneParts(o, b);
      PlainPlan(o, a);
      PlainPlan(o, b);
      PendingIs(o, a);
      PendingIs(o, b);
      IdleHint(PlanOf(o, a));
      HeadAndTail(a.buffered);
      FirstGroup(PlanOf(o, a), PlanOf(o, b), a.buffered[0]);
    }
    StepYields(o, a, GroupOf(a.buffered[0]), b);
  }

  lemma PreDoneGraph(o: Order, a: Iter)
    requires Inv(o, a) && a.state.PreDone? && !(a.goal.Some? && a.via.Some?) && a.buffered == []
    ensures Yields(o, a, if o.updateId > 0 then GraphExtension(a.graph.value, o.updateId)
                         else GraphReplacement(a.graph.value, o.orderId), a.(state := Done))
  {
    var b := a.(state := Done);
    PreDoneHasGraph(o, a);
    var event := if o.updateId > 0 then GraphExtension(a.graph.value, o.updateId)
                 else GraphReplacement(a.graph.value, o.orderId);
    hide *;
    PreDoneLess(o, a, b);
    LeadsIs(a);
    if Good(o, a) {
      PreDoneParts(o, a);
      DoneGood(o, b);
      PlainPlan(o, a);
      PlainPlan(o, b);
      PendingIs(o, a);
      PendingIs(o, b);
      OnlyRest(PlanOf(o, a));
      OnlyRest(PlanOf(o, b));
      GraphYieldIs(o);
      assert [GraphYield(o)] == [GraphYield(o)] + [];
    }
    StepYields(o, a, event, b);
  }

  lemma PreDoneHasGraph(o: Order, a: Iter)
    requires Inv(o, a) && a.state.PreDone?
    ensures a.graph.Some?
  {
  }

  lemma GraphYieldIs(o: Order)
    requires o.nodes != [] && |o.nodes| == |o.edges| + 1
    ensures GraphYield(o) == if o.updateId > 0 then GraphExtension(GraphOf(o, |o.nodes|), o.updateId)
                             else GraphReplacement(GraphOf(o, |o.nodes|), o.orderId)
  {
    hide GraphOf;
  }

  // Transitions /////////////////////////////////////////////////////////////////////////////////

  lemma FitsEdge(o: Order, n: nat)
    requires Walkable(o) && 0 < n < |o.nodes|
    ensures |o.nodes| == |o.edges| + 1 && Fits(GraphOf(o, n), EdgeElement(o.edges[n - 1]))
  {
    hide *;
    WalkableParts(o);
    WovenIs(o, n - 1);
    WovenFits(o, 2 * n - 1);
    GraphOfIs(o, n);
  }

  lemma FitsNode(o: Order, n: nat)
    requires Walkable(o) && 0 < n < |o.nodes|
    ensures |o.nodes| == |o.edges| + 1
    ensures Fits(Insert(GraphOf(o, n), EdgeElement(o.edges[n - 1])), NodeElement(o.nodes[n]))
  {
    hide *;
    WalkableParts(o);
    WovenIs(o, n);
    WovenFits(o, 2 * n);
    GraphGrows(o, n);
  }

  /** Where a transition leads when both lists are at the same end. */
  function Arrived(o: Order, it: Iter): IterState
  {
    if it.n == |o.nodes| && it.e == |o.edges| then PreDone else HandlingPreEdgeAction
  }

  function Started(o: Order, a: Iter): Iter
    requires a.n < |o.nodes|
  {
    a.(n := a.n + 1, graph := Some(Insert(map[], NodeElement(o.nodes[a.n]))))
  }

  lemma PositionedAt(o: Order, n: nat)
    requires Walkable(o) && |o.nodes| == |o.edges| + 1 && 0 < n <= |o.nodes| && n <= FrontEdges(o.edges) + 1
    ensures Positioned(o, n, n - 1, Some(GraphOf(o, n)))
  {
    hide Walkable, GraphOf, FrontEdges;
  }

  lemma PreEdgeParts(o: Order, b: Iter)
    requires b.state.HandlingPreEdgeAction? && Walkable(o) && Inv(o, b) && b.ceiling == CeilingOf(b.group)
    requires Positioned(o, b.n, b.e, b.graph) && LegPending(o, b.n, b.goal, b.via) && b.group == []
    ensures Good(o, b)
  {
    hide Positioned, LegPending, CeilingOf, Walkable;
  }

  lemma InvAt(o: Order, b: Iter)
    requires 0 < b.n <= |o.nodes| && b.e <= |o.edges| && b.graph.Some?
    requires b.n < |o.nodes| || b.state.PreDone?
    ensures Inv(o, b)
  {
  }

  lemma ArrivedIs(o: Order, b: Iter)
    ensures Arrived(o, b) == if b.n == |o.nodes| && b.e == |o.edges| then PreDone else HandlingPreEdgeAction
  {
  }

  /** Arriving at a node with its step, or at the first node. */
  lemma ArrivedGood(o: Order, b: Iter)
    requires Walkable(o) && |o.nodes| == |o.edges| + 1 && b.ceiling == CeilingOf(b.group) && b.group == []
    requires 0 < b.n <= |o.nodes| && b.n <= FrontEdges(o.edges) + 1 && b.e == b.n - 1
    requires b.graph == Some(GraphOf(o, b.n))
    requires if b.n == 1 then b.goal.None? && b.via.None?
             else b.goal == Some(o.nodes[b.n - 1]) && b.via == Some(o.edges[b.n - 2])
    ensures Good(o, b.(state := Arrived(o, b)))
  {
    var c := b.(state := Arrived(o, b));
    if b.n < |o.nodes| {
      assert LegPending(o, b.n, b.goal, b.via) by { hide Walkable; }
    }
    hide *;
    ArrivedIs(o, b);
    InvAt(o, c);
    if b.n == |o.nodes| {
      PreDoneParts(o, c);
    } else {
      PositionedAt(o, b.n);
      PreEdgeParts(o, c);
    }
  }

  lemma StartedIs(o: Order, a: Iter)
    requires a.n < |o.nodes|
    ensures Started(o, a) == a.(n := a.n + 1, graph := Some(Insert(map[], NodeElement(o.nodes[a.n]))))
    ensures NoLeg(a) <==> a.goal.None? && a.via.None?
  {
  }

  lemma StartedReady(o: Order, a: Iter)
    requires Good(o, a) && a.state.HandlingTransition? && a.n < |o.nodes|
    requires a.e == |o.edges| || o.nodes[a.n].seqId < o.edges[a.e].seqId
    ensures var b := Started(o, a);
            && a.n == 0 && (b.n == |o.nodes| <==> b.e == |o.edges|)
            && Good(o, b.(state := Arrived(o, b)))
  {
    hide *;
    TransitionParts(o, a);
    WalkableParts(o);
    if a.n > 0 && a.e < |o.edges| {
      WalkableStep(o, a.e);
    }
    StartedIs(o, a);
    GraphStarts(o);
    ArrivedGood(o, Started(o, a));
  }

  lemma {:induction false} WalkPlan(o: Order, a: Iter)
    requires |o.nodes| == |o.edges| + 1 && o.nodes != [] && Inv(o, a)
    ensures a.state.HandlingTransition? ==>
              PlanOf(o, a) ==
              if a.n < BaseCount(o.nodes)
              then MorePlan(a.stop, a.buffered, EdgeActions(o, a.n), LegTo(o, a.n), EventsFrom(o, a.n + 1))
              else Plan([], None, false, [], [GraphYield(o)])
    ensures a.state.HandlingPreEdgeAction? && a.n > 0 ==>
              PlanOf(o, a) == MorePlan(a.stop, a.buffered, EdgeActions(o, a.n - 1), Leads(a), EventsFrom(o, a.n))
  {
    hide ActionPlan, QueuePlan, MorePlan, EventsFrom, EdgeActions, BaseCount, GraphYield, Stream, LegTo, Leads;
  }

  lemma {:induction false} LastNode(o: Order)
    requires |o.nodes| == |o.edges| + 1 && o.nodes != []
    ensures EdgeActions(o, |o.nodes| - 1) == [] && EventsFrom(o, |o.nodes|) == [GraphYield(o)]
  {
    EventsEnd(o, |o.nodes|);
    hide EventsFrom, GraphYield;
  }

  lemma LegToIs(o: Order, n: nat)
    requires |o.nodes| == |o.edges| + 1 && n < |o.nodes|
    ensures LegTo(o, n) == if n == 0 then None else Some(Leg(o.nodes[n], o.edges[n - 1]))
  {
  }

  lemma NothingMore(stop: bool, buffered: seq<Group>, leg: Option<Leg>, rest: seq<Yield>)
    ensures MorePlan(stop, buffered, [], leg, rest) == Plan([], leg, stop, buffered, rest)
  {
    Entering(buffered, []);
    hide MoreGroups, AnyBlocks;
  }

  lemma StartedPlan(o: Order, a: Iter)
    requires |o.nodes| == |o.edges| + 1 && Inv(o, a) && a.state.HandlingTransition? && a.n < BaseCount(o.nodes)
    requires a.n == 0 && a.e == 0 && NoLeg(a)
    ensures var b := Started(o, a); Inv(o, b.(state := Arrived(o, b)))
    ensures var b := Started(o, a); PlanOf(o, b.(state := Arrived(o, b))) == PlanOf(o, a)
  {
    hide *;
    var b := Started(o, a);
    var c := b.(state := Arrived(o, b));
    StartedIs(o, a);
    ArrivedIs(o, b);
    InvAt(o, c);
    LeadsIs(a);
    LeadsIs(c);
    LegToIs(o, 0);
    WalkPlan(o, a);
    if c.n == |o.nodes| {
      LastNode(o);
      NothingMore(a.stop, a.buffered, None, [GraphYield(o)]);
      PlainPlan(o, c);
    } else {
      WalkPlan(o, c);
    }
  }

  lemma HorizonStartedPlan(o: Order, a: Iter)
    requires |o.nodes| == |o.edges| + 1 && Inv(o, a) && a.state.HandlingTransition? && BaseCount(o.nodes) == 0
    requires a.n == 0 && a.e == 0 && NoLeg(a) && a.buffered == [] && !a.stop && EdgeActions(o, 0) == []
    ensures var b := Started(o, a); PlanOf(o, b.(state := Arrived(o, b))) == PlanOf(o, a)
  {
    Entering([], []);
    EventsEnd(o, 1);
    assert Hint(false, []) == false;
    hide MoreGroups, Hint, AnyBlocks, EventsFrom, EdgeActions, GraphYield, Stream, BaseCount;
  }

  lemma {:induction false} NoBasePlan(o: Order)
    requires Walkable(o) && |o.nodes| == |o.edges| + 1 && BaseCount(o.nodes) == 0
    ensures EdgeActions(o, 0) == []
  {
    hide Walkable, BaseCount, FrontEdges;
    if o.edges != [] {
      EdgeReleased(o, 0);
    }
  }

  lemma FirstTransition(o: Order, a: Iter)
    requires Inv(o, a) && a.state.HandlingTransition?
    requires a.e == |o.edges| || o.nodes[a.n].seqId < o.edges[a.e].seqId
    ensures var b := Started(o, a);
            && (Good(o, a) ==> (b.n == |o.nodes| <==> b.e == |o.edges|))
            && ((b.n == |o.nodes| <==> b.e == |o.edges|) ==> Silent(o, a, b.(state := Arrived(o, b))))
  {
    if Good(o, a) {
      StartedReady(o, a);
      TransitionParts(o, a);
      if a.n < BaseCount(o.nodes) {
        StartedPlan(o, a);
      } else {
        NoBasePlan(o);
        HorizonStartedPlan(o, a);
      }
      hide PlanOf, Flatten, Ready, Walkable;
    }
  }

  function Passed(o: Order, a: Iter): Iter
    requires Inv(o, a) && a.state.HandlingTransition? && a.e < |o.edges| && a.graph.Some?
  {
    var m := Insert(a.graph.value, EdgeElement(o.edges[a.e]));
    a.(n := a.n + 1, e := a.e + 1, goal := Some(o.nodes[a.n]), via := Some(o.edges[a.e]),
       graph := Some(Insert(m, NodeElement(o.nodes[a.n]))))
  }

  lemma TransitionParts(o: Order, a: Iter)
    requires Good(o, a) && a.state.HandlingTransition?
    ensures |o.nodes| == |o.edges| + 1 && Walkable(o) && a.n <= FrontEdges(o.edges) + 1 && NoLeg(a) && a.group == []
    ensures a.n < |o.nodes| && a.e <= |o.edges| && a.ceiling == CeilingOf(a.group)
    ensures if a.n == 0 then a.e == 0 else a.e == a.n - 1 && a.graph == Some(GraphOf(o, a.n))
    ensures a.n >= BaseCount(o.nodes) ==> a.buffered == [] && !a.stop
  {
    hide CeilingOf, BaseCount, GraphOf, FrontEdges;
  }

  /** Where no new graph is begun, the edge belongs to the node. */
  lemma InStep(o: Order, a: Iter)
    requires Good(o, a) && a.state.HandlingTransition? && a.e < |o.edges| && o.nodes[a.n].seqId >= o.edges[a.e].seqId
    ensures 0 < a.n && a.e == a.n - 1 && |o.nodes| == |o.edges| + 1 && a.graph == Some(GraphOf(o, a.n))
    ensures if o.edges[a.e].released then a.n < BaseCount(o.nodes)
            else a.n >= BaseCount(o.nodes) && a.buffered == [] && !a.stop && NoLeg(a) && a.group == []
  {
    hide *;
    TransitionParts(o, a);
    WalkableParts(o);
    EdgeReleased(o, a.e);
  }

  lemma PassedIs(o: Order, a: Iter)
    requires Inv(o, a) && a.state.HandlingTransition? && a.e < |o.edges| && a.graph.Some?
    ensures a.n < |o.nodes|
    ensures var m := Insert(a.graph.value, EdgeElement(o.edges[a.e]));
            Passed(o, a) == a.(n := a.n + 1, e := a.e + 1, goal := Some(o.nodes[a.n]), via := Some(o.edges[a.e]),
                               graph := Some(Insert(m, NodeElement(o.nodes[a.n]))))
  {
    hide Insert;
  }

  lemma NextPositioned(o: Order, a: Iter)
    requires Good(o, a) && Inv(o, a) && a.state.HandlingTransition? && a.e < |o.edges| && a.n < |o.nodes|
    requires o.nodes[a.n].seqId >= o.edges[a.e].seqId && o.edges[a.e].released
    ensures a.n > 0 && a.e == a.n - 1 && |o.nodes| == |o.edges| + 1
    ensures a.n < BaseCount(o.nodes) && a.graph == Some(GraphOf(o, a.n))
    ensures Passed(o, a).graph == Some(GraphOf(o, a.n + 1))
    ensures Fits(a.graph.value, EdgeElement(o.edges[a.e]))
    ensures Fits(Insert(a.graph.value, EdgeElement(o.edges[a.e])), NodeElement(o.nodes[a.n]))
  {
    hide *;
    InStep(o, a);
    TransitionParts(o, a);
    FitsEdge(o, a.n);
    FitsNode(o, a.n);
    GraphOfNext(o, a.n);
    PassedIs(o, a);
  }

  lemma GraphOfNext(o: Order, n: nat)
    requires 0 < n < |o.nodes| && |o.nodes| == |o.edges| + 1
    ensures GraphOf(o, n + 1) == Insert(Insert(GraphOf(o, n), EdgeElement(o.edges[n - 1])), NodeElement(o.nodes[n]))
  {
    GraphGrows(o, n);
    hide *;
  }

  lemma PassedReady(o: Order, a: Iter)
    requires Good(o, a) && Inv(o, a) && a.state.HandlingTransition? && a.e < |o.edges| && a.n < |o.nodes|
    requires a.graph.Some? && o.nodes[a.n].seqId >= o.edges[a.e].seqId && o.edges[a.e].released
    ensures var b := Passed(o, a);
            && (b.n == |o.nodes| <==> b.e == |o.edges|)
            && Good(o, b.(state := Arrived(o, b)))
  {
    hide *;
    NextPositioned(o, a);
    TransitionParts(o, a);
    BaseCountIs(o);
    PassedIs(o, a);
    ArrivedGood(o, Passed(o, a));
  }

  lemma NextTransition(o: Order, a: Iter)
    requires Inv(o, a) && a.state.HandlingTransition? && a.e < |o.edges| && a.graph.Some?
    requires o.nodes[a.n].seqId >= o.edges[a.e].seqId && o.edges[a.e].released
    ensures var b := Passed(o, a);
            && (Good(o, a) ==> (b.n == |o.nodes| <==> b.e == |o.edges|))
            && ((b.n == |o.nodes| <==> b.e == |o.edges|) ==> Silent(o, a, b.(state := Arrived(o, b))))
  {
    if Good(o, a) {
      PassedReady(o, a);
      NextPositioned(o, a);
      PassedPlan(o, a, Passed(o, a).(state := Arrived(o, Passed(o, a))));
      assert |o.nodes| == |o.edges| + 1;
      hide PlanOf, Flatten, Ready, Walkable, BaseCount, GraphOf, Insert, Fits;
    }
  }

  lemma PassedPlan(o: Order, a: Iter, c: Iter)
    requires |o.nodes| == |o.edges| + 1 && Inv(o, a) && Inv(o, c)
    requires a.state.HandlingTransition? && a.n < BaseCount(o.nodes) && a.n > 0 && a.e == a.n - 1 && a.e < |o.edges|
    requires c == a.(n := a.n + 1, e := a.e + 1, goal := Some(o.nodes[a.n]), via := Some(o.edges[a.e]),
                     graph := c.graph,
                     state := if a.n + 1 == |o.nodes| then PreDone else HandlingPreEdgeAction)
    ensures PlanOf(o, c) == PlanOf(o, a)
  {
    hide *;
    LeadsIs(c);
    LegToIs(o, a.n);
    WalkPlan(o, a);
    if c.n == |o.nodes| {
      LastNode(o);
      NothingMore(a.stop, a.buffered, Leads(c), [GraphYield(o)]);
      PlainPlan(o, c);
    } else {
      WalkPlan(o, c);
    }
  }

  /** Skipping the horizon, as far as it got. */
  ghost predicate Skipping(o: Order, a: Iter, it: Iter)
  {
    && a.n <= it.n <= |o.nodes| && it.e <= |o.edges| && it.graph.Some?
    && it == a.(n := it.n, e := it.e, graph := it.graph)
    && (Good(o, a) ==> 0 < it.n && it.e == it.n - 1 && it.graph == Some(GraphOf(o, it.n)))
  }

  /** The next edge and node of an iterator, taken into its graph. */
  function NextTaken(o: Order, a: Iter): Iter
    requires a.graph.Some? && a.e < |o.edges| && a.n < |o.nodes|
  {
    var m := Insert(a.graph.value, EdgeElement(o.edges[a.e]));
    a.(n := a.n + 1, e := a.e + 1, graph := Some(Insert(m, NodeElement(o.nodes[a.n]))))
  }

  predicate NextFits(o: Order, a: Iter)
    requires a.graph.Some? && a.e < |o.edges| && a.n < |o.nodes|
  {
    && Fits(a.graph.value, EdgeElement(o.edges[a.e]))
    && Fits(Insert(a.graph.value, EdgeElement(o.edges[a.e])), NodeElement(o.nodes[a.n]))
  }

  /** What was walked over while skipping, from the first edge on that is not released. */
  ghost predicate SkippingTrail(o: Order, a: Iter, it: Iter)
  {
    it.n <= |o.nodes| && it.e <= |o.edges| &&
    (Walked(o, a) ==> Spot(o, it.n, it.e, it.graph) && FrontEdges(o.edges) <= a.e <= it.e && (it == a || a.e < it.e))
  }

  lemma SkippedReady(o: Order, a: Iter, b: Iter)
    requires Good(o, a) && a.state.HandlingTransition? && a.e < |o.edges| && !o.edges[a.e].released
    requires o.nodes[a.n].seqId >= o.edges[a.e].seqId
    requires Skipping(o, a, b) && (b.n == |o.nodes| || b.e == |o.edges|)
    ensures b.n == |o.nodes| && b.e == |o.edges| && Good(o, b.(state := PreDone)) && a.n >= BaseCount(o.nodes)
    ensures NoLeg(a) && a.buffered == [] && !a.stop && |o.nodes| == |o.edges| + 1
  {
    var c := b.(state := PreDone);
    hide *;
    InStep(o, a);
    TransitionParts(o, a);
    SkippingIs(o, a, b);
    LeadsIs(c);
    InvAt(o, c);
    PreDoneParts(o, c);
  }

  lemma SkippingIs(o: Order, a: Iter, it: Iter)
    requires Skipping(o, a, it)
    ensures a.n <= it.n <= |o.nodes| && it.e <= |o.edges| && it.graph.Some?
    ensures it == a.(n := it.n, e := it.e, graph := it.graph) && (NoLeg(a) <==> a.goal.None? && a.via.None?)
    ensures Good(o, a) ==> |o.nodes| == |o.edges| + 1 && 0 < it.n && it.e == it.n - 1 &&
                           it.graph == Some(GraphOf(o, it.n))
  {
    if Good(o, a) {
      WalkableParts(o);
    }
    hide Good, GraphOf;
  }

  lemma SkippedPlan(o: Order, a: Iter, b: Iter)
    requires |o.nodes| == |o.edges| + 1 && Inv(o, a) && Inv(o, b) && a.state.HandlingTransition? && b.state.PreDone?
    requires a.n >= BaseCount(o.nodes) && NoLeg(a) && a.buffered == [] && !a.stop
    requires b == a.(n := b.n, e := b.e, graph := b.graph, state := PreDone)
    ensures PlanOf(o, b) == PlanOf(o, a)
  {
    hide GraphOf, BaseCount, Stream, GraphYield, EdgeActions, EventsFrom, MorePlan;
  }

  lemma HorizonSkipped(o: Order, a: Iter, b: Iter)
    requires Inv(o, a) && a.state.HandlingTransition? && a.e < |o.edges| && !o.edges[a.e].released
    requires o.nodes[a.n].seqId >= o.edges[a.e].seqId
    requires Skipping(o, a, b) && SkippingTrail(o, a, b) && b.n > a.n && (b.n == |o.nodes| || b.e == |o.edges|)
    ensures Walked(o, a) ==> Spot(o, b.n, b.e, b.graph)
    ensures Good(o, a) ==> (b.n == |o.nodes| && b.e == |o.edges|)
    ensures (b.n == |o.nodes| && b.e == |o.edges|) ==> Silent(o, a, b.(state := PreDone))
  {
    var c := b.(state := PreDone);
    assert b.n == |o.nodes| && b.e == |o.edges| ==> Inv(o, c) && Less(o, c, a);
    if Good(o, a) {
      SkippedReady(o, a, b);
      SkippedPlan(o, a, c);
      hide *;
    }
    hide Good, PlanOf, Flatten, Less, Inv;
  }

  // The trail of a transition ///////////////////////////////////////////////////////////////////

  /** What the iterator walks over when it begins the graph, and when it goes on to the next node. */
  lemma BeginsTrail(o: Order, a: Iter)
    requires Inv(o, a) && a.state.HandlingTransition?
    requires a.e == |o.edges| || o.nodes[a.n].seqId < o.edges[a.e].seqId
    ensures var b := Started(o, a); Walked(o, a) ==> Spot(o, b.n, b.e, b.graph)
  {
    hide Spot, Insert;
    if Walked(o, a) {
      SpotBegins(o, a.n, a.e, a.graph);
    }
  }

  lemma GoesOnTrail(o: Order, a: Iter)
    requires Inv(o, a) && a.state.HandlingTransition? && a.graph.Some? && a.e < |o.edges|
    requires o.nodes[a.n].seqId >= o.edges[a.e].seqId && o.nodes[a.n].released
    requires Fits(a.graph.value, EdgeElement(o.edges[a.e]))
    requires Fits(Insert(a.graph.value, EdgeElement(o.edges[a.e])), NodeElement(o.nodes[a.n]))
    ensures var b := Passed(o, a); Walked(o, a) ==> Spot(o, b.n, b.e, b.graph)
  {
    hide Insert, Fits, Compared, Accepts, GraphOf;
    if Walked(o, a) {
      SpotGoesOn(o, a.n, a.e, a.graph.value);
    }
  }

  lemma ArrivesTrail(o: Order, a: Iter, b: Iter, c: Iter)
    requires Walked(o, a) ==> b.n <= |o.nodes| && b.e <= |o.edges| && Spot(o, b.n, b.e, b.graph)
    requires 0 < b.n && (b.n == |o.nodes| <==> b.e == |o.edges|)
    requires c == b.(state := if b.n == |o.nodes| then PreDone else HandlingPreEdgeAction) && Inv(o, c)
    ensures Trail(o, a, c)
  {
    hide Spot;
  }

  lemma DoneStays(o: Order, a: Iter)
    requires a.state.Done?
    ensures Trailed(o, a, Finished, a)
  {
  }

  lemma DonePending(o: Order, a: Iter)
    requires Inv(o, a) && a.state.Done?
    ensures Steps(o, a, Finished, a)
  {
    if Good(o, a) {
      OnlyRest(PlanOf(o, a));
    }
  }

  lemma NoNodes(o: Order, a: Iter)
    requires a.n == |o.nodes| && (a.state.HandlingInitial? || a.state.HandlingPreNodeAction?)
    ensures !Good(o, a)
  {
  }

  lemma BegunIs(o: Order, a: Iter)
    requires a.n < |o.nodes| && a.e <= |o.edges|
    ensures Begun(o, a) == a.(state := if a.e == |o.edges| ||
                                          (o.nodes[a.n].seqId < o.edges[a.e].seqId && o.updateId == 0)
                                       then HandlingPreNodeAction else HandlingTransition)
  {
  }

  // Why a well-formed order is never refused ////////////////////////////////////////////////////

  lemma NoEdges(o: Order, a: Iter)
    requires a.e == |o.edges| && a.state.HandlingPreEdgeAction?
    ensures !Good(o, a)
  {
  }

  lemma HalfLeg(o: Order, a: Iter)
    requires a.state.HandlingNavigation? && (a.goal.None? <==> a.via.Some?)
    ensures !Good(o, a)
  {
  }

  lemma NoGraph(o: Order, a: Iter)
    requires a.state.HandlingTransition? && a.e < |o.edges| && a.n < |o.nodes| && a.graph.None?
    requires o.nodes[a.n].seqId >= o.edges[a.e].seqId
    ensures !Good(o, a)
  {
  }

  lemma ReleasedEnd(o: Order, a: Iter)
    requires a.state.HandlingTransition? && a.e < |o.edges| && a.n < |o.nodes| && a.graph.Some?
    requires o.edges[a.e].released && !o.nodes[a.n].released
    requires o.nodes[a.n].seqId >= o.edges[a.e].seqId
    ensures !Good(o, a)
  {
    hide GraphOf;
  }

  lemma GroupLeft(o: Order, a: Iter)
    requires a.state.PreDone? && a.group != []
    ensures !Good(o, a)
  {
  }

  lemma NextGood(o: Order, a: Iter)
    requires Inv(o, a) && a.state.HandlingTransition? && a.e < |o.edges| && a.graph.Some?
    requires o.nodes[a.n].seqId >= o.edges[a.e].seqId && o.edges[a.e].released
    ensures Good(o, a) ==> NextFits(o, a)
  {
    hide Good, Fits, Insert, GraphOf;
    if Good(o, a) {
      NextPositioned(o, a);
    }
  }

  lemma SkipBegins(o: Order, a: Iter)
    requires Inv(o, a) && a.state.HandlingTransition? && a.e < |o.edges| && a.graph.Some?
    requires o.nodes[a.n].seqId >= o.edges[a.e].seqId && !o.edges[a.e].released
    ensures Skipping(o, a, a) && SkippingTrail(o, a, a)
  {
    assert FrontEdges(o.edges) <= a.e;
    if Good(o, a) {
      InStep(o, a);
    }
    hide GraphOf, Good, FrontEdges, Spot;
  }

  lemma SkipNext(o: Order, a: Iter, b: Iter)
    requires Skipping(o, a, b) && SkippingTrail(o, a, b) && b.e < |o.edges| && b.n < |o.nodes| && a.e < |o.edges|
    requires a.n < |o.nodes| && o.nodes[a.n].seqId >= o.edges[a.e].seqId && a.state.HandlingTransition?
    ensures b.graph.Some? && (Good(o, a) ==> NextFits(o, b))
    ensures var c := NextTaken(o, b);
            && c.n <= |o.nodes| && c.e <= |o.edges| && c.graph.Some? && c.n > a.n
            && Skipping(o, a, c) && (NextFits(o, b) ==> SkippingTrail(o, a, c))
  {
    SkipNextGood(o, a, b);
    SkipNextTrail(o, a, b);
    hide Good, Fits, GraphOf, Insert, SkippingTrail;
  }

  lemma SkipNextGood(o: Order, a: Iter, b: Iter)
    requires Skipping(o, a, b) && b.e < |o.edges| && b.n < |o.nodes|
    ensures Good(o, a) ==> NextFits(o, b)
    ensures Skipping(o, a, NextTaken(o, b))
  {
    hide Fits, GraphOf, Insert, Ready, Inv, Walkable;
    if Good(o, a) {
      FitsEdge(o, b.n);
      FitsNode(o, b.n);
      GraphGrows(o, b.n);
    }
    hide Good;
  }

  lemma SkipNextTrail(o: Order, a: Iter, b: Iter)
    requires SkippingTrail(o, a, b) && b.graph.Some? && b.e < |o.edges| && b.n < |o.nodes| && a.e < |o.edges|
    requires a.n < |o.nodes| && o.nodes[a.n].seqId >= o.edges[a.e].seqId && a.state.HandlingTransition?
    ensures NextFits(o, b) ==> SkippingTrail(o, a, NextTaken(o, b))
  {
    hide Fits, Insert, Compared, Accepts, GraphOf, FrontEdges;
    if NextFits(o, b) && Walked(o, a) {
      SpotGoesOn(o, b.n, b.e, b.graph.value);
    }
  }
}
