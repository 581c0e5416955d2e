/** The interpreter: an iterator with twelve states over the nodes, edges and actions of an order. */
module EventIterators {
  import opened Vda
  import opened Graphs
  import opened Interpretation
  import opened Trails
  import opened EventSteps

  // The iterator ////////////////////////////////////////////////////////////////////////////////

  class EventIter {
    const order: Order
    var state: IterState
    var n: nat
    var e: nat
    var actions: seq<Action>
    var group: seq<Action>
    var ceiling: BlockingType
    var buffered: seq<Group>
    var stop: bool
    var goal: Option<Node>
    var via: Option<Edge>
    var graph: Option<Elements>

    function Value(): Iter
      reads this
    {
      Iter(state, n, e, actions, group, ceiling, buffered, stop, goal, via, graph)
    }

    constructor (order: Order)
      ensures this.order == order && Value() == FRESH
    {
      this.order := order;
      state := HandlingInitial;
      n, e := 0, 0;
      actions, group, buffered := [], [], [];
      ceiling := NONE;
      stop := false;
      goal, via, graph := None, None, None;
    }

    /** The next event. The handlers call it again where they have none to yield. */
    method NextEvent() returns (r: Outcome)
      requires Inv(order, Value())
      modifies this
      ensures Steps(order, old(Value()), r, Value())
      ensures Trailed(order, old(Value()), r, Value())
      decreases NodesLeft(order, Value()), Phase(state), |actions|, Turn(Value()), |buffered|, 1
    {
      match state {
        case HandlingInitial => r := HandleInitial();
        case HandlingPreNodeAction => r := HandlePreNodeAction();
        case HandlingNodeAction => r := HandleNodeAction();
        case HandlingNodeActionQueue => r := HandleNodeActionQueue();
        case HandlingPreEdgeAction => r := HandlePreEdgeAction();
        case HandlingEdgeAction => r := HandleEdgeAction();
        case HandlingEdgeActionQueue => r := HandleEdgeActionQueue();
        case HandlingActionYield => r := HandleActionYield();
        case HandlingNavigation => r := HandleNavigation();
        case HandlingTransition => r := HandleTransition();
        case PreDone => r := HandlePreDone();
        case Done =>
          r := Finished;
          DonePending(order, Value());
          DoneStays(order, Value());
      }
    }

    method HandleInitial() returns (r: Outcome)
      requires Inv(order, Value()) && state.HandlingInitial?
      modifies this
      ensures Steps(order, old(Value()), r, Value())
      ensures Trailed(order, old(Value()), r, Value())
      decreases NodesLeft(order, Value()), Phase(state), |actions|, Turn(Value()), |buffered|, 0
    {
      hide Good, Pending, Less, Begun;
      ghost var a := Value();
      if n == |order.nodes| {
        NoNodes(order, a);
        return Thrown;
      }
      InitialLeaves(order, a);
      BegunIs(order, a);
      if e == |order.edges| || (order.nodes[n].seqId < order.edges[e].seqId && order.updateId == 0) {
        state := HandlingPreNodeAction;
      } else {
        state := HandlingTransition;
      }
      if order.updateId == 0 {
        YieldsStays(order, a, ClearActions, Value());
        return Yielded(ClearActions);
      }
      SilentStays(order, a, Value());
      r := Continue(a);
    }

    /** The call with which a handler that has no event ends. */
    method Continue(ghost a: Iter) returns (r: Outcome)
      requires Silent(order, a, Value()) && Trail(order, a, Value())
      modifies this
      ensures Steps(order, a, r, Value()) && Trailed(order, a, r, Value())
      decreases NodesLeft(order, Value()), Phase(state), |actions|, Turn(Value()), |buffered|, 2
    {
      hide Good, Pending, Less;
      ghost var b := Value();
      r := NextEvent();
      Chain(order, a, b, r, Value());
      TrailChain(order, a, b, r, Value());
    }

    method HandlePreNodeAction() returns (r: Outcome)
      requires Inv(order, Value()) && state.HandlingPreNodeAction?
      modifies this
      ensures Steps(order, old(Value()), r, Value())
      ensures Trailed(order, old(Value()), r, Value())
      decreases NodesLeft(order, Value()), Phase(state), |actions|, Turn(Value()), |buffered|, 0
    {
      hide Good, Pending;
      ghost var a := Value();
      if n == |order.nodes| {
        NoNodes(order, a);
        return Thrown;
      }
      PreNodeLeaves(order, a);
      if order.nodes[n].released {
        actions := order.nodes[n].actions;
        state := HandlingNodeAction;
      } else {
        state := HandlingTransition;
      }
      SilentStays(order, a, Value());
      r := Continue(a);
    }

    /** A HARD action waits until the group before it is queued, and is then queued alone. */
    method HandleNodeAction() returns (r: Outcome)
      requires Inv(order, Value()) && state.HandlingNodeAction?
      modifies this
      ensures Steps(order, old(Value()), r, Value())
      ensures Trailed(order, old(Value()), r, Value())
      decreases NodesLeft(order, Value()), Phase(state), |actions|, Turn(Value()), |buffered|, 0
    {
      hide Good, Pending;
      ghost var a := Value();
      if actions == [] {
        NodeActionLeaves(order, a);
        state := HandlingNodeActionQueue;
        SilentStays(order, a, Value());
        r := Continue(a);
        return;
      }
      var action := actions[0];
      if action.blocking == HARD {
        if group != [] {
          NodeActionLeaves(order, a);
          state := HandlingNodeActionQueue;
          SilentStays(order, a, Value());
          r := Continue(a);
          return;
        }
        state := HandlingNodeActionQueue;
      }
      if action.blocking != NONE {
        stop := true;
      }
      NodeActionTakes(order, a);
      ceiling := Ceil(ceiling, action.blocking);
      group := group + [action];
      actions := actions[1..];
      YieldsStays(order, a, NewAction(action), Value());
      return Yielded(NewAction(action));
    }

    method HandleNodeActionQueue() returns (r: Outcome)
      requires Inv(order, Value()) && state.HandlingNodeActionQueue?
      modifies this
      ensures Steps(order, old(Value()), r, Value())
      ensures Trailed(order, old(Value()), r, Value())
      decreases NodesLeft(order, Value()), Phase(state), |actions|, Turn(Value()), |buffered|, 0
    {
      hide Good, Pending;
      ghost var a := Value();
      NodeQueueLeaves(order, a);
      state := if actions != [] then HandlingNodeAction else HandlingTransition;
      if group != [] {
        buffered := buffered + [Group(group, ceiling)];
        group := [];
        ceiling := NONE;
      }
      SilentStays(order, a, Value());
      r := Continue(a);
    }

    method HandlePreEdgeAction() returns (r: Outcome)
      requires Inv(order, Value()) && state.HandlingPreEdgeAction?
      modifies this
      ensures Steps(order, old(Value()), r, Value())
      ensures Trailed(order, old(Value()), r, Value())
      decreases NodesLeft(order, Value()), Phase(state), |actions|, Turn(Value()), |buffered|, 0
    {
      hide Good, Pending;
      ghost var a := Value();
      if e == |order.edges| {
        NoEdges(order, a);
        return Thrown;
      }
      PreEdgeLeaves(order, a);
      if order.edges[e].released {
        actions := order.edges[e].actions;
        state := HandlingEdgeAction;
      } else {
        state := HandlingNavigation;
      }
      SilentStays(order, a, Value());
      r := Continue(a);
    }

    method HandleEdgeAction() returns (r: Outcome)
      requires Inv(order, Value()) && state.HandlingEdgeAction?
      modifies this
      ensures Steps(order, old(Value()), r, Value())
      ensures Trailed(order, old(Value()), r, Value())
      decreases NodesLeft(order, Value()), Phase(state), |actions|, Turn(Value()), |buffered|, 0
    {
      hide Good, Pending;
      ghost var a := Value();
      if actions == [] {
        EdgeActionLeaves(order, a);
        state := HandlingEdgeActionQueue;
        SilentStays(order, a, Value());
        r := Continue(a);
        return;
      }
      var action := actions[0];
      if action.blocking == HARD {
        if group != [] {
          EdgeActionLeaves(order, a);
          state := HandlingEdgeActionQueue;
          SilentStays(order, a, Value());
          r := Continue(a);
          return;
        }
        state := HandlingEdgeActionQueue;
      }
      if action.blocking != NONE {
        stop := true;
      }
      EdgeActionTakes(order, a);
      ceiling := Ceil(ceiling, action.blocking);
      group := group + [action];
      actions := actions[1..];
      YieldsStays(order, a, NewAction(action), Value());
      return Yielded(NewAction(action));
    }

    method HandleEdgeActionQueue() returns (r: Outcome)
      requires Inv(order, Value()) && state.HandlingEdgeActionQueue?
      modifies this
      ensures Steps(order, old(Value()), r, Value())
      ensures Trailed(order, old(Value()), r, Value())
      decreases NodesLeft(order, Value()), Phase(state), |actions|, Turn(Value()), |buffered|, 0
    {
      hide Good, Pending;
      ghost var a := Value();
      if group != [] {
        EdgeQueueFlushes(order, a);
        buffered := buffered + [Group(group, ceiling)];
        group := [];
        ceiling := NONE;
      } else {
        EdgeQueueLeaves(order, a);
        state := if actions != [] then HandlingEdgeAction else HandlingNavigation;
      }
      SilentStays(order, a, Value());
      r := Continue(a);
    }

    method HandleActionYield() returns (r: Outcome)
      requires Inv(order, Value()) && state.HandlingActionYield?
      modifies this
      ensures Steps(order, old(Value()), r, Value())
      ensures Trailed(order, old(Value()), r, Value())
      decreases NodesLeft(order, Value()), Phase(state), |actions|, Turn(Value()), |buffered|, 0
    {
      hide Good, Pending;
      ghost var a := Value();
      if buffered == [] {
        ActionYieldLeaves(order, a);
        state := HandlingPreNodeAction;
        SilentStays(order, a, Value());
        r := Continue(a);
      } else {
        ActionYieldYields(order, a);
        r := Yielded(GroupOf(buffered[0]));
        buffered := buffered[1..];
        YieldsStays(order, a, r.event, Value());
      }
    }

    method HandleNavigation() returns (r: Outcome)
      requires Inv(order, Value()) && state.HandlingNavigation?
      modifies this
      ensures Steps(order, old(Value()), r, Value())
      ensures Trailed(order, old(Value()), r, Value())
      decreases NodesLeft(order, Value()), Phase(state), |actions|, Turn(Value()), |buffered|, 0
    {
      hide Good, Pending;
      ghost var a := Value();
      state := HandlingActionYield;
      if goal.None? && via.None? {
        NavigationLeaves(order, a);
        stop := false;
        SilentStays(order, a, Value());
        r := Continue(a);
      } else if goal.None? || via.None? {
        HalfLeg(order, a);
        r := Thrown;
      } else {
        NavigationYields(order, a);
        r := Yielded(NavigationStep(goal.value, via.value, stop));
        goal, via := None, None;
        stop := false;
        YieldsStays(order, a, r.event, Value());
      }
    }

    /** Steps over a node and the edge before it, and takes both into the graph. */
    method HandleTransition() returns (r: Outcome)
      requires Inv(order, Value()) && state.HandlingTransition?
      modifies this
      ensures Steps(order, old(Value()), r, Value())
      ensures Trailed(order, old(Value()), r, Value())
      decreases NodesLeft(order, Value()), Phase(state), |actions|, Turn(Value()), |buffered|, 0
    {
      hide Good, Pending;
      ghost var a := Value();
      var ok: bool;
      if e == |order.edges| || order.nodes[n].seqId < order.edges[e].seqId {
        FirstTransition(order, a);
        BeginsTrail(order, a);
        graph := Some(Insert(map[], NodeElement(order.nodes[n])));
        n := n + 1;
        ok := true;
      } else if graph.None? {
        // the source would use a graph that does not exist
        NoGraph(order, a);
        ok := false;
      } else if !order.edges[e].released {
        ok := SkipHorizon();
      } else {
        ok := StepOn();
      }
      if !ok || ((n == |order.nodes|) != (e == |order.edges|)) {
        return Thrown;
      }
      ghost var b := Value();
      state := if n == |order.nodes| then PreDone else HandlingPreEdgeAction;
      ArrivesTrail(order, a, b, Value());
      r := Continue(a);
    }

    /** The step to the next released node. */
    method StepOn() returns (ok: bool)
      requires Inv(order, Value()) && state.HandlingTransition? && graph.Some? && e < |order.edges|
      requires order.nodes[n].seqId >= order.edges[e].seqId && order.edges[e].released
      modifies this
      ensures !ok ==> !Good(order, old(Value()))
      ensures ok ==>
                && Value() == Passed(order, old(Value()))
                && (Walked(order, old(Value())) ==> Spot(order, n, e, graph))
                && (Good(order, old(Value())) ==> (n == |order.nodes| <==> e == |order.edges|))
                && ((n == |order.nodes| <==> e == |order.edges|) ==>
                      Silent(order, old(Value()), Value().(state := Arrived(order, Value()))))
    {
      hide Good, Pending, Less, Fits, Insert, Walked, Spot;
      ghost var a := Value();
      if !order.nodes[n].released {
        ReleasedEnd(order, a);
        return false;
      }
      NextTransition(order, a);
      NextGood(order, a);
      goal := Some(order.nodes[n]);
      via := Some(order.edges[e]);
      ok := TakeNext();
      if ok {
        GoesOnTrail(order, a);
      }
    }

    /** Takes the next edge and the node behind it into the collected graph. */
    method TakeNext() returns (ok: bool)
      requires graph.Some? && e < |order.edges| && n < |order.nodes|
      modifies `graph, `n, `e
      ensures ok == NextFits(order, old(Value()))
      ensures ok ==> Value() == NextTaken(order, old(Value())) && n == old(n) + 1 && e == old(e) + 1
    {
      hide Fits, Insert;
      if !Fits(graph.value, EdgeElement(order.edges[e])) {
        return false;
      }
      graph := Some(Insert(graph.value, EdgeElement(order.edges[e])));
      e := e + 1;
      if !Fits(graph.value, NodeElement(order.nodes[n])) {
        return false;
      }
      graph := Some(Insert(graph.value, NodeElement(order.nodes[n])));
      n := n + 1;
      return true;
    }

    /** Takes the rest of the order into the graph. */
    method SkipHorizon() returns (ok: bool)
      requires Inv(order, Value()) && state.HandlingTransition? && graph.Some? && e < |order.edges|
      requires order.nodes[n].seqId >= order.edges[e].seqId && !order.edges[e].released
      modifies this
      ensures !ok ==> !Good(order, old(Value()))
      ensures ok ==>
                && n > old(n) && n <= |order.nodes| && (n == |order.nodes| || e == |order.edges|) && e <= |order.edges|
                && (Walked(order, old(Value())) ==> Spot(order, n, e, graph))
                && (Good(order, old(Value())) ==> n == |order.nodes| && e == |order.edges|)
                && (n == |order.nodes| && e == |order.edges| ==>
                      Silent(order, old(Value()), Value().(state := PreDone)))
    {
      hide Good, Pending, Less, Walked, Spot, Skipping, SkippingTrail, Silent, NextFits, NextTaken;
      ghost var a := Value();
      SkipBegins(order, a);
      while e < |order.edges| && n < |order.nodes|
        invariant n <= |order.nodes| && e <= |order.edges| && graph.Some?
        invariant Skipping(order, a, Value()) && SkippingTrail(order, a, Value())
        invariant n > a.n || Value() == a
        decreases |order.nodes| - n
      {
        SkipNext(order, a, Value());
        ok := TakeNext();
        if !ok {
          return;
        }
      }
      ok := true;
      HorizonSkipped(order, a, Value());
    }

    method HandlePreDone() returns (r: Outcome)
      requires Inv(order, Value()) && state.PreDone?
      modifies this
      ensures Steps(order, old(Value()), r, Value())
      ensures Trailed(order, old(Value()), r, Value())
      decreases NodesLeft(order, Value()), Phase(state), |actions|, Turn(Value()), |buffered|, 0
    {
      hide Good, Pending;
      ghost var a := Value();
      if group != [] {
        GroupLeft(order, a);
        return Thrown;
      }
      if goal.Some? && via.Some? {
        PreDoneStep(order, a);
        r := Yielded(NavigationStep(goal.value, via.value, stop));
        goal, via := None, None;
        stop := false;
        YieldsStays(order, a, r.event, Value());
      } else if buffered != [] {
        PreDoneGroup(order, a);
        r := Yielded(GroupOf(buffered[0]));
        buffered := buffered[1..];
        YieldsStays(order, a, r.event, Value());
      } else {
        PreDoneGraph(order, a);
        r := Yielded(if order.updateId > 0 then GraphExtension(graph.value, order.updateId)
                     else GraphReplacement(graph.value, order.orderId));
        state := Done;
        YieldsStays(order, a, r.event, Value());
      }
    }
  }

  // The loop ////////////////////////////////////////////////////////////////////////////////////

  lemma FreshPending(o: Order)
    ensures Inv(o, FRESH) && Walked(o, FRESH)
    ensures Walkable(o) ==> Good(o, FRESH) && Pending(o, FRESH) == Stream(o)
  {
    hide Good, Pending, Stream;
    if Walkable(o) {
      FreshGood(o);
      InitialPending(o, FRESH);
    }
  }

  lemma FreshGood(o: Order)
    requires Walkable(o)
    ensures Good(o, FRESH)
  {
    hide Walkable;
  }

  /** An iterator that is done has walked over all of the order. */
  lemma DoneWalked(o: Order, it: Iter)
    requires Walked(o, it) && it.state.Done? && |o.nodes| <= |o.edges| + 1
    ensures Walkable(o)
  {
    SpotEnds(o, it.graph);
    hide Spot, Walkable;
  }

  /** What was yielded and what is pending make up the stream. */
  ghost predicate Underway(o: Order, it: Iter, events: seq<Yield>)
  {
    Walkable(o) ==>
      |o.nodes| == |o.edges| + 1 && o.nodes != [] && Good(o, it) && Inv(o, it) && events + Pending(o, it) == Stream(o)
  }

  lemma UnderwayBegins(o: Order)
    ensures Inv(o, FRESH) && Walked(o, FRESH) && Underway(o, FRESH, [])
  {
    FreshPending(o);
    if Walkable(o) {
      WalkableParts(o);
      assert [] + Stream(o) == Stream(o);
    }
    hide Good, Pending, Stream, Walkable;
  }

  lemma UnderwayNext(o: Order, a: Iter, event: Yield, b: Iter, events: seq<Yield>)
    requires Underway(o, a, events) && Steps(o, a, Yielded(event), b)
    ensures Inv(o, b) && Less(o, b, a) && Underway(o, b, events + [event])
  {
    hide Good, Pending, Stream, Walkable, Less, Inv;
    if Walkable(o) {
      assert events + ([event] + Pending(o, b)) == events + [event] + Pending(o, b);
    }
  }

  lemma UnderwayEnds(o: Order, a: Iter, b: Iter, events: seq<Yield>)
    requires Underway(o, a, events) && Walked(o, b) && Steps(o, a, Finished, b) && b.state.Done?
    ensures Walkable(o) ==> |o.nodes| == |o.edges| + 1 && o.nodes != [] && events == Stream(o)
    ensures |o.nodes| <= |o.edges| + 1 ==> Walkable(o)
  {
    if |o.nodes| <= |o.edges| + 1 {
      DoneWalked(o, b);
    }
    assert events + [] == events;
    hide Good, Pending, Stream, Walkable, Inv, Walked;
  }

  lemma UnderwayThrown(o: Order, a: Iter, b: Iter, events: seq<Yield>)
    requires Underway(o, a, events) && Steps(o, a, Thrown, b)
    ensures !Walkable(o)
  {
    hide Good, Pending, Stream, Walkable, Inv;
  }

  /** Interprets an order. The loop ends for every order. The iterator comes to the end of an order, without a throw,
      exactly when the order is walkable, as long as it has at most one node more than edges; it has then yielded
      exactly the stream of the order. */
  method Interpret(o: Order) returns (ok: bool, events: seq<Yield>)
    ensures Walkable(o) ==> ok && events == Stream(o)
    ensures |o.nodes| <= |o.edges| + 1 ==> (ok <==> Walkable(o))
  {
    hide Good, Pending, Stream, Walkable, Walked, Inv, Underway, Steps, Trail;
    var iter := new EventIter(o);
    UnderwayBegins(o);
    events := [];
    while true
      invariant iter.order == o && fresh(iter)
      invariant Inv(o, iter.Value()) && Walked(o, iter.Value()) && Underway(o, iter.Value(), events)
      decreases NodesLeft(o, iter.Value()), Phase(iter.state), |iter.actions|, Turn(iter.Value()), |iter.buffered|
    {
      ghost var a := iter.Value();
      var r := iter.NextEvent();
      TrailedIs(o, a, r, iter.Value());
      match r {
        case Yielded(event) =>
          UnderwayNext(o, a, event, iter.Value(), events);
          events := events + [event];
        case Finished =>
          UnderwayEnds(o, a, iter.Value(), events);
          return true, events;
        case Thrown =>
          UnderwayThrown(o, a, iter.Value(), events);
          return false, events;
      }
    }
  }

  lemma TrailedIs(o: Order, a: Iter, r: Outcome, b: Iter)
    requires Trailed(o, a, r, b) && Walked(o, a)
    ensures !r.Thrown? ==> Walked(o, b) && (r.Finished? ==> b.state.Done?)
  {
    hide Walked;
  }

  // Instant actions /////////////////////////////////////////////////////////////////////////////

  /** The picked actions are those at these places: in their order, each place once, and all but those that control the
      scheduler. */
  ghost predicate Picks(places: seq<nat>, actions: seq<Action>, control: set<ActionId>, picked: seq<Action>)
  {
    && |places| == |picked|
    && (forall i | 0 <= i < |places| :: places[i] < |actions| && picked[i] == actions[places[i]])
    && (forall i, j | 0 <= i < j < |places| :: places[i] < places[j])
    && (forall k | 0 <= k < |actions| :: k in places <==> actions[k].id !in control)
  }

  lemma PicksNext(places: seq<nat>, actions: seq<Action>, control: set<ActionId>, picked: seq<Action>, action: Action)
    requires Picks(places, actions, control, picked)
    ensures action.id in control ==> Picks(places, actions + [action], control, picked)
    ensures action.id !in control ==> Picks(places + [|actions|], actions + [action], control, picked + [action])
  {
    assert forall i | 0 <= i < |places| :: places[i] in places;
    assert |actions| !in places;
  }

  lemma PicksNone(places: seq<nat>, actions: seq<Action>, control: set<ActionId>, picked: seq<Action>)
    requires Picks(places, actions, control, picked)
    ensures picked == [] <==> forall a | a in actions :: a.id in control
  {
    if picked != [] {
      assert places[0] in places && actions[places[0]] in actions;
    }
  }

  lemma CountLast(init: seq<Action>, last: Action, a: Action)
    ensures multiset(init + [last])[a] == multiset(init)[a] + if last == a then 1 else 0
  {
  }

  /** A last action that is not picked. */
  lemma PicksWithout(places: seq<nat>, actions: seq<Action>, control: set<ActionId>, picked: seq<Action>)
    requires Picks(places, actions, control, picked) && actions != [] && actions[|actions| - 1].id in control
    ensures Picks(places, actions[..|actions| - 1], control, picked)
  {
    var n := |actions| - 1;
    assert n !in places;
    forall i | 0 <= i < |places|
      ensures places[i] < n
    {
      assert places[i] in places;
    }
  }

  /** A last action that is picked is picked last. */
  lemma PicksLast(places: seq<nat>, actions: seq<Action>, control: set<ActionId>, picked: seq<Action>)
    requires Picks(places, actions, control, picked) && actions != [] && actions[|actions| - 1].id !in control
    ensures var n, m := |actions| - 1, |places| - 1;
            m >= 0 && |picked| == m + 1 && picked[m] == actions[n] &&
            Picks(places[..m], actions[..n], control, picked[..m])
  {
    var n, m := |actions| - 1, |places| - 1;
    assert n in places;
    var i :| 0 <= i < |places| && places[i] == n;
    assert places[i] <= places[m];
    forall k | 0 <= k < n
      ensures k in places[..m] <==> actions[k].id !in control
    {
      assert k in places <==> k in places[..m] || k == places[m];
    }
    forall i | 0 <= i < m
      ensures places[i] < n
    {
      assert places[i] < places[m];
    }
  }

  lemma PlaceListed(places: seq<nat>, actions: seq<Action>, control: set<ActionId>, picked: seq<Action>, i: nat)
    requires Picks(places, actions, control, picked) && i < |picked|
    ensures i < |places| && places[i] < |actions|
  {
  }

  lemma PicksNothing(places: seq<nat>, control: set<ActionId>, picked: seq<Action>)
    requires Picks(places, [], control, picked)
    ensures picked == []
  {
    if 0 < |picked| {
      PlaceListed(places, [], control, picked, 0);
      assert false;
    }
  }

  /** Each action is picked as often as it is listed when it does not control the scheduler, and never when it does. */
  lemma {:induction false} PicksCount(places: seq<nat>, actions: seq<Action>, control: set<ActionId>,
                                      picked: seq<Action>, a: Action)
    requires Picks(places, actions, control, picked)
    ensures multiset(picked)[a] == if a.id in control then 0 else multiset(actions)[a]
    decreases |actions|
  {
    hide Picks;
    if actions != [] {
      var n := |actions| - 1;
      assert actions == actions[..n] + [actions[n]];
      CountLast(actions[..n], actions[n], a);
      if actions[n].id in control {
        PicksWithout(places, actions, control, picked);
        PicksCount(places, actions[..n], control, picked, a);
      } else {
        PicksLast(places, actions, control, picked);
        var m := |places| - 1;
        assert picked == picked[..m] + [picked[m]];
        CountLast(picked[..m], picked[m], a);
        PicksCount(places[..m], actions[..n], control, picked[..m], a);
      }
    } else {
      PicksNothing(places, control, picked);
    }
  }

  /** All instant actions are announced as new, in their order. Those that do not control the scheduler make up the
      group, in their order, each as often as it is listed, and with its ceiling; nothing is handed over when there
      are none. */
  method InstantGroup(actions: seq<Action>, control: set<ActionId>) returns (news: seq<Action>, group: Option<Group>)
    ensures news == actions
    ensures group.None? <==> forall a | a in actions :: a.id in control
    ensures group.Some? ==>
              CeilingOk(group.value) && exists places :: Picks(places, actions, control, group.value.actions)
    ensures group.Some? ==> forall a :: multiset(group.value.actions)[a] ==
                                        if a.id in control then 0 else multiset(actions)[a]
  {
    var instant: seq<Action>, ceiling := [], NONE;
    ghost var places: seq<nat> := [];
    news := [];
    for i := 0 to |actions|
      invariant news == actions[..i]
      invariant Picks(places, actions[..i], control, instant)
      invariant IsCeiling(ceiling, instant)
    {
      var action := actions[i];
      assert actions[..i + 1] == actions[..i] + [action];
      news := news + [action];
      PicksNext(places, actions[..i], control, instant, action);
      if action.id !in control {
        ghost var before := instant;
        places := places + [i];
        instant := instant + [action];
        assert action in instant && forall a | a in before :: a in instant;
        assert forall a | a in instant :: a in before || a == action;
        if action.blocking == HARD {
          ceiling := HARD;
        } else if action.blocking == SOFT && ceiling != HARD {
          ceiling := SOFT;
        }
      }
    }
    assert actions[..|actions|] == actions;
    PicksNone(places, actions, control, instant);
    forall a
      ensures multiset(instant)[a] == if a.id in control then 0 else multiset(actions)[a]
    {
      PicksCount(places, actions, control, instant, a);
    }
    group := if instant == [] then None else Some(Group(instant, ceiling));
  }
}
