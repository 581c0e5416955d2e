/** The stored graph over a whole run: a new order and the updates that continue it are stored and their steps handed
    over, and whatever happens in between, every node the vehicle then passes is found on the graph. */
module StoredRoutes {
  import opened Vda
  import opened Events
  import opened Graphs
  import opened OrderManagers
  import opened OrderChecks
  import opened Acceptance
  import opened Interpretation
  import opened Streams
  import opened SchedulerModel
  import opened SchedulerMoves
  import H = SchedulerHistory
  import opened Pipeline
  import R = SchedulerReports

  /** An order is delivered: its events are handled, the graph as the last of them, and its items are committed. Any
      other call is one to the scheduler alone. */
  datatype Act = Deliver(order: Order) | Call(op: Op)

  ghost predicate Proper(acts: seq<Act>)
  {
    forall i | 0 <= i < |acts| ::
      match acts[i]
      case Deliver(o) => Acceptable(o) && o.nodes != [] && |o.nodes| == |o.edges| + 1
      case Call(op) => !op.OpEnqueue? && !op.OpCommit?
  }

  function Delivered(acts: seq<Act>): seq<Order>
  {
    if acts == [] then []
    else
      var last := acts[|acts| - 1];
      Delivered(acts[..|acts| - 1]) + (if last.Deliver? then [last.order] else [])
  }

  ghost predicate Continues(o: Order, u: Order)
    requires u.nodes != []
  {
    BaseLast(GraphOfOrder(o)).Some? && FirstNodeId(u) == BaseLast(GraphOfOrder(o)).value
  }

  /** A new order that starts at node 0, and updates, each of which continues the one before at its last released
      node. */
  ghost predicate Continued(orders: seq<Order>)
  {
    && (forall i | 0 <= i < |orders| :: Acceptable(orders[i]) && orders[i].nodes != [])
    && (orders != [] ==> orders[0].nodes[0].seqId == 0)
    && (forall i, j | 0 <= i < j < |orders| && j == i + 1 :: Continues(orders[i], orders[j]))
  }

  function EnqueueAll(items: seq<Item>): seq<Op>
  {
    if items == [] then [] else EnqueueAll(items[..|items| - 1]) + [OpEnqueue(items[|items| - 1])]
  }

  /** What the scheduler is called for. */
  ghost function OpsOf(acts: seq<Act>): seq<Op>
    requires Proper(acts)
  {
    if acts == [] then []
    else
      var last := acts[|acts| - 1];
      OpsOf(acts[..|acts| - 1]) +
      match last
      case Deliver(o) => EnqueueAll(ItemsOf(Stream(o))) + [OpCommit]
      case Call(op) => [op]
  }

  /** Storing a graph: it replaces nothing, or it is stitched and announced; None where the source throws. */
  function Stored(m: Elements, other: Elements): Option<Elements>
  {
    if m == map[] then (if MayStand(other, 0) then Some(other) else None)
    else if other != map[] && Extends(m, other) && Announces(m, other) then Some(Extended(m, other))
    else None
  }

  /** The nodes the scheduler has reported as passed. */
  ghost function PassedIn(acts: seq<Act>): seq<SeqId>
    requires Proper(acts)
  {
    Passed(Run(OpsOf(acts)).out)
  }

  /** The stored graph, empty before the first order. It is None once storing a graph or setting the last node has
      thrown. */
  ghost function StoredIn(acts: seq<Act>): Option<Elements>
    requires Proper(acts)
  {
    if acts == [] then Some(map[])
    else
      var init, last := acts[..|acts| - 1], acts[|acts| - 1];
      var before := StoredIn(init);
      if before.None? then None
      else
        var graph := if last.Deliver? then Stored(before.value, GraphOfOrder(last.order)) else before;
        var n := |PassedIn(init)|;
        if graph.None? || n > |PassedIn(acts)| then None else Replay(graph.value, PassedIn(acts)[n..])
  }

  // Orders //////////////////////////////////////////////////////////////////////////////////////

  lemma AcceptableIs(o: Order)
    requires Acceptable(o)
    ensures o.nodes != [] && |o.nodes| == |o.edges| + 1 && Interpretable(o) && Walkable(o) && Consistent(o)
    ensures Sound(GraphOfOrder(o)) && BaseLast(GraphOfOrder(o)).Some?
    ensures FirstNodeId(o) == First(GraphOfOrder(o)) == o.nodes[0].seqId
    ensures MayStand(GraphOfOrder(o), First(GraphOfOrder(o)))
  {
    OrderedIsInterpretable(o);
    InterpretableWalks(o);
    WalkableParts(o);
    StartsReleased(o);
    BaseFound(o);
    hide *;
    FirstIsFirst(o);
    StartsWithNode(o);
    FirstNodeIs(o);
  }

  lemma BaseFound(o: Order)
    requires Consistent(o) && Ordered(o)
    ensures BaseLast(GraphOfOrder(o)).Some?
  {
    hide FromList, BaseLast, First, Last;
  }

  lemma FirstNodeIs(o: Order)
    requires Consistent(o) && Ordered(o) && o.nodes != [] && First(GraphOfOrder(o)) == o.nodes[0].seqId
    ensures FirstNodeId(o) == o.nodes[0].seqId
  {
    StartsWithNode(o);
    assert o.nodes[0] in o.nodes;
    hide FromList, Consistent, First;
  }

  /** The goals of an acceptable order: they ascend behind its first node, and the vehicle may stand on each. */
  lemma {:induction false} GoalsOfOrder(o: Order)
    requires Acceptable(o)
    ensures o.nodes != [] && |o.nodes| == |o.edges| + 1 && BaseLast(GraphOfOrder(o)).Some?
    ensures Strict(R.Goals(ItemsOf(Stream(o))))
    ensures forall s | s in R.Goals(ItemsOf(Stream(o))) ::
              MayStand(GraphOfOrder(o), s) && FirstNodeId(o) < s <= BaseLast(GraphOfOrder(o)).value
  {
    hide *;
    AcceptableIs(o);
    StreamGoals(o);
    forall s | s in R.Goals(ItemsOf(Stream(o)))
      ensures MayStand(GraphOfOrder(o), s) && FirstNodeId(o) < s <= BaseLast(GraphOfOrder(o)).value
    {
      var i :| 0 < i < BaseCount(o.nodes) && s == o.nodes[i].seqId;
      NodeIdsAscend(o, 0, i);
      OrderNodeStands(o, i);
      StandsInBase(GraphOfOrder(o), s);
    }
  }

  lemma OrderNodeStands(o: Order, i: nat)
    requires Consistent(o) && i < BaseCount(o.nodes)
    ensures MayStand(GraphOfOrder(o), o.nodes[i].seqId)
  {
    ListedNode(o, i);
    hide FromList, Consistent, BaseCount;
  }

  lemma StandsInBase(m: Elements, s: SeqId)
    requires MayStand(m, s) && BaseLast(m).Some?
    ensures s <= BaseLast(m).value
  {
  }

  // What is handed over /////////////////////////////////////////////////////////////////////////

  lemma {:induction false} EnqueuedJoin(a: seq<Op>, b: seq<Op>)
    ensures H.EnqueuedItems(a + b) == H.EnqueuedItems(a) + H.EnqueuedItems(b)
  {
    if b == [] {
      assert a + b == a;
    } else {
      var init, op := b[..|b| - 1], b[|b| - 1];
      EnqueuedJoin(a, init);
      assert (a + b)[..|a + b| - 1] == a + init;
      Associative(H.EnqueuedItems(a), H.EnqueuedItems(init), if op.OpEnqueue? then [op.item] else []);
    }
  }

  lemma {:induction false} EnqueuedAll(items: seq<Item>)
    ensures H.EnqueuedItems(EnqueueAll(items) + [OpCommit]) == items
  {
    var ops := EnqueueAll(items) + [OpCommit];
    assert ops[..|ops| - 1] == EnqueueAll(items);
    EnqueuedOnly(items);
    assert items + [] == items;
  }

  lemma {:induction false} EnqueuedOnly(items: seq<Item>)
    ensures H.EnqueuedItems(EnqueueAll(items)) == items
  {
    if items != [] {
      var init, last := items[..|items| - 1], items[|items| - 1];
      EnqueuedOnly(init);
      assert EnqueueAll(items)[..|EnqueueAll(items)| - 1] == EnqueueAll(init);
      assert items == init + [last];
    }
  }

  lemma ProperInit(acts: seq<Act>)
    requires Proper(acts) && acts != []
    ensures Proper(acts[..|acts| - 1])
  {
    var init := acts[..|acts| - 1];
    assert forall i | 0 <= i < |init| :: init[i] == acts[i];
  }

  /** The goals handed over so far. */
  ghost function GoalsIn(acts: seq<Act>): seq<SeqId>
    requires Proper(acts)
  {
    R.Goals(H.EnqueuedItems(OpsOf(acts)))
  }

  lemma {:induction false} OpsNext(acts: seq<Act>)
    requires Proper(acts) && acts != []
    ensures Proper(acts[..|acts| - 1])
    ensures var last := acts[|acts| - 1];
            && (last.Deliver? ==> Acceptable(last.order) && last.order.nodes != [] &&
                                  |last.order.nodes| == |last.order.edges| + 1)
            && (last.Call? ==> !last.op.OpEnqueue?)
            && OpsOf(acts) == OpsOf(acts[..|acts| - 1]) +
                              match last
                              case Deliver(o) => EnqueueAll(ItemsOf(Stream(o))) + [OpCommit]
                              case Call(op) => [op]
  {
    ProperInit(acts);
    hide EnqueueAll, ItemsOf, Stream, Acceptable;
  }

  lemma {:induction false} OneCall(op: Op)
    requires !op.OpEnqueue?
    ensures H.EnqueuedItems([op]) == []
  {
    assert [op][..0] == [];
  }

  lemma {:induction false} GoalsNext(acts: seq<Act>)
    requires Proper(acts) && acts != []
    ensures Proper(acts[..|acts| - 1])
    ensures var last := acts[|acts| - 1];
            && (last.Deliver? ==> Acceptable(last.order) && last.order.nodes != [] &&
                                  |last.order.nodes| == |last.order.edges| + 1)
            && GoalsIn(acts) == GoalsIn(acts[..|acts| - 1]) +
                                if last.Deliver? then R.Goals(ItemsOf(Stream(last.order))) else []
  {
    OpsNext(acts);
    var init, last := acts[..|acts| - 1], acts[|acts| - 1];
    hide OpsOf, R.Goals, H.EnqueuedItems, EnqueueAll, ItemsOf, Stream, Acceptable, Proper;
    R.NoGoals();
    match last
    case Deliver(o) =>
      EnqueuedJoin(OpsOf(init), EnqueueAll(ItemsOf(Stream(o))) + [OpCommit]);
      EnqueuedAll(ItemsOf(Stream(o)));
      R.GoalsAppend(H.EnqueuedItems(OpsOf(init)), ItemsOf(Stream(o)));
    case Call(op) =>
      EnqueuedJoin(OpsOf(init), [op]);
      OneCall(op);
      R.GoalsAppend(H.EnqueuedItems(OpsOf(init)), []);
  }

  lemma PassedGrows(acts: seq<Act>)
    requires Proper(acts) && acts != []
    ensures Proper(acts[..|acts| - 1]) && PassedIn(acts[..|acts| - 1]) <= PassedIn(acts)
  {
    OpsNext(acts);
    var init := acts[..|acts| - 1];
    hide OpsOf, Run, Passed, EnqueueAll, ItemsOf, Stream, Acceptable, Proper;
    OutGrows(OpsOf(init), OpsOf(acts));
    PassedPrefix(Run(OpsOf(init)).out, Run(OpsOf(acts)).out);
  }

  lemma MoveOut(s: Sched, m: Move)
    requires Enabled(s, m)
    ensures s.out <= Do(s, m).out
  {
    if m.MEnter? || m.MCancelIdle? {
      hide WellFormed;
    } else {
      hide Do, Enabled;
      R.MoveAdds(s, m);
    }
  }

  lemma {:induction false} PathOut(s: Sched, ms: seq<Move>, t: Sched)
    requires Path(s, ms, t)
    ensures s.out <= t.out
    decreases |ms|
  {
    if ms != [] {
      MoveOut(s, ms[0]);
      hide Do, Enabled;
      PathOut(Do(s, ms[0]), ms[1..], t);
    }
  }

  lemma AcceptOut(s: Sched, op: Op)
    ensures Accept(s, op).out == s.out
  {
  }

  lemma CallKeepsOut(s: Sched, op: Op)
    requires WellFormed(s)
    ensures s.out <= Apply(s, op).s.out
  {
    hide *;
    AcceptOut(s, op);
    var ms := PathApply(s, op);
    PathOut(Accept(s, op), ms, Apply(s, op).s);
  }

  lemma {:induction false} OutGrows(a: seq<Op>, b: seq<Op>)
    requires a <= b
    ensures Run(a).out <= Run(b).out
    decreases |b|
  {
    if |a| == |b| {
      assert a == b;
    } else {
      OutGrows(a, b[..|b| - 1]);
      CallKeepsOut(Run(b[..|b| - 1]), b[|b| - 1]);
    }
  }

  lemma {:induction false} PassedPrefix(a: seq<Event>, b: seq<Event>)
    requires a <= b
    ensures Passed(a) <= Passed(b)
  {
    assert b == a + b[|a|..];
    PassedAppend(a, b[|a|..]);
  }

  // Goals of continued orders ///////////////////////////////////////////////////////////////////

  lemma StrictJoin(a: seq<SeqId>, b: seq<SeqId>, k: SeqId)
    requires Strict(a) && Strict(b) && (forall s | s in a :: s <= k) && (forall s | s in b :: k < s)
    ensures Strict(a + b)
  {
    var c := a + b;
    forall i, j | 0 <= i < j < |c|
      ensures c[i] < c[j]
    {
      assert i < |a| ==> c[i] in a;
      assert j >= |a| ==> c[j] == b[j - |a|] && c[j] in b;
    }
  }

  lemma ContinuedInit(orders: seq<Order>)
    requires Continued(orders) && orders != []
    ensures Continued(orders[..|orders| - 1])
    ensures var o := orders[|orders| - 1];
            Acceptable(o) && o.nodes != [] && (|orders| == 1 ==> o.nodes[0].seqId == 0)
    ensures |orders| > 1 ==>
              && BaseLast(GraphOfOrder(orders[|orders| - 2])).Some?
              && FirstNodeId(orders[|orders| - 1]) == BaseLast(GraphOfOrder(orders[|orders| - 2])).value
  {
    hide Acceptable, GraphOfOrder, BaseLast, FirstNodeId;
    var init := orders[..|orders| - 1];
    assert forall i | 0 <= i < |init| :: init[i] == orders[i];
    forall i, j | 0 <= i < j < |init| && j == i + 1
      ensures Continues(init[i], init[j])
    {
      assert Continues(orders[i], orders[j]);
    }
    if |orders| > 1 {
      assert Continues(orders[|orders| - 2], orders[|orders| - 1]);
    }
  }

  lemma {:induction false} DeliveredNext(acts: seq<Act>)
    requires acts != []
    ensures var last := acts[|acts| - 1];
            Delivered(acts) == Delivered(acts[..|acts| - 1]) + if last.Deliver? then [last.order] else []
  {
  }

  /** The goals of continued orders ascend, up to the end of the base of the last one. */
  lemma {:induction false} GoalsAscend(acts: seq<Act>)
    requires Proper(acts) && Continued(Delivered(acts))
    ensures Strict(GoalsIn(acts))
    ensures if Delivered(acts) == [] then GoalsIn(acts) == []
            else
              var g := GraphOfOrder(Delivered(acts)[|Delivered(acts)| - 1]);
              BaseLast(g).Some? && forall s | s in GoalsIn(acts) :: s <= BaseLast(g).value
    decreases |acts|
  {
    hide *;
    if acts == [] {
      NoActs();
    } else {
      var init, last := acts[..|acts| - 1], acts[|acts| - 1];
      GoalsNext(acts);
      DeliveredNext(acts);
      match last
      case Deliver(o) =>
        assert Delivered(acts)[..|Delivered(acts)| - 1] == Delivered(init);
        ContinuedInit(Delivered(acts));
        GoalsAscend(init);
        GoalsOfOrder(o);
        if Delivered(init) == [] {
          assert [] + R.Goals(ItemsOf(Stream(o))) == R.Goals(ItemsOf(Stream(o)));
        } else {
          FirstInBase(o);
          StrictJoin(GoalsIn(init), R.Goals(ItemsOf(Stream(o))), FirstNodeId(o));
        }
      case Call(op) =>
        assert Delivered(acts) == Delivered(init);
        GoalsAscend(init);
        assert GoalsIn(acts) == GoalsIn(init);
    }
  }

  lemma NoActs()
    ensures Proper([]) && Delivered([]) == [] && OpsOf([]) == [] && GoalsIn([]) == [] && PassedIn([]) == []
    ensures Strict([]) && StoredIn([]) == Some(map[])
  {
    R.NoGoals();
    CountsOfNone(0);
    assert H.EnqueuedItems([]) == [];
  }

  lemma FirstInBase(o: Order)
    requires Acceptable(o) && o.nodes != [] && BaseLast(GraphOfOrder(o)).Some?
    ensures FirstNodeId(o) <= BaseLast(GraphOfOrder(o)).value
  {
    hide *;
    AcceptableIs(o);
    StandsInBase(GraphOfOrder(o), FirstNodeId(o));
  }

  // The stored graph ////////////////////////////////////////////////////////////////////////////

  /** The graph is sound, its base ends where the last order's base ends, it begins at the node passed last, and the
      vehicle may stand on every goal that is still ahead. */
  ghost predicate Holds(m: Elements, base: SeqId, goals: seq<SeqId>, passed: seq<SeqId>)
  {
    && Sound(m) && BaseLast(m) == Some(base) && MayStand(m, base)
    && (passed != [] ==> First(m) == passed[|passed| - 1])
    && (forall s | s in goals && (passed != [] ==> s > passed[|passed| - 1]) :: MayStand(m, s))
  }

  /** Storing an update keeps what holds, and adds its goals. */
  lemma StitchHolds(m: Elements, o: Order, base: SeqId, goals: seq<SeqId>, passed: seq<SeqId>)
    requires Holds(m, base, goals, passed) && Acceptable(o) && o.nodes != [] && |o.nodes| == |o.edges| + 1
    requires FirstNodeId(o) == base
    ensures BaseLast(GraphOfOrder(o)).Some?
    ensures Stored(m, GraphOfOrder(o)).Some?
    ensures Holds(Stored(m, GraphOfOrder(o)).value, BaseLast(GraphOfOrder(o)).value,
                  goals + R.Goals(ItemsOf(Stream(o))), passed)
  {
    var other := GraphOfOrder(o);
    var more := R.Goals(ItemsOf(Stream(o)));
    AcceptableIs(o);
    GoalsOfOrder(o);
    UpdateWorks(m, o, base);
    OrderBaseStands(o);
    hide Acceptable, R.Goals, ItemsOf, Stream, FirstNodeId, GraphOfOrder, Extends, Announces, Sound, Extended, MayStand,
      BaseLast, First;
    var n := Extended(m, other);
    assert Stored(m, other) == Some(n) by {
      SoundNotEmpty(m);
    }
    StitchedEnds(m, other);
    forall s | s in goals + more && (passed != [] ==> s > passed[|passed| - 1])
      ensures MayStand(n, s)
    {
      if s in goals {
        UpdateWorks(m, o, s);
      } else {
        LaidOver(m, other, s);
      }
    }
    LaidOver(m, other, BaseLast(other).value);
  }

  lemma OrderBaseStands(o: Order)
    requires Acceptable(o)
    ensures BaseLast(GraphOfOrder(o)).Some? && MayStand(GraphOfOrder(o), BaseLast(GraphOfOrder(o)).value)
  {
    BaseFound(o);
    hide FromList, BaseLast, First, Last;
  }

  lemma SoundNotEmpty(m: Elements)
    requires Sound(m)
    ensures m != map[]
  {
  }

  lemma LaidOver(m: Elements, other: Elements, s: SeqId)
    requires m != map[] && other != map[] && Extends(m, other) && MayStand(other, s)
    ensures MayStand(Extended(m, other), s)
  {
    hide WithoutHorizon;
  }

  lemma BaseLastIs(m: Elements, k: SeqId)
    requires k in m && m[k].IsBase() && forall j | j in m && m[j].IsBase() :: j <= k
    ensures BaseLast(m) == Some(k)
  {
  }

  lemma FirstIs(m: Elements, k: SeqId)
    requires k in m && forall j | j in m :: k <= j
    ensures m != map[] && First(m) == k
  {
  }

  // two graphs, the second of which is laid over the first
  lemma JoinedEnds(b: Elements, other: Elements, first: SeqId, last: SeqId)
    requires other != map[] && BaseLast(other).Some? && first in b && forall k | k in b :: first <= k <= last
    requires First(other) == last
    ensures BaseLast(b + other) == BaseLast(other) && b + other != map[] && First(b + other) == first
  {
    var n := b + other;
    BaseLastIs(n, BaseLast(other).value);
    FirstIs(n, first);
  }

  lemma StitchedEnds(m: Elements, other: Elements)
    requires Sound(m) && Sound(other) && Extends(m, other) && BaseLast(other).Some?
    requires First(other) == BaseLast(m).value && other[First(other)].IsBase()
    ensures BaseLast(Extended(m, other)) == BaseLast(other)
    ensures Extended(m, other) != map[] && First(Extended(m, other)) == First(m)
  {
    Stitch(m, other);
    FirstIsBase(m);
    BaseReach(m, other);
    hide *;
    JoinedEnds(Base(m), other, First(m), First(other));
  }

  lemma BaseReach(m: Elements, other: Elements)
    requires Sound(m) && Sound(other) && BaseLast(other).Some? && other[First(other)].IsBase() && BaseLast(m).Some?
    ensures m != map[] && other != map[] && First(other) <= BaseLast(other).value
    ensures forall k | k in Base(m) :: First(m) <= k <= BaseLast(m).value
  {
    hide Base, BaseLast, First;
  }

  lemma FirstIsBase(m: Elements)
    requires Sound(m) && BaseLast(m).Some?
    ensures m != map[] && m[First(m)].IsBase() && First(m) in Base(m)
  {
    BaseIsPrefix(m);
    assert First(m) in Base(m);
  }

  lemma FirstHolds(o: Order)
    requires Acceptable(o) && o.nodes != [] && |o.nodes| == |o.edges| + 1 && o.nodes[0].seqId == 0
    ensures BaseLast(GraphOfOrder(o)).Some?
    ensures Stored(map[], GraphOfOrder(o)) == Some(GraphOfOrder(o))
    ensures Holds(GraphOfOrder(o), BaseLast(GraphOfOrder(o)).value, R.Goals(ItemsOf(Interpretation.Stream(o))), [])
  {
    hide *;
    AcceptableIs(o);
    GoalsOfOrder(o);
    OrderBaseStands(o);
    StoredFirst(GraphOfOrder(o));
    HoldsAtFirst(GraphOfOrder(o), BaseLast(GraphOfOrder(o)).value, R.Goals(ItemsOf(Interpretation.Stream(o))));
  }

  lemma StoredFirst(g: Elements)
    requires MayStand(g, 0)
    ensures Stored(map[], g) == Some(g)
  {
  }

  lemma HoldsAtFirst(m: Elements, base: SeqId, goals: seq<SeqId>)
    requires Sound(m) && BaseLast(m) == Some(base) && MayStand(m, base) && forall s | s in goals :: MayStand(m, s)
    ensures Holds(m, base, goals, [])
  {
    hide Sound, BaseLast, MayStand;
  }

  lemma FromKeeps(m: Elements, s: SeqId, k: SeqId)
    requires MayStand(m, k) && s <= k
    ensures MayStand(From(m, s), k)
  {
  }

  lemma FromEnds(m: Elements, s: SeqId)
    requires BaseLast(m).Some? && s <= BaseLast(m).value
    ensures BaseLast(From(m, s)) == BaseLast(m)
  {
    BaseLastIs(From(m, s), BaseLast(m).value);
  }

  /** Passing further nodes, each of them a goal and all of them ahead, keeps what holds. */
  lemma {:induction false} PassingHolds(m: Elements, base: SeqId, goals: seq<SeqId>, passed: seq<SeqId>,
                                        more: seq<SeqId>)
    requires Holds(m, base, goals, passed) && Strict(passed + more)
    requires forall s | s in more :: s in goals
    ensures Replay(m, more).Some? && Holds(Replay(m, more).value, base, goals, passed + more)
  {
    forall s | s in more
      ensures MayStand(m, s)
    {
      AheadOf(passed, more, s);
    }
    StrictEnd(passed, more);
    if more == [] {
      assert passed + more == passed;
    } else {
      hide Sound, BaseLast, First, MayStand, Strict;
      ReplayAscending(m, more);
      var last := more[|more| - 1];
      var n := Replay(m, more).value;
      assert last in more;
      StandsInBase(m, last);
      FromEnds(m, last);
      FromKeeps(m, last, base);
      assert (passed + more)[|passed + more| - 1] == last;
      forall s | s in goals && s > last
        ensures MayStand(n, s)
      {
        if passed != [] {
          AheadOf(passed, more, last);
        }
        FromKeeps(m, last, s);
      }
    }
  }

  lemma StrictEnd(a: seq<SeqId>, b: seq<SeqId>)
    requires Strict(a + b)
    ensures Strict(b)
  {
    assert forall i | 0 <= i < |b| :: b[i] == (a + b)[|a| + i];
  }

  lemma AheadOf(passed: seq<SeqId>, more: seq<SeqId>, s: SeqId)
    requires Strict(passed + more) && s in more
    ensures passed != [] ==> passed[|passed| - 1] < s
  {
    var i :| 0 <= i < |more| && more[i] == s;
    var all := passed + more;
    assert all[|passed| + i] == s;
    assert passed != [] ==> all[|passed| - 1] == passed[|passed| - 1];
  }

  // Runs ////////////////////////////////////////////////////////////////////////////////////////

  lemma {:induction false} PassedAreGoals(acts: seq<Act>)
    requires Proper(acts) && Continued(Delivered(acts))
    ensures Strict(PassedIn(acts)) && forall s | s in PassedIn(acts) :: s in GoalsIn(acts)
  {
    GoalsAscend(acts);
    R.PassedAscends(OpsOf(acts));
    hide OpsOf, Continued, Delivered, R.Goals, H.EnqueuedItems, Passed, Run, R.Follows;
  }

  /** What has been stored when everything so far went well. */
  ghost predicate Fine(acts: seq<Act>)
    requires Proper(acts)
  {
    && StoredIn(acts).Some?
    && if Delivered(acts) == [] then StoredIn(acts).value == map[] && GoalsIn(acts) == []
       else
         var g := GraphOfOrder(Delivered(acts)[|Delivered(acts)| - 1]);
         BaseLast(g).Some? && Holds(StoredIn(acts).value, BaseLast(g).value, GoalsIn(acts), PassedIn(acts))
  }

  lemma {:induction false} StoredNext(acts: seq<Act>)
    requires Proper(acts) && acts != []
    ensures Proper(acts[..|acts| - 1])
    ensures var init, last := acts[..|acts| - 1], acts[|acts| - 1];
            var before := StoredIn(init);
            before.Some? ==>
              var graph := if last.Deliver? then Stored(before.value, GraphOfOrder(last.order)) else before;
              var n := |PassedIn(init)|;
              StoredIn(acts) == if graph.None? || n > |PassedIn(acts)| then None
                                else Replay(graph.value, PassedIn(acts)[n..])
  {
    ProperInit(acts);
    hide PassedIn, Replay, GraphOfOrder;
  }

  lemma NoneIn(a: seq<SeqId>, b: seq<SeqId>)
    requires b == [] && forall s | s in a :: s in b
    ensures a == []
  {
    SomeIn(a);
  }

  lemma SomeIn(a: seq<SeqId>)
    ensures a == [] || exists s :: s in a
  {
    assert a == [] || a[0] in a;
  }

  lemma {:induction false} NothingPassed(acts: seq<Act>)
    requires Proper(acts) && Continued(Delivered(acts)) && GoalsIn(acts) == []
    ensures PassedIn(acts) == []
  {
    PassedAreGoals(acts);
    hide *;
    NoneIn(PassedIn(acts), GoalsIn(acts));
  }

  lemma {:induction false} ReplayNone(m: Elements)
    ensures Replay(m, []) == Some(m)
  {
  }

  lemma {:induction false} PassedOn(m: Elements, base: SeqId, goals: seq<SeqId>, before: seq<SeqId>, all: seq<SeqId>)
    requires before <= all && Strict(all) && (forall s | s in all :: s in goals) && Holds(m, base, goals, before)
    ensures Replay(m, all[|before|..]).Some? && Holds(Replay(m, all[|before|..]).value, base, goals, all)
  {
    hide *;
    var more := all[|before|..];
    assert before + more == all;
    assert forall s | s in more :: s in all;
    PassingHolds(m, base, goals, before, more);
  }

  /** The graph after the nodes passed with the last act, from the graph before them. */
  lemma PassedNext(acts: seq<Act>, m: Elements, base: SeqId)
    requires Proper(acts) && acts != [] && Continued(Delivered(acts))
    requires Proper(acts[..|acts| - 1]) && Holds(m, base, GoalsIn(acts), PassedIn(acts[..|acts| - 1]))
    ensures var n := |PassedIn(acts[..|acts| - 1])|;
            && n <= |PassedIn(acts)| && Replay(m, PassedIn(acts)[n..]).Some?
            && Holds(Replay(m, PassedIn(acts)[n..]).value, base, GoalsIn(acts), PassedIn(acts))
  {
    var before := PassedIn(acts[..|acts| - 1]);
    PassedGrows(acts);
    PassedAreGoals(acts);
    hide *;
    PassedOn(m, base, GoalsIn(acts), before, PassedIn(acts));
  }

  lemma {:induction false} DeliveryFine(acts: seq<Act>)
    requires Proper(acts) && acts != [] && Continued(Delivered(acts)) && acts[|acts| - 1].Deliver?
    requires Proper(acts[..|acts| - 1]) && Continued(Delivered(acts[..|acts| - 1])) && Fine(acts[..|acts| - 1])
    ensures Fine(acts)
  {
    var init, o := acts[..|acts| - 1], acts[|acts| - 1].order;
    GoalsNext(acts);
    DeliveredNext(acts);
    StoredNext(acts);
    assert Delivered(acts)[..|Delivered(acts)| - 1] == Delivered(init);
    ContinuedInit(Delivered(acts));
    var goals := R.Goals(ItemsOf(Interpretation.Stream(o)));
    if Delivered(init) == [] {
      NothingPassed(init);
      FirstHolds(o);
      assert [] + goals == goals;
    } else {
      StitchHolds(StoredIn(init).value, o, FirstNodeId(o), GoalsIn(init), PassedIn(init));
    }
    hide Proper, Continued, StoredIn, Stored, Delivered, GoalsIn, PassedIn, Holds, Replay;
    hide GraphOfOrder, BaseLast, R.Goals;
    PassedNext(acts, Stored(StoredIn(init).value, GraphOfOrder(o)).value, BaseLast(GraphOfOrder(o)).value);
  }

  lemma {:induction false} CallFine(acts: seq<Act>)
    requires Proper(acts) && acts != [] && Continued(Delivered(acts)) && acts[|acts| - 1].Call?
    requires Proper(acts[..|acts| - 1]) && Fine(acts[..|acts| - 1])
    ensures Fine(acts)
  {
    var init := acts[..|acts| - 1];
    GoalsNext(acts);
    DeliveredNext(acts);
    StoredNext(acts);
    assert Delivered(acts) == Delivered(init) && GoalsIn(acts) == GoalsIn(init);
    if Delivered(init) == [] {
      NothingPassed(acts);
      NothingPassed(init);
      ReplayNone(map[]);
    }
    hide Proper, Continued, StoredIn, Delivered, GoalsIn, PassedIn, Holds, Replay, GraphOfOrder, BaseLast;
    if Delivered(init) != [] {
      var g := GraphOfOrder(Delivered(acts)[|Delivered(acts)| - 1]);
      PassedNext(acts, StoredIn(init).value, BaseLast(g).value);
    }
  }

  /** In every run of a new order and the updates that continue it, delivered one after the other with any calls to the
      scheduler in between: every graph is stored, stitched and announced without a throw, every node the vehicle passes
      is found on the graph stored so far, and the graph that is left is sound and begins at the node passed last. */
  lemma {:induction false} StoredGraphFollows(acts: seq<Act>)
    requires Proper(acts) && Continued(Delivered(acts))
    ensures StoredIn(acts).Some? && Strict(PassedIn(acts))
    ensures Delivered(acts) != [] ==>
              && Sound(StoredIn(acts).value)
              && (PassedIn(acts) != [] ==> First(StoredIn(acts).value) == PassedIn(acts)[|PassedIn(acts)| - 1])
    ensures Fine(acts)
    decreases |acts|
  {
    PassedAreGoals(acts);
    if acts == [] {
      NoActs();
    } else {
      var init := acts[..|acts| - 1];
      ProperInit(acts);
      DeliveredNext(acts);
      if acts[|acts| - 1].Deliver? {
        assert Delivered(acts)[..|Delivered(acts)| - 1] == Delivered(init);
        ContinuedInit(Delivered(acts));
      } else {
        assert Delivered(acts) == Delivered(init);
      }
      hide *;
      StoredGraphFollows(init);
      if acts[|acts| - 1].Deliver? {
        DeliveryFine(acts);
      } else {
        CallFine(acts);
      }
    }
    FineMeans(acts);
  }

  lemma {:induction false} FineMeans(acts: seq<Act>)
    requires Proper(acts) && Fine(acts)
    ensures StoredIn(acts).Some?
    ensures Delivered(acts) != [] ==>
              && Sound(StoredIn(acts).value)
              && (PassedIn(acts) != [] ==> First(StoredIn(acts).value) == PassedIn(acts)[|PassedIn(acts)| - 1])
  {
    hide Proper, StoredIn, Delivered, GoalsIn, PassedIn, GraphOfOrder, Sound, BaseLast, First, MayStand;
  }
}
