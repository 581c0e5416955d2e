/** Across the layers: from an accepted order to whole runs of the scheduler and to the stored graph. */
module Pipeline {
  import opened Vda
  import opened Events
  import opened Graphs
  import opened OrderManagers
  import opened OrderChecks
  import opened Acceptance
  import opened Interpretation
  import opened OrderJoins
  import opened Streams
  import opened SchedulerModel
  import O = SchedulerOperations
  import opened SchedulerMoves
  import opened SchedulerAccounts
  import opened SchedulerBlocking
  import opened SchedulerHistory
  import opened SchedulerSegments
  import R = SchedulerReports
  import A = ActionTasks
  import N = NavigationTasks

  /** An order that passes the checks, with ascending lists, beginning and ending in nodes. */
  ghost predicate Acceptable(o: Order)
  {
    Consistent(o) && Ordered(o)
  }

  /** The run is given items of one interpreted order, in their order; everything else in the run is arbitrary. */
  ghost predicate Carries(ops: seq<Op>, o: Order)
  {
    Walkable(o) && EnqueuedItems(ops) <= ItemsOf(Interpretation.Stream(o))
  }

  // What reaches the scheduler //////////////////////////////////////////////////////////////////

  lemma {:induction false} EnqueuedAt(ops: seq<Op>, i: nat)
    requires i < |ops| && ops[i].OpEnqueue?
    ensures ops[i].item in EnqueuedItems(ops)
  {
    if i < |ops| - 1 {
      EnqueuedAt(ops[..|ops| - 1], i);
    }
  }

  ghost predicate InterruptsFine(ops: seq<Op>)
  {
    forall i | 0 <= i < |ops| && ops[i].OpInterrupt? :: CeilingOk(ops[i].group)
  }

  /** All groups of such a run carry their ceilings, so that the runs' theorems about blocking types apply. */
  lemma {:induction false} CarriedCeilings(ops: seq<Op>)
    requires ItemsFine(EnqueuedItems(ops)) && InterruptsFine(ops)
    ensures forall i | 0 <= i < |ops| :: OpCeilingOk(ops[i])
  {
    forall i | 0 <= i < |ops|
      ensures OpCeilingOk(ops[i])
    {
      if ops[i].OpEnqueue? {
        EnqueuedAt(ops, i);
        var items := EnqueuedItems(ops);
        var k :| 0 <= k < |items| && items[k] == ops[i].item;
        assert ItemFine(items[k]);
      }
    }
    hide EnqueuedItems, CeilingOk;
  }

  lemma StreamItemsFine(o: Order)
    requires o.nodes != [] && |o.nodes| == |o.edges| + 1
    ensures ItemsFine(ItemsOf(Interpretation.Stream(o)))
  {
    StreamGroupsFine(o, 0);
    ItemsOfStream(o);
  }

  /** Where the queued items and the started groups come from. */
  ghost predicate Sourced(s: Sched, items: seq<Item>)
  {
    && (forall i | 0 <= i < |s.queue| :: s.queue[i] in items)
    && (forall i | 0 <= i < |s.staging| :: s.staging[i] in items)
    && (forall i | 0 <= i < |s.hist| && s.hist[i].GroupStarted? && !s.hist[i].instant ::
          Actions(s.hist[i].group) in items)
  }

  lemma {:induction false} StepsComeFrom(items: seq<Item>)
    ensures forall i | 0 <= i < |StepsToStop(items)| :: StepsToStop(items)[i] in items
  {
    if items != [] {
      StepsComeFrom(items[1..]);
      assert forall x | x in items[1..] :: x in items;
    }
  }

  lemma SourcedAs(s: Sched, t: Sched, items: seq<Item>)
    requires Sourced(s, items) && t.hist == s.hist && t.staging == s.staging
    requires t.queue == s.queue || t.queue == []
    ensures Sourced(t, items)
  {
  }

  lemma GroupSourced(s: Sched, t: Sched, items: seq<Item>)
    requires Sourced(s, items) && s.queue != [] && s.queue[0].Actions?
    requires t.queue == s.queue[1..] && t.staging == s.staging
    requires t.hist == s.hist + [GroupStarted(s.queue[0].group, false, s.tasks, s.nav)]
    ensures Sourced(t, items)
  {
    assert s.queue[0] in items;
  }

  lemma StartedQueue(s: Sched)
    requires Enabled(s, MGroup)
    ensures Do(s, MGroup) == StartGroup(s)
    ensures StartGroup(s).queue == s.queue[1..] && StartGroup(s).staging == s.staging
  {
    hide WellFormed;
  }

  lemma StepSourced(s: Sched, items: seq<Item>)
    requires Enabled(s, MStep) && Sourced(s, items)
    ensures Sourced(Do(s, MStep), items)
  {
    hide N.Effect, SegmentEnd, WellFormed, StepReady;
  }

  lemma InstantSourced(s: Sched, items: seq<Item>)
    requires Enabled(s, MInstant) && Sourced(s, items)
    requires s.interrupts != [] ==>
               StartInstant(s).hist == s.hist + [GroupStarted(s.interrupts[0], true, s.tasks, s.nav)]
    ensures Sourced(Do(s, MInstant), items)
  {
    assert StartInstant(s).queue == s.queue && StartInstant(s).staging == s.staging;
    hide StartInstant, InstantReady, WellFormed;
  }

  lemma PatchSourced(s: Sched, items: seq<Item>)
    requires Enabled(s, MPatch) && Sourced(s, items)
    ensures Sourced(Do(s, MPatch), items)
  {
    hide SegmentEnd, WellFormed;
  }

  lemma ClearSourced(s: Sched, keepNav: bool, items: seq<Item>)
    requires Enabled(s, MClear(keepNav)) && Sourced(s, items)
    requires forall i | 0 <= i < |StepsToStop(s.queue)| :: StepsToStop(s.queue)[i] in s.queue
    ensures Sourced(Do(s, MClear(keepNav)), items)
  {
    hide StepsToStop, ForgetItems, ForgetGroups, WellFormed;
  }

  lemma KeptQueue(s: Sched, m: Move)
    requires Enabled(s, m) && !m.MGroup? && !m.MInstant? && !m.MStep? && !m.MPatch? && !m.MClear?
    ensures Do(s, m).queue == s.queue || Do(s, m).queue == []
  {
    if m.MUpdateTasks? {
      UpdateTasksQueue(s);
    }
    hide UpdateTasks, A.Effect, A.Next, N.Effect, N.Transfer, Keep, WellFormed;
  }

  lemma MoveSourced(s: Sched, m: Move, items: seq<Item>)
    requires Enabled(s, m) && Sourced(s, items)
    ensures Sourced(Do(s, m), items)
  {
    hide *;
    match m {
      case MGroup =>
        GroupEnabled(s);
        GroupStarts(s);
        StartedQueue(s);
        GroupSourced(s, Do(s, m), items);
      case MStep =>
        StepEnabled(s);
        O.DriveIs(s);
        StepSourced(s, items);
      case MInstant =>
        InstantStarts(s);
        InstantSourced(s, items);
      case MPatch => PatchSourced(s, items);
      case MClear(keepNav) =>
        StepsComeFrom(s.queue);
        ClearSourced(s, keepNav, items);
      case _ =>
        QuietMoves(s, m);
        KeptQueue(s, m);
        SourcedAs(s, Do(s, m), items);
    }
  }

  lemma {:induction false} PathSourced(s: Sched, ms: seq<Move>, t: Sched, items: seq<Item>)
    requires Path(s, ms, t) && Sourced(s, items)
    ensures Sourced(t, items)
    decreases |ms|
  {
    if ms != [] {
      MoveSourced(s, ms[0], items);
      PathSourced(Do(s, ms[0]), ms[1..], t, items);
    }
  }

  lemma AcceptSourced(s: Sched, op: Op, items: seq<Item>, more: seq<Item>)
    requires Sourced(s, items) && more == items + (if op.OpEnqueue? then [op.item] else [])
    ensures Sourced(Accept(s, op), more)
  {
    assert forall x | x in items :: x in more;
  }

  lemma {:induction false} RunSourced(ops: seq<Op>)
    ensures Sourced(Run(ops), EnqueuedItems(ops))
  {
    if ops != [] {
      var before, op := ops[..|ops| - 1], ops[|ops| - 1];
      RunSourced(before);
      AcceptSourced(Run(before), op, EnqueuedItems(before), EnqueuedItems(ops));
      hide Sourced, Apply, Accept, EnqueuedItems;
      var ms := PathApply(Run(before), op);
      PathSourced(Accept(Run(before), op), ms, Run(ops), EnqueuedItems(ops));
    }
  }

  // HARD actions ////////////////////////////////////////////////////////////////////////////////

  lemma FineIsAlone(g: Group)
    requires GroupFine(g)
    ensures HardAlone(g)
  {
  }

  /** In every state of every run whose groups are built as the interpreter builds them, whatever else happens, an
      active HARD action of an order is the only active action. */
  lemma {:induction false} HardOrderActionAlone(ops: seq<Op>, id: ActionId, other: ActionId)
    requires ItemsFine(EnqueuedItems(ops)) && InterruptsFine(ops)
    requires id in Run(ops).active && other in Run(ops).active
    requires BlockingOf(Run(ops), id) == HARD && !Run(ops).tasks[Run(ops).active[id]].instant
    ensures id == other
  {
    var s := Run(ops);
    CarriedCeilings(ops);
    RunExclusive(ops);
    RunSourced(ops);
    var task := s.tasks[s.active[id]];
    assert Member(task, s.hist);
    var group := s.hist[task.batch].group;
    var enqueued := EnqueuedItems(ops);
    assert Actions(group) in enqueued;
    var k :| 0 <= k < |enqueued| && enqueued[k] == Actions(group);
    assert ItemFine(enqueued[k]);
    FineIsAlone(group);
    HardRunsAlone(s, id, other);
  }

  ghost function ItemsOfOrder(o: Order): seq<Item>
    requires Walkable(o)
  {
    ItemsOf(Interpretation.Stream(o))
  }

  /** The items of interpreted orders, one order after the other. */
  ghost function OrderItems(orders: seq<Order>): seq<Item>
    requires forall i | 0 <= i < |orders| :: Walkable(orders[i])
  {
    if orders == [] then []
    else OrderItems(orders[..|orders| - 1]) + ItemsOfOrder(orders[|orders| - 1])
  }

  /** The run is given items of interpreted orders and updates; everything else in the run is arbitrary. */
  ghost predicate CarriesAll(ops: seq<Op>, orders: seq<Order>)
  {
    && (forall i | 0 <= i < |orders| :: Walkable(orders[i]))
    && EnqueuedItems(ops) <= OrderItems(orders)
  }

  lemma {:induction false} OrderItemsFine(orders: seq<Order>)
    requires forall i | 0 <= i < |orders| :: Walkable(orders[i])
    ensures ItemsFine(OrderItems(orders))
  {
    hide ItemsFine, Walkable, ItemsOf, Interpretation.Stream;
    if orders == [] {
      StepFine(None, false);
    } else {
      var n := |orders| - 1;
      OrderItemsFine(orders[..n]);
      WalkableParts(orders[n]);
      StreamItemsFine(orders[n]);
      FineJoin(OrderItems(orders[..n]), ItemsOfOrder(orders[n]));
    }
  }

  /** In every run of any number of interpreted orders and updates, an active HARD action of an order is the only
      active action. */
  lemma {:induction false} HardAloneInOrders(ops: seq<Op>, orders: seq<Order>, id: ActionId, other: ActionId)
    requires CarriesAll(ops, orders) && InterruptsFine(ops)
    requires id in Run(ops).active && other in Run(ops).active
    requires BlockingOf(Run(ops), id) == HARD && !Run(ops).tasks[Run(ops).active[id]].instant
    ensures id == other
  {
    OrderItemsFine(orders);
    assert ItemsFine(EnqueuedItems(ops)) by {
      var items := OrderItems(orders);
      hide OrderItems, EnqueuedItems, ItemFine;
      assert forall i | 0 <= i < |EnqueuedItems(ops)| :: EnqueuedItems(ops)[i] == items[i];
    }
    hide *;
    HardOrderActionAlone(ops, id, other);
  }

  // Segments ////////////////////////////////////////////////////////////////////////////////////

  ghost predicate NoCommit(ops: seq<Op>)
  {
    forall i | 0 <= i < |ops| :: !ops[i].OpCommit?
  }

  ghost predicate CommitsOnce(ops: seq<Op>)
  {
    forall i, j | 0 <= i < j < |ops| && ops[i].OpCommit? :: !ops[j].OpCommit?
  }

  lemma MoveStaged(s: Sched, m: Move)
    requires Enabled(s, m)
    ensures Do(s, m).staging == s.staging
    ensures s.queue == [] ==> Do(s, m).queue == []
  {
    hide N.Effect, N.Transfer, SegmentEnd, ForgetItems, ForgetGroups, Covered, WellFormed, StartAll, GroupReady,
      StepReady, InstantReady, Keep;
    match m
    case MUpdateTasks => UpdateTasksQueue(s);
    case MGroup =>
    case MStep =>
    case MInstant =>
    case _ =>
  }

  lemma {:induction false} PathStaged(s: Sched, ms: seq<Move>, t: Sched)
    requires Path(s, ms, t)
    ensures t.staging == s.staging
    ensures s.queue == [] ==> t.queue == []
    decreases |ms|
  {
    if ms != [] {
      MoveStaged(s, ms[0]);
      PathStaged(Do(s, ms[0]), ms[1..], t);
    }
  }

  /** Before the first commit nothing is queued and everything handed over is staged. */
  lemma {:induction false} StagedUntilCommit(ops: seq<Op>)
    requires NoCommit(ops)
    ensures Run(ops).queue == [] && Run(ops).staging == EnqueuedItems(ops)
  {
    if ops != [] {
      var before, op := ops[..|ops| - 1], ops[|ops| - 1];
      StagedUntilCommit(before);
      var ms := PathApply(Run(before), op);
      PathStaged(Accept(Run(before), op), ms, Run(ops));
      hide Apply;
    }
  }

  /** An order that is committed once joins, wherever in the run this happens. */
  lemma OneOrderJoins(ops: seq<Op>, o: Order)
    requires Carries(ops, o) && CommitsOnce(ops)
    ensures CommitsJoin(ops)
  {
    hide Run, Carries, Hinted;
    forall i | 0 <= i < |ops| && ops[i].OpCommit?
      ensures Hinted(Run(ops[..i]).queue + Run(ops[..i]).staging)
    {
      CommitJoins(ops, i, o);
    }
  }

  lemma NoneBefore(ops: seq<Op>, i: nat)
    requires CommitsOnce(ops) && i < |ops| && ops[i].OpCommit?
    ensures NoCommit(ops[..i])
  {
    forall k | 0 <= k < i
      ensures !ops[..i][k].OpCommit?
    {
      assert ops[..i][k] == ops[k];
    }
  }

  lemma CarriesPrefix(ops: seq<Op>, i: nat, o: Order)
    requires Carries(ops, o) && i <= |ops|
    ensures o.nodes != [] && |o.nodes| == |o.edges| + 1
    ensures EnqueuedItems(ops[..i]) <= ItemsOf(Interpretation.Stream(o))
  {
    EnqueuedPrefix(ops, i);
    WalkableParts(o);
    hide EnqueuedItems, ItemsOf, Walkable, Interpretation.Stream;
  }

  lemma NothingHinted()
    ensures Hinted([])
  {
  }

  lemma CommitJoins(ops: seq<Op>, i: nat, o: Order)
    requires Carries(ops, o) && CommitsOnce(ops) && i < |ops| && ops[i].OpCommit?
    ensures Hinted(Run(ops[..i]).queue + Run(ops[..i]).staging)
  {
    hide *;
    NoneBefore(ops, i);
    StagedUntilCommit(ops[..i]);
    CarriesPrefix(ops, i, o);
    AnyOrderFits(Run(ops[..i]), o);
    NothingHinted();
    FittingJoins(Run(ops[..i]), o);
  }

  /** In every run of one committed order, with any cancels, pauses, failures and instant actions in it, no
      announced segment leads past a queued blocking group. */
  lemma {:induction false} OneOrderSegmentsSafe(ops: seq<Op>, o: Order)
    requires Carries(ops, o) && CommitsOnce(ops)
    ensures SegmentsSafe(Run(ops))
  {
    OneOrderJoins(ops, o);
    RunSegmentsSafe(ops);
  }

  // The vehicle on the stored graph /////////////////////////////////////////////////////////////

  function StoredGraph(o: Order): Elements
    requires o.nodes != [] && |o.nodes| == |o.edges| + 1
  {
    GraphOf(o, |o.nodes|)
  }

  lemma BaseNodeStands(o: Order, i: nat)
    requires Consistent(o) && Interpretable(o) && i < BaseCount(o.nodes)
    ensures MayStand(StoredGraph(o), o.nodes[i].seqId)
  {
    CollectedGraph(o);
    ListedNode(o, i);
    hide FromList, GraphOf, Consistent, BaseCount;
  }

  /** The new graph is stored and the vehicle put on it exactly when the order starts at node 0. */
  lemma ReplacementWorks(o: Order)
    requires Acceptable(o)
    ensures Interpretable(o) && Sound(StoredGraph(o))
    ensures BaseLast(StoredGraph(o)).Some?
    ensures MayStand(StoredGraph(o), 0) <==> o.nodes[0].seqId == 0
  {
    OrderedIsInterpretable(o);
    CollectedGraph(o);
    BaseNodeStands(o, 0);
    FirstIsFirst(o);
    hide FromList, GraphOf, Consistent, Ordered, BaseCount, Sound, First;
    assert StoredGraph(o)[o.nodes[0].seqId].IsBase();
  }

  lemma RouteStrict(route: seq<SeqId>, goals: seq<SeqId>)
    ensures R.RouteOk(route, goals) ==> Strict(route)
  {
  }

  lemma {:induction false} PassedNodesStand(ops: seq<Op>, o: Order)
    requires Acceptable(o) && Carries(ops, o)
    ensures o.nodes != [] && |o.nodes| == |o.edges| + 1
    ensures var passed := Passed(Run(ops).out);
            Strict(passed) && forall s | s in passed :: MayStand(StoredGraph(o), s)
  {
    var passed := Passed(Run(ops).out);
    var items, enqueued := ItemsOf(Interpretation.Stream(o)), EnqueuedItems(ops);
    RouteStrict(passed, R.Goals(enqueued));
    OrderedIsInterpretable(o);
    WalkableParts(o);
    StreamGoals(o);
    CarriesPrefix(ops, |ops|, o);
    assert ops[..|ops|] == ops;
    hide *;
    GoalsPrefix(enqueued, items);
    StrictOfPrefix(R.Goals(enqueued), R.Goals(items));
    R.PassedAscends(ops);
    forall s | s in passed
      ensures MayStand(StoredGraph(o), s)
    {
      PassedIsGoal(passed, s, R.Goals(enqueued), R.Goals(items));
      var i :| 0 < i < BaseCount(o.nodes) && s == o.nodes[i].seqId;
      BaseNodeStands(o, i);
    }
  }

  /** In every run of an acceptable order, whatever is cancelled, paused, fails or is thrown: the nodes reported
      as passed ascend strictly, the vehicle may stand on each of them, so that setting its last node never
      fails, and the graph that is left is sound and starts at the node reported last. */
  lemma {:induction false} EveryPassedNodeIsFound(ops: seq<Op>, o: Order)
    requires Acceptable(o) && Carries(ops, o)
    ensures var passed, m := Passed(Run(ops).out), StoredGraph(o);
            && Strict(passed) && (forall s | s in passed :: MayStand(m, s))
            && Replay(m, passed).Some? && Sound(Replay(m, passed).value)
            && (passed != [] ==> First(Replay(m, passed).value) == passed[|passed| - 1])
  {
    hide *;
    ReplacementWorks(o);
    PassedNodesStand(ops, o);
    ReplayAscending(StoredGraph(o), Passed(Run(ops).out));
  }

  lemma {:induction false} GoalsPrefix(a: seq<Item>, b: seq<Item>)
    requires a <= b
    ensures R.Goals(a) <= R.Goals(b)
  {
    assert b == a + b[|a|..];
    R.GoalsAppend(a, b[|a|..]);
    hide R.Goals;
  }

  lemma StrictOfPrefix(a: seq<SeqId>, b: seq<SeqId>)
    requires a <= b && Strict(b)
    ensures Strict(a)
  {
  }

  lemma PassedIsGoal(passed: seq<SeqId>, s: SeqId, goals: seq<SeqId>, all: seq<SeqId>)
    requires s in passed && R.RouteOk(passed, goals) && goals <= all
    ensures s in all
  {
    var i :| 0 <= i < |passed| && passed[i] == s;
    assert passed[i] in goals;
  }

  // Updates /////////////////////////////////////////////////////////////////////////////////////

  /** An acceptable update whose first node is the end of the stored base is stitched without an error: the graph
      stays sound, what is announced is exactly what is new in the base, and the vehicle keeps its place. */
  lemma UpdateWorks(m: Elements, o: Order, v: SeqId)
    requires Sound(m) && BaseLast(m).Some? && MayStand(m, v)
    requires Acceptable(o) && FirstNodeId(o) == BaseLast(m).value
    ensures var other := GraphOfOrder(o);
            && other != map[] && Extends(m, other) && Announces(m, other)
            && Sound(Extended(m, other)) && MayStand(Extended(m, other), v)
            && (forall k: SeqId :: k in Delta(m, other) <==> k in Base(Extended(m, other)) && k !in Base(m))
  {
    var other := GraphOfOrder(o);
    FirstNodeInGraph(o);
    AppendStitches(m, o);
    StartsReleased(o);
    hide *;
    AnnouncesExactly(m, other);
    Stitch(m, other);
    EvenDoesNotWrap(m, other);
    VehicleStays(m, other, v);
    DeltaIsGrowth(m, other);
  }

  lemma EvenDoesNotWrap(m: Elements, other: Elements)
    requires m != map[] && other != map[] && Extends(m, other) && BaseLast(m).value % 2 == 0
    ensures !Wraps(m, other) && BaseLast(m).value < 0xFFFF_FFFF
  {
  }

  lemma StartsReleased(o: Order)
    requires Acceptable(o)
    ensures var m := GraphOfOrder(o); Sound(m) && m[First(m)].IsBase() && m[First(m)].NodeElement?
    ensures MayStand(GraphOfOrder(o), First(GraphOfOrder(o)))
  {
    var m := GraphOfOrder(o);
    assert Sound(m);
    BaseIsPrefix(m);
    assert First(m) in Base(m);
  }

  // Actions /////////////////////////////////////////////////////////////////////////////////////

  lemma {:induction false} CountOfItems(items: seq<Item>, id: ActionId)
    ensures InItems(items, id) == InActions(ActionsOfItems(items), id)
  {
    if items != [] {
      CountOfItems(items[1..], id);
      InActionsAppend(if items[0].Actions? then items[0].group.actions else [], ActionsOfItems(items[1..]), id);
    }
  }

  function InInterrupts(ops: seq<Op>, id: ActionId): nat
  {
    if ops == [] then 0
    else InInterrupts(ops[..|ops| - 1], id) +
         (if ops[|ops| - 1].OpInterrupt? then InActions(ops[|ops| - 1].group.actions, id) else 0)
  }

  lemma {:induction false} HandedOverIs(ops: seq<Op>, id: ActionId)
    ensures HandedOver(ops, id) == InItems(EnqueuedItems(ops), id) + InInterrupts(ops, id)
  {
    if ops != [] {
      var before, op := ops[..|ops| - 1], ops[|ops| - 1];
      HandedOverIs(before, id);
      if op.OpEnqueue? {
        InItemsAppend(EnqueuedItems(before), [op.item], id);
        assert [op.item][1..] == [];
        assert InItems([op.item], id) == InItem(op.item, id) + InItems([], id);
      } else {
        assert EnqueuedItems(before) + [] == EnqueuedItems(before);
      }
    }
  }

  /** When a whole order was handed over, an action that occurs once in its interpreted part and in no instant
      group waits, is live, or was told to be forgotten, exactly one of the three; and it was started at most
      once. */
  lemma {:induction false} EachOrderActionOnce(ops: seq<Op>, o: Order, id: ActionId)
    requires Walkable(o) && EnqueuedItems(ops) == ItemsOf(Interpretation.Stream(o))
    requires InActions(InterpretedFrom(o, 0), id) == 1 && InInterrupts(ops, id) == 0
    ensures var s := Run(ops);
            && Waiting(s, id) + Live(s.tasks, id) + Forgets(s.out, id) == 1
            && Starts(s.out, id) <= 1
            && (Starts(s.out, id) == 1 ==> Waiting(s, id) == 0)
  {
    WalkableParts(o);
    StreamActions(o);
    CountOfItems(EnqueuedItems(ops), id);
    HandedOverIs(ops, id);
    Conservation(ops, id);
    hide *;
  }
}
