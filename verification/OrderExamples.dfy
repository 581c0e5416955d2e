/** Orders that the check accepts and that are not what one would expect, and what becomes of them. */
module OrderExamples {
  import opened Vda
  import opened Graphs
  import opened OrderManagers
  import opened OrderChecks
  import opened Acceptance
  import opened Interpretation
  import opened Streams
  import R = SchedulerReports

  function BareNode(seqId: SeqId, released: bool): Node
  {
    Node("", seqId, released, [])
  }

  function BareEdge(seqId: SeqId, released: bool): Edge
  {
    Edge("", seqId, released, [])
  }

  /** A list of elements whose ids are those from lo to hi. */
  ghost predicate Covers(es: seq<Element>, lo: SeqId, hi: SeqId)
  {
    && es != []
    && (forall i | 0 <= i < |es| :: lo <= es[i].SeqIdOf() <= hi)
    && (forall k: SeqId | lo <= k <= hi :: Listed(es, k))
  }

  ghost predicate Listed(es: seq<Element>, k: SeqId)
  {
    exists i :: 0 <= i < |es| && es[i].SeqIdOf() == k
  }

  /** Different ids without a gap, the base first. */
  ghost predicate Neat(es: seq<Element>, lo: SeqId, hi: SeqId)
  {
    && DistinctIds(es) && Covers(es, lo, hi)
    && (forall i, j | 0 <= i < |es| && 0 <= j < |es| && es[i].IsBase() && es[j].IsHorizon() ::
          es[i].SeqIdOf() < es[j].SeqIdOf())
  }

  lemma {:induction false} NeatIsSound(es: seq<Element>, lo: SeqId, hi: SeqId)
    requires Neat(es, lo, hi)
    ensures Sound(FromList(es))
  {
    var m := FromList(es);
    FromListHolds(es);
    hide FromList, DistinctIds;
    assert es[0].SeqIdOf() in m;
    assert forall k: SeqId :: k in m <==> lo <= k <= hi by {
      NeatIds(es, lo, hi);
    }
    forall j, k | j in m && k in m && m[j].IsBase() && m[k].IsHorizon()
      ensures j < k
    {
      var x :| 0 <= x < |es| && es[x] == m[j];
      var y :| 0 <= y < |es| && es[y] == m[k];
    }
  }

  lemma {:induction false} NeatIds(es: seq<Element>, lo: SeqId, hi: SeqId)
    requires DistinctIds(es) && Covers(es, lo, hi)
    ensures forall k: SeqId :: k in FromList(es) <==> lo <= k <= hi
  {
    var m := FromList(es);
    FromListHolds(es);
    hide FromList, DistinctIds;
    forall k | k in m
      ensures lo <= k <= hi
    {
      var i :| 0 <= i < |es| && es[i] == m[k];
    }
    forall k: SeqId | lo <= k <= hi
      ensures k in m
    {
      assert Listed(es, k);
    }
  }

  lemma NeatIsConsistent(o: Order, lo: SeqId, hi: SeqId)
    requires o.nodes != [] && Parities(o) && Neat(ElementsOf(o), lo, hi)
    ensures Consistent(o)
  {
    NeatIsSound(ElementsOf(o), lo, hi);
    hide FromList, Sound, DistinctIds, Covers, ElementsOf, Parities;
  }

  // two and three elements with consecutive ids
  lemma NeatPair(a: Element, b: Element)
    requires a.SeqIdOf() + 1 == b.SeqIdOf() && (a.IsHorizon() ==> b.IsHorizon())
    ensures Neat([a, b], a.SeqIdOf(), b.SeqIdOf()) && Neat([b, a], a.SeqIdOf(), b.SeqIdOf())
  {
    forall k: SeqId | a.SeqIdOf() <= k <= b.SeqIdOf()
      ensures Listed([a, b], k) && Listed([b, a], k)
    {
      var i := k - a.SeqIdOf();
      assert [a, b][i].SeqIdOf() == k && [b, a][1 - i].SeqIdOf() == k;
    }
  }

  lemma NeatTriple(a: Element, b: Element, c: Element, es: seq<Element>)
    requires a.SeqIdOf() + 1 == b.SeqIdOf() && b.SeqIdOf() + 1 == c.SeqIdOf()
    requires (a.IsHorizon() ==> b.IsHorizon()) && (b.IsHorizon() ==> c.IsHorizon())
    requires es == [a, c, b] || es == [c, a, b]
    ensures Neat(es, a.SeqIdOf(), c.SeqIdOf())
  {
    forall k: SeqId | a.SeqIdOf() <= k <= c.SeqIdOf()
      ensures Listed(es, k)
    {
      assert es[2] == b && (es[0] == a || es[1] == a) && (es[0] == c || es[1] == c);
    }
    assert forall i | 0 <= i < |es| :: es[i] == a || es[i] == b || es[i] == c;
  }

  lemma NotWalkedNotOrdered(o: Order)
    requires Consistent(o) && !Walkable(o)
    ensures !Ordered(o)
  {
    hide *;
    InterpretableExactly(o);
    if Interpretable(o) {
      InterpretableWalks(o);
    }
  }

  lemma OneReleasedEdge(o: Order)
    requires |o.edges| == 1 && o.edges[0].released && |o.nodes| == 2 && !o.nodes[1].released
    ensures !Walkable(o)
  {
    assert FrontEdges(o.edges) == 1;
    hide FrontEdges, Accepts, Woven;
  }

  lemma AloneElements(o: Order, node: Node, edge: Edge)
    requires o.nodes == [node] && o.edges == [edge] && node.seqId % 2 == 0 && edge.seqId % 2 == 1
    ensures ElementsOf(o) == [NodeElement(node), EdgeElement(edge)] && Parities(o)
  {
  }

  lemma BetweenElements(o: Order, node: Node, edge: Edge, next: Node)
    requires o.nodes == [node, next] && o.edges == [edge]
    requires node.seqId % 2 == 0 && edge.seqId % 2 == 1 && next.seqId % 2 == 0
    ensures ElementsOf(o) == [NodeElement(node), NodeElement(next), EdgeElement(edge)] && Parities(o)
  {
  }

  lemma TooManyEdges(o: Order)
    requires |o.nodes| != |o.edges| + 1
    ensures !Walkable(o)
  {
  }

  // Orders that begin or end with an edge ///////////////////////////////////////////////////////

  /** An edge before or behind the only node: accepted, and the interpreter throws. */
  lemma EdgeAtTheEnd()
    ensures var o := Order("", 0, [BareNode(2, true)], [BareEdge(1, true)]);
            Consistent(o) && !Ordered(o) && !Walkable(o)
    ensures var o := Order("", 0, [BareNode(0, true)], [BareEdge(1, true)]);
            Consistent(o) && !Ordered(o) && !Walkable(o)
  {
    var a := Order("", 0, [BareNode(2, true)], [BareEdge(1, true)]);
    var b := Order("", 0, [BareNode(0, true)], [BareEdge(1, true)]);
    AloneElements(a, BareNode(2, true), BareEdge(1, true));
    AloneElements(b, BareNode(0, true), BareEdge(1, true));
    NeatPair(EdgeElement(BareEdge(1, true)), NodeElement(BareNode(2, true)));
    NeatPair(NodeElement(BareNode(0, true)), EdgeElement(BareEdge(1, true)));
    hide Neat, Consistent, Walkable, Ordered, ElementsOf, Parities;
    NeatIsConsistent(a, 1, 2);
    NeatIsConsistent(b, 0, 1);
    TooManyEdges(a);
    TooManyEdges(b);
    NotWalkedNotOrdered(a);
    NotWalkedNotOrdered(b);
  }

  /** A released edge behind which the node is not released: the same. */
  lemma BaseEndsWithEdge()
    ensures var o := Order("", 0, [BareNode(0, true), BareNode(2, false)], [BareEdge(1, true)]);
            Consistent(o) && !Ordered(o) && !Walkable(o)
  {
    var o := Order("", 0, [BareNode(0, true), BareNode(2, false)], [BareEdge(1, true)]);
    BetweenElements(o, BareNode(0, true), BareEdge(1, true), BareNode(2, false));
    NeatTriple(NodeElement(BareNode(0, true)), EdgeElement(BareEdge(1, true)), NodeElement(BareNode(2, false)),
               [NodeElement(BareNode(0, true)), NodeElement(BareNode(2, false)), EdgeElement(BareEdge(1, true))]);
    hide Neat, Consistent, Walkable, Ordered, ElementsOf, Parities;
    NeatIsConsistent(o, 0, 2);
    OneReleasedEdge(o);
    NotWalkedNotOrdered(o);
  }

  // Lists that do not ascend ////////////////////////////////////////////////////////////////////

  lemma EdgeTooSoon(o: Order)
    requires o.edges != [] && o.nodes != [] && o.nodes[0].seqId >= o.edges[0].seqId
    ensures !Walkable(o)
  {
    hide Accepts, Woven, FrontEdges;
  }

  /** Two nodes the wrong way round: accepted, and the interpreter throws. */
  lemma NodesOutOfTurn()
    ensures var o := Order("", 0, [BareNode(2, true), BareNode(0, true)], [BareEdge(1, true)]);
            Consistent(o) && !Ordered(o) && !Walkable(o)
  {
    var o := Order("", 0, [BareNode(2, true), BareNode(0, true)], [BareEdge(1, true)]);
    BetweenElements(o, BareNode(2, true), BareEdge(1, true), BareNode(0, true));
    NeatTriple(NodeElement(BareNode(0, true)), EdgeElement(BareEdge(1, true)), NodeElement(BareNode(2, true)),
               [NodeElement(BareNode(2, true)), NodeElement(BareNode(0, true)), EdgeElement(BareEdge(1, true))]);
    hide Neat, Consistent, Walkable, Ordered, ElementsOf, Parities;
    NeatIsConsistent(o, 0, 2);
    EdgeTooSoon(o);
    NotWalkedNotOrdered(o);
  }

  // the nodes and edges of an order whose lists do not ascend but are in turn
  function CrossedOrder(): Order
  {
    Order("", 0, [BareNode(0, true), BareNode(2, true), BareNode(6, true), BareNode(4, true)],
          [BareEdge(1, true), BareEdge(5, true), BareEdge(3, true)])
  }

  lemma ParitiesAt(o: Order)
    requires forall i | 0 <= i < |o.nodes| :: o.nodes[i].seqId % 2 == 0
    requires forall i | 0 <= i < |o.edges| :: o.edges[i].seqId % 2 == 1
    ensures Parities(o)
  {
  }

  lemma CrossedParities()
    ensures Parities(CrossedOrder()) && CrossedOrder().nodes != []
  {
    hide Parities;
    ParitiesAt(CrossedOrder());
  }

  lemma CrossedElements()
    ensures var es := ElementsOf(CrossedOrder());
            && |es| == 7 && (forall i | 0 <= i < 7 :: es[i].IsBase())
            && es[0].SeqIdOf() == 0 && es[1].SeqIdOf() == 2 && es[2].SeqIdOf() == 6 && es[3].SeqIdOf() == 4
            && es[4].SeqIdOf() == 1 && es[5].SeqIdOf() == 5 && es[6].SeqIdOf() == 3
  {
    var o := CrossedOrder();
    var es := ElementsOf(o);
    hide ElementsOf;
    assert forall i | 0 <= i < 4 :: es[i] == NodeElement(o.nodes[i]);
    assert forall i | 0 <= i < 3 :: es[4 + i] == EdgeElement(o.edges[i]);
    assert es[4 + 0] == EdgeElement(o.edges[0]) && es[4 + 1] == EdgeElement(o.edges[1]);
    assert es[4 + 2] == EdgeElement(o.edges[2]);
  }

  lemma CrossedNeat(es: seq<Element>)
    requires |es| == 7 && forall i | 0 <= i < 7 :: es[i].IsBase()
    requires es[0].SeqIdOf() == 0 && es[4].SeqIdOf() == 1 && es[1].SeqIdOf() == 2 && es[6].SeqIdOf() == 3
    requires es[3].SeqIdOf() == 4 && es[5].SeqIdOf() == 5 && es[2].SeqIdOf() == 6
    ensures Neat(es, 0, 6)
  {
    forall k: SeqId | 0 <= k <= 6
      ensures Listed(es, k)
    {
      var i := if k == 0 then 0 else if k == 1 then 4 else if k == 2 then 1 else if k == 3 then 6
               else if k == 4 then 3 else if k == 5 then 5 else 2;
      assert es[i].SeqIdOf() == k;
    }
  }

  lemma AllReleased(o: Order)
    requires o.nodes != [] && |o.nodes| == |o.edges| + 1 && (o.edges != [] ==> o.nodes[0].seqId < o.edges[0].seqId)
    requires forall i | 0 <= i < |o.edges| :: o.edges[i].seqId <= o.nodes[i + 1].seqId
    requires forall i | 0 <= i < |o.nodes| :: o.nodes[i].released
    ensures InTurn(o) && BaseCount(o.nodes) == |o.nodes|
  {
    hide FrontEdges, BaseCount;
  }

  lemma CrossedInTurn()
    ensures InTurn(CrossedOrder()) && BaseCount(CrossedOrder().nodes) == 4
    ensures var o := CrossedOrder();
            && |o.nodes| == 4 && |o.edges| == 3
            && o.nodes[1].seqId == 2 && o.nodes[2].seqId == 6 && o.nodes[3].seqId == 4
  {
    var o := CrossedOrder();
    hide FrontEdges, BaseCount, InTurn;
    AllReleased(o);
  }

  lemma CrossedConsistent()
    ensures Consistent(CrossedOrder())
  {
    hide *;
    CrossedElements();
    CrossedParities();
    CrossedNeat(ElementsOf(CrossedOrder()));
    NeatIsConsistent(CrossedOrder(), 0, 6);
  }

  /** An order whose lists do not ascend can be accepted and interpreted all the same, in the order of the lists: the
      vehicle is sent to 2, over 5 to 6, and over 3 to 4. */
  lemma {:induction false} CrossedOrderIsDriven()
    ensures var o := CrossedOrder();
            && Consistent(o) && Walkable(o) && !Ordered(o) && |o.nodes| == |o.edges| + 1 && o.nodes != []
            && R.Goals(ItemsOf(Stream(o))) == [2, 6, 4]
  {
    hide *;
    var o := CrossedOrder();
    CrossedInTurn();
    CrossedConsistent();
    WalkableExactly(o);
    NotAscending(o, 2, 3);
    StreamGoals(o);
    BaseIdsAt(o, 1);
    ThreeIds(BaseIdsFrom(o, 1), 2, 6, 4);
  }

  lemma ThreeIds(ids: seq<SeqId>, a: SeqId, b: SeqId, c: SeqId)
    requires |ids| == 3 && ids[0] == a && ids[1] == b && ids[2] == c
    ensures ids == [a, b, c]
  {
  }

  lemma NotAscending(o: Order, i: nat, j: nat)
    requires i < j < |o.nodes| && o.nodes[i].seqId >= o.nodes[j].seqId
    ensures !Ordered(o)
  {
    hide FromList, First, Last, BaseLast;
  }

  // Orders without a base ///////////////////////////////////////////////////////////////////////

  lemma {:induction false} OneElement(es: seq<Element>)
    requires |es| == 1
    ensures Neat(es, es[0].SeqIdOf(), es[0].SeqIdOf()) && FromList(es) == map[es[0].SeqIdOf() := es[0]]
  {
    assert es[..0] == [] && FromList([]) == map[];
    assert Listed(es, es[0].SeqIdOf());
  }

  lemma {:induction false} NoBaseStream(o: Order)
    requires |o.nodes| == 1 && o.edges == [] && !o.nodes[0].released && o.updateId > 0
    ensures Stream(o) == [GraphExtension(GraphOf(o, 1), o.updateId)] && InTurn(o)
  {
    hide GraphOf, FrontEdges;
    assert [] + [GraphYield(o)] == [GraphYield(o)];
  }

  lemma {:induction false} NoBaseNotOrdered(o: Order)
    requires |o.nodes| == 1 && !o.nodes[0].released
    ensures !Interpretable(o)
  {
  }

  /** An update of one node that is not released: accepted, and interpreted as nothing but its graph. */
  lemma HorizonUpdate()
    ensures var o := Order("", 1, [BareNode(0, false)], []);
            && Consistent(o) && Walkable(o) && !Ordered(o)
            && GraphOfOrder(o) == map[0 := NodeElement(BareNode(0, false))]
            && Stream(o) == [GraphExtension(GraphOf(o, 1), 1)]
  {
    var o := Order("", 1, [BareNode(0, false)], []);
    assert ElementsOf(o) == [NodeElement(BareNode(0, false))] && Parities(o);
    OneElement(ElementsOf(o));
    hide ElementsOf, Neat, FromList, Consistent, Walkable, Ordered, GraphOf, Stream, InTurn, Parities, Interpretable;
    NeatIsConsistent(o, 0, 0);
    NoBaseStream(o);
    NoBaseNotOrdered(o);
    WalkableExactly(o);
    InterpretableExactly(o);
  }

  /** Where the stored graph is one released node, this update is stitched and its announcement throws. The vehicle then
      stands on a horizon node. */
  lemma HorizonUpdateIsStored()
    ensures var m: Elements := map[0 := NodeElement(BareNode(0, true))];
            var other: Elements := map[0 := NodeElement(BareNode(0, false))];
            && Sound(m) && Sound(other) && Extends(m, other) && MayStand(m, 0)
            && !Announces(m, other) && !MayStand(Extended(m, other), 0)
  {
    var m: Elements := map[0 := NodeElement(BareNode(0, true))];
    var other: Elements := map[0 := NodeElement(BareNode(0, false))];
    assert 0 in m && 0 in other && m[0].IsBase() && other[0].IsHorizon();
    assert BaseLast(m) == Some(0) && First(other) == 0;
    AnnouncesExactly(m, other);
    hide BaseLast, First, Extended, Announces;
  }

  function EdgeEnded(): Elements
  {
    map[0 := NodeElement(BareNode(0, true)), 1 := EdgeElement(BareEdge(1, true))]
  }

  lemma EdgeEndedIs()
    ensures Sound(EdgeEnded()) && EdgeEnded() != map[] && BaseLast(EdgeEnded()) == Some(1)
  {
    var m := EdgeEnded();
    assert 0 in m && 1 in m && m[0].IsBase() && m[1].IsBase();
    assert BaseLast(m) == Some(1) by { hide Sound, Contiguous, BaseFirst; }
    hide BaseLast;
  }

  lemma NextNodeIs()
    ensures var o := Order("", 1, [BareNode(2, true)], []);
            && Consistent(o) && FirstNodeId(o) == 2 && FromList(ElementsOf(o)) != map[]
            && First(FromList(ElementsOf(o))) == 2
  {
    var o := Order("", 1, [BareNode(2, true)], []);
    assert ElementsOf(o) == [NodeElement(BareNode(2, true))] && Parities(o);
    assert o.nodes[0] in o.nodes && FirstNodeId(o) in NodeIds(o) && FirstNodeId(o) == 2;
    OneElement(ElementsOf(o));
    hide Neat, Parities, Consistent, Sound, DistinctIds;
    NeatIsConsistent(o, 2, 2);
  }

  /** Where the stored base ends with an edge, the node behind it can be stitched, and the check refuses it: it begins
      one id behind the base. */
  lemma NextNodeIsRefused()
    ensures var o := Order("", 1, [BareNode(2, true)], []);
            && Sound(EdgeEnded()) && Consistent(o) && FirstNodeId(o) == 2
            && EdgeEnded() != map[] && FromList(ElementsOf(o)) != map[]
            && Extends(EdgeEnded(), FromList(ElementsOf(o))) && !EndsBase(EdgeEnded(), FirstNodeId(o))
  {
    EdgeEndedIs();
    NextNodeIs();
    hide FromList, ElementsOf, BaseLast, EdgeEnded, FirstNodeId, First, EndsBase;
    EndsBaseIs(EdgeEnded(), 2);
  }

  // Goals that wrap /////////////////////////////////////////////////////////////////////////////

  /** The one graph for which a goal id wraps holds every id of 32 bits: the vehicle is at the last node, and its goal
      is the node at 0. */
  lemma WrappedGoal()
    ensures var m: Elements := map k: SeqId | 0 <= k < 0x1_0000_0000 ::
                                 if k % 2 == 0 then NodeElement(BareNode(k, true)) else EdgeElement(BareEdge(k, true));
            && Sound(m) && Alternates(m) && 0xFFFF_FFFE in m && m[0xFFFF_FFFE].IsBase()
            && !Nearest(m, 0xFFFF_FFFE, CurrentGoal(m, 0xFFFF_FFFE))
  {
    var m: Elements := map k: SeqId | 0 <= k < 0x1_0000_0000 ::
                         if k % 2 == 0 then NodeElement(BareNode(k, true)) else EdgeElement(BareEdge(k, true));
    assert 0 in m && 0xFFFF_FFFE in m;
    GoalIsNearest(m, 0xFFFF_FFFE);
  }
}
