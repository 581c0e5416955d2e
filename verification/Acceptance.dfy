/** From the checks of an order to the demands of the interpreter and of the order graph. */
module Acceptance {
  import opened Vda
  import opened Graphs
  import opened OrderChecks
  import opened Interpretation

  /** What the checks leave open: both lists ascend, and the order and its base begin and end with nodes. */
  ghost predicate Ordered(o: Order)
  {
    var m := FromList(ElementsOf(o));
    && (forall i, j | 0 <= i < j < |o.nodes| :: o.nodes[i].seqId < o.nodes[j].seqId)
    && (forall i, j | 0 <= i < j < |o.edges| :: o.edges[i].seqId < o.edges[j].seqId)
    && m != map[] && m[First(m)].NodeElement? && m[Last(m)].NodeElement?
    && BaseLast(m).Some? && m[BaseLast(m).value].NodeElement?
  }

  function GraphOfOrder(o: Order): Elements
  {
    FromList(ElementsOf(o))
  }

  lemma ListedNode(o: Order, i: nat)
    requires Consistent(o) && i < |o.nodes|
    ensures o.nodes[i].seqId in GraphOfOrder(o) && o.nodes[i].seqId % 2 == 0
    ensures GraphOfOrder(o)[o.nodes[i].seqId] == NodeElement(o.nodes[i])
  {
    var es := ElementsOf(o);
    FromListHolds(es);
    assert es[i] == NodeElement(o.nodes[i]) && o.nodes[i] in o.nodes;
    hide FromList, Sound, DistinctIds;
  }

  lemma ListedEdge(o: Order, i: nat)
    requires Consistent(o) && i < |o.edges|
    ensures o.edges[i].seqId in GraphOfOrder(o) && o.edges[i].seqId % 2 == 1
    ensures GraphOfOrder(o)[o.edges[i].seqId] == EdgeElement(o.edges[i])
  {
    var es := ElementsOf(o);
    FromListHolds(es);
    assert es[|o.nodes| + i] == EdgeElement(o.edges[i]) && o.edges[i] in o.edges;
    hide FromList, Sound, DistinctIds;
  }

  lemma NodeWith(o: Order, k: SeqId) returns (i: nat)
    requires Consistent(o) && k in GraphOfOrder(o) && k % 2 == 0
    ensures i < |o.nodes| && o.nodes[i].seqId == k
  {
    KindByParity(o, k);
    hide FromList, Consistent;
    i :| 0 <= i < |o.nodes| && o.nodes[i] == GraphOfOrder(o)[k].node;
  }

  lemma EdgeWith(o: Order, k: SeqId) returns (i: nat)
    requires Consistent(o) && k in GraphOfOrder(o) && k % 2 == 1
    ensures i < |o.edges| && o.edges[i].seqId == k
  {
    KindByParity(o, k);
    hide FromList, Consistent;
    i :| 0 <= i < |o.edges| && o.edges[i] == GraphOfOrder(o)[k].edge;
  }

  lemma Filled(o: Order, a: SeqId, k: SeqId, b: SeqId)
    requires Consistent(o) && a in GraphOfOrder(o) && b in GraphOfOrder(o) && a <= k <= b
    ensures k in GraphOfOrder(o)
  {
    hide FromList, Keyed, BaseFirst, DistinctIds;
  }

  // Where the elements are //////////////////////////////////////////////////////////////////////

  lemma FirstIsFirst(o: Order)
    requires Consistent(o) && Ordered(o)
    ensures First(GraphOfOrder(o)) == o.nodes[0].seqId
  {
    var m := GraphOfOrder(o);
    KindByParity(o, First(m));
    var i := NodeWith(o, First(m));
    ListedNode(o, 0);
    hide FromList, Consistent, First;
  }

  lemma LastIsLast(o: Order)
    requires Consistent(o) && Ordered(o)
    ensures Last(GraphOfOrder(o)) == o.nodes[|o.nodes| - 1].seqId
  {
    var m := GraphOfOrder(o);
    KindByParity(o, Last(m));
    var i := NodeWith(o, Last(m));
    ListedNode(o, |o.nodes| - 1);
    hide FromList, Consistent, Last;
  }

  lemma NodeOrder(o: Order, i: nat, j: nat)
    requires Ordered(o) && i < |o.nodes| && j < |o.nodes|
    ensures o.nodes[i].seqId < o.nodes[j].seqId <==> i < j
  {
    hide FromList, First, Last, BaseLast;
    assert j < i ==> o.nodes[j].seqId < o.nodes[i].seqId;
  }

  lemma EdgeOrder(o: Order, i: nat, j: nat)
    requires Ordered(o) && i < |o.edges| && j < |o.edges|
    ensures o.edges[i].seqId < o.edges[j].seqId <==> i < j
  {
    hide FromList, First, Last, BaseLast;
    assert j < i ==> o.edges[j].seqId < o.edges[i].seqId;
  }

  lemma {:induction false} NodeAtIndex(o: Order, i: nat)
    requires Consistent(o) && Ordered(o) && i < |o.nodes|
    ensures o.nodes[i].seqId == o.nodes[0].seqId + 2 * i
  {
    hide *;
    if i > 0 {
      NodeAtIndex(o, i - 1);
      ListedNode(o, i - 1);
      ListedNode(o, i);
      NodeOrder(o, i - 1, i);
      var next := o.nodes[i - 1].seqId + 2;
      Filled(o, o.nodes[i - 1].seqId, next, o.nodes[i].seqId);
      var j := NodeWith(o, next);
      NodeOrder(o, i - 1, j);
      NodeOrder(o, j, i);
    }
  }

  lemma StartsAtNode(o: Order, k: SeqId)
    requires Consistent(o) && Ordered(o) && k in GraphOfOrder(o)
    ensures o.nodes != [] && o.nodes[0].seqId in GraphOfOrder(o) && o.nodes[0].seqId <= k && o.nodes[0].seqId % 2 == 0
  {
    FirstIsFirst(o);
    ListedNode(o, 0);
    hide FromList;
  }

  lemma FirstEdge(o: Order)
    requires Consistent(o) && Ordered(o) && o.edges != []
    ensures o.nodes != [] && o.edges[0].seqId == o.nodes[0].seqId + 1
  {
    hide *;
    ListedEdge(o, 0);
    StartsAtNode(o, o.edges[0].seqId);
    var next := o.nodes[0].seqId + 1;
    Filled(o, o.nodes[0].seqId, next, o.edges[0].seqId);
    var j := EdgeWith(o, next);
    EdgeOrder(o, j, 0);
  }

  lemma {:induction false} EdgeAtIndex(o: Order, i: nat)
    requires Consistent(o) && Ordered(o) && i < |o.edges|
    ensures o.nodes != [] && o.edges[i].seqId == o.nodes[0].seqId + 2 * i + 1
  {
    hide *;
    if i == 0 {
      FirstEdge(o);
    } else {
      EdgeAtIndex(o, i - 1);
      ListedEdge(o, i - 1);
      ListedEdge(o, i);
      EdgeOrder(o, i - 1, i);
      var next := o.edges[i - 1].seqId + 2;
      Filled(o, o.edges[i - 1].seqId, next, o.edges[i].seqId);
      var j := EdgeWith(o, next);
      EdgeOrder(o, i - 1, j);
      EdgeOrder(o, j, i);
    }
  }

  lemma EndsAtNode(o: Order, k: SeqId)
    requires Consistent(o) && Ordered(o) && k in GraphOfOrder(o)
    ensures o.nodes != [] && k <= o.nodes[|o.nodes| - 1].seqId && o.nodes[|o.nodes| - 1].seqId in GraphOfOrder(o)
  {
    LastIsLast(o);
    ListedNode(o, |o.nodes| - 1);
    hide FromList;
  }

  lemma HasNodes(o: Order)
    requires Consistent(o)
    ensures o.nodes != []
  {
  }

  lemma OneEdgeLess(o: Order)
    requires Consistent(o) && Ordered(o)
    ensures |o.nodes| == |o.edges| + 1
  {
    hide *;
    HasNodes(o);
    var n := |o.nodes|;
    NodeAtIndex(o, n - 1);
    ListedNode(o, 0);
    ListedNode(o, n - 1);
    if |o.edges| >= n {
      EdgeAtIndex(o, n - 1);
      ListedEdge(o, n - 1);
      EndsAtNode(o, o.edges[n - 1].seqId);
    } else if |o.edges| < n - 1 {
      var next := o.nodes[0].seqId + 2 * |o.edges| + 1;
      Filled(o, o.nodes[0].seqId, next, o.nodes[n - 1].seqId);
      var j := EdgeWith(o, next);
      EdgeAtIndex(o, j);
    }
  }

  // Released elements ///////////////////////////////////////////////////////////////////////////

  lemma ReleasedNodes(o: Order, i: nat)
    requires Consistent(o) && Ordered(o) && i < |o.nodes|
    ensures o.nodes[i].released <==> i < BaseCount(o.nodes)
  {
    var b := BaseCount(o.nodes);
    if b <= i && b < |o.nodes| && i != b {
      ListedNode(o, b);
      ListedNode(o, i);
      NodeOrder(o, b, i);
      BaseBefore(o, o.nodes[i].seqId, o.nodes[b].seqId);
    }
  }

  lemma BaseBefore(o: Order, j: SeqId, k: SeqId)
    requires Consistent(o) && j in GraphOfOrder(o) && k in GraphOfOrder(o)
    ensures GraphOfOrder(o)[j].IsBase() && GraphOfOrder(o)[k].IsHorizon() ==> j < k
  {
    hide FromList, Keyed, Contiguous, DistinctIds;
  }

  lemma BaseEndsWithNode(o: Order, k: SeqId) returns (i: nat)
    requires Consistent(o) && Ordered(o) && k in GraphOfOrder(o) && GraphOfOrder(o)[k].IsBase()
    ensures i < BaseCount(o.nodes) && k <= o.nodes[i].seqId
  {
    var m := GraphOfOrder(o);
    var last := BaseLast(m).value;
    KindByParity(o, last);
    i := NodeWith(o, last);
    ListedNode(o, i);
    ReleasedNodes(o, i);
    hide FromList, BaseLast, Consistent, BaseCount, First, Last;
  }

  lemma ReleasedEdges(o: Order, i: nat)
    requires Consistent(o) && Ordered(o) && i < |o.edges|
    ensures o.edges[i].released <==> i + 1 < BaseCount(o.nodes)
  {
    hide *;
    OneEdgeLess(o);
    EdgeAtIndex(o, i);
    NodeAtIndex(o, i + 1);
    ListedEdge(o, i);
    ListedNode(o, i + 1);
    ReleasedNodes(o, i + 1);
    BaseBefore(o, o.nodes[i + 1].seqId, o.edges[i].seqId);
    if o.edges[i].released {
      ReleasedIs(o.edges[i], GraphOfOrder(o)[o.edges[i].seqId]);
      var k := BaseEndsWithNode(o, o.edges[i].seqId);
      NodeAtIndex(o, k);
    } else {
      NodeReleasedIs(o.nodes[i + 1], GraphOfOrder(o)[o.nodes[i + 1].seqId]);
      ReleasedIs(o.edges[i], GraphOfOrder(o)[o.edges[i].seqId]);
    }
  }

  lemma ReleasedIs(edge: Edge, e: Element)
    requires e == EdgeElement(edge)
    ensures e.IsBase() == edge.released && e.IsHorizon() == !edge.released
  {
  }

  lemma NodeReleasedIs(node: Node, e: Element)
    requires e == NodeElement(node)
    ensures e.IsBase() == node.released && e.IsHorizon() == !node.released
  {
  }

  lemma EdgeInPlace(o: Order, i: nat)
    requires Consistent(o) && Ordered(o) && i < |o.edges|
    ensures |o.nodes| == |o.edges| + 1 && o.nodes[i].seqId < o.edges[i].seqId < o.nodes[i + 1].seqId
  {
    hide *;
    OneEdgeLess(o);
    NodeAtIndex(o, i);
    NodeAtIndex(o, i + 1);
    EdgeAtIndex(o, i);
  }

  lemma PlacedIsInterpretable(o: Order)
    requires o.nodes != [] && |o.nodes| == |o.edges| + 1 && 0 < BaseCount(o.nodes)
    requires forall i | 0 <= i < |o.edges| ::
               (o.nodes[i].seqId < o.edges[i].seqId < o.nodes[i + 1].seqId &&
                (o.edges[i].released <==> i + 1 < BaseCount(o.nodes)))
    requires forall i | 0 <= i < |o.nodes| :: o.nodes[i].released <==> i < BaseCount(o.nodes)
    ensures Interpretable(o)
  {
    hide BaseCount;
  }

  /** An order that passed the check of its graph can be interpreted when its lists ascend and it begins and ends,
      and its base ends, with a node. */
  lemma OrderedIsInterpretable(o: Order)
    requires Consistent(o) && Ordered(o)
    ensures Interpretable(o)
  {
    hide *;
    HasNodes(o);
    OneEdgeLess(o);
    BaseNotEmpty(o);
    forall i | 0 <= i < |o.edges|
      ensures o.nodes[i].seqId < o.edges[i].seqId < o.nodes[i + 1].seqId
      ensures o.edges[i].released <==> i + 1 < BaseCount(o.nodes)
    {
      EdgeInPlace(o, i);
      ReleasedEdges(o, i);
    }
    forall i | 0 <= i < |o.nodes|
      ensures o.nodes[i].released <==> i < BaseCount(o.nodes)
    {
      ReleasedNodes(o, i);
    }
    PlacedIsInterpretable(o);
  }

  lemma BaseNotEmpty(o: Order)
    requires Consistent(o) && Ordered(o)
    ensures BaseCount(o.nodes) > 0
  {
    var i := BaseEndsWithNode(o, BaseLast(GraphOfOrder(o)).value);
  }

  // The other direction /////////////////////////////////////////////////////////////////////////

  lemma {:induction false} ListsAscend(o: Order, i: nat, j: nat)
    requires Interpretable(o) && i < j
    ensures j < |o.nodes| ==> o.nodes[i].seqId < o.nodes[j].seqId
    ensures j < |o.edges| ==> o.edges[i].seqId < o.edges[j].seqId
    decreases j
  {
    if i + 1 < j {
      ListsAscend(o, i, j - 1);
    }
    if j < |o.edges| {
      assert o.nodes[j - 1].seqId < o.edges[j - 1].seqId < o.nodes[j].seqId < o.edges[j].seqId;
    }
    if j < |o.nodes| {
      assert o.nodes[j - 1].seqId < o.edges[j - 1].seqId < o.nodes[j].seqId;
    }
    hide BaseCount;
  }

  lemma EdgeBetween(o: Order, k: SeqId) returns (i: nat)
    requires Consistent(o) && Interpretable(o) && k in GraphOfOrder(o) && GraphOfOrder(o)[k].EdgeElement?
    ensures i + 1 < |o.nodes| && o.nodes[i].seqId < k < o.nodes[i + 1].seqId
    ensures GraphOfOrder(o)[k].IsBase() ==> o.nodes[i + 1].released
  {
    KindByParity(o, k);
    var edge := GraphOfOrder(o)[k].edge;
    i :| 0 <= i < |o.edges| && o.edges[i] == edge;
    hide FromList, Consistent, BaseCount;
  }

  lemma HasGraph(o: Order)
    requires Consistent(o) && Interpretable(o)
    ensures GraphOfOrder(o) != map[] && BaseLast(GraphOfOrder(o)).Some?
  {
    ListedNode(o, 0);
    assert GraphOfOrder(o)[o.nodes[0].seqId].IsBase();
    hide BaseCount, FromList;
  }

  lemma BeginsWithNode(o: Order)
    requires Consistent(o) && Interpretable(o)
    ensures var m := GraphOfOrder(o); m != map[] && m[First(m)].NodeElement?
  {
    hide *;
    HasGraph(o);
    var m := GraphOfOrder(o);
    if m[First(m)].EdgeElement? {
      var i := EdgeBetween(o, First(m));
      ListedNode(o, i);
    }
  }

  lemma EndsWithNode(o: Order)
    requires Consistent(o) && Interpretable(o)
    ensures var m := GraphOfOrder(o); m != map[] && m[Last(m)].NodeElement?
  {
    hide *;
    HasGraph(o);
    var m := GraphOfOrder(o);
    if m[Last(m)].EdgeElement? {
      var i := EdgeBetween(o, Last(m));
      ListedNode(o, i + 1);
    }
  }

  lemma BaseBound(m: Elements, node: Node)
    requires node.seqId in m && m[node.seqId] == NodeElement(node) && node.released && BaseLast(m).Some?
    ensures node.seqId <= BaseLast(m).value
  {
  }

  lemma BaseEnds(o: Order)
    requires Consistent(o) && Interpretable(o)
    ensures var m := GraphOfOrder(o); BaseLast(m).Some? && m[BaseLast(m).value].NodeElement?
  {
    hide *;
    HasGraph(o);
    var m := GraphOfOrder(o);
    var last := BaseLast(m).value;
    if m[last].EdgeElement? {
      var i := EdgeBetween(o, last);
      ListedNode(o, i + 1);
      BaseBound(m, o.nodes[i + 1]);
    }
  }

  lemma OrderedEnough(o: Order)
    requires forall i, j | 0 <= i < j < |o.nodes| :: o.nodes[i].seqId < o.nodes[j].seqId
    requires forall i, j | 0 <= i < j < |o.edges| :: o.edges[i].seqId < o.edges[j].seqId
    requires var m := GraphOfOrder(o);
             && m != map[] && m[First(m)].NodeElement? && m[Last(m)].NodeElement?
             && BaseLast(m).Some? && m[BaseLast(m).value].NodeElement?
    ensures Ordered(o)
  {
    hide FromList, First, Last, BaseLast;
  }

  lemma InterpretableIsOrdered(o: Order)
    requires Consistent(o) && Interpretable(o)
    ensures Ordered(o)
  {
    hide *;
    BeginsWithNode(o);
    EndsWithNode(o);
    BaseEnds(o);
    forall i, j | 0 <= i < j
      ensures j < |o.nodes| ==> o.nodes[i].seqId < o.nodes[j].seqId
      ensures j < |o.edges| ==> o.edges[i].seqId < o.edges[j].seqId
    {
      ListsAscend(o, i, j);
    }
    OrderedEnough(o);
  }

  /** A consistent order can be interpreted exactly when its lists ascend and it begins and ends, and its base
      ends, with a node. */
  lemma InterpretableExactly(o: Order)
    requires Consistent(o)
    ensures Interpretable(o) <==> Ordered(o)
  {
    if Ordered(o) {
      OrderedIsInterpretable(o);
    }
    if Interpretable(o) {
      InterpretableIsOrdered(o);
    }
  }

  // The graph the interpreter hands on //////////////////////////////////////////////////////////

  lemma {:induction false} SameElements(a: seq<Element>, b: seq<Element>)
    requires DistinctIds(a) && DistinctIds(b) && forall e :: e in a <==> e in b
    ensures FromList(a) == FromList(b)
  {
    FromListHolds(a);
    FromListHolds(b);
    var m, n := FromList(a), FromList(b);
    hide FromList, DistinctIds;
    forall k: SeqId | true
      ensures k in m <==> k in n
      ensures k in m ==> m[k] == n[k]
    {
      if k in m {
        assert m[k] in a && m[k] in b;
        var i :| 0 <= i < |b| && b[i] == m[k];
        assert b[i].SeqIdOf() == k;
      }
      if k in n {
        assert n[k] in b && n[k] in a;
        var i :| 0 <= i < |a| && a[i] == n[k];
        assert a[i].SeqIdOf() == k;
      }
    }
  }

  // where element i of the woven list is listed
  function ListedAt(n: nat, i: nat): nat
  {
    if i % 2 == 0 then i / 2 else n + i / 2
  }

  lemma WovenListed(o: Order, i: nat)
    requires |o.nodes| == |o.edges| + 1 && i < |Woven(o)|
    ensures ListedAt(|o.nodes|, i) < |ElementsOf(o)| && ElementsOf(o)[ListedAt(|o.nodes|, i)] == Woven(o)[i]
  {
    hide ElementsOf, Woven;
    assert ElementsOf(o)[ListedAt(|o.nodes|, i)] == WovenAt(o, i) == Woven(o)[i];
  }

  lemma ListedIsWoven(o: Order, i: nat)
    requires |o.nodes| == |o.edges| + 1 && i < |ElementsOf(o)|
    ensures ElementsOf(o)[i] in Woven(o)
  {
    hide ElementsOf, Woven;
    var es, ws := ElementsOf(o), Woven(o);
    var k := if i < |o.nodes| then 2 * i else 2 * (i - |o.nodes|) + 1;
    if i >= |o.nodes| {
      assert es[|o.nodes| + (i - |o.nodes|)] == EdgeElement(o.edges[i - |o.nodes|]);
    }
    assert ws[k] == WovenAt(o, k) == es[i];
  }

  lemma WovenIsListed(o: Order, i: nat)
    requires |o.nodes| == |o.edges| + 1 && i < |Woven(o)|
    ensures Woven(o)[i] in ElementsOf(o)
  {
    WovenListed(o, i);
    hide *;
  }

  lemma WovenHoldsAll(o: Order, e: Element)
    requires |o.nodes| == |o.edges| + 1
    ensures e in ElementsOf(o) <==> e in Woven(o)
  {
    hide *;
    var es, ws := ElementsOf(o), Woven(o);
    if e in es {
      var i :| 0 <= i < |es| && es[i] == e;
      ListedIsWoven(o, i);
    }
    if e in ws {
      var i :| 0 <= i < |ws| && ws[i] == e;
      WovenIsListed(o, i);
    }
  }

  lemma GraphOfAll(o: Order)
    requires o.nodes != [] && |o.nodes| == |o.edges| + 1
    ensures GraphOf(o, |o.nodes|) == FromList(Woven(o))
  {
    hide FromList, Woven;
    assert Woven(o)[..2 * |o.nodes| - 1] == Woven(o);
  }

  lemma ConsistentGraph(o: Order)
    requires Consistent(o)
    ensures DistinctIds(ElementsOf(o)) && GraphOfOrder(o) == FromList(ElementsOf(o)) && Sound(GraphOfOrder(o))
  {
    hide ElementsOf, DistinctIds, FromList, Sound, Parities;
  }

  lemma OneNodeMore(o: Order)
    requires Interpretable(o)
    ensures o.nodes != [] && |o.nodes| == |o.edges| + 1
  {
  }

  /** The graph that is collected along the way holds exactly the elements of the order, and it is sound. */
  lemma CollectedGraph(o: Order)
    requires Consistent(o) && Interpretable(o)
    ensures GraphOf(o, |o.nodes|) == GraphOfOrder(o) && Sound(GraphOf(o, |o.nodes|))
  {
    hide *;
    OneNodeMore(o);
    WovenDistinct(o);
    GraphOfAll(o);
    forall e | true
      ensures e in ElementsOf(o) <==> e in Woven(o)
    {
      WovenHoldsAll(o, e);
    }
    ConsistentGraph(o);
    SameElements(ElementsOf(o), Woven(o));
  }

  // Which orders the interpreter comes to the end of ////////////////////////////////////////////

  lemma PlacesDiffer(n: nat, i: nat, j: nat)
    requires i < j < 2 * n
    ensures ListedAt(n, i) != ListedAt(n, j)
  {
  }

  lemma ListedDiffer(o: Order, a: nat, b: nat)
    requires Consistent(o) && a < |ElementsOf(o)| && b < |ElementsOf(o)| && a != b
    ensures ElementsOf(o)[a].SeqIdOf() != ElementsOf(o)[b].SeqIdOf()
  {
    hide ElementsOf, FromList, Sound, Parities;
    var es := ElementsOf(o);
    assert if a < b then es[a].SeqIdOf() != es[b].SeqIdOf() else es[b].SeqIdOf() != es[a].SeqIdOf();
  }

  lemma WovenKinds(o: Order, i: nat, j: nat)
    requires Consistent(o) && |o.nodes| == |o.edges| + 1 && i < j < |Woven(o)|
    ensures Woven(o)[i].SeqIdOf() != Woven(o)[j].SeqIdOf()
  {
    hide *;
    WovenListed(o, i);
    WovenListed(o, j);
    PlacesDiffer(|o.nodes|, i, j);
    ListedDiffer(o, ListedAt(|o.nodes|, i), ListedAt(|o.nodes|, j));
  }

  /** The graph takes the elements of a consistent order in any order they are listed in. */
  lemma ConsistentAccepts(o: Order)
    requires Consistent(o) && |o.nodes| == |o.edges| + 1
    ensures Accepts(Woven(o))
  {
    hide *;
    assert DistinctIds(Woven(o)) by {
      forall i, j | 0 <= i < j < |Woven(o)|
        ensures Woven(o)[i].SeqIdOf() != Woven(o)[j].SeqIdOf()
      {
        WovenKinds(o, i, j);
      }
      DistinctIs(Woven(o));
    }
    ConsistentGraph(o);
    forall e | true
      ensures e in ElementsOf(o) <==> e in Woven(o)
    {
      WovenHoldsAll(o, e);
    }
    SameElements(ElementsOf(o), Woven(o));
    SoundBaseFirst(GraphOfOrder(o));
    AcceptsExactly(Woven(o));
  }

  lemma DistinctIs(es: seq<Element>)
    ensures DistinctIds(es) <==> forall i, j | 0 <= i < j < |es| :: es[i].SeqIdOf() != es[j].SeqIdOf()
  {
  }

  lemma SoundBaseFirst(m: Elements)
    requires Sound(m)
    ensures BaseFirst(m)
  {
    hide BaseFirst;
  }

  lemma {:induction false} NextOfEach(a: set<nat>, b: set<nat>)
    requires forall k | k in a :: k + 1 in b
    ensures |a| <= |b|
    decreases |a|
  {
    if a != {} {
      var x :| x in a;
      NextOfEach(a - {x}, b - {x + 1});
    }
  }

  function NodeIdsOf(nodes: seq<Node>): set<nat>
  {
    set i | 0 <= i < |nodes| :: nodes[i].seqId
  }

  function EdgeIdsOf(edges: seq<Edge>): set<nat>
  {
    set i | 0 <= i < |edges| :: edges[i].seqId
  }

  lemma {:induction false} NodeIdsSize(nodes: seq<Node>)
    requires forall i, j | 0 <= i < j < |nodes| :: nodes[i].seqId != nodes[j].seqId
    ensures |NodeIdsOf(nodes)| == |nodes|
  {
    if nodes == [] {
      assert NodeIdsOf(nodes) == {};
    } else {
      var init, last := nodes[..|nodes| - 1], nodes[|nodes| - 1];
      NodeIdsSize(init);
      assert NodeIdsOf(nodes) == NodeIdsOf(init) + {last.seqId} && last.seqId !in NodeIdsOf(init);
    }
  }

  lemma {:induction false} EdgeIdsSize(edges: seq<Edge>)
    ensures |EdgeIdsOf(edges)| <= |edges|
  {
    if edges == [] {
      assert EdgeIdsOf(edges) == {};
    } else {
      var init, last := edges[..|edges| - 1], edges[|edges| - 1];
      EdgeIdsSize(init);
      assert EdgeIdsOf(edges) == EdgeIdsOf(init) + {last.seqId};
    }
  }

  /** Behind every node but the last there is an edge. */
  lemma EdgeBehind(o: Order, i: nat, last: SeqId)
    requires Consistent(o) && i < |o.nodes| && last in GraphOfOrder(o) && o.nodes[i].seqId < last
    ensures o.nodes[i].seqId + 1 in EdgeIdsOf(o.edges)
  {
    hide *;
    ListedNode(o, i);
    var next := o.nodes[i].seqId + 1;
    Filled(o, o.nodes[i].seqId, next, last);
    var j := EdgeWith(o, next);
    EdgeListed(o.edges, j);
  }

  lemma EdgeListed(edges: seq<Edge>, j: nat)
    requires j < |edges|
    ensures edges[j].seqId in EdgeIdsOf(edges)
  {
  }

  lemma NodesDiffer(o: Order, i: nat, j: nat)
    requires Consistent(o) && i < j < |o.nodes|
    ensures o.nodes[i].seqId != o.nodes[j].seqId
  {
    var es := ElementsOf(o);
    assert es[i] == NodeElement(o.nodes[i]) && es[j] == NodeElement(o.nodes[j]);
    hide ElementsOf, FromList, Sound, Parities;
    assert es[i].SeqIdOf() != es[j].SeqIdOf();
  }

  /** A consistent order has at most one node more than edges. */
  lemma ConsistentCounts(o: Order)
    requires Consistent(o)
    ensures o.nodes != [] && |o.nodes| <= |o.edges| + 1
  {
    hide *;
    HasNodes(o);
    ListedNode(o, 0);
    var nodes, edges := NodeIdsOf(o.nodes), EdgeIdsOf(o.edges);
    forall i, j | 0 <= i < j < |o.nodes|
      ensures o.nodes[i].seqId != o.nodes[j].seqId
    {
      NodesDiffer(o, i, j);
    }
    NodeIdsSize(o.nodes);
    EdgeIdsSize(o.edges);
    var last := Last(GraphOfOrder(o));
    EdgesBehind(o, last);
    NextOfEach(nodes - {last}, edges);
  }

  lemma EdgesBehind(o: Order, last: SeqId)
    requires Consistent(o) && last in GraphOfOrder(o) && forall k | k in GraphOfOrder(o) :: k <= last
    ensures forall k | k in NodeIdsOf(o.nodes) - {last} :: k + 1 in EdgeIdsOf(o.edges)
  {
    hide Consistent, GraphOfOrder, EdgeIdsOf;
    forall k | k in NodeIdsOf(o.nodes) - {last}
      ensures k + 1 in EdgeIdsOf(o.edges)
    {
      var i :| 0 <= i < |o.nodes| && o.nodes[i].seqId == k;
      ListedNode(o, i);
      EdgeBehind(o, i, last);
    }
  }

  /** An order that passes the check is walkable exactly when its lists are in turn. */
  lemma WalkableExactly(o: Order)
    requires Consistent(o)
    ensures |o.nodes| <= |o.edges| + 1
    ensures Walkable(o) <==> InTurn(o)
  {
    ConsistentCounts(o);
    if InTurn(o) {
      ConsistentAccepts(o);
    }
    hide Consistent, Accepts, Woven, FrontEdges;
  }
}
