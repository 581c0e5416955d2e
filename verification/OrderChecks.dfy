/** The checks an order has to pass before it is interpreted. */
module OrderChecks {
  import opened Vda
  import opened KeyOrder
  import opened Graphs
  import opened OrderManagers
  import opened Events

  /** The elements of an order: its nodes, then its edges. */
  function ElementsOf(o: Order): (es: seq<Element>)
    ensures |es| == |o.nodes| + |o.edges|
    ensures forall i | 0 <= i < |o.nodes| :: es[i] == NodeElement(o.nodes[i])
    ensures forall i | 0 <= i < |o.edges| :: es[|o.nodes| + i] == EdgeElement(o.edges[i])
  {
    seq(|o.nodes|, i requires 0 <= i < |o.nodes| => NodeElement(o.nodes[i])) +
    seq(|o.edges|, i requires 0 <= i < |o.edges| => EdgeElement(o.edges[i]))
  }

  ghost predicate Parities(o: Order)
  {
    && (forall n | n in o.nodes :: n.seqId % 2 == 0)
    && (forall e | e in o.edges :: e.seqId % 2 == 1)
  }

  /** What a consistent order is: nodes at even and edges at odd ids, no id twice, and together a graph
      without gaps whose base comes first. */
  ghost predicate Consistent(o: Order)
  {
    o.nodes != [] && Parities(o) && DistinctIds(ElementsOf(o)) && Sound(FromList(ElementsOf(o)))
  }

  datatype Finding =
    | Nothing
    | NoNodes
    | OddNode(node: Node)
    | EvenEdge(edge: Edge)
    | DuplicateId(id: SeqId)
    | SkippedIds
    | HorizonBeforeBase

  // Sets of ids /////////////////////////////////////////////////////////////////////////////////

  function BaseIds(es: seq<Element>): set<SeqId>
  {
    set e | e in es && e.IsBase() :: e.SeqIdOf()
  }

  function HorizonIds(es: seq<Element>): set<SeqId>
  {
    set e | e in es && e.IsHorizon() :: e.SeqIdOf()
  }

  /** What the two sets of found ids know about the elements seen so far. */
  ghost predicate Found(es: seq<Element>, base: set<SeqId>, horizon: set<SeqId>)
  {
    && base == BaseIds(es) && horizon == HorizonIds(es)
    && DistinctIds(es) && base !! horizon && |base| + |horizon| == |es|
  }

  lemma SetsMore(es: seq<Element>, e: Element)
    ensures BaseIds(es + [e]) == if e.IsBase() then BaseIds(es) + {e.SeqIdOf()} else BaseIds(es)
    ensures HorizonIds(es + [e]) == if e.IsBase() then HorizonIds(es) else HorizonIds(es) + {e.SeqIdOf()}
  {
    assert forall d :: d in es + [e] <==> d in es || d == e;
  }

  lemma IdKnown(es: seq<Element>, s: SeqId)
    ensures s in BaseIds(es) || s in HorizonIds(es) <==> exists i :: 0 <= i < |es| && es[i].SeqIdOf() == s
  {
    if i :| 0 <= i < |es| && es[i].SeqIdOf() == s {
      assert es[i] in es;
    }
  }

  lemma FoundMore(es: seq<Element>, e: Element, base: set<SeqId>, horizon: set<SeqId>)
    requires Found(es, base, horizon)
    ensures e.SeqIdOf() in base || e.SeqIdOf() in horizon ==> !DistinctIds(es + [e])
    ensures e.SeqIdOf() !in base && e.SeqIdOf() !in horizon ==>
              Found(es + [e], if e.IsBase() then base + {e.SeqIdOf()} else base,
                    if e.IsBase() then horizon else horizon + {e.SeqIdOf()})
  {
    var s, more := e.SeqIdOf(), es + [e];
    SetsMore(es, e);
    IdKnown(es, s);
    hide BaseIds, HorizonIds;
    if s in base || s in horizon {
      var i :| 0 <= i < |es| && es[i].SeqIdOf() == s;
      assert more[i].SeqIdOf() == more[|es|].SeqIdOf();
    } else {
      assert forall i | 0 <= i < |es| :: more[i] == es[i] && es[i].SeqIdOf() != s;
    }
  }

  lemma PrefixDistinct(es: seq<Element>, n: nat)
    requires n <= |es| && DistinctIds(es)
    ensures DistinctIds(es[..n])
  {
  }

  // Counting ////////////////////////////////////////////////////////////////////////////////////

  function Range(lo: nat, hi: nat): (r: set<nat>)
    ensures forall k :: k in r <==> lo <= k <= hi
    ensures |r| == if lo <= hi then hi - lo + 1 else 0
    decreases hi + 1 - lo
  {
    if lo > hi then {} else {lo} + Range(lo + 1, hi)
  }

  lemma {:induction false} SubsetSize(a: set<nat>, b: set<nat>)
    requires a <= b
    ensures |a| <= |b|
    ensures |a| == |b| <==> a == b
    decreases |a|
  {
    if a != {} {
      var x :| x in a;
      SubsetSize(a - {x}, b - {x});
      assert a == (a - {x}) + {x} && b == (b - {x}) + {x};
    }
  }

  /** Pigeonhole: a set fills the interval between its ends exactly when it has as many members. */
  lemma FillsByCount(s: set<nat>, lo: nat, hi: nat)
    requires lo in s && hi in s && forall k | k in s :: lo <= k <= hi
    ensures |s| == hi - lo + 1 <==> forall k | lo <= k <= hi :: k in s
    ensures |s| <= hi - lo + 1
  {
    SubsetSize(s, Range(lo, hi));
  }

  /** The number of ids between the ends in 32-bit arithmetic. */
  function Span32(lo: SeqId, hi: SeqId): SeqId
    requires lo <= hi
  {
    Add32(hi - lo, 1)
  }

  /** The count taken in 32-bit arithmetic agrees with the true one except for the full range of ids. */
  lemma CountDecides(s: set<nat>, lo: SeqId, hi: SeqId)
    requires lo in s && hi in s && forall k | k in s :: lo <= k <= hi
    ensures Span32(lo, hi) == |s| <==> (forall k | lo <= k <= hi :: k in s) && |s| < SEQ_MODULUS
  {
    FillsByCount(s, lo, hi);
    assert |s| > 0;
  }

  // The check ///////////////////////////////////////////////////////////////////////////////////

  lemma {:induction false} GraphIds(es: seq<Element>, base: set<SeqId>, horizon: set<SeqId>)
    requires Found(es, base, horizon)
    ensures var m := FromList(es);
            && Keyed(m)
            && (forall k: SeqId :: k in m <==> k in base + horizon)
            && (forall k: SeqId | k in m :: m[k].IsBase() <==> k in base)
  {
    var m := FromList(es);
    FromListHolds(es);
    hide FromList;
    forall k: SeqId | true
      ensures k in m <==> k in base + horizon
    {
      IdKnown(es, k);
      hide BaseIds, HorizonIds;
    }
    forall k: SeqId | k in m
      ensures m[k].IsBase() <==> k in base
    {
      assert m[k] in es;
    }
  }

  lemma NotConsistent(o: Order, n: nat)
    requires n <= |o.nodes| + |o.edges| && !DistinctIds(ElementsOf(o)[..n])
    ensures !DistinctIds(ElementsOf(o))
  {
    if DistinctIds(ElementsOf(o)) {
      PrefixDistinct(ElementsOf(o), n);
    }
  }

  lemma ContiguousIds(m: Elements, ids: set<nat>, lo: SeqId, hi: SeqId)
    requires forall k: SeqId :: k in m <==> k in ids
    requires lo in ids && hi in ids && forall k: SeqId | k in ids :: lo <= k <= hi
    ensures Contiguous(m) <==> forall k | lo <= k <= hi :: k in ids
  {
    if Contiguous(m) {
      forall k: nat | lo <= k <= hi
        ensures k in ids
      {
        var s: SeqId := k;
        assert lo in m && hi in m;
        assert s in m;
      }
    }
  }

  lemma BaseFirstIds(m: Elements, base: set<SeqId>, horizon: set<SeqId>)
    requires base !! horizon && forall k: SeqId :: k in m <==> k in base + horizon
    requires forall k: SeqId | k in m :: m[k].IsBase() <==> k in base
    ensures BaseFirst(m) <==> forall j, k | j in base && k in horizon :: j < k
  {
    if BaseFirst(m) {
      forall j, k | j in base && k in horizon
        ensures j < k
      {
        assert j in m && k in m;
      }
    }
  }

  /** The sets of a complete order decide whether its graph is sound. */
  lemma {:induction false} SetsDecide(es: seq<Element>, base: set<SeqId>, horizon: set<SeqId>, lo: SeqId, hi: SeqId)
    requires Found(es, base, horizon) && es != []
    requires lo in base + horizon && hi in base + horizon && forall k: SeqId | k in base + horizon :: lo <= k <= hi
    ensures FromList(es) != map[] && Keyed(FromList(es))
    ensures Span32(lo, hi) == |base| + |horizon| <==> Contiguous(FromList(es)) && |es| < SEQ_MODULUS
    ensures BaseFirst(FromList(es)) <==> forall j, k | j in base && k in horizon :: j < k
  {
    var m := FromList(es);
    GraphIds(es, base, horizon);
    hide FromList, BaseIds, HorizonIds, Keyed, Span32, Contiguous, BaseFirst, DistinctIds;
    assert lo in m;
    BaseFirstIds(m, base, horizon);
    var all: set<nat> := base + horizon;
    assert |all| == |base| + |horizon| == |es|;
    CountDecides(all, lo, hi);
    ContiguousIds(m, all, lo, hi);
  }

  /** The end of the check, on the ids found in the whole order. */
  method CheckIds(ghost es: seq<Element>, base: set<SeqId>, horizon: set<SeqId>) returns (r: Finding)
    requires Found(es, base, horizon) && es != []
    ensures FromList(es) != map[] && Keyed(FromList(es)) && DistinctIds(es)
    ensures r == Nothing <==> BaseFirst(FromList(es)) && Contiguous(FromList(es)) && |es| < SEQ_MODULUS
    ensures r == SkippedIds <==> !(Contiguous(FromList(es)) && |es| < SEQ_MODULUS)
    ensures r == HorizonBeforeBase <==>
            !BaseFirst(FromList(es)) && Contiguous(FromList(es)) && |es| < SEQ_MODULUS
  {
    hide FromList, BaseIds, HorizonIds, BaseFirst, Contiguous, Keyed, Span32;
    var lo: SeqId, hi: SeqId;
    if base == {} {
      lo, hi := MinOf(horizon), MaxOf(horizon);
    } else if horizon == {} {
      lo, hi := MinOf(base), MaxOf(base);
    } else {
      lo := if MinOf(horizon) < MinOf(base) then MinOf(horizon) else MinOf(base);
      hi := if MaxOf(horizon) > MaxOf(base) then MaxOf(horizon) else MaxOf(base);
    }
    SetsDecide(es, base, horizon, lo, hi);
    if Span32(lo, hi) != |base| + |horizon| {
      return SkippedIds;
    }
    if horizon != {} && base != {} {
      if MinOf(horizon) <= MaxOf(base) {
        return HorizonBeforeBase;
      }
    }
    return Nothing;
  }

  lemma NothingFound()
    ensures Found([], {}, {})
  {
  }

  lemma ConsistentParts(o: Order)
    ensures Consistent(o) <==> o.nodes != [] && Parities(o) && DistinctIds(ElementsOf(o)) &&
                               FromList(ElementsOf(o)) != map[] && Keyed(FromList(ElementsOf(o))) &&
                               BaseFirst(FromList(ElementsOf(o))) && Contiguous(FromList(ElementsOf(o)))
  {
    hide FromList, Parities, DistinctIds, Keyed, BaseFirst, Contiguous;
  }

  /** Collects the ids of the nodes, up to the first one that is odd or known. */
  method CheckNodes(o: Order) returns (r: Finding, base: set<SeqId>, horizon: set<SeqId>)
    ensures r == Nothing ==>
              Found(ElementsOf(o)[..|o.nodes|], base, horizon) && forall n | n in o.nodes :: n.seqId % 2 == 0
    ensures r.Nothing? || r.OddNode? || r.DuplicateId?
    ensures r.OddNode? ==> r.node in o.nodes && r.node.seqId % 2 == 1
    ensures r.DuplicateId? ==> !DistinctIds(ElementsOf(o))
  {
    hide BaseIds, HorizonIds, Found, DistinctIds;
    base, horizon := {}, {};
    ghost var es := ElementsOf(o);
    NothingFound();
    assert es[..0] == [];
    for i := 0 to |o.nodes|
      invariant Found(es[..i], base, horizon)
      invariant forall k | 0 <= k < i :: o.nodes[k].seqId % 2 == 0
    {
      var node := o.nodes[i];
      if node.seqId % 2 == 1 {
        return OddNode(node), base, horizon;
      }
      assert es[..i + 1] == es[..i] + [es[i]];
      FoundMore(es[..i], es[i], base, horizon);
      if node.seqId in base || node.seqId in horizon {
        NotConsistent(o, i + 1);
        return DuplicateId(node.seqId), base, horizon;
      }
      if node.released {
        base := base + {node.seqId};
      } else {
        horizon := horizon + {node.seqId};
      }
    }
    return Nothing, base, horizon;
  }

  /** Collects the ids of the edges as well. */
  method CheckEdges(o: Order, baseNodes: set<SeqId>, horizonNodes: set<SeqId>)
    returns (r: Finding, base: set<SeqId>, horizon: set<SeqId>)
    requires Found(ElementsOf(o)[..|o.nodes|], baseNodes, horizonNodes)
    ensures r == Nothing ==> Found(ElementsOf(o), base, horizon) && forall e | e in o.edges :: e.seqId % 2 == 1
    ensures r.Nothing? || r.EvenEdge? || r.DuplicateId?
    ensures r.EvenEdge? ==> r.edge in o.edges && r.edge.seqId % 2 == 0
    ensures r.DuplicateId? ==> !DistinctIds(ElementsOf(o))
  {
    hide BaseIds, HorizonIds, Found, DistinctIds;
    base, horizon := baseNodes, horizonNodes;
    ghost var es := ElementsOf(o);
    for j := 0 to |o.edges|
      invariant Found(es[..|o.nodes| + j], base, horizon)
      invariant forall k | 0 <= k < j :: o.edges[k].seqId % 2 == 1
    {
      var edge := o.edges[j];
      ghost var n := |o.nodes| + j;
      if edge.seqId % 2 == 0 {
        return EvenEdge(edge), base, horizon;
      }
      assert es[..n + 1] == es[..n] + [es[n]];
      FoundMore(es[..n], es[n], base, horizon);
      if edge.seqId in base || edge.seqId in horizon {
        NotConsistent(o, n + 1);
        return DuplicateId(edge.seqId), base, horizon;
      }
      if edge.released {
        base := base + {edge.seqId};
      } else {
        horizon := horizon + {edge.seqId};
      }
    }
    assert es[..|es|] == es;
    return Nothing, base, horizon;
  }

  /** The check accepts exactly the consistent orders with fewer elements than there are ids, and what it finds
      is there. */
  method CheckOrderGraphConsistency(o: Order) returns (r: Finding)
    ensures r == Nothing <==> Consistent(o) && |o.nodes| + |o.edges| < SEQ_MODULUS
    ensures r == NoNodes <==> o.nodes == []
    ensures r.OddNode? ==> r.node in o.nodes && r.node.seqId % 2 == 1
    ensures r.EvenEdge? ==> r.edge in o.edges && r.edge.seqId % 2 == 0
    ensures r.DuplicateId? ==> !DistinctIds(ElementsOf(o))
    ensures r.SkippedIds? || r.HorizonBeforeBase? ==> Parities(o) && DistinctIds(ElementsOf(o))
    ensures r.SkippedIds? ==> !Contiguous(FromList(ElementsOf(o))) || |o.nodes| + |o.edges| >= SEQ_MODULUS
    ensures r.HorizonBeforeBase? ==> !BaseFirst(FromList(ElementsOf(o))) && Contiguous(FromList(ElementsOf(o)))
  {
    hide Consistent, FromList, Found, DistinctIds, BaseFirst, Contiguous, Keyed;
    ConsistentParts(o);
    if o.nodes == [] {
      return NoNodes;
    }
    var base: set<SeqId>, horizon: set<SeqId>;
    r, base, horizon := CheckNodes(o);
    if r != Nothing {
      return;
    }
    r, base, horizon := CheckEdges(o, base, horizon);
    if r != Nothing {
      return;
    }
    r := CheckIds(ElementsOf(o), base, horizon);
  }

  // Appending ///////////////////////////////////////////////////////////////////////////////////

  function NodeIds(o: Order): set<SeqId>
  {
    set n | n in o.nodes :: n.seqId
  }

  function FirstNodeId(o: Order): (k: SeqId)
    requires o.nodes != []
    ensures k in NodeIds(o) && forall n | n in o.nodes :: k <= n.seqId
  {
    assert o.nodes[0] in o.nodes && o.nodes[0].seqId in NodeIds(o);
    assert forall n | n in o.nodes :: n.seqId in NodeIds(o);
    MinOf(NodeIds(o))
  }

  lemma FirstNodeInGraph(o: Order)
    requires o.nodes != [] && Parities(o) && DistinctIds(ElementsOf(o))
    ensures FirstNodeId(o) in FromList(ElementsOf(o)) && FirstNodeId(o) % 2 == 0
  {
    var k := FirstNodeId(o);
    assert k in NodeIds(o);
    var i :| 0 <= i < |o.nodes| && o.nodes[i].seqId == k;
    assert o.nodes[i] in o.nodes;
    var es := ElementsOf(o);
    assert es[i] == NodeElement(o.nodes[i]);
    hide *;
    ListedHeld(es, i);
  }

  lemma {:induction false} ListedHeld(es: seq<Element>, i: nat)
    requires DistinctIds(es) && i < |es|
    ensures es[i].SeqIdOf() in FromList(es)
  {
    FromListHolds(es);
    hide FromList, DistinctIds;
  }

  lemma StartsWithNode(o: Order)
    requires Consistent(o)
    ensures var other := FromList(ElementsOf(o));
            && FirstNodeId(o) % 2 == 0 && First(other) <= FirstNodeId(o)
            && (other[First(other)].NodeElement? <==> First(other) == FirstNodeId(o))
  {
    var other := FromList(ElementsOf(o));
    FirstNodeInGraph(o);
    KindByParity(o, First(other));
  }

  /** An order that starts with a node begins at the end of the stored base exactly when the stored graph can be
      extended by it and its base ends at an even id, where nodes are. Behind a base that ends with an edge, the check
      refuses the node that would fit. */
  lemma EndsBaseExtends(m: Elements, o: Order)
    requires BaseLast(m).Some? && Consistent(o)
    ensures var other := FromList(ElementsOf(o));
            && m != map[] && other != map[]
            && (other[First(other)].NodeElement? ==>
                  (EndsBase(m, FirstNodeId(o)) <==> Extends(m, other) && BaseLast(m).value % 2 == 0))
  {
    var other := FromList(ElementsOf(o));
    NodesThere(o);
    StartsWithNode(o);
    EndsBaseIs(m, FirstNodeId(o));
    hide FromList, BaseLast, First, FirstNodeId, Consistent, EndsBase;
  }

  datatype AppendFinding = Fine | OtherOrder | CannotStitch | Thrown

  /** The order brings nothing new: it is the stored one, or an update of it that is known. */
  predicate Known(om: OrderManager, o: Order)
    reads om
  {
    o.orderId == om.orderId && o.updateId <= om.updateId
  }

  /** The decision in full: what is known is fine, and so is an order without nodes, which another check refuses.
      While the scheduler is not idle, another order is refused. A stored graph without a base makes the check throw.
      All others are fine exactly when they begin at the last released element of the stored graph or, while the
      scheduler is idle, at node 0; without a stored graph, at node 0. For an order whose first element is a node, and
      a stored base that ends with a node as well, that is exactly what stitching it into the stored graph demands. */
  method CheckOrderAppend(om: OrderManager, status: Mode, o: Order) returns (r: AppendFinding)
    ensures Known(om, o) ==> r == Fine
    ensures !Known(om, o) ==> (r == OtherOrder <==> status != Idle && status != IdlePaused && o.orderId != om.orderId)
    ensures !Known(om, o) && r != OtherOrder && o.nodes == [] ==> r == Fine
    ensures !Known(om, o) && r != OtherOrder && o.nodes != [] && om.graph == null ==>
              r != Thrown && (r == Fine <==> FirstNodeId(o) == 0)
    ensures !Known(om, o) && r != OtherOrder && o.nodes != [] && om.graph != null ==>
              var m := om.graph.elems;
              && (r == Thrown <==> forall k | k in m :: m[k].IsHorizon())
              && (r == Fine <==> r != Thrown && (EndsBase(m, FirstNodeId(o)) ||
                                                 ((status == Idle || status == IdlePaused) && FirstNodeId(o) == 0)))
    ensures !Known(om, o) && om.graph != null && BaseLast(om.graph.elems).Some? && Consistent(o) &&
            FromList(ElementsOf(o))[First(FromList(ElementsOf(o)))].NodeElement? ==>
              var m := om.graph.elems;
              r == Fine <==>
                && r != OtherOrder
                && ((Extends(m, FromList(ElementsOf(o))) && BaseLast(m).value % 2 == 0) ||
                    ((status == Idle || status == IdlePaused) && FirstNodeId(o) == 0))
  {
    hide Consistent, FromList, Extends, First;
    if o.orderId == om.orderId && o.updateId <= om.updateId {
      return Fine;
    }
    var mayReplace := status == Idle || status == IdlePaused;
    if !mayReplace && o.orderId != om.orderId {
      return OtherOrder;
    }
    if o.nodes == [] {
      NodesThere(o);
      return Fine;
    }
    var minSeq := FirstNodeId(o);
    var baseLast: SeqId := 0;
    if om.graph != null {
      var l := BaseLast(om.graph.elems);
      if l.None? {
        return Thrown;
      }
      baseLast := l.value;
      EndsBaseIs(om.graph.elems, minSeq);
      if Consistent(o) {
        EndsBaseExtends(om.graph.elems, o);
      }
    }
    return if baseLast == minSeq || (mayReplace && minSeq == 0) then Fine else CannotStitch;
  }

  /** The last released element. */
  ghost predicate EndsBase(m: Elements, k: SeqId)
  {
    k in m && m[k].IsBase() && forall j | j in m && m[j].IsBase() :: j <= k
  }

  lemma EndsBaseIs(m: Elements, k: SeqId)
    requires BaseLast(m).Some?
    ensures EndsBase(m, k) <==> BaseLast(m).value == k
  {
    hide BaseLast;
  }

  lemma NodesThere(o: Order)
    ensures Consistent(o) ==> o.nodes != []
  {
    hide FromList, DistinctIds, Parities;
  }

  /** A consistent order whose first node is the end of the stored base can be stitched exactly when it starts
      with this node. The check of the order does not demand that: an order may start with an edge. */
  lemma AppendStitches(m: Elements, o: Order)
    requires Sound(m) && BaseLast(m).Some? && Consistent(o) && FirstNodeId(o) == BaseLast(m).value
    ensures var other := FromList(ElementsOf(o));
            Extends(m, other) <==> other[First(other)].NodeElement?
  {
    StartsWithNode(o);
    assert Add32(FirstNodeId(o), 1) == FirstNodeId(o) + 1;
    hide FromList, BaseLast, First, FirstNodeId, Consistent, Sound;
  }

  /** In the graph of a consistent order the nodes are at the even and the edges at the odd ids. */
  lemma KindByParity(o: Order, k: SeqId)
    requires Parities(o) && DistinctIds(ElementsOf(o)) && k in FromList(ElementsOf(o))
    ensures var e := FromList(ElementsOf(o))[k];
            && (e.NodeElement? ==> e.node in o.nodes && k == e.node.seqId && k % 2 == 0)
            && (e.EdgeElement? ==> e.edge in o.edges && k == e.edge.seqId && k % 2 == 1)
  {
    var es := ElementsOf(o);
    FromListHolds(es);
    var e := FromList(es)[k];
    var i :| 0 <= i < |es| && es[i] == e;
    hide FromList;
    if i < |o.nodes| {
      assert o.nodes[i] in o.nodes;
    } else {
      assert es[|o.nodes| + (i - |o.nodes|)] == EdgeElement(o.edges[i - |o.nodes|]);
    }
  }
}
