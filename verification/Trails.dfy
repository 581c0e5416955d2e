/** How far the interpreter came, for any order. What it has walked over is what it checks on the way, so that an order
    it comes to the end of is walkable. */
module Trails {
  import opened Vda
  import opened Graphs
  import opened Interpretation

  /** The first edges and the nodes behind them, as far as the interpreter compares them. */
  ghost predicate Compared(o: Order, e: nat)
    requires e <= |o.edges| && e < |o.nodes|
  {
    && (o.edges != [] ==> o.nodes[0].seqId < o.edges[0].seqId)
    && (forall i | 0 <= i < e && i <= FrontEdges(o.edges) :: o.edges[i].seqId <= o.nodes[i + 1].seqId)
    && (forall i | 0 < i <= e && i <= FrontEdges(o.edges) :: o.nodes[i].released)
  }

  /** The two iterators and the collected graph. Where the graph was begun once, it holds what was walked over; every
      further beginning leaves one more node than edges behind. */
  ghost predicate Spot(o: Order, n: nat, e: nat, graph: Option<Elements>)
    requires n <= |o.nodes| && e <= |o.edges|
  {
    if n == 0 then e == 0 && graph.None?
    else
      && e < n && graph.Some?
      && (n == e + 1 && |o.nodes| == |o.edges| + 1 ==>
            Compared(o, e) && Accepts(Woven(o)[..2 * n - 1]) && graph.value == GraphOf(o, n))
  }

  lemma {:induction false} FirstAccepted(o: Order)
    requires o.nodes != [] && |o.nodes| == |o.edges| + 1
    ensures Accepts(Woven(o)[..1])
  {
    var one := Woven(o)[..1];
    assert one[..0] == [] && FromList([]) == map[];
    hide Woven;
  }

  /** The graph is begun with a node. */
  lemma SpotBegins(o: Order, n: nat, e: nat, graph: Option<Elements>)
    requires n < |o.nodes| && e <= |o.edges| && Spot(o, n, e, graph)
    requires e == |o.edges| || o.nodes[n].seqId < o.edges[e].seqId
    ensures Spot(o, n + 1, e, Some(Insert(map[], NodeElement(o.nodes[n]))))
  {
    if n == 0 && |o.nodes| == |o.edges| + 1 {
      FirstAccepted(o);
      GraphStarts(o);
    }
    hide Accepts, Woven, GraphOf, Insert, FrontEdges;
  }

  lemma {:induction false} AcceptsNext(es: seq<Element>, n: nat)
    requires n < |es| && Accepts(es[..n]) && Fits(FromList(es[..n]), es[n])
    ensures Accepts(es[..n + 1])
  {
    assert es[..n + 1][..n] == es[..n];
    hide Fits;
  }

  lemma WovenTaken(o: Order, n: nat)
    requires 0 < n < |o.nodes| && |o.nodes| == |o.edges| + 1 && Accepts(Woven(o)[..2 * n - 1])
    requires Fits(GraphOf(o, n), EdgeElement(o.edges[n - 1]))
    requires Fits(Insert(GraphOf(o, n), EdgeElement(o.edges[n - 1])), NodeElement(o.nodes[n]))
    ensures Accepts(Woven(o)[..2 * (n + 1) - 1])
    ensures Insert(Insert(GraphOf(o, n), EdgeElement(o.edges[n - 1])), NodeElement(o.nodes[n])) == GraphOf(o, n + 1)
  {
    hide *;
    WovenIs(o, n - 1);
    WovenIs(o, n);
    GraphOfIs(o, n);
    GraphGrows(o, n);
    AcceptsNext(Woven(o), 2 * n - 1);
    AcceptsNext(Woven(o), 2 * n);
  }

  /** An edge and the node behind it are taken. */
  lemma SpotGoesOn(o: Order, n: nat, e: nat, m: Elements)
    requires 0 < n < |o.nodes| && e < |o.edges| && Spot(o, n, e, Some(m))
    requires e <= FrontEdges(o.edges) && n == e + 1 ==> o.edges[e].seqId <= o.nodes[n].seqId
    requires n <= FrontEdges(o.edges) && n == e + 1 ==> o.nodes[n].released
    requires Fits(m, EdgeElement(o.edges[e]))
    requires Fits(Insert(m, EdgeElement(o.edges[e])), NodeElement(o.nodes[n]))
    ensures Spot(o, n + 1, e + 1, Some(Insert(Insert(m, EdgeElement(o.edges[e])), NodeElement(o.nodes[n]))))
  {
    hide Accepts, Woven, GraphOf, Insert, Fits, FrontEdges;
    if n == e + 1 && |o.nodes| == |o.edges| + 1 {
      WovenTaken(o, n);
    }
  }

  /** At the end of both lists, an order that has no more than one node more than edges is walkable. */
  lemma SpotEnds(o: Order, graph: Option<Elements>)
    requires 0 < |o.nodes| <= |o.edges| + 1 && Spot(o, |o.nodes|, |o.edges|, graph)
    ensures Walkable(o)
  {
    assert |o.nodes| == |o.edges| + 1 ==> Woven(o)[..2 * |o.nodes| - 1] == Woven(o);
    hide Accepts, Woven, GraphOf, FrontEdges;
  }
}
