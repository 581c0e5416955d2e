/** The order manager and the three event handlers that change or announce its graph. */
module OrderManagers {
  import opened Vda
  import opened Events
  import opened Graphs

  class OrderManager {
    var graph: Graph?
    var orderId: string
    var updateId: nat
    var lastNodeId: string
    var lastNodeSeq: SeqId
    var actions: map<ActionId, Action>
    var states: map<ActionId, ActionStatus>

    /** Every action has a state and every state an action. */
    ghost predicate Valid()
      reads this, graph
    {
      actions.Keys == states.Keys && (graph != null ==> graph.Valid())
    }

    constructor ()
      ensures Valid() && graph == null && actions == map[] && updateId == 0 && lastNodeSeq == 0
    {
      graph := null;
      orderId, lastNodeId := "", "";
      updateId, lastNodeSeq := 0, 0;
      actions, states := map[], map[];
    }

    method AddNewAction(a: Action) returns (ok: bool)
      requires Valid()
      modifies `actions, `states
      ensures Valid()
      ensures ok == (a.id !in old(actions))
      ensures ok ==> actions == old(actions)[a.id := a] && states == old(states)[a.id := WAITING]
      ensures !ok ==> actions == old(actions) && states == old(states)
    {
      if a.id in actions {
        return false;
      }
      actions := actions[a.id := a];
      if a.id in states {
        assert false;
      }
      states := states[a.id := WAITING];
      return true;
    }

    method ClearActions()
      requires Valid()
      modifies `actions, `states
      ensures Valid() && actions == map[] && states == map[]
    {
      actions, states := map[], map[];
    }

    /** Waiting actions fail; the others keep their status. */
    method CancelWaitingActions()
      requires Valid()
      modifies `states
      ensures Valid()
      ensures forall id | id in states :: states[id] == if old(states)[id] == WAITING then FAILED else old(states)[id]
    {
      var rest := states.Keys;
      while rest != {}
        invariant rest <= states.Keys == old(states).Keys
        invariant forall id | id in states ::
                    states[id] == if id !in rest && old(states)[id] == WAITING then FAILED else old(states)[id]
        decreases |rest|
      {
        var id :| id in rest;
        if states[id] == WAITING {
          states := states[id := FAILED];
        }
        rest := rest - {id};
      }
    }

    /** Installs a new graph. A throw for a missing node 0 comes after the graph was installed. */
    method ReplaceGraph(newGraph: Graph, id: string) returns (ok: bool)
      modifies this`graph, this`orderId, this`updateId, this`lastNodeSeq, newGraph`agv
      ensures graph == newGraph && orderId == id && updateId == 0 && lastNodeSeq == 0
      ensures ok == MayStand(newGraph.elems, 0)
      ensures newGraph.agv == if ok then Some(0) else old(newGraph.agv)
    {
      lastNodeSeq := 0;
      graph := newGraph;
      orderId := id;
      updateId := 0;
      ok := newGraph.SetAgvLastNodeSequenceId(0);
    }

    /** Extends the graph. The update id changes first, and stays changed when the extension fails. */
    method ExtendGraph(extension: Graph, update: nat) returns (ok: bool, first: SeqId, last: SeqId)
      requires graph != null ==> graph.elems != map[]
      requires extension.elems != map[]
      modifies this`updateId, graph
      ensures updateId == update
      ensures ok == (graph != null &&
                     Stitches(old(graph.elems), old(graph.agv), old(extension.elems), old(extension.agv)))
      ensures ok ==>
                && first == DeltaFirst(old(graph.elems), old(extension.elems))
                && last == Last(old(extension.elems))
                && graph.elems == Extended(old(graph.elems), old(extension.elems))
                && graph.agv == if old(graph.agv).Some? then old(graph.agv) else old(extension.agv)
      ensures !ok && graph != null ==> graph.elems == old(graph.elems) && graph.agv == old(graph.agv)
    {
      updateId := update;
      if graph == null {
        return false, 0, 0;
      }
      ok, first, last := graph.Extend(extension);
    }

    /** The vehicle reached a node: what lies behind it is dropped and the node is remembered. */
    method SetAgvLastNode(s: SeqId) returns (ok: bool)
      modifies this`lastNodeSeq, this`lastNodeId, graph
      ensures ok == (graph != null && Arrive(old(graph.elems), s).Some?)
      ensures ok ==>
                && Some(graph.elems) == Arrive(old(graph.elems), s)
                && graph.agv == Some(s)
                && lastNodeSeq == s
                && lastNodeId == old(graph.elems)[s].node.nodeId
      ensures old(Valid()) ==> Valid()
      ensures !ok ==>
                && lastNodeSeq == old(lastNodeSeq) && lastNodeId == old(lastNodeId)
                && (graph != null ==> graph.elems == old(graph.elems) && graph.agv == old(graph.agv))
    {
      if graph == null {
        return false;
      }
      ok := graph.SetAgvLastNodeSequenceId(s);
      if !ok {
        return false;
      }
      graph.Trim();
      lastNodeSeq := s;
      lastNodeId := graph.elems[s].node.nodeId;
    }
  }

  // Event handlers //////////////////////////////////////////////////////////////////////////////

  /** What the navigation is told when the base grows. */
  datatype Increase = Increase(nodes: seq<Node>, edges: seq<Edge>)

  function IncreaseOf(m: Elements): Increase
  {
    Increase(NodesOf(m), EdgesOf(m))
  }

  /** A new graph replaces the old one and its base is announced. */
  method HandleGraphReplacement(om: OrderManager, data: Graph, id: string)
    returns (ok: bool, increase: Option<Increase>)
    requires data.elems != map[]
    modifies om
    ensures ok == (BaseLast(data.elems).Some? && MayStand(data.elems, 0))
    ensures ok ==>
              && om.graph != null && fresh(om.graph) && om.graph.elems == data.elems && om.graph.agv == Some(0)
              && om.orderId == id && om.updateId == 0 && om.lastNodeSeq == 0
    ensures BaseLast(data.elems).None? ==>
              om.graph == old(om.graph) && om.orderId == old(om.orderId) && om.updateId == old(om.updateId)
              && om.lastNodeSeq == old(om.lastNodeSeq)
    ensures !ok && BaseLast(data.elems).Some? ==>
              && om.graph != null && fresh(om.graph) && om.graph.elems == data.elems && om.graph.agv == data.agv
              && om.orderId == id && om.updateId == 0 && om.lastNodeSeq == 0
    ensures increase ==
            if ok then Some(IncreaseOf(Between(data.elems, First(data.elems), BaseLast(data.elems).value))) else None
    ensures om.actions == old(om.actions) && om.states == old(om.states) && om.lastNodeId == old(om.lastNodeId)
  {
    hide NodesOf, EdgesOf, Base, MaxOf, First, BaseLast, Between;
    var graph := new Graph(data.elems, data.agv);
    var last := BaseLast(graph.elems);
    if last.None? {
      return false, None;
    }
    var base := graph.Subgraph(First(graph.elems), last.value);
    var nodes := base.GetNodes();
    var edges := base.GetEdges();
    ok := om.ReplaceGraph(graph, id);
    increase := if ok then Some(Increase(nodes, edges)) else None;
  }

  /** Whether the handler of an extension comes to its end. */
  predicate Announces(m: Elements, other: Elements)
    requires m != map[] && other != map[] && Extends(m, other)
  {
    && BaseLast(other).Some?
    && var first := DeltaFirst(m, other);
    first > BaseLast(other).value || (first in other && BaseLast(other).value in other)
  }

  /** The graph is extended and what is new in its base is announced. When the extension has no base, the
      throw comes after the graph was extended. */
  method HandleGraphExtension(om: OrderManager, data: Graph, update: nat)
    returns (ok: bool, increase: Option<Increase>)
    requires data.elems != map[] && (om.graph != null ==> om.graph != data && om.graph.elems != map[])
    modifies om`updateId, om.graph
    ensures om.updateId == update
    ensures var stitches := om.graph != null &&
                            Stitches(old(om.graph.elems), old(om.graph.agv), data.elems, data.agv);
            && ok == (stitches && Announces(old(om.graph.elems), data.elems))
            && (om.graph != null ==>
                  om.graph.elems == if stitches then Extended(old(om.graph.elems), data.elems) else old(om.graph.elems))
    ensures ok ==>
              var delta := Delta(old(om.graph.elems), data.elems);
              increase == if DeltaFirst(old(om.graph.elems), data.elems) > BaseLast(data.elems).value then None
                          else Some(IncreaseOf(delta))
    ensures !ok ==> increase == None
  {
    var graph := new Graph(data.elems, data.agv);
    var first, end;
    ok, first, end := om.ExtendGraph(graph, update);
    if !ok {
      return false, None;
    }
    var last := BaseLast(graph.elems);
    if last.None? {
      return false, None;
    }
    if first > last.value {
      return true, None;
    }
    var part := graph.Subgraph(first, last.value);
    if part == null {
      return false, None;
    }
    var nodes := part.GetNodes();
    var edges := part.GetEdges();
    return true, Some(Increase(nodes, edges));
  }

  /** For sound graphs, the handler of an extension fails after the stitching exactly when the extension has no
      base. The graph is then already extended, and a vehicle at the stitching node stands on a horizon node. */
  lemma AnnouncesExactly(m: Elements, other: Elements)
    requires Sound(m) && Sound(other) && Extends(m, other)
    ensures Announces(m, other) <==> other[First(other)].IsBase()
    ensures !Announces(m, other) && MayStand(m, First(other)) ==> !MayStand(Extended(m, other), First(other))
  {
    Follows(m, other);
    if BaseLast(other).Some? {
      BaseIsPrefix(other);
      assert First(other) in Base(other);
    }
  }
}
