/** An order as the way it describes: nodes to reach over edges and actions to perform, in turn. */
module Itineraries {
  import opened Vda
  import opened Graphs
  import opened Interpretation
  import opened Streams

  datatype Mark = Reach(goal: Node, via: Edge) | Perform(action: Action)

  function Performs(actions: seq<Action>): seq<Mark>
  {
    seq(|actions|, i requires 0 <= i < |actions| => Perform(actions[i]))
  }

  /** The way the items of a queue describe. */
  function MarksOf(items: seq<Item>): seq<Mark>
  {
    if items == [] then []
    else
      (if items[0].Step? then [Reach(items[0].goal, items[0].via)] else Performs(items[0].group.actions)) +
      MarksOf(items[1..])
  }

  /** What an order describes at its node i: the node is reached over the edge before it, its actions come next, and
      then those of the edge that leaves it, if that is released. The first node is not reached, and an update with
      edges has its actions done already. */
  function Here(o: Order, i: nat): seq<Mark>
    requires |o.nodes| == |o.edges| + 1 && i < |o.nodes|
  {
    Arriving(o, i) + Working(o, i) + Leaving(o, i)
  }

  function Arriving(o: Order, i: nat): seq<Mark>
    requires |o.nodes| == |o.edges| + 1 && i < |o.nodes|
  {
    if i == 0 then [] else [Reach(o.nodes[i], o.edges[i - 1])]
  }

  function Working(o: Order, i: nat): seq<Mark>
    requires i < |o.nodes|
  {
    if i == 0 && o.updateId > 0 && o.edges != [] then [] else Performs(o.nodes[i].actions)
  }

  function Leaving(o: Order, i: nat): seq<Mark>
  {
    if i < |o.edges| && o.edges[i].released then Performs(o.edges[i].actions) else []
  }

  /** The way an order describes from its node i on, as far as it is released. */
  function Itinerary(o: Order, i: nat): seq<Mark>
    requires |o.nodes| == |o.edges| + 1 && i <= |o.nodes|
    decreases |o.nodes| - i
  {
    if i >= BaseCount(o.nodes) then [] else Here(o, i) + Itinerary(o, i + 1)
  }

  // Streams /////////////////////////////////////////////////////////////////////////////////////

  lemma {:induction false} MarksCons(items: seq<Item>)
    requires items != []
    ensures MarksOf(items) ==
            (if items[0].Step? then [Reach(items[0].goal, items[0].via)] else Performs(items[0].group.actions)) +
            MarksOf(items[1..])
  {
  }

  lemma {:induction false} MarksAppend(a: seq<Item>, b: seq<Item>)
    ensures MarksOf(a + b) == MarksOf(a) + MarksOf(b)
  {
    if a == [] {
      assert a + b == b;
    } else {
      hide *;
      AppendTail(a, b);
      MarksCons(a);
      MarksCons(a + b);
      MarksAppend(a[1..], b);
      Associative(if a[0].Step? then [Reach(a[0].goal, a[0].via)] else Performs(a[0].group.actions),
                  MarksOf(a[1..]), MarksOf(b));
    }
  }

  lemma PerformsAppend(a: seq<Action>, b: seq<Action>)
    ensures Performs(a + b) == Performs(a) + Performs(b) && Performs([]) == []
  {
  }

  lemma {:induction false} MarksOfGroups(groups: seq<Group>)
    ensures MarksOf(GroupItems(groups)) == Performs(Concat(groups))
  {
    if groups != [] {
      MarksOfGroups(groups[1..]);
      PerformsAppend(groups[0].actions, Concat(groups[1..]));
      assert GroupItems(groups)[1..] == GroupItems(groups[1..]);
    }
  }

  lemma {:induction false} MarksOfStep(leg: Option<Leg>, hint: bool)
    ensures MarksOf([]) == []
    ensures MarksOf(StepItem(leg, hint)) == if leg.Some? then [Reach(leg.value.goal, leg.value.via)] else []
  {
    var step := StepItem(leg, hint);
    if leg.Some? {
      MarksCons(step);
      assert step[1..] == [];
      assert MarksOf([]) == [];
    }
  }

  lemma ItineraryAt(o: Order, i: nat)
    requires |o.nodes| == |o.edges| + 1 && i < BaseCount(o.nodes)
    ensures Itinerary(o, i) ==
            (if LegTo(o, i).Some? then [Reach(LegTo(o, i).value.goal, LegTo(o, i).value.via)] else []) +
            Performs(NodeActions(o, i)) + Performs(EdgeActions(o, i)) + Itinerary(o, i + 1)
  {
    PerformsAppend([], []);
    hide BaseCount, Performs;
  }

  lemma {:induction false} ItineraryEnds(o: Order, i: nat)
    requires |o.nodes| == |o.edges| + 1 && BaseCount(o.nodes) <= i <= |o.nodes|
    ensures Itinerary(o, i) == []
  {
  }

  lemma {:induction false} EventsItinerary(o: Order, i: nat)
    requires |o.nodes| == |o.edges| + 1 && i <= |o.nodes|
    ensures MarksOf(ItemsOf(EventsFrom(o, i))) == Itinerary(o, i)
    decreases |o.nodes| - i
  {
    hide *;
    MarksOfStep(None, false);
    if i >= BaseCount(o.nodes) {
      EventsAtEnd(o, i);
      ItineraryEnds(o, i);
    } else {
      var leg, hint := LegTo(o, i), AnyBlocks(ActionsAt(o, i));
      var step, groups, rest := StepItem(leg, hint), GroupItems(GroupsAt(o, i)), ItemsOf(EventsFrom(o, i + 1));
      ItemsAt(o, i);
      EventsItinerary(o, i + 1);
      MarksAppend(step, groups);
      MarksAppend(step + groups, rest);
      MarksOfStep(leg, hint);
      MarksOfGroups(GroupsAt(o, i));
      GroupsAtFine(o, i);
      SplitActions(o, i);
      PerformsAppend(NodeActions(o, i), EdgeActions(o, i));
      ItineraryAt(o, i);
      Associative(MarksOf(step), Performs(NodeActions(o, i)), Performs(EdgeActions(o, i)));
    }
  }

  lemma SplitActions(o: Order, i: nat)
    requires i < |o.nodes|
    ensures ActionsAt(o, i) == NodeActions(o, i) + EdgeActions(o, i)
  {
  }

  /** The items of the stream of an order describe exactly its way: every step has the edge before its goal, and every
      action comes behind the step to its node and before the step that leaves it, nodes before edges. */
  lemma {:induction false} StreamItinerary(o: Order)
    requires o.nodes != [] && |o.nodes| == |o.edges| + 1
    ensures MarksOf(ItemsOf(Stream(o))) == Itinerary(o, 0)
  {
    hide *;
    ItemsOfStream(o);
    EventsItinerary(o, 0);
  }

  /** Neither a clearing nor a graph. */
  predicate Plain(e: Yield)
  {
    !e.ClearActions? && !e.GraphReplacement? && !e.GraphExtension?
  }

  /** Plain events, and behind them one that brings the graph. */
  ghost predicate Framed(events: seq<Yield>, last: Yield)
  {
    events != [] && events[|events| - 1] == last && forall i | 0 <= i < |events| - 1 :: Plain(events[i])
  }

  lemma FramedMore(plain: seq<Yield>, events: seq<Yield>, last: Yield)
    requires Framed(events, last) && forall i | 0 <= i < |plain| :: Plain(plain[i])
    ensures Framed(plain + events, last)
  {
  }

  lemma SectionPlain(news: seq<Action>, leg: Option<Leg>, stopHint: bool, groups: seq<Group>)
    ensures var plain := NewActions(news) + StepYield(leg, stopHint) + GroupYields(groups);
            forall i | 0 <= i < |plain| :: Plain(plain[i])
  {
  }

  lemma {:induction false} EventsFramed(o: Order, i: nat)
    requires o.nodes != [] && |o.nodes| == |o.edges| + 1
    ensures Framed(EventsFrom(o, i), GraphYield(o))
    decreases |o.nodes| - i
  {
    hide *;
    if i >= BaseCount(o.nodes) {
      EventsEnd(o, i);
      LastFramed(GraphYield(o));
    } else {
      BeforeEnd(o, i);
      var news, groups, leg := ActionsAt(o, i), GroupsAt(o, i), LegTo(o, i);
      var plain := NewActions(news) + StepYield(leg, AnyBlocks(news)) + GroupYields(groups);
      EventsFramed(o, i + 1);
      EventsAt(o, i);
      SectionIs(news, leg, AnyBlocks(news), groups, EventsFrom(o, i + 1));
      SectionPlain(news, leg, AnyBlocks(news), groups);
      FramedMore(plain, EventsFrom(o, i + 1), GraphYield(o));
    }
  }

  lemma {:induction false} EventsEnd(o: Order, i: nat)
    requires o.nodes != [] && |o.nodes| == |o.edges| + 1 && i >= BaseCount(o.nodes)
    ensures EventsFrom(o, i) == [GraphYield(o)]
  {
    hide GraphYield;
  }

  lemma BeforeEnd(o: Order, i: nat)
    requires i < BaseCount(o.nodes)
    ensures i < |o.nodes|
  {
  }

  lemma LastFramed(last: Yield)
    ensures Framed([last], last)
  {
  }

  /** Cleared actions at the beginning or not at all, one graph at the end, and neither anywhere else. */
  ghost predicate FramedBy(events: seq<Yield>, cleared: bool, graph: Yield)
  {
    && events != [] && events[|events| - 1] == graph
    && (cleared <==> events[0] == ClearActions)
    && (forall i | 0 < i < |events| :: events[i] != ClearActions)
    && (forall i | 0 <= i < |events| - 1 :: !events[i].GraphReplacement? && !events[i].GraphExtension?)
  }

  /** A stream begins with the clearing of the actions exactly for a new order, clears them nowhere else, and ends
      with its one graph event: the replacement by a new order, the extension by an update, with the graph of all its
      elements. */
  lemma StreamFrame(o: Order)
    requires o.nodes != [] && |o.nodes| == |o.edges| + 1
    ensures FramedBy(Stream(o), o.updateId == 0,
                     if o.updateId == 0 then GraphReplacement(FromList(Woven(o)), o.orderId)
                     else GraphExtension(FromList(Woven(o)), o.updateId))
  {
    hide *;
    EventsFramed(o, 0);
    GraphYieldIs(o);
    StreamIs(o);
    if o.updateId == 0 {
      ClearedFrame(EventsFrom(o, 0), GraphYield(o));
    } else {
      PlainFrame(EventsFrom(o, 0), GraphYield(o));
    }
  }

  lemma {:induction false} StreamIs(o: Order)
    requires o.nodes != [] && |o.nodes| == |o.edges| + 1
    ensures Stream(o) == if o.updateId == 0 then [ClearActions] + EventsFrom(o, 0) else EventsFrom(o, 0)
  {
    hide EventsFrom;
  }

  lemma GraphYieldIs(o: Order)
    requires o.nodes != [] && |o.nodes| == |o.edges| + 1
    ensures GraphYield(o) ==
            if o.updateId == 0 then GraphReplacement(FromList(Woven(o)), o.orderId)
            else GraphExtension(FromList(Woven(o)), o.updateId)
  {
    GraphOfIs(o, |o.nodes|);
    assert Woven(o)[..2 * |o.nodes| - 1] == Woven(o);
    hide GraphOf, Woven, FromList;
  }

  lemma PlainFrame(events: seq<Yield>, last: Yield)
    requires Framed(events, last) && (last.GraphReplacement? || last.GraphExtension?)
    ensures FramedBy(events, false, last)
  {
  }

  lemma ClearedFrame(rest: seq<Yield>, last: Yield)
    requires Framed(rest, last) && (last.GraphReplacement? || last.GraphExtension?)
    ensures FramedBy([ClearActions] + rest, true, last)
  {
  }

  // Orders in pieces ////////////////////////////////////////////////////////////////////////////

  /** The order that an order and the update behind its base describe together. */
  function Joined(o: Order, u: Order): Order
    requires 0 < BaseCount(o.nodes) <= |o.edges| + 1 && u.nodes != []
  {
    var b := BaseCount(o.nodes);
    Order(o.orderId, o.updateId, o.nodes[..b] + u.nodes[1..], o.edges[..b - 1] + u.edges)
  }

  /** The update continues the order at its last released node, behind which no edge is released. */
  ghost predicate ContinuesAt(o: Order, u: Order)
  {
    && |o.nodes| == |o.edges| + 1 && |u.nodes| == |u.edges| + 1
    && 0 < BaseCount(o.nodes) && 0 < BaseCount(u.nodes) && u.updateId > 0
    && (BaseCount(o.nodes) - 1 < |o.edges| ==> !o.edges[BaseCount(o.nodes) - 1].released)
  }

  lemma {:induction false} BaseCountJoins(a: seq<Node>, b: seq<Node>)
    requires forall i | 0 <= i < |a| :: a[i].released
    ensures BaseCount(a + b) == |a| + BaseCount(b)
  {
    if a == [] {
      assert a + b == b;
    } else {
      assert (a + b)[1..] == a[1..] + b;
      BaseCountJoins(a[1..], b);
    }
  }

  lemma JoinedIs(o: Order, u: Order)
    requires ContinuesAt(o, u)
    ensures var b, j := BaseCount(o.nodes), Joined(o, u);
            && b <= |o.nodes| && |j.nodes| == |j.edges| + 1 == b - 1 + |u.nodes|
            && BaseCount(j.nodes) == b - 1 + BaseCount(u.nodes)
            && j.updateId == o.updateId && (b > 1 ==> j.edges != [] && o.edges != [])
  {
    var b := BaseCount(o.nodes);
    BaseCountJoins(o.nodes[..b], u.nodes[1..]);
    assert BaseCount(u.nodes) == 1 + BaseCount(u.nodes[1..]);
    hide BaseCount;
  }

  lemma JoinedFront(o: Order, u: Order, i: nat)
    requires ContinuesAt(o, u) && i < BaseCount(o.nodes)
    ensures var b, j := BaseCount(o.nodes), Joined(o, u);
            && i < |j.nodes| && j.nodes[i] == o.nodes[i]
            && (i < b - 1 ==> i < |j.edges| && j.edges[i] == o.edges[i])
            && (i == b - 1 && u.edges != [] ==> i < |j.edges| && j.edges[i] == u.edges[0])
            && (i == b - 1 && u.edges == [] ==> i == |j.edges|)
            && (i > 0 ==> i - 1 < |j.edges| && j.edges[i - 1] == o.edges[i - 1])
  {
    hide BaseCount;
  }

  lemma JoinedRest(o: Order, u: Order, i: nat)
    requires ContinuesAt(o, u) && 0 < i < |u.nodes|
    ensures var k, j := BaseCount(o.nodes) - 1 + i, Joined(o, u);
            && 0 < k < |j.nodes| && j.nodes[k] == u.nodes[i] && k - 1 < |j.edges| && j.edges[k - 1] == u.edges[i - 1]
            && (i < |u.edges| <==> k < |j.edges|) && (i < |u.edges| ==> j.edges[k] == u.edges[i])
  {
    var k := BaseCount(o.nodes) - 1 + i;
    var front, rest := o.nodes[..BaseCount(o.nodes)], u.nodes[1..];
    hide BaseCount;
    assert (front + rest)[k] == rest[i - 1];
  }

  /** Behind its first node, the update is the rest of the joined order. */
  lemma {:induction false} RestJoined(o: Order, u: Order, i: nat)
    requires ContinuesAt(o, u) && 0 < i <= |u.nodes|
    ensures var b, j := BaseCount(o.nodes), Joined(o, u);
            |j.nodes| == |j.edges| + 1 && b - 1 + i <= |j.nodes| && Itinerary(j, b - 1 + i) == Itinerary(u, i)
    decreases |u.nodes| - i
  {
    hide BaseCount, Joined, Itinerary, Here, Arriving, Working, Leaving, Performs;
    var b, j := BaseCount(o.nodes), Joined(o, u);
    JoinedIs(o, u);
    NoFurther(u);
    if i < BaseCount(u.nodes) {
      RestJoined(o, u, i + 1);
      assert b - 1 + i + 1 == b - 1 + (i + 1);
      StepsAt(u, i);
      StepsAt(j, b - 1 + i);
      RestHere(o, u, i);
    } else {
      ItineraryEnds(u, i);
      ItineraryEnds(j, b - 1 + i);
    }
  }

  lemma NoFurther(u: Order)
    ensures BaseCount(u.nodes) <= |u.nodes|
  {
    hide BaseCount;
  }

  lemma RestHere(o: Order, u: Order, i: nat)
    requires ContinuesAt(o, u) && 0 < i < |u.nodes|
    requires var b, j := BaseCount(o.nodes), Joined(o, u); |j.nodes| == |j.edges| + 1 && b - 1 + i < |j.nodes|
    ensures Here(Joined(o, u), BaseCount(o.nodes) - 1 + i) == Here(u, i)
  {
    JoinedRest(o, u, i);
    hide BaseCount, Joined, Performs, ContinuesAt;
  }

  lemma StepsAt(o: Order, i: nat)
    requires |o.nodes| == |o.edges| + 1 && i < BaseCount(o.nodes)
    ensures Itinerary(o, i) == Here(o, i) + Itinerary(o, i + 1)
  {
    hide BaseCount, Here;
  }

  lemma SameHere(o: Order, u: Order, i: nat)
    requires ContinuesAt(o, u) && i < BaseCount(o.nodes) - 1 && |Joined(o, u).nodes| == |Joined(o, u).edges| + 1
    requires i < |Joined(o, u).nodes|
    ensures Here(Joined(o, u), i) == Here(o, i)
  {
    JoinedIs(o, u);
    JoinedFront(o, u, i);
    hide BaseCount, Joined, Performs, ContinuesAt;
  }

  /** Where the pieces meet. */
  lemma {:induction false} LastJoined(o: Order, u: Order)
    requires ContinuesAt(o, u) && (o.updateId == 0 || BaseCount(o.nodes) > 1)
    ensures var b, j := BaseCount(o.nodes), Joined(o, u);
            && |j.nodes| == |j.edges| + 1 && b <= |j.nodes|
            && Here(j, b - 1) + Itinerary(u, 1) ==
               Here(o, b - 1) + Itinerary(o, b) + (if u.edges == [] then [] else Itinerary(u, 0))
  {
    var b := BaseCount(o.nodes);
    JoinedIs(o, u);
    StepsAt(u, 0);
    ItineraryEnds(o, b);
    if u.edges == [] {
      ItineraryEnds(u, 1);
      LastAlone(o, u);
    } else {
      LastLeaves(o, u);
    }
    hide *;
    var here := Here(o, b - 1);
    assert here + [] == here;
    Associative(here, Here(u, 0), Itinerary(u, 1));
  }

  lemma LastAlone(o: Order, u: Order)
    requires ContinuesAt(o, u) && u.edges == [] && (o.updateId == 0 || BaseCount(o.nodes) > 1)
    ensures var b, j := BaseCount(o.nodes), Joined(o, u);
            && |j.nodes| == |j.edges| + 1 && b <= |j.nodes| && BaseCount(u.nodes) == 1
            && Here(j, b - 1) == Here(o, b - 1)
  {
    JoinedIs(o, u);
    JoinedFront(o, u, BaseCount(o.nodes) - 1);
    NoFurther(u);
    LeavesNothing(o, u);
    hide BaseCount, Joined, Performs, ContinuesAt;
  }

  lemma LeavesNothing(o: Order, u: Order)
    requires ContinuesAt(o, u)
    ensures Leaving(o, BaseCount(o.nodes) - 1) == [] && Working(u, 0) == (if u.edges != [] then [] else Working(u, 0))
    ensures BaseCount(u.nodes) > 0
  {
    hide BaseCount, Performs;
  }

  lemma LastLeaves(o: Order, u: Order)
    requires ContinuesAt(o, u) && u.edges != [] && (o.updateId == 0 || BaseCount(o.nodes) > 1)
    ensures var b, j := BaseCount(o.nodes), Joined(o, u);
            && |j.nodes| == |j.edges| + 1 && b <= |j.nodes|
            && Here(j, b - 1) == Here(o, b - 1) + Here(u, 0)
  {
    var b, j := BaseCount(o.nodes), Joined(o, u);
    JoinedIs(o, u);
    LeavesNothing(o, u);
    LastParts(o, u);
    HereIs(j, b - 1);
    HereIs(o, b - 1);
    HereIs(u, 0);
    hide *;
    NothingAround(Arriving(o, b - 1) + Working(o, b - 1), Leaving(u, 0));
  }

  lemma LastParts(o: Order, u: Order)
    requires ContinuesAt(o, u) && u.edges != [] && (o.updateId == 0 || BaseCount(o.nodes) > 1)
    ensures var b, j := BaseCount(o.nodes), Joined(o, u);
            && |j.nodes| == |j.edges| + 1 && b <= |j.nodes|
            && Arriving(j, b - 1) == Arriving(o, b - 1) && Working(j, b - 1) == Working(o, b - 1)
            && Leaving(j, b - 1) == Leaving(u, 0) && Arriving(u, 0) == [] && Working(u, 0) == []
  {
    JoinedIs(o, u);
    JoinedFront(o, u, BaseCount(o.nodes) - 1);
    hide BaseCount, Joined, Performs;
  }

  lemma HereIs(o: Order, i: nat)
    requires |o.nodes| == |o.edges| + 1 && i < |o.nodes|
    ensures Here(o, i) == Arriving(o, i) + Working(o, i) + Leaving(o, i)
  {
    hide Arriving, Working, Leaving;
  }

  lemma NothingAround(a: seq<Mark>, b: seq<Mark>)
    ensures a + [] == a && [] + [] + b == b
  {
  }

  /** The part of the way that the order describes itself. */
  lemma {:induction false} FrontJoined(o: Order, u: Order, i: nat)
    requires ContinuesAt(o, u) && i < BaseCount(o.nodes) && (o.updateId == 0 || BaseCount(o.nodes) > 1)
    ensures var j := Joined(o, u);
            |j.nodes| == |j.edges| + 1 && i <= |j.nodes| &&
            Itinerary(j, i) == Itinerary(o, i) + (if u.edges == [] then [] else Itinerary(u, 0))
    decreases |o.nodes| - i
  {
    hide BaseCount, Joined, Itinerary, Here, Arriving, Working, Leaving, Performs;
    var b, j := BaseCount(o.nodes), Joined(o, u);
    var rest := if u.edges == [] then [] else Itinerary(u, 0);
    JoinedIs(o, u);
    StepsAt(o, i);
    StepsAt(j, i);
    if i == b - 1 {
      RestJoined(o, u, 1);
      assert b - 1 + 1 == i + 1;
      LastJoined(o, u);
    } else {
      FrontJoined(o, u, i + 1);
      SameHere(o, u, i);
      Associative(Here(o, i), Itinerary(o, i + 1), rest);
    }
  }

  /** An order in pieces is driven as if it were given whole: the way of an order and then the way of an update behind
      its base are the way of the joined order, exactly if the update has edges. An update that is nothing but the
      node it continues at has the actions of that node performed again. */
  lemma {:induction false} PiecesMakeWhole(o: Order, u: Order)
    requires ContinuesAt(o, u) && (o.updateId == 0 || BaseCount(o.nodes) > 1)
    ensures var j := Joined(o, u);
            && |j.nodes| == |j.edges| + 1
            && (Itinerary(o, 0) + Itinerary(u, 0) == Itinerary(j, 0) <==> u.edges != [] || u.nodes[0].actions == [])
  {
    FrontJoined(o, u, 0);
    if u.edges == [] {
      StepsAt(u, 0);
      assert Itinerary(u, 1) == [] && Here(u, 0) == Performs(u.nodes[0].actions);
      hide *;
      assert Itinerary(o, 0) + [] == Itinerary(o, 0);
      SomeAdded(Itinerary(o, 0), Performs(u.nodes[0].actions));
      PerformsLength(u.nodes[0].actions);
    }
  }

  lemma SomeAdded(a: seq<Mark>, b: seq<Mark>)
    ensures a + b == a <==> b == []
  {
    if a + b == a {
      assert |a + b| == |a| + |b|;
    }
  }

  lemma PerformsLength(actions: seq<Action>)
    ensures Performs(actions) == [] <==> actions == []
  {
    assert |Performs(actions)| == |actions|;
  }
}
