/** What interpreting an order means: the stream of events, defined over the structure of the order.

    The events of node i come before the events of the edge that leaves it, the navigation step that leads to
    node i comes between the announcement of their actions and the groups of these actions, and the complete
    graph comes last. */
module Interpretation {
  import opened Vda
  import opened Graphs

  datatype Yield =
    | ClearActions
    | NewAction(action: Action)
    | GroupOf(group: Group)
    | NavigationStep(goal: Node, via: Edge, stopHint: bool)
    | GraphExtension(graph: Elements, updateId: nat)
    | GraphReplacement(graph: Elements, orderId: string)

  // Grouping ////////////////////////////////////////////////////////////////////////////////////

  /** One step of the running ceiling. */
  function Ceil(current: BlockingType, more: BlockingType): BlockingType
  {
    match current
    case HARD => HARD
    case SOFT => if more == HARD then HARD else SOFT
    case NONE => more
  }

  function CeilingOf(actions: seq<Action>): BlockingType
  {
    if actions == [] then NONE else Ceil(CeilingOf(actions[..|actions| - 1]), actions[|actions| - 1].blocking)
  }

  /** The running ceiling ends at the strongest blocking type. */
  lemma {:induction false} CeilingIsStrongest(actions: seq<Action>)
    ensures IsCeiling(CeilingOf(actions), actions)
  {
    if actions != [] {
      var init, last := actions[..|actions| - 1], actions[|actions| - 1];
      CeilingIsStrongest(init);
      assert actions == init + [last];
      assert last in actions;
      assert forall a | a in init :: a in actions;
      assert forall a | a in actions :: a in init || a == last;
    }
  }

  function Flush(group: seq<Action>): seq<Group>
  {
    if group == [] then [] else [Group(group, CeilingOf(group))]
  }

  /** The groups of a list of actions behind a group that is already begun: a HARD action gets a group of its
      own. */
  function GroupsFrom(group: seq<Action>, actions: seq<Action>): seq<Group>
    decreases |actions|
  {
    if actions == [] then Flush(group)
    else if actions[0].blocking == HARD then Flush(group) + Flush([actions[0]]) + GroupsFrom([], actions[1..])
    else GroupsFrom(group + [actions[0]], actions[1..])
  }

  function Groups(actions: seq<Action>): seq<Group>
  {
    GroupsFrom([], actions)
  }

  function Concat(groups: seq<Group>): seq<Action>
  {
    if groups == [] then [] else groups[0].actions + Concat(groups[1..])
  }

  ghost predicate Soft(actions: seq<Action>)
  {
    forall a | a in actions :: a.blocking != HARD
  }

  /** A group holds a single HARD action or only others, and carries their ceiling. */
  ghost predicate GroupFine(g: Group)
  {
    && CeilingOk(g) && g.actions != []
    && (Soft(g.actions) || |g.actions| == 1)
  }

  /** A proper grouping: every group is fine and no two neighbours could be one group. */
  ghost predicate Grouping(groups: seq<Group>)
  {
    && (forall i | 0 <= i < |groups| :: GroupFine(groups[i]))
    && (forall i | 0 < i < |groups| :: !(Soft(groups[i - 1].actions) && Soft(groups[i].actions)))
  }

  lemma {:induction false} ConcatAppend(a: seq<Group>, b: seq<Group>)
    ensures Concat(a + b) == Concat(a) + Concat(b)
  {
    if a == [] {
      assert a + b == b;
    } else {
      hide *;
      AppendTail(a, b);
      ConcatOfCons(a);
      ConcatOfCons(a + b);
      ConcatAppend(a[1..], b);
      Associative(a[0].actions, Concat(a[1..]), Concat(b));
    }
  }

  lemma {:induction false} ConcatOfCons(groups: seq<Group>)
    requires groups != []
    ensures Concat(groups) == groups[0].actions + Concat(groups[1..])
  {
  }

  lemma FlushFine(group: seq<Action>)
    requires Soft(group) || |group| == 1
    ensures Grouping(Flush(group)) && Concat(Flush(group)) == group
  {
    CeilingIsStrongest(group);
    if group != [] {
      assert Flush(group)[1..] == [];
      assert Concat(Flush(group)) == group + [];
    }
  }

  lemma GroupingJoin(a: seq<Group>, b: seq<Group>)
    requires Grouping(a) && Grouping(b)
    requires a == [] || b == [] || !(Soft(a[|a| - 1].actions) && Soft(b[0].actions))
    ensures Grouping(a + b)
  {
    var c := a + b;
    forall i | 0 <= i < |c|
      ensures GroupFine(c[i])
    {
      if i < |a| {
        assert c[i] == a[i];
      } else {
        assert c[i] == b[i - |a|];
      }
    }
    forall i | 0 < i < |c|
      ensures !(Soft(c[i - 1].actions) && Soft(c[i].actions))
    {
      if i < |a| {
        assert c[i - 1] == a[i - 1] && c[i] == a[i];
      } else if i > |a| {
        assert c[i - 1] == b[i - |a| - 1] && c[i] == b[i - |a|];
      }
    }
  }

  /** The groups are a proper grouping of exactly the actions, in their order. */
  lemma {:induction false} GroupsAreGrouping(group: seq<Action>, actions: seq<Action>)
    requires Soft(group)
    ensures Grouping(GroupsFrom(group, actions)) && Concat(GroupsFrom(group, actions)) == group + actions
    decreases |actions|
  {
    hide Grouping, Concat, GroupFine, CeilingOk, IsCeiling, CeilingOf;
    if actions == [] {
      FlushFine(group);
      assert group + actions == group;
    } else {
      var a, rest := actions[0], actions[1..];
      assert actions == [a] + rest;
      if a.blocking == HARD {
        FlushFine(group);
        FlushFine([a]);
        GroupsAreGrouping([], rest);
        assert a in Flush([a])[0].actions;
        var left, right := Flush(group) + Flush([a]), GroupsFrom([], rest);
        GroupingJoin(Flush(group), Flush([a]));
        assert left[|left| - 1] == Flush([a])[0];
        GroupingJoin(left, right);
        ConcatAppend(Flush(group), Flush([a]));
        ConcatAppend(left, right);
        assert group + actions == group + [a] + ([] + rest);
      } else {
        GroupsAreGrouping(group + [a], rest);
        assert group + actions == group + [a] + rest;
      }
    }
  }

  lemma {:induction false} ConcatHead(groups: seq<Group>)
    requires groups != [] && Grouping(groups)
    ensures |groups[0].actions| <= |Concat(groups)| && Concat(groups)[..|groups[0].actions|] == groups[0].actions
    ensures Concat(groups[1..]) == Concat(groups)[|groups[0].actions|..]
    ensures Grouping(groups[1..]) && groups[0].actions != []
  {
    assert GroupFine(groups[0]);
    var rest := groups[1..];
    forall i | 0 <= i < |rest|
      ensures GroupFine(rest[i])
    {
      assert rest[i] == groups[i + 1];
    }
    forall i | 0 < i < |rest|
      ensures !(Soft(rest[i - 1].actions) && Soft(rest[i].actions))
    {
      assert rest[i - 1] == groups[i] && rest[i] == groups[i + 1];
    }
  }

  lemma CeilingUnique(b: BlockingType, c: BlockingType, actions: seq<Action>)
    requires IsCeiling(b, actions) && IsCeiling(c, actions)
    ensures b == c
  {
  }

  /** Behind a first group without a HARD action comes a HARD action. */
  lemma {:induction false} HardBehindHead(groups: seq<Group>)
    requires groups != [] && Grouping(groups) && Soft(groups[0].actions)
    requires |Concat(groups)| > |groups[0].actions|
    ensures Concat(groups)[|groups[0].actions|].blocking == HARD
  {
    ConcatHead(groups);
    var rest := groups[1..];
    assert rest != [];
    ConcatHead(rest);
    var second := rest[0].actions;
    assert groups[1] == rest[0] && GroupFine(groups[1]);
    assert !Soft(second) && |second| == 1;
    assert Concat(groups)[|groups[0].actions|] == Concat(rest)[0] == second[0];
  }

  /** The first group of a proper grouping is as long as it can be. */
  lemma {:induction false} HeadNotShorter(a: seq<Group>, b: seq<Group>)
    requires a != [] && b != [] && Grouping(a) && Grouping(b) && Concat(a) == Concat(b)
    ensures |a[0].actions| >= |b[0].actions|
  {
    var x, y := a[0].actions, b[0].actions;
    ConcatHead(a);
    ConcatHead(b);
    assert GroupFine(a[0]) && GroupFine(b[0]);
    if |x| < |y| {
      assert Soft(y);
      assert forall k | 0 <= k < |x| :: x[k] == y[k] && y[k] in y;
      assert y[|x|] == Concat(a)[|x|] && y[|x|] in y;
      HardBehindHead(a);
    }
  }

  /** There is only one proper grouping of a list of actions. */
  lemma {:induction false} GroupingUnique(a: seq<Group>, b: seq<Group>)
    requires Grouping(a) && Grouping(b) && Concat(a) == Concat(b)
    ensures a == b
    decreases |a|
  {
    if a != [] && b != [] {
      HeadNotShorter(a, b);
      HeadNotShorter(b, a);
      ConcatHead(a);
      ConcatHead(b);
      CeilingUnique(a[0].ceiling, b[0].ceiling, a[0].actions);
      GroupingUnique(a[1..], b[1..]);
      assert a == [a[0]] + a[1..] && b == [b[0]] + b[1..];
    } else if a != [] {
      ConcatHead(a);
    } else if b != [] {
      ConcatHead(b);
    }
  }

  /** Grouping is characterised completely: these are the groups, and nothing else is a proper grouping. */
  lemma {:induction false} GroupsExactly(actions: seq<Action>, groups: seq<Group>)
    ensures Grouping(groups) && Concat(groups) == actions <==> groups == Groups(actions)
  {
    GroupsAreGrouping([], actions);
    assert [] + actions == actions;
    if Grouping(groups) && Concat(groups) == actions {
      GroupingUnique(groups, Groups(actions));
    }
  }

  // Orders //////////////////////////////////////////////////////////////////////////////////////

  /** The number of released nodes at the front of the list. */
  function BaseCount(nodes: seq<Node>): (n: nat)
    ensures n <= |nodes|
    ensures forall i | 0 <= i < n :: nodes[i].released
    ensures n < |nodes| ==> !nodes[n].released
  {
    if nodes == [] || !nodes[0].released then 0 else 1 + BaseCount(nodes[1..])
  }

  /** The number of released edges at the front of the list. */
  function FrontEdges(edges: seq<Edge>): (n: nat)
    ensures n <= |edges|
    ensures forall i | 0 <= i < n :: edges[i].released
    ensures n < |edges| ==> !edges[n].released
  {
    if edges == [] || !edges[0].released then 0 else 1 + FrontEdges(edges[1..])
  }

  /** The lists alternate as far as the interpreter looks: up to the first edge that is not released, every edge comes
      before the node listed behind it, and behind a released edge that node is released. Neither list has to ascend,
      and no node has to be released. */
  ghost predicate InTurn(o: Order)
  {
    && o.nodes != [] && |o.nodes| == |o.edges| + 1
    && (o.edges != [] ==> o.nodes[0].seqId < o.edges[0].seqId)
    && (forall i | 0 <= i < |o.edges| && i <= FrontEdges(o.edges) :: o.edges[i].seqId <= o.nodes[i + 1].seqId)
    && (forall i | 0 < i <= FrontEdges(o.edges) :: o.nodes[i].released)
  }

  /** The orders the interpreter comes to the end of: the graph takes every element when its turn comes. */
  ghost predicate Walkable(o: Order)
  {
    InTurn(o) && Accepts(Woven(o))
  }

  /** The orders the interpreter is made for: nodes and edges alternate with ascending ids, the order starts and
      ends with a node, and so does its base, which is not empty. */
  ghost predicate Interpretable(o: Order)
  {
    && o.nodes != [] && |o.nodes| == |o.edges| + 1
    && (forall i | 0 <= i < |o.edges| :: o.nodes[i].seqId < o.edges[i].seqId < o.nodes[i + 1].seqId)
    && 0 < BaseCount(o.nodes)
    && (forall i | 0 <= i < |o.nodes| :: o.nodes[i].released <==> i < BaseCount(o.nodes))
    && (forall i | 0 <= i < |o.edges| :: o.edges[i].released <==> i + 1 < BaseCount(o.nodes))
  }

  // Streams /////////////////////////////////////////////////////////////////////////////////////

  function NewActions(actions: seq<Action>): seq<Yield>
  {
    seq(|actions|, i requires 0 <= i < |actions| => NewAction(actions[i]))
  }

  function GroupYields(groups: seq<Group>): seq<Yield>
  {
    seq(|groups|, i requires 0 <= i < |groups| => GroupOf(groups[i]))
  }

  datatype Leg = Leg(goal: Node, via: Edge)

  function StepYield(leg: Option<Leg>, stopHint: bool): seq<Yield>
  {
    if leg.None? then [] else [NavigationStep(leg.value.goal, leg.value.via, stopHint)]
  }

  /** Some action does not have the blocking type NONE. */
  predicate AnyBlocks(actions: seq<Action>)
  {
    exists i :: 0 <= i < |actions| && actions[i].blocking != NONE
  }

  /** New actions, a navigation step, the groups behind it, and what follows. */
  function Section(news: seq<Action>, leg: Option<Leg>, stopHint: bool, groups: seq<Group>,
                   rest: seq<Yield>): seq<Yield>
  {
    NewActions(news) + StepYield(leg, stopHint) + GroupYields(groups) + rest
  }

  /** The actions of a node that are interpreted: an update leaves out those of its first node, which belonged to
      the order it continues. */
  function NodeActions(o: Order, i: nat): seq<Action>
    requires i < |o.nodes|
  {
    if i == 0 && o.updateId > 0 && o.edges != [] then [] else o.nodes[i].actions
  }

  /** The actions of the edge that leaves node i. */
  function EdgeActions(o: Order, i: nat): seq<Action>
  {
    if i < |o.edges| && o.edges[i].released then o.edges[i].actions else []
  }

  function LegTo(o: Order, i: nat): Option<Leg>
    requires i < |o.nodes| && i <= |o.edges|
  {
    if i == 0 then None else Some(Leg(o.nodes[i], o.edges[i - 1]))
  }

  /** The elements of an order in the order of their ids: node, edge, node and so on. */
  function Woven(o: Order): (es: seq<Element>)
    requires |o.nodes| == |o.edges| + 1
    ensures |es| == |o.nodes| + |o.edges|
    ensures forall i | 0 <= i < |es| :: es[i] == WovenAt(o, i)
  {
    seq(|o.nodes| + |o.edges|, i requires 0 <= i < |o.nodes| + |o.edges| => WovenAt(o, i))
  }

  function WovenAt(o: Order, i: nat): Element
    requires |o.nodes| == |o.edges| + 1 && i < |o.nodes| + |o.edges|
  {
    if i % 2 == 0 then NodeElement(o.nodes[i / 2]) else EdgeElement(o.edges[i / 2])
  }

  /** The graph of the first n nodes and the edges between them. */
  function GraphOf(o: Order, n: nat): Elements
    requires 0 < n <= |o.nodes| && |o.nodes| == |o.edges| + 1
  {
    FromList(Woven(o)[..2 * n - 1])
  }

  lemma GraphOfIs(o: Order, n: nat)
    requires 0 < n <= |o.nodes| && |o.nodes| == |o.edges| + 1
    ensures GraphOf(o, n) == FromList(Woven(o)[..2 * n - 1])
  {
    hide Woven;
  }

  function GraphYield(o: Order): Yield
    requires o.nodes != [] && |o.nodes| == |o.edges| + 1
  {
    if o.updateId > 0 then GraphExtension(GraphOf(o, |o.nodes|), o.updateId)
    else GraphReplacement(GraphOf(o, |o.nodes|), o.orderId)
  }

  /** The events from base node i on. */
  function EventsFrom(o: Order, i: nat): seq<Yield>
    requires o.nodes != [] && |o.nodes| == |o.edges| + 1
    decreases |o.nodes| - i
  {
    if i >= BaseCount(o.nodes) then [GraphYield(o)]
    else Section(NodeActions(o, i) + EdgeActions(o, i), LegTo(o, i), AnyBlocks(NodeActions(o, i) + EdgeActions(o, i)),
                 Groups(NodeActions(o, i)) + Groups(EdgeActions(o, i)), EventsFrom(o, i + 1))
  }

  /** All events of an order. A new order clears the actions first. */
  function Stream(o: Order): seq<Yield>
    requires o.nodes != [] && |o.nodes| == |o.edges| + 1
  {
    (if o.updateId == 0 then [ClearActions] else []) + EventsFrom(o, 0)
  }

  // The collected graph /////////////////////////////////////////////////////////////////////////

  lemma GraphGrows(o: Order, n: nat)
    requires 0 < n < |o.nodes| && |o.nodes| == |o.edges| + 1
    ensures FromList(Woven(o)[..2 * n]) == Insert(GraphOf(o, n), EdgeElement(o.edges[n - 1]))
    ensures GraphOf(o, n + 1) == Insert(FromList(Woven(o)[..2 * n]), NodeElement(o.nodes[n]))
  {
    var es := Woven(o);
    assert es[2 * n - 1] == WovenAt(o, 2 * n - 1) && es[2 * n] == WovenAt(o, 2 * n);
    hide Woven;
    assert es[..2 * n][..2 * n - 1] == es[..2 * n - 1];
    assert es[..2 * n + 1][..2 * n] == es[..2 * n];
  }

  lemma GraphStarts(o: Order)
    requires o.nodes != [] && |o.nodes| == |o.edges| + 1
    ensures GraphOf(o, 1) == Insert(map[], NodeElement(o.nodes[0]))
  {
    var es := Woven(o);
    assert es[0] == WovenAt(o, 0);
    assert es[..1] == [es[0]] && es[..1][..0] == [];
    assert FromList(es[..1][..0]) == map[];
  }

  lemma WovenStep(o: Order, j: nat)
    requires Interpretable(o) && 0 < j < |o.nodes| + |o.edges|
    ensures WovenAt(o, j - 1).SeqIdOf() < WovenAt(o, j).SeqIdOf()
  {
    var k := (j - 1) / 2;
    assert o.nodes[k].seqId < o.edges[k].seqId < o.nodes[k + 1].seqId;
  }

  lemma {:induction false} WovenAscends(o: Order, i: nat, j: nat)
    requires Interpretable(o) && i < j < |Woven(o)|
    ensures Woven(o)[i].SeqIdOf() < Woven(o)[j].SeqIdOf()
    decreases j
  {
    WovenStep(o, j);
    hide Woven, WovenAt, Interpretable;
    if i < j - 1 {
      WovenAscends(o, i, j - 1);
    }
  }

  lemma WovenDistinct(o: Order)
    requires Interpretable(o)
    ensures DistinctIds(Woven(o))
  {
    forall i, j | 0 <= i < j < |Woven(o)|
      ensures Woven(o)[i].SeqIdOf() != Woven(o)[j].SeqIdOf()
    {
      WovenAscends(o, i, j);
    }
  }

  lemma WovenBase(o: Order, i: nat)
    requires Interpretable(o) && i < |Woven(o)|
    ensures Woven(o)[i].IsBase() <==> i < 2 * BaseCount(o.nodes) - 1
  {
    assert Woven(o)[i] == WovenAt(o, i);
    hide Woven, BaseCount;
  }

  lemma BaseBeforeHorizon(o: Order, a: Element, b: Element)
    requires Interpretable(o) && a in Woven(o) && b in Woven(o) && a.IsBase() && b.IsHorizon()
    ensures a.SeqIdOf() < b.SeqIdOf()
  {
    var es := Woven(o);
    hide Woven, Interpretable;
    var x :| 0 <= x < |es| && es[x] == a;
    var y :| 0 <= y < |es| && es[y] == b;
    WovenBase(o, x);
    WovenBase(o, y);
    WovenAscends(o, x, y);
  }

  /** The graph of an interpretable order has its base first. */
  lemma WovenBaseFirst(o: Order)
    requires Interpretable(o)
    ensures BaseFirst(FromList(Woven(o)))
  {
    var es := Woven(o);
    var m := FromList(es);
    WovenDistinct(o);
    FromListHolds(es);
    hide FromList, DistinctIds, Woven, Interpretable;
    forall j, k | j in m && k in m && m[j].IsBase() && m[k].IsHorizon()
      ensures j < k
    {
      BaseBeforeHorizon(o, m[j], m[k]);
    }
  }

  lemma {:induction false} AcceptsPrefix(es: seq<Element>, n: nat)
    requires Accepts(es) && n <= |es|
    ensures Accepts(es[..n])
    decreases |es|
  {
    if n == |es| {
      assert es[..n] == es;
    } else {
      AcceptsPrefix(es[..|es| - 1], n);
      assert es[..|es| - 1][..n] == es[..n];
    }
  }

  lemma WovenIs(o: Order, n: nat)
    requires |o.nodes| == |o.edges| + 1 && n < |o.nodes|
    ensures |Woven(o)| == |o.nodes| + |o.edges|
    ensures var e := Woven(o)[2 * n];
            e == NodeElement(o.nodes[n]) && e.SeqIdOf() == o.nodes[n].seqId && (e.IsHorizon() <==> !o.nodes[n].released)
    ensures n < |o.edges| ==>
              var e := Woven(o)[2 * n + 1];
              && e == EdgeElement(o.edges[n]) && e.SeqIdOf() == o.edges[n].seqId
              && (e.IsHorizon() <==> !o.edges[n].released)
  {
    hide Woven;
  }

  lemma WalkableParts(o: Order)
    requires Walkable(o)
    ensures o.nodes != [] && |o.nodes| == |o.edges| + 1 && Accepts(Woven(o))
    ensures o.edges != [] ==> o.nodes[0].seqId < o.edges[0].seqId
  {
    hide Woven, Accepts, FrontEdges;
  }

  lemma WalkableStep(o: Order, i: nat)
    requires Walkable(o) && i < |o.edges| && i <= FrontEdges(o.edges)
    ensures |o.nodes| == |o.edges| + 1 && o.edges[i].seqId <= o.nodes[i + 1].seqId
    ensures i < FrontEdges(o.edges) ==> o.nodes[i + 1].released
  {
    hide Woven, Accepts, FrontEdges;
  }

  /** Every element is accepted when its turn comes. */
  lemma WovenFits(o: Order, n: nat)
    requires |o.nodes| == |o.edges| + 1 && Accepts(Woven(o)) && n < |Woven(o)|
    ensures Accepts(Woven(o)[..n]) && Fits(FromList(Woven(o)[..n]), Woven(o)[n])
    ensures FromList(Woven(o)[..n + 1]) == Insert(FromList(Woven(o)[..n]), Woven(o)[n])
  {
    AcceptsPrefix(Woven(o), n + 1);
    AcceptsLast(Woven(o), n);
    hide *;
  }

  lemma {:induction false} AcceptsLast(es: seq<Element>, n: nat)
    requires n < |es| && Accepts(es[..n + 1])
    ensures Accepts(es[..n]) && Fits(FromList(es[..n]), es[n])
    ensures FromList(es[..n + 1]) == Insert(FromList(es[..n]), es[n])
  {
    assert es[..n + 1][..n] == es[..n];
    hide Fits, Insert;
  }

  lemma {:induction false} AcceptsBaseFirst(es: seq<Element>)
    requires Accepts(es)
    ensures BaseFirst(FromList(es))
  {
    if es != [] {
      AcceptsBaseFirst(es[..|es| - 1]);
      FitsExactly(FromList(es[..|es| - 1]), es[|es| - 1]);
      hide Fits, BaseFirst, Insert;
    }
  }

  /** A base element is not accepted at or behind an element of the horizon. */
  lemma NotBehindHorizon(m: Elements, h: Element, e: Element)
    requires BaseFirst(Insert(m, h)) && h.IsHorizon() && h.SeqIdOf() <= e.SeqIdOf() && Fits(Insert(m, h), e)
    ensures e.IsHorizon()
  {
    assert h.SeqIdOf() in Insert(m, h) && Insert(m, h)[h.SeqIdOf()].IsHorizon();
  }

  /** Behind an element of the horizon, a larger id is not released. */
  lemma HorizonGoesOn(o: Order, k: nat)
    requires |o.nodes| == |o.edges| + 1 && Accepts(Woven(o)) && k + 1 < |Woven(o)|
    requires Woven(o)[k].IsHorizon() && Woven(o)[k].SeqIdOf() <= Woven(o)[k + 1].SeqIdOf()
    ensures Woven(o)[k + 1].IsHorizon()
  {
    hide *;
    WovenFits(o, k);
    WovenFits(o, k + 1);
    AcceptsBaseFirst(Woven(o)[..k + 1]);
    NotBehindHorizon(FromList(Woven(o)[..k]), Woven(o)[k], Woven(o)[k + 1]);
  }

  lemma FirstReleased(o: Order)
    requires Walkable(o) && FrontEdges(o.edges) > 0
    ensures o.nodes != [] && o.nodes[0].released
  {
    hide *;
    WalkableParts(o);
    WovenIs(o, 0);
    if !o.nodes[0].released {
      HorizonGoesOn(o, 0);
    }
  }

  lemma FrontEnds(o: Order)
    requires Walkable(o) && FrontEdges(o.edges) < |o.edges|
    ensures |o.nodes| == |o.edges| + 1 && !o.nodes[FrontEdges(o.edges) + 1].released
  {
    var r := FrontEdges(o.edges);
    hide *;
    WalkableParts(o);
    WalkableStep(o, r);
    WovenIs(o, r);
    WovenIs(o, r + 1);
    HorizonGoesOn(o, 2 * r + 1);
  }

  /** What is released, as far as the interpreter looks. */
  lemma ReleasedNodes(o: Order, n: nat)
    requires Walkable(o) && n < |o.nodes| && n <= FrontEdges(o.edges) + 1
    ensures o.nodes[n].released <==> o.nodes[0].released && n <= FrontEdges(o.edges)
  {
    var r := FrontEdges(o.edges);
    hide *;
    WalkableParts(o);
    if r > 0 {
      FirstReleased(o);
    }
    if n == r + 1 {
      FrontEnds(o);
    } else if n > 0 {
      WalkableStep(o, n - 1);
    }
  }

  lemma BaseCountIs(o: Order)
    requires Walkable(o)
    ensures o.nodes != [] && |o.nodes| == |o.edges| + 1
    ensures BaseCount(o.nodes) == if o.nodes[0].released then FrontEdges(o.edges) + 1 else 0
  {
    var r, b := FrontEdges(o.edges), BaseCount(o.nodes);
    hide *;
    WalkableParts(o);
    assert o.nodes[0].released ==> b > 0;
    if b <= r {
      ReleasedNodes(o, b);
    } else if r + 1 < |o.nodes| {
      ReleasedNodes(o, r + 1);
    }
  }

  lemma NodeReleased(o: Order, n: nat)
    requires Walkable(o) && n < |o.nodes| && n <= FrontEdges(o.edges) + 1
    ensures o.nodes[n].released <==> n < BaseCount(o.nodes)
  {
    hide *;
    BaseCountIs(o);
    ReleasedNodes(o, n);
  }

  lemma EdgeReleased(o: Order, e: nat)
    requires Walkable(o) && e < |o.edges| && e <= FrontEdges(o.edges)
    ensures o.edges[e].released <==> e < FrontEdges(o.edges)
    ensures o.edges[e].released <==> e + 1 < BaseCount(o.nodes)
  {
    hide *;
    BaseCountIs(o);
    if FrontEdges(o.edges) > 0 {
      FirstReleased(o);
    }
  }

  lemma InterpretablePlaces(o: Order, i: nat)
    requires Interpretable(o) && i < |o.edges|
    ensures o.nodes[i].seqId < o.edges[i].seqId <= o.nodes[i + 1].seqId
    ensures o.edges[i].released ==> o.nodes[i + 1].released
  {
    hide BaseCount;
  }

  /** An interpretable order is walkable. */
  lemma InterpretableWalks(o: Order)
    requires Interpretable(o)
    ensures Walkable(o)
  {
    assert o.nodes != [] && |o.nodes| == |o.edges| + 1;
    WovenDistinct(o);
    WovenBaseFirst(o);
    AcceptsExactly(Woven(o));
    hide Woven, FrontEdges, Accepts, FromList, DistinctIds, Interpretable;
    forall i | 0 <= i < |o.edges|
      ensures o.nodes[i].seqId < o.edges[i].seqId <= o.nodes[i + 1].seqId
      ensures o.edges[i].released ==> o.nodes[i + 1].released
    {
      InterpretablePlaces(o, i);
    }
    assert o.edges != [] ==> o.nodes[0].seqId < o.edges[0].seqId;
    forall i | 0 < i <= FrontEdges(o.edges)
      ensures o.nodes[i].released
    {
      assert o.edges[i - 1].released;
    }
  }
}
