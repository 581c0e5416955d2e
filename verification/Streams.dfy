/** What the scheduler gets from an interpreted order: its items, and what holds for all of them. */
module Streams {
  import opened Vda
  import opened Interpretation
  import opened SchedulerSegments
  import R = SchedulerReports

  /** What a yielded event hands to the scheduler. */
  function ItemOf(event: Yield): seq<Item>
  {
    match event
    case GroupOf(group) => [Actions(group)]
    case NavigationStep(goal, via, stopHint) => [Step(goal, via, stopHint)]
    case _ => []
  }

  function ItemsOf(events: seq<Yield>): seq<Item>
  {
    if events == [] then [] else ItemOf(events[0]) + ItemsOf(events[1..])
  }

  /** The actions announced as new, in order. */
  function NewOf(events: seq<Yield>): seq<Action>
  {
    if events == [] then []
    else (if events[0].NewAction? then [events[0].action] else []) + NewOf(events[1..])
  }

  function GroupItems(groups: seq<Group>): seq<Item>
  {
    seq(|groups|, i requires 0 <= i < |groups| => Actions(groups[i]))
  }

  function StepItem(leg: Option<Leg>, stopHint: bool): seq<Item>
  {
    if leg.None? then [] else [Step(leg.value.goal, leg.value.via, stopHint)]
  }

  // The items of a section //////////////////////////////////////////////////////////////////////

  lemma {:induction false} ItemsOfCons(events: seq<Yield>)
    requires events != []
    ensures ItemsOf(events) == ItemOf(events[0]) + ItemsOf(events[1..])
    ensures NewOf(events) == (if events[0].NewAction? then [events[0].action] else []) + NewOf(events[1..])
  {
  }

  lemma {:induction false} ItemsAppend(a: seq<Yield>, b: seq<Yield>)
    ensures ItemsOf(a + b) == ItemsOf(a) + ItemsOf(b)
  {
    if a == [] {
      assert a + b == b;
    } else {
      hide *;
      AppendTail(a, b);
      ItemsOfCons(a);
      ItemsOfCons(a + b);
      ItemsAppend(a[1..], b);
      Associative(ItemOf(a[0]), ItemsOf(a[1..]), ItemsOf(b));
    }
  }

  lemma {:induction false} NewAppend(a: seq<Yield>, b: seq<Yield>)
    ensures NewOf(a + b) == NewOf(a) + NewOf(b)
  {
    if a == [] {
      assert a + b == b;
    } else {
      hide *;
      AppendTail(a, b);
      ItemsOfCons(a);
      ItemsOfCons(a + b);
      NewAppend(a[1..], b);
      Associative(if a[0].NewAction? then [a[0].action] else [], NewOf(a[1..]), NewOf(b));
    }
  }

  lemma {:induction false} ItemsOfNews(news: seq<Action>)
    ensures ItemsOf(NewActions(news)) == [] && NewOf(NewActions(news)) == news
  {
    if news != [] {
      ItemsOfNews(news[1..]);
      assert NewActions(news)[1..] == NewActions(news[1..]);
    }
  }

  lemma {:induction false} ItemsOfGroups(groups: seq<Group>)
    ensures ItemsOf(GroupYields(groups)) == GroupItems(groups) && NewOf(GroupYields(groups)) == []
  {
    if groups != [] {
      ItemsOfGroups(groups[1..]);
      assert GroupYields(groups)[1..] == GroupYields(groups[1..]);
      assert GroupItems(groups) == [Actions(groups[0])] + GroupItems(groups[1..]);
    }
  }

  lemma ItemsOfStep(leg: Option<Leg>, stopHint: bool)
    ensures ItemsOf(StepYield(leg, stopHint)) == StepItem(leg, stopHint) && NewOf(StepYield(leg, stopHint)) == []
  {
    var events := StepYield(leg, stopHint);
    if leg.Some? {
      assert events[1..] == [];
      assert ItemsOf([]) == [] && NewOf([]) == [];
    }
  }

  lemma {:induction false} ItemsOfSection(news: seq<Action>, leg: Option<Leg>, stopHint: bool, groups: seq<Group>,
                                          rest: seq<Yield>)
    ensures ItemsOf(Section(news, leg, stopHint, groups, rest)) ==
            StepItem(leg, stopHint) + GroupItems(groups) + ItemsOf(rest)
    ensures NewOf(Section(news, leg, stopHint, groups, rest)) == news + NewOf(rest)
  {
    ItemsOfNews(news);
    ItemsOfStep(leg, stopHint);
    ItemsOfGroups(groups);
    var a, b, c := NewActions(news), StepYield(leg, stopHint), GroupYields(groups);
    ItemsAppend(a, b);
    ItemsAppend(a + b, c);
    ItemsAppend(a + b + c, rest);
    NewAppend(a, b);
    NewAppend(a + b, c);
    NewAppend(a + b + c, rest);
    hide *;
    SectionIs(news, leg, stopHint, groups, rest);
    assert [] + StepItem(leg, stopHint) == StepItem(leg, stopHint);
    assert news + [] + [] == news;
  }

  lemma SectionIs(news: seq<Action>, leg: Option<Leg>, stopHint: bool, groups: seq<Group>, rest: seq<Yield>)
    ensures Section(news, leg, stopHint, groups, rest) ==
            NewActions(news) + StepYield(leg, stopHint) + GroupYields(groups) + rest
  {
  }

  /** The actions that are interpreted at base node i, and the groups they form. */
  function ActionsAt(o: Order, i: nat): seq<Action>
    requires i < |o.nodes|
  {
    NodeActions(o, i) + EdgeActions(o, i)
  }

  function GroupsAt(o: Order, i: nat): seq<Group>
    requires i < |o.nodes|
  {
    Groups(NodeActions(o, i)) + Groups(EdgeActions(o, i))
  }

  lemma EventsAt(o: Order, i: nat)
    requires |o.nodes| == |o.edges| + 1 && i < BaseCount(o.nodes)
    ensures EventsFrom(o, i) == Section(ActionsAt(o, i), LegTo(o, i), AnyBlocks(ActionsAt(o, i)), GroupsAt(o, i),
                                        EventsFrom(o, i + 1))
  {
    hide BaseCount, Section, AnyBlocks, Groups;
  }

  lemma {:induction false} EventsAtEnd(o: Order, i: nat)
    requires |o.nodes| == |o.edges| + 1 && i >= BaseCount(o.nodes)
    ensures ItemsOf(EventsFrom(o, i)) == [] && NewOf(EventsFrom(o, i)) == []
  {
    assert EventsFrom(o, i) == [GraphYield(o)];
    assert [GraphYield(o)][1..] == [];
    assert ItemsOf([]) == [] && NewOf([]) == [];
  }

  lemma ItemsAt(o: Order, i: nat)
    requires |o.nodes| == |o.edges| + 1 && i < BaseCount(o.nodes)
    ensures ItemsOf(EventsFrom(o, i)) ==
            StepItem(LegTo(o, i), AnyBlocks(ActionsAt(o, i))) + GroupItems(GroupsAt(o, i)) +
            ItemsOf(EventsFrom(o, i + 1))
    ensures NewOf(EventsFrom(o, i)) == ActionsAt(o, i) + NewOf(EventsFrom(o, i + 1))
  {
    EventsAt(o, i);
    ItemsOfSection(ActionsAt(o, i), LegTo(o, i), AnyBlocks(ActionsAt(o, i)), GroupsAt(o, i), EventsFrom(o, i + 1));
  }

  lemma {:induction false} ItemsOfStream(o: Order)
    requires o.nodes != [] && |o.nodes| == |o.edges| + 1
    ensures ItemsOf(Stream(o)) == ItemsOf(EventsFrom(o, 0)) && NewOf(Stream(o)) == NewOf(EventsFrom(o, 0))
  {
    var rest := EventsFrom(o, 0);
    var clear := if o.updateId == 0 then [ClearActions] else [];
    assert Stream(o) == clear + rest;
    ItemsOfClear();
    hide *;
    ItemsAppend(clear, rest);
    NewAppend(clear, rest);
    assert [] + ItemsOf(rest) == ItemsOf(rest) && [] + NewOf(rest) == NewOf(rest);
  }

  lemma ItemsOfClear()
    ensures ItemsOf([ClearActions]) == [] && NewOf([ClearActions]) == []
    ensures ItemsOf([]) == [] && NewOf([]) == []
  {
    assert [ClearActions][1..] == [];
  }

  // Groups //////////////////////////////////////////////////////////////////////////////////////

  ghost predicate ItemFine(item: Item)
  {
    item.Actions? ==> GroupFine(item.group)
  }

  ghost predicate ItemsFine(items: seq<Item>)
  {
    forall i | 0 <= i < |items| :: ItemFine(items[i])
  }

  lemma GroupsAtFine(o: Order, i: nat)
    requires i < |o.nodes|
    ensures forall k | 0 <= k < |GroupsAt(o, i)| :: GroupFine(GroupsAt(o, i)[k])
    ensures Concat(GroupsAt(o, i)) == ActionsAt(o, i)
  {
    var a, b := NodeActions(o, i), EdgeActions(o, i);
    GroupsExactly(a, Groups(a));
    GroupsExactly(b, Groups(b));
    ConcatAppend(Groups(a), Groups(b));
    hide Groups, Concat, GroupFine;
  }

  lemma GroupItemsFine(groups: seq<Group>)
    requires forall k | 0 <= k < |groups| :: GroupFine(groups[k])
    ensures ItemsFine(GroupItems(groups))
  {
    hide GroupFine;
  }

  lemma FineJoin(a: seq<Item>, b: seq<Item>)
    requires ItemsFine(a) && ItemsFine(b)
    ensures ItemsFine(a + b)
  {
    hide ItemFine;
  }

  lemma StepFine(leg: Option<Leg>, hint: bool)
    ensures ItemsFine(StepItem(leg, hint)) && ItemsFine([])
  {
  }

  /** Every group of an interpreted order carries its ceiling, and a HARD action is alone in its group. */
  lemma {:induction false} StreamGroupsFine(o: Order, i: nat)
    requires |o.nodes| == |o.edges| + 1
    ensures ItemsFine(ItemsOf(EventsFrom(o, i)))
    decreases |o.nodes| - i
  {
    hide *;
    if i >= BaseCount(o.nodes) {
      EventsAtEnd(o, i);
      StepFine(None, false);
    } else {
      ItemsAt(o, i);
      GroupsAtFine(o, i);
      StreamGroupsFine(o, i + 1);
      GroupItemsFine(GroupsAt(o, i));
      var step := StepItem(LegTo(o, i), AnyBlocks(ActionsAt(o, i)));
      StepFine(LegTo(o, i), AnyBlocks(ActionsAt(o, i)));
      FineJoin(step, GroupItems(GroupsAt(o, i)));
      FineJoin(step + GroupItems(GroupsAt(o, i)), ItemsOf(EventsFrom(o, i + 1)));
    }
  }

  // Hints ///////////////////////////////////////////////////////////////////////////////////////

  lemma {:induction false} ConcatBlocks(groups: seq<Group>)
    requires forall i | 0 <= i < |groups| :: CeilingOk(groups[i])
    ensures AnyBlocks(Concat(groups)) <==> exists i :: 0 <= i < |groups| && groups[i].ceiling != NONE
  {
    if groups != [] {
      var head, rest := groups[0], groups[1..];
      assert forall i | 0 <= i < |rest| :: CeilingOk(rest[i]) by {
        assert forall i | 0 <= i < |rest| :: rest[i] == groups[i + 1];
      }
      ConcatBlocks(rest);
      HeadBlocks(head);
      BlocksAppend(head.actions, Concat(rest));
      assert forall i | 0 <= i < |rest| :: rest[i] == groups[i + 1];
      assert forall i | 0 < i < |groups| :: groups[i] == rest[i - 1];
      hide AnyBlocks, CeilingOk;
    }
  }

  lemma HeadBlocks(g: Group)
    requires CeilingOk(g)
    ensures AnyBlocks(g.actions) <==> g.ceiling != NONE
  {
    if g.ceiling != NONE {
      var a :| a in g.actions && a.blocking == g.ceiling;
      var i :| 0 <= i < |g.actions| && g.actions[i] == a;
      assert AnyBlocks(g.actions);
    }
  }

  lemma BlocksAppend(a: seq<Action>, b: seq<Action>)
    ensures AnyBlocks(a + b) <==> AnyBlocks(a) || AnyBlocks(b)
  {
    var c := a + b;
    if AnyBlocks(c) {
      var i :| 0 <= i < |c| && c[i].blocking != NONE;
      if i < |a| {
        assert a[i] == c[i];
      } else {
        assert b[i - |a|] == c[i];
      }
    }
    if i :| 0 <= i < |a| && a[i].blocking != NONE {
      assert c[i] == a[i];
    }
    if i :| 0 <= i < |b| && b[i].blocking != NONE {
      assert c[|a| + i] == b[i];
    }
  }

  /** A blocking group comes after position i and before the next step. */
  ghost predicate BlocksBehind(items: seq<Item>, i: nat)
  {
    exists j :: i < j < |items| && Blocks(items[j]) && NoStep(items, i + 1, j)
  }

  /** Every step carries the stop hint exactly when a blocking group comes before the next step. */
  ghost predicate HintsExact(items: seq<Item>)
  {
    forall i | 0 <= i < |items| && items[i].Step? :: items[i].stopHint <==> BlocksBehind(items, i)
  }

  lemma BehindShift(a: seq<Item>, b: seq<Item>, i: nat)
    requires i < |b|
    ensures BlocksBehind(a + b, |a| + i) <==> BlocksBehind(b, i)
  {
    var c := a + b;
    if BlocksBehind(c, |a| + i) {
      var j :| |a| + i < j < |c| && Blocks(c[j]) && NoStep(c, |a| + i + 1, j);
      assert b[j - |a|] == c[j];
      forall x | i + 1 <= x < j - |a| && x < |b| ensures b[x].Actions? { assert c[|a| + x] == b[x]; }
      assert NoStep(b, i + 1, j - |a|);
    }
    if BlocksBehind(b, i) {
      var j :| i < j < |b| && Blocks(b[j]) && NoStep(b, i + 1, j);
      assert c[|a| + j] == b[j];
      forall x | |a| + i + 1 <= x < |a| + j && x < |c| ensures c[x].Actions? { assert c[x] == b[x - |a|]; }
      assert NoStep(c, |a| + i + 1, |a| + j);
    }
  }

  // a step, the groups behind it, and then either nothing or the next step
  lemma BehindFirst(step: Item, groups: seq<Item>, rest: seq<Item>)
    requires forall i | 0 <= i < |groups| :: groups[i].Actions?
    requires rest == [] || rest[0].Step?
    ensures BlocksBehind([step] + groups + rest, 0) <==> exists i :: 0 <= i < |groups| && Blocks(groups[i])
  {
    var c := [step] + groups + rest;
    assert forall i | 0 <= i < |groups| :: c[i + 1] == groups[i];
    assert rest != [] ==> c[|groups| + 1] == rest[0];
    if BlocksBehind(c, 0) {
      var j :| 0 < j < |c| && Blocks(c[j]) && NoStep(c, 1, j);
      assert j - 1 < |groups|;
      assert Blocks(groups[j - 1]);
    }
    if i :| 0 <= i < |groups| && Blocks(groups[i]) {
      assert Blocks(c[i + 1]) && NoStep(c, 1, i + 1);
    }
  }

  lemma HintsPrepend(front: seq<Item>, rest: seq<Item>)
    requires HintsExact(rest)
    requires forall i | 0 <= i < |front| && front[i].Step? :: front[i].stopHint <==> BlocksBehind(front + rest, i)
    ensures HintsExact(front + rest)
  {
    var c := front + rest;
    forall i | 0 <= i < |c| && c[i].Step?
      ensures c[i].stopHint <==> BlocksBehind(c, i)
    {
      if i < |front| {
        assert c[i] == front[i];
      } else {
        BehindShift(front, rest, i - |front|);
        assert c[i] == rest[i - |front|];
      }
    }
  }

  lemma {:induction false} HintsOfSection(leg: Option<Leg>, hint: bool, groups: seq<Group>, rest: seq<Item>)
    requires forall k | 0 <= k < |groups| :: CeilingOk(groups[k])
    requires hint == AnyBlocks(Concat(groups)) && HintsExact(rest) && (rest == [] || rest[0].Step?)
    ensures HintsExact(StepItem(leg, hint) + GroupItems(groups) + rest)
    ensures leg.Some? ==> (StepItem(leg, hint) + GroupItems(groups) + rest)[0].Step?
  {
    ConcatBlocks(groups);
    var step, items := StepItem(leg, hint), GroupItems(groups);
    assert forall k | 0 <= k < |items| :: items[k] == Actions(groups[k]);
    assert hint <==> exists k :: 0 <= k < |items| && Blocks(items[k]) by {
      if k :| 0 <= k < |groups| && groups[k].ceiling != NONE {
        assert Blocks(items[k]);
      }
    }
    hide AnyBlocks, Concat, CeilingOk, GroupItems, HintsExact, BlocksBehind;
    if leg.Some? {
      assert step == [step[0]];
      BehindFirst(step[0], items, rest);
    }
    HintsPrepend(step + items, rest);
  }

  lemma {:induction false} EventsHintsExact(o: Order, i: nat)
    requires |o.nodes| == |o.edges| + 1
    ensures HintsExact(ItemsOf(EventsFrom(o, i)))
    ensures i > 0 ==> ItemsOf(EventsFrom(o, i)) == [] || ItemsOf(EventsFrom(o, i))[0].Step?
    decreases |o.nodes| - i
  {
    hide *;
    if i >= BaseCount(o.nodes) {
      EventsAtEnd(o, i);
      NoHints();
    } else {
      ItemsAt(o, i);
      EventsHintsExact(o, i + 1);
      GroupsAtFine(o, i);
      var groups := GroupsAt(o, i);
      forall k | 0 <= k < |groups|
        ensures CeilingOk(groups[k])
      {
        FineCeiling(groups[k]);
      }
      FirstHasNoLeg(o, i);
      HintsOfSection(LegTo(o, i), AnyBlocks(ActionsAt(o, i)), groups, ItemsOf(EventsFrom(o, i + 1)));
    }
  }

  lemma NoHints()
    ensures HintsExact([])
  {
  }

  lemma FineCeiling(g: Group)
    requires GroupFine(g)
    ensures CeilingOk(g)
  {
    hide CeilingOk;
  }

  lemma FirstHasNoLeg(o: Order, i: nat)
    requires |o.nodes| == |o.edges| + 1 && i < BaseCount(o.nodes)
    ensures LegTo(o, i).Some? <==> i > 0
  {
    hide BaseCount;
  }

  /** In every interpreted order a step carries the stop hint exactly when a blocking group comes after it and
      before the next step; in particular no blocking group hides behind an unhinted step. */
  lemma StreamHintsExact(o: Order)
    requires o.nodes != [] && |o.nodes| == |o.edges| + 1
    ensures HintsExact(ItemsOf(Stream(o))) && Hinted(ItemsOf(Stream(o)))
  {
    hide *;
    EventsHintsExact(o, 0);
    ItemsOfStream(o);
    ExactHinted(ItemsOf(Stream(o)));
  }

  lemma ExactHinted(items: seq<Item>)
    requires HintsExact(items)
    ensures Hinted(items)
  {
  }

  // Goals ///////////////////////////////////////////////////////////////////////////////////////

  function BaseIdsFrom(o: Order, i: nat): seq<SeqId>
    requires i <= |o.nodes|
    decreases |o.nodes| - i
  {
    if i >= BaseCount(o.nodes) then [] else [o.nodes[i].seqId] + BaseIdsFrom(o, i + 1)
  }

  lemma {:induction false} GoalsOfGroups(items: seq<Item>)
    requires forall i | 0 <= i < |items| :: items[i].Actions?
    ensures R.Goals(items) == []
  {
    if items != [] {
      GoalsOfGroups(items[1..]);
    }
  }

  lemma {:induction false} GoalsOfSection(leg: Option<Leg>, hint: bool, groups: seq<Group>, rest: seq<Item>)
    ensures R.Goals(StepItem(leg, hint) + GroupItems(groups) + rest) ==
            (if leg.Some? then [leg.value.goal.seqId] else []) + R.Goals(rest)
  {
    var step, items := StepItem(leg, hint), GroupItems(groups);
    GoalsOfGroups(items);
    R.GoalsAppend(step, items);
    R.GoalsAppend(step + items, rest);
    assert R.Goals([]) == [];
    if leg.Some? {
      assert step[1..] == [];
    }
  }

  lemma BaseIdsNext(o: Order, i: nat)
    requires i <= |o.nodes|
    ensures i < BaseCount(o.nodes) ==> BaseIdsFrom(o, i) == [o.nodes[i].seqId] + BaseIdsFrom(o, i + 1)
    ensures i >= BaseCount(o.nodes) ==> BaseIdsFrom(o, i) == []
    ensures BaseCount(o.nodes) == 0 && o.nodes != [] ==> BaseIdsFrom(o, 1) == []
  {
    hide BaseCount;
  }

  lemma {:induction false} StepTo(o: Order, i: nat)
    requires |o.nodes| == |o.edges| + 1 && i < BaseCount(o.nodes)
    ensures (if LegTo(o, i).Some? then [LegTo(o, i).value.goal.seqId] else []) ==
            if i == 0 then [] else [o.nodes[i].seqId]
    ensures [] + BaseIdsFrom(o, 1) == BaseIdsFrom(o, 1)
  {
    hide BaseCount, BaseIdsFrom;
  }

  lemma {:induction false} EventsGoals(o: Order, i: nat)
    requires |o.nodes| == |o.edges| + 1 && i <= |o.nodes|
    ensures R.Goals(ItemsOf(EventsFrom(o, i))) == BaseIdsFrom(o, if i == 0 then 1 else i)
    decreases |o.nodes| - i
  {
    hide *;
    R.NoGoals();
    BaseIdsNext(o, i);
    if i >= BaseCount(o.nodes) {
      EventsAtEnd(o, i);
    } else {
      ItemsAt(o, i);
      EventsGoals(o, i + 1);
      StepTo(o, i);
      GoalsOfSection(LegTo(o, i), AnyBlocks(ActionsAt(o, i)), GroupsAt(o, i), ItemsOf(EventsFrom(o, i + 1)));
    }
  }

  lemma {:induction false} BaseIdsAt(o: Order, i: nat)
    requires 0 < i <= |o.nodes|
    ensures |BaseIdsFrom(o, i)| == if i < BaseCount(o.nodes) then BaseCount(o.nodes) - i else 0
    ensures forall k | 0 <= k < |BaseIdsFrom(o, i)| :: BaseIdsFrom(o, i)[k] == o.nodes[i + k].seqId
    decreases |o.nodes| - i
  {
    hide BaseCount;
    if i < BaseCount(o.nodes) {
      BaseIdsAt(o, i + 1);
    }
  }

  lemma NodeIdsAscend(o: Order, i: nat, j: nat)
    requires Interpretable(o) && i < j < |o.nodes|
    ensures o.nodes[i].seqId < o.nodes[j].seqId
    decreases j
  {
    assert o.nodes[j - 1].seqId < o.edges[j - 1].seqId < o.nodes[j].seqId;
    hide BaseCount;
    if i + 1 < j {
      NodeIdsAscend(o, i, j - 1);
    }
  }

  /** The navigation goals of an order are its released nodes behind the first one, in the order they are listed in.
      They ascend when the order is interpretable. */
  lemma {:induction false} StreamGoals(o: Order)
    requires o.nodes != [] && |o.nodes| == |o.edges| + 1
    ensures R.Goals(ItemsOf(Stream(o))) == BaseIdsFrom(o, 1)
    ensures Interpretable(o) ==> Strict(R.Goals(ItemsOf(Stream(o))))
    ensures forall s | s in R.Goals(ItemsOf(Stream(o))) ::
              exists i :: 0 < i < BaseCount(o.nodes) && s == o.nodes[i].seqId
  {
    hide *;
    EventsGoals(o, 0);
    ItemsOfStream(o);
    BaseIdsAt(o, 1);
    var ids := BaseIdsFrom(o, 1);
    forall s | s in ids
      ensures exists i :: 0 < i < BaseCount(o.nodes) && s == o.nodes[i].seqId
    {
      var k :| 0 <= k < |ids| && ids[k] == s;
      assert s == o.nodes[1 + k].seqId;
    }
    if Interpretable(o) {
      forall i, j | 0 <= i < j < |ids|
        ensures ids[i] < ids[j]
      {
        NodeIdsAscend(o, i + 1, j + 1);
      }
      StrictIs(ids);
    }
  }

  lemma StrictIs(ids: seq<SeqId>)
    requires forall i, j | 0 <= i < j < |ids| :: ids[i] < ids[j]
    ensures Strict(ids)
  {
  }

  // Actions /////////////////////////////////////////////////////////////////////////////////////

  function InterpretedFrom(o: Order, i: nat): seq<Action>
    requires |o.nodes| == |o.edges| + 1 && i <= |o.nodes|
    decreases |o.nodes| - i
  {
    if i >= BaseCount(o.nodes) then [] else ActionsAt(o, i) + InterpretedFrom(o, i + 1)
  }

  function ActionsOfItems(items: seq<Item>): seq<Action>
  {
    if items == [] then []
    else (if items[0].Actions? then items[0].group.actions else []) + ActionsOfItems(items[1..])
  }

  lemma {:induction false} ActionsOfItemsCons(items: seq<Item>)
    requires items != []
    ensures ActionsOfItems(items) ==
            (if items[0].Actions? then items[0].group.actions else []) + ActionsOfItems(items[1..])
  {
  }

  lemma {:induction false} ActionsOfItemsAppend(a: seq<Item>, b: seq<Item>)
    ensures ActionsOfItems(a + b) == ActionsOfItems(a) + ActionsOfItems(b)
  {
    if a == [] {
      assert a + b == b;
    } else {
      hide *;
      AppendTail(a, b);
      ActionsOfItemsCons(a);
      ActionsOfItemsCons(a + b);
      ActionsOfItemsAppend(a[1..], b);
      Associative(if a[0].Actions? then a[0].group.actions else [], ActionsOfItems(a[1..]), ActionsOfItems(b));
    }
  }

  lemma {:induction false} ActionsOfGroupItems(groups: seq<Group>)
    ensures ActionsOfItems(GroupItems(groups)) == Concat(groups)
  {
    if groups != [] {
      ActionsOfGroupItems(groups[1..]);
      assert GroupItems(groups)[1..] == GroupItems(groups[1..]);
    }
  }

  lemma {:induction false} ActionsOfSection(leg: Option<Leg>, hint: bool, groups: seq<Group>, rest: seq<Item>)
    ensures ActionsOfItems(StepItem(leg, hint) + GroupItems(groups) + rest) == Concat(groups) + ActionsOfItems(rest)
  {
    var step, items := StepItem(leg, hint), GroupItems(groups);
    ActionsOfGroupItems(groups);
    ActionsOfItemsAppend(step, items);
    ActionsOfItemsAppend(step + items, rest);
    assert ActionsOfItems([]) == [];
    assert ActionsOfItems(step) == [] by {
      assert step == [] || step[1..] == [];
    }
    hide *;
    assert [] + Concat(groups) == Concat(groups);
  }

  lemma {:induction false} InterpretedNext(o: Order, i: nat)
    requires |o.nodes| == |o.edges| + 1 && i <= |o.nodes|
    ensures i < BaseCount(o.nodes) ==> InterpretedFrom(o, i) == ActionsAt(o, i) + InterpretedFrom(o, i + 1)
    ensures i >= BaseCount(o.nodes) ==> InterpretedFrom(o, i) == []
    ensures ActionsOfItems([]) == []
  {
    hide BaseCount, ActionsAt;
  }

  lemma {:induction false} EventsActions(o: Order, i: nat)
    requires |o.nodes| == |o.edges| + 1 && i <= |o.nodes|
    ensures NewOf(EventsFrom(o, i)) == InterpretedFrom(o, i)
    ensures ActionsOfItems(ItemsOf(EventsFrom(o, i))) == InterpretedFrom(o, i)
    decreases |o.nodes| - i
  {
    hide *;
    InterpretedNext(o, i);
    if i >= BaseCount(o.nodes) {
      EventsAtEnd(o, i);
    } else {
      ItemsAt(o, i);
      EventsActions(o, i + 1);
      GroupsAtFine(o, i);
      ActionsOfSection(LegTo(o, i), AnyBlocks(ActionsAt(o, i)), GroupsAt(o, i), ItemsOf(EventsFrom(o, i + 1)));
    }
  }

  /** The new actions of a stream, the actions in its groups, and the actions of the released nodes and edges are
      the same, in the same order: nothing is lost, repeated or moved. */
  lemma {:induction false} StreamActions(o: Order)
    requires o.nodes != [] && |o.nodes| == |o.edges| + 1
    ensures NewOf(Stream(o)) == InterpretedFrom(o, 0)
    ensures ActionsOfItems(ItemsOf(Stream(o))) == InterpretedFrom(o, 0)
  {
    EventsActions(o, 0);
    ItemsOfStream(o);
  }

  /** Wherever the stream is cut, the actions in groups so far were all announced as new before. */
  ghost predicate NewFirst(events: seq<Yield>)
  {
    forall k | 0 <= k <= |events| :: ActionsOfItems(ItemsOf(events[..k])) <= NewOf(events[..k])
  }

  // two streams, the first of which has put all its new actions into groups
  lemma {:induction false} NewFirstJoin(a: seq<Yield>, b: seq<Yield>)
    requires NewFirst(a) && NewFirst(b) && ActionsOfItems(ItemsOf(a)) == NewOf(a)
    ensures NewFirst(a + b)
  {
    var c := a + b;
    forall k | 0 <= k <= |c|
      ensures ActionsOfItems(ItemsOf(c[..k])) <= NewOf(c[..k])
    {
      if k <= |a| {
        assert c[..k] == a[..k];
      } else {
        var m := k - |a|;
        assert c[..k] == a + b[..m];
        ItemsAppend(a, b[..m]);
        NewAppend(a, b[..m]);
        ActionsOfItemsAppend(ItemsOf(a), ItemsOf(b[..m]));
      }
    }
  }

  lemma {:induction false} NoGroups(events: seq<Yield>)
    requires forall i | 0 <= i < |events| :: !events[i].GroupOf?
    ensures ActionsOfItems(ItemsOf(events)) == []
  {
    if events != [] {
      NoGroups(events[1..]);
      var one := ItemOf(events[0]);
      assert ActionsOfItems(one) == [] by {
        assert one == [] || one[1..] == [];
        assert ActionsOfItems([]) == [];
      }
      ItemsOfCons(events);
      ActionsOfItemsAppend(one, ItemsOf(events[1..]));
    }
  }

  lemma NewFirstNews(news: seq<Action>, leg: Option<Leg>, stopHint: bool)
    ensures var events := NewActions(news) + StepYield(leg, stopHint);
            NewFirst(events) && ActionsOfItems(ItemsOf(events)) == [] && NewOf(events) == news
  {
    var events := NewActions(news) + StepYield(leg, stopHint);
    forall k | 0 <= k <= |events|
      ensures ActionsOfItems(ItemsOf(events[..k])) == []
    {
      NoGroups(events[..k]);
    }
    NoGroups(events);
    ItemsOfNews(news);
    ItemsOfStep(leg, stopHint);
    NewAppend(NewActions(news), StepYield(leg, stopHint));
    hide NewOf, NewActions, StepYield, ActionsOfItems, ItemsOf;
    assert news + [] == news;
  }

  lemma {:induction false} BaseThenGroups(base: seq<Yield>, news: seq<Action>, groups: seq<Group>)
    requires ActionsOfItems(ItemsOf(base)) == [] && NewOf(base) == news
    ensures ActionsOfItems(ItemsOf(base + GroupYields(groups))) == Concat(groups)
    ensures NewOf(base + GroupYields(groups)) == news
  {
    hide *;
    ItemsOfGroups(groups);
    ItemsAppend(base, GroupYields(groups));
    NewAppend(base, GroupYields(groups));
    ActionsOfItemsAppend(ItemsOf(base), GroupItems(groups));
    ActionsOfGroupItems(groups);
    assert [] + Concat(groups) == Concat(groups) && news + [] == news;
  }

  lemma {:induction false} PrefixConcat(groups: seq<Group>, m: nat)
    requires m <= |groups|
    ensures Concat(groups[..m]) <= Concat(groups)
  {
    assert groups == groups[..m] + groups[m..];
    ConcatAppend(groups[..m], groups[m..]);
    hide *;
  }

  lemma CutGroups(base: seq<Yield>, groups: seq<Group>, k: nat)
    requires |base| < k <= |base| + |groups|
    ensures |GroupYields(groups)| == |groups|
    ensures (base + GroupYields(groups))[..k] == base + GroupYields(groups[..k - |base|])
  {
  }

  lemma {:induction false} NewFirstGroups(base: seq<Yield>, news: seq<Action>, groups: seq<Group>)
    requires NewFirst(base) && ActionsOfItems(ItemsOf(base)) == [] && NewOf(base) == news && Concat(groups) == news
    ensures NewFirst(base + GroupYields(groups))
  {
    var c := base + GroupYields(groups);
    hide ActionsOfItems, ItemsOf, NewOf, Concat;
    forall k | 0 <= k <= |c|
      ensures ActionsOfItems(ItemsOf(c[..k])) <= NewOf(c[..k])
    {
      if k <= |base| {
        assert c[..k] == base[..k];
      } else {
        CutGroups(base, groups, k);
        BaseThenGroups(base, news, groups[..k - |base|]);
        PrefixConcat(groups, k - |base|);
      }
    }
  }

  lemma {:induction false} NewFirstSection(news: seq<Action>, leg: Option<Leg>, hint: bool, groups: seq<Group>,
                                           rest: seq<Yield>)
    requires Concat(groups) == news && NewFirst(rest)
    ensures NewFirst(Section(news, leg, hint, groups, rest))
  {
    hide *;
    var base := NewActions(news) + StepYield(leg, hint);
    NewFirstNews(news, leg, hint);
    NewFirstGroups(base, news, groups);
    BaseThenGroups(base, news, groups);
    NewFirstJoin(base + GroupYields(groups), rest);
    SectionIs(news, leg, hint, groups, rest);
  }

  lemma {:induction false} EventsNewFirst(o: Order, i: nat)
    requires |o.nodes| == |o.edges| + 1 && i <= |o.nodes|
    ensures NewFirst(EventsFrom(o, i))
    decreases |o.nodes| - i
  {
    if i >= BaseCount(o.nodes) {
      EventsEnd(o, i);
    } else {
      EventsAt(o, i);
      GroupsAtFine(o, i);
      EventsNewFirst(o, i + 1);
      hide *;
      NewFirstSection(ActionsAt(o, i), LegTo(o, i), AnyBlocks(ActionsAt(o, i)), GroupsAt(o, i), EventsFrom(o, i + 1));
    }
  }

  lemma {:induction false} EventsEnd(o: Order, i: nat)
    requires |o.nodes| == |o.edges| + 1 && i >= BaseCount(o.nodes)
    ensures NewFirst(EventsFrom(o, i))
  {
    var end := [GraphYield(o)];
    assert EventsFrom(o, i) == end;
    hide EventsFrom, GraphYield;
    forall k | 0 <= k <= |end|
      ensures ActionsOfItems(ItemsOf(end[..k])) == []
    {
      NoGroups(end[..k]);
    }
  }

  /** Every action is announced as new before its group is handed over. */
  lemma StreamNewFirst(o: Order)
    requires o.nodes != [] && |o.nodes| == |o.edges| + 1
    ensures NewFirst(Stream(o))
  {
    EventsNewFirst(o, 0);
    var rest := EventsFrom(o, 0);
    if o.updateId == 0 {
      ItemsOfClear();
      assert Stream(o) == [ClearActions] + rest;
      hide Stream, EventsFrom;
      assert NewFirst([ClearActions]) by {
        forall k | 0 <= k <= 1
          ensures ActionsOfItems(ItemsOf([ClearActions][..k])) == []
        {
          NoGroups([ClearActions][..k]);
        }
      }
      NoGroups([ClearActions]);
      NewFirstJoin([ClearActions], rest);
    } else {
      assert Stream(o) == rest;
    }
  }
}
