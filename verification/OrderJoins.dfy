/** Which orders and updates the scheduler's queue takes without announcing a segment past a blocking group, in terms
    of the orders. */
module OrderJoins {
  import opened Vda
  import opened Interpretation
  import opened Streams
  import opened SchedulerModel
  import opened SchedulerSegments

  /** A blocking action is interpreted before the first step: on the first released node or on the edge behind it. */
  predicate BlocksAtStart(o: Order)
    requires o.nodes != []
  {
    0 < BaseCount(o.nodes) && AnyBlocks(ActionsAt(o, 0))
  }

  /** The order has no step, or a blocking action is interpreted behind the last one. */
  predicate BlocksAtEnd(o: Order)
  {
    BaseCount(o.nodes) <= 1 || AnyBlocks(ActionsAt(o, BaseCount(o.nodes) - 1))
  }

  // The start of a stream ///////////////////////////////////////////////////////////////////////

  lemma FirstBlocks(groups: seq<Item>, rest: seq<Item>)
    requires forall i | 0 <= i < |groups| :: groups[i].Actions?
    requires rest == [] || rest[0].Step?
    ensures BlocksFirst(groups + rest) <==> exists i :: 0 <= i < |groups| && Blocks(groups[i])
  {
    var c := groups + rest;
    assert forall i | 0 <= i < |groups| :: c[i] == groups[i];
    assert rest != [] ==> c[|groups|] == rest[0];
    if BlocksFirst(c) {
      var j :| 0 <= j < |c| && Blocks(c[j]) && NoStep(c, 0, j);
      assert j < |groups|;
      assert Blocks(groups[j]);
    }
    if i :| 0 <= i < |groups| && Blocks(groups[i]) {
      assert Blocks(c[i]) && NoStep(c, 0, i);
    }
  }

  lemma GroupsBlock(o: Order, i: nat)
    requires i < |o.nodes|
    ensures var items := GroupItems(GroupsAt(o, i));
            && (forall k | 0 <= k < |items| :: items[k].Actions?)
            && (AnyBlocks(ActionsAt(o, i)) <==> exists k :: 0 <= k < |items| && Blocks(items[k]))
  {
    var groups := GroupsAt(o, i);
    var items := GroupItems(groups);
    GroupsAtFine(o, i);
    assert forall k | 0 <= k < |items| :: items[k] == Actions(groups[k]);
    hide GroupsAt, ActionsAt, AnyBlocks, Concat, GroupItems, CeilingOk;
    forall k | 0 <= k < |groups|
      ensures CeilingOk(groups[k])
    {
      FineCeiling(groups[k]);
    }
    ConcatBlocks(groups);
    if k :| 0 <= k < |groups| && groups[k].ceiling != NONE {
      assert Blocks(items[k]);
    }
  }

  lemma StepItemIs(leg: Option<Leg>, hint: bool)
    ensures leg.None? ==> StepItem(leg, hint) == []
    ensures leg.Some? ==>
              var step := StepItem(leg, hint); step == [step[0]] && step[0].Step? && step[0].stopHint == hint
  {
  }

  lemma {:induction false} FirstItems(o: Order)
    requires |o.nodes| == |o.edges| + 1 && 0 < BaseCount(o.nodes)
    ensures ItemsOf(Stream(o)) == GroupItems(GroupsAt(o, 0)) + ItemsOf(EventsFrom(o, 1))
  {
    hide *;
    ItemsOfStream(o);
    ItemsAt(o, 0);
    FirstHasNoLeg(o, 0);
    StepItemIs(LegTo(o, 0), AnyBlocks(ActionsAt(o, 0)));
    assert [] + GroupItems(GroupsAt(o, 0)) == GroupItems(GroupsAt(o, 0));
  }

  lemma BlocksAtIs(o: Order)
    requires o.nodes != []
    ensures BlocksAtStart(o) <==> 0 < BaseCount(o.nodes) && AnyBlocks(ActionsAt(o, 0))
    ensures BlocksAtEnd(o) <==> BaseCount(o.nodes) <= 1 || AnyBlocks(ActionsAt(o, BaseCount(o.nodes) - 1))
  {
    hide BaseCount, AnyBlocks, ActionsAt;
  }

  lemma NoneFirst()
    ensures !BlocksFirst([]) && EndsHinted([])
  {
  }

  /** The stream of an order puts a blocking group before its first step exactly when a blocking action is interpreted
      there. */
  lemma {:induction false} StreamBlocksFirst(o: Order)
    requires o.nodes != [] && |o.nodes| == |o.edges| + 1
    ensures BlocksFirst(ItemsOf(Stream(o))) <==> BlocksAtStart(o)
  {
    hide *;
    BlocksAtIs(o);
    NoneFirst();
    if BaseCount(o.nodes) == 0 {
      ItemsOfStream(o);
      EventsAtEnd(o, 0);
    } else {
      FirstItems(o);
      EventsHintsExact(o, 1);
      GroupsBlock(o, 0);
      FirstBlocks(GroupItems(GroupsAt(o, 0)), ItemsOf(EventsFrom(o, 1)));
    }
  }

  // The end of a stream /////////////////////////////////////////////////////////////////////////

  lemma EndsHintedBehind(front: seq<Item>, rest: seq<Item>)
    requires rest != [] && rest[0].Step?
    ensures EndsHinted(front + rest) <==> EndsHinted(rest)
  {
    var c := front + rest;
    assert c[|front|] == rest[0];
    if EndsHinted(c) {
      forall i | 0 <= i < |rest| && rest[i].Step? && NoStep(rest, i + 1, |rest|)
        ensures rest[i].stopHint
      {
        assert c[|front| + i] == rest[i];
        forall x | |front| + i + 1 <= x < |c|
          ensures c[x].Actions?
        {
          assert c[x] == rest[x - |front|];
        }
        assert NoStep(c, |front| + i + 1, |c|);
      }
    }
    if EndsHinted(rest) {
      forall i | 0 <= i < |c| && c[i].Step? && NoStep(c, i + 1, |c|)
        ensures c[i].stopHint
      {
        assert i >= |front|;
        assert c[i] == rest[i - |front|];
        forall x | i - |front| + 1 <= x < |rest|
          ensures rest[x].Actions?
        {
          assert c[|front| + x] == rest[x];
        }
        assert NoStep(rest, i - |front| + 1, |rest|);
      }
    }
  }

  lemma EndsHintedLast(step: Item, groups: seq<Item>)
    requires step.Step? && forall i | 0 <= i < |groups| :: groups[i].Actions?
    ensures EndsHinted([step] + groups) <==> step.stopHint
  {
    var c := [step] + groups;
    assert forall i | 0 <= i < |groups| :: c[i + 1] == groups[i];
    assert c[0] == step && NoStep(c, 1, |c|);
  }

  lemma EndsHintedNone(groups: seq<Item>)
    requires forall i | 0 <= i < |groups| :: groups[i].Actions?
    ensures EndsHinted(groups)
  {
  }

  lemma {:induction false} EventsEndHinted(o: Order, i: nat)
    requires |o.nodes| == |o.edges| + 1 && 0 < i < BaseCount(o.nodes)
    ensures ItemsOf(EventsFrom(o, i)) != [] && ItemsOf(EventsFrom(o, i))[0].Step?
    ensures EndsHinted(ItemsOf(EventsFrom(o, i))) <==> AnyBlocks(ActionsAt(o, BaseCount(o.nodes) - 1))
    decreases |o.nodes| - i
  {
    hide *;
    ItemsAt(o, i);
    FirstHasNoLeg(o, i);
    GroupsBlock(o, i);
    var hint := AnyBlocks(ActionsAt(o, i));
    var step, groups, rest := StepItem(LegTo(o, i), hint), GroupItems(GroupsAt(o, i)), ItemsOf(EventsFrom(o, i + 1));
    StepItemIs(LegTo(o, i), hint);
    assert (step + groups + rest)[0] == step[0];
    if i + 1 < BaseCount(o.nodes) {
      EventsEndHinted(o, i + 1);
      EndsHintedBehind(step + groups, rest);
    } else {
      EventsAtEnd(o, i + 1);
      assert step + groups + rest == [step[0]] + groups;
      EndsHintedLast(step[0], groups);
    }
  }

  /** The last step of a stream carries the stop hint exactly when a blocking action is interpreted behind it. */
  lemma {:induction false} StreamEndsHinted(o: Order)
    requires o.nodes != [] && |o.nodes| == |o.edges| + 1
    ensures EndsHinted(ItemsOf(Stream(o))) <==> BlocksAtEnd(o)
  {
    hide *;
    BlocksAtIs(o);
    NoneFirst();
    if BaseCount(o.nodes) == 0 {
      ItemsOfStream(o);
      EventsAtEnd(o, 0);
    } else {
      FirstItems(o);
      GroupsBlock(o, 0);
      var groups := GroupItems(GroupsAt(o, 0));
      if BaseCount(o.nodes) == 1 {
        EventsAtEnd(o, 1);
        assert groups + [] == groups;
        EndsHintedNone(groups);
      } else {
        EventsEndHinted(o, 1);
        EndsHintedBehind(groups, ItemsOf(EventsFrom(o, 1)));
      }
    }
  }

  // Joining orders //////////////////////////////////////////////////////////////////////////////

  /** An order or update is committed behind a hinted queue. The queue stays hinted exactly when the new order does not
      bring a blocking action before its first step behind a last step without a hint. */
  lemma CommitJoinsExactly(queue: seq<Item>, o: Order)
    requires o.nodes != [] && |o.nodes| == |o.edges| + 1 && Hinted(queue)
    ensures Hinted(queue + ItemsOf(Stream(o))) <==> (BlocksAtStart(o) ==> EndsHinted(queue))
  {
    hide *;
    StreamHintsExact(o);
    StreamBlocksFirst(o);
    JoinHinted(queue, ItemsOf(Stream(o)));
  }

  /** Two orders one behind the other: exactly when a blocking action before the first step of the second one comes
      behind a blocking action that already stops the vehicle at the end of the first one. */
  lemma OrdersJoinExactly(o: Order, u: Order)
    requires o.nodes != [] && |o.nodes| == |o.edges| + 1 && u.nodes != [] && |u.nodes| == |u.edges| + 1
    ensures Hinted(ItemsOf(Stream(o)) + ItemsOf(Stream(u))) <==> (BlocksAtStart(u) ==> BlocksAtEnd(o))
  {
    hide *;
    StreamHintsExact(o);
    StreamEndsHinted(o);
    CommitJoinsExactly(ItemsOf(Stream(o)), u);
  }

  // Runs ////////////////////////////////////////////////////////////////////////////////////////

  /** Items of an order, or a first part of them, are committed, where a blocking action before the first step does not
      come behind a queued last step without a hint. */
  ghost predicate Fitting(s: Sched, o: Order)
  {
    && o.nodes != [] && |o.nodes| == |o.edges| + 1 && s.staging <= ItemsOf(Stream(o))
    && (BlocksAtStart(o) ==> EndsHinted(s.queue))
  }

  lemma BlocksFirstPrefix(a: seq<Item>, b: seq<Item>)
    requires a <= b && BlocksFirst(a)
    ensures BlocksFirst(b)
  {
    var j :| 0 <= j < |a| && Blocks(a[j]) && NoStep(a, 0, j);
    assert b[j] == a[j];
    forall i | 0 <= i < j
      ensures b[i].Actions?
    {
      assert b[i] == a[i];
    }
    assert NoStep(b, 0, j);
  }

  lemma HintedStart(a: seq<Item>, b: seq<Item>)
    requires a <= b && Hinted(b)
    ensures Hinted(a)
  {
    assert b == a + b[|a|..];
    JoinHinted(a, b[|a|..]);
    hide Hinted;
  }

  lemma FittingJoins(s: Sched, o: Order)
    requires Hinted(s.queue) && Fitting(s, o)
    ensures Hinted(s.queue + s.staging)
  {
    var items := ItemsOf(Stream(o));
    StreamHintsExact(o);
    StreamBlocksFirst(o);
    hide ItemsOf, Stream, Hinted, BlocksFirst, EndsHinted, BlocksAtStart, HintsExact;
    HintedStart(s.staging, items);
    if BlocksFirst(s.staging) {
      BlocksFirstPrefix(s.staging, items);
    }
    JoinHinted(s.queue, s.staging);
  }

  /** The commits of a run bring the orders in question, in any number, each behind what is queued then. */
  ghost predicate CommitsFit(ops: seq<Op>, orders: seq<Order>)
  {
    |orders| == |ops| && forall i | 0 <= i < |ops| && ops[i].OpCommit? :: Fitting(Run(ops[..i]), orders[i])
  }

  lemma CommitsFitBefore(ops: seq<Op>, orders: seq<Order>, n: nat)
    requires CommitsFit(ops, orders) && n <= |ops|
    ensures CommitsFit(ops[..n], orders[..n])
  {
    hide Run, Fitting;
    forall i | 0 <= i < n && ops[..n][i].OpCommit?
      ensures Fitting(Run(ops[..n][..i]), orders[..n][i])
    {
      assert ops[..n][..i] == ops[..i] && ops[i] == ops[..n][i];
    }
  }

  lemma {:induction false} OrdersJoin(ops: seq<Op>, orders: seq<Order>)
    requires CommitsFit(ops, orders)
    ensures CommitsJoin(ops)
    decreases |ops|
  {
    forall i | 0 <= i < |ops| && ops[i].OpCommit?
      ensures Hinted(Run(ops[..i]).queue + Run(ops[..i]).staging)
    {
      hide Run, Fitting, Hinted;
      CommitsFitBefore(ops, orders, i);
      OrdersJoin(ops[..i], orders[..i]);
      RunSegmentsSafe(ops[..i]);
      FittingJoins(Run(ops[..i]), orders[i]);
    }
  }

  /** Behind an empty queue every order fits. */
  lemma AnyOrderFits(s: Sched, o: Order)
    requires o.nodes != [] && |o.nodes| == |o.edges| + 1 && s.queue == [] && s.staging <= ItemsOf(Stream(o))
    ensures Fitting(s, o)
  {
    EndsHintedNone([]);
    hide ItemsOf, Stream, BlocksAtStart, EndsHinted;
  }

  /** Segment safety for runs of any number of orders and updates: when no commit brings a blocking action before its
      first step behind a queued last step without a hint, no announced segment leads past a queued blocking group. */
  lemma {:induction false} OrdersSegmentsSafe(ops: seq<Op>, orders: seq<Order>)
    requires CommitsFit(ops, orders)
    ensures SegmentsSafe(Run(ops))
  {
    OrdersJoin(ops, orders);
    hide *;
    RunSegmentsSafe(ops);
  }
}
