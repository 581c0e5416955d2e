/** Exactly when an announced segment leads past a queued blocking group. */
module SchedulerStops {
  import opened Vda
  import opened Events
  import A = ActionTasks
  import N = NavigationTasks
  import opened SchedulerModel
  import O = SchedulerOperations
  import opened SchedulerMoves
  import opened SchedulerBlocking
  import opened SchedulerHistory
  import opened SchedulerSegments
  import R = SchedulerReports

  /** Before every blocking group that has a step behind it there is a step with a stop hint. */
  ghost predicate Stopped(items: seq<Item>)
  {
    forall j, m | 0 <= j < m < |items| && Blocks(items[j]) && items[m].Step? :: HintBefore(items, j)
  }

  ghost predicate HintBefore(items: seq<Item>, j: nat)
    requires j <= |items|
  {
    exists i :: 0 <= i < j && items[i].Step? && items[i].stopHint
  }

  ghost predicate DistinctGoals(items: seq<Item>)
  {
    forall i, j | 0 <= i < j < |items| && items[i].Step? && items[j].Step? ::
      items[i].goal.seqId != items[j].goal.seqId
  }

  // One segment /////////////////////////////////////////////////////////////////////////////////

  lemma SafeIsStopped(items: seq<Item>, k: nat)
    requires k < |items| && items[k].Step? && (items[k].stopHint || NoStep(items, k + 1, |items|))
    requires forall j | 0 <= j < k :: !Blocks(items[j])
    ensures Stopped(items)
  {
    forall j, m | 0 <= j < m < |items| && Blocks(items[j]) && items[m].Step?
      ensures HintBefore(items, j)
    {
      assert j > k && items[k].stopHint;
    }
  }

  lemma StoppedIsSafe(items: seq<Item>, k: nat, j: nat)
    requires k < |items| && items[k].Step? && Stopped(items)
    requires forall i | 0 <= i < k && items[i].Step? :: !items[i].stopHint
    requires j < k
    ensures !Blocks(items[j])
  {
    assert Blocks(items[j]) ==> HintBefore(items, j);
  }

  /** The segment that is announced for a queue leads past no blocking group exactly when the queue is stopped. */
  lemma {:induction false} SegmentSafeExactly(items: seq<Item>, default: SeqId)
    requires items != [] && items[0].Step? && DistinctGoals(items)
    ensures SegmentSafe(items, SegmentEnd(items, default)) <==> Stopped(items)
  {
    var k := SegmentEndAt(items, default);
    var end := SegmentEnd(items, default);
    hide SegmentEnd, Blocks, Stopped;
    if SegmentSafe(items, end) {
      var n :| 0 <= n < |items| && EndsSafely(items, end, n);
      assert n == k;
      SafeIsStopped(items, k);
    }
    if Stopped(items) {
      forall j | 0 <= j < k
        ensures !Blocks(items[j])
      {
        StoppedIsSafe(items, k, j);
      }
      assert EndsSafely(items, end, k);
    }
  }

  // Queues that stay stopped ////////////////////////////////////////////////////////////////////

  lemma HintedStops(items: seq<Item>, step: Item, n: nat)
    requires Hinted(items) && step.Step? && n < |items| && items[n].Step?
    ensures Stopped(items[n..] + [step])
  {
    var rest := items[n..] + [step];
    forall j, m | 0 <= j < m < |rest| && Blocks(rest[j]) && rest[m].Step?
      ensures HintBefore(rest, j)
    {
      var i := LastStepBefore(rest, j);
      assert rest[i] == items[n + i] && rest[j] == items[n + j];
      forall k | n + i + 1 <= k < n + j && k < |items|
        ensures items[k].Actions?
      {
        assert rest[k - n] == items[k];
      }
      assert NoStep(items, n + i + 1, n + j);
      assert rest[i].stopHint;
    }
  }

  lemma StoppedHints(items: seq<Item>, step: Item, i: nat, j: nat)
    requires step.Step? && i < j < |items| && items[i].Step? && Blocks(items[j]) && NoStep(items, i + 1, j)
    requires Stopped(items[i..] + [step])
    ensures items[i].stopHint
  {
    var rest := items[i..] + [step];
    assert rest[0] == items[i] && rest[j - i] == items[j] && rest[|items| - i] == step;
    assert HintBefore(rest, j - i);
    var k :| 0 <= k < j - i && rest[k].Step? && rest[k].stopHint;
    assert rest[k] == items[i + k];
  }

  /** A queue is hinted exactly when it is stopped whatever is taken from its front and when a further step is
      committed behind it: the property that survives fetching and later commits. */
  lemma HintedExactly(items: seq<Item>, step: Item)
    requires step.Step?
    ensures Hinted(items) <==> forall n | 0 <= n < |items| && items[n].Step? :: Stopped(items[n..] + [step])
  {
    hide Blocks, NoStep, Stopped;
    if Hinted(items) {
      forall n | 0 <= n < |items| && items[n].Step?
        ensures Stopped(items[n..] + [step])
      {
        HintedStops(items, step, n);
      }
    }
    if forall n | 0 <= n < |items| && items[n].Step? :: Stopped(items[n..] + [step]) {
      forall i, j | 0 <= i < j < |items| && items[i].Step? && Blocks(items[j]) && NoStep(items, i + 1, j)
        ensures items[i].stopHint
      {
        StoppedHints(items, step, i, j);
      }
    }
  }

  // Moves ///////////////////////////////////////////////////////////////////////////////////////

  /** An announced segment is safe exactly when the queue it was announced for was stopped. */
  ghost predicate RecordExact(rec: Record)
  {
    rec.SegmentAnnounced? ==> (SegmentSafe(rec.ahead, rec.end) <==> Stopped(rec.ahead))
  }

  ghost predicate ExactIn(hist: seq<Record>)
  {
    forall i | 0 <= i < |hist| :: RecordExact(hist[i])
  }

  ghost predicate AllExact(s: Sched)
  {
    ExactIn(s.hist)
  }

  lemma ExactWith(hist: seq<Record>, rec: Record)
    requires ExactIn(hist) && RecordExact(rec)
    ensures ExactIn(hist + [rec])
  {
    hide RecordExact;
  }

  lemma StartedExact(rec: Record)
    requires !rec.SegmentAnnounced?
    ensures RecordExact(rec)
  {
  }

  lemma {:induction false} AnnouncedExact(queue: seq<Item>, id: SeqId, first: SeqId)
    requires queue != [] && queue[0].Step? && DistinctGoals(queue)
    ensures RecordExact(SegmentAnnounced(first, SegmentEnd(queue, id), queue))
  {
    SegmentSafeExactly(queue, id);
    hide SegmentEnd, SegmentSafe, Stopped;
  }

  lemma StepExact(s: Sched)
    requires Enabled(s, MStep) && AllExact(s) && DistinctGoals(s.queue)
    ensures AllExact(StartStep(s))
  {
    StepEnabled(s);
    O.DriveIs(s);
    var step := s.queue[0];
    var started := StepStarted(step.goal, step.via, step.stopHint, s.tasks, s.nav);
    var ended := SegmentAnnounced(step.goal.seqId, SegmentEnd(s.queue, step.goal.seqId), s.queue);
    StartedExact(started);
    AnnouncedExact(s.queue, step.goal.seqId, step.goal.seqId);
    hide RecordExact, ExactIn, Enabled, StartStep, SegmentEnd, DistinctGoals;
    ExactWith(s.hist, started);
    ExactWith(s.hist + [started], ended);
    assert s.hist + [started] + [] == s.hist + [started];
  }

  lemma PatchExact(s: Sched)
    requires Enabled(s, MPatch) && AllExact(s) && DistinctGoals(s.queue)
    ensures AllExact(PatchSegment(s))
  {
    if s.segment.Some? {
      var first := Add32(s.segment.value.last, 1);
      AnnouncedExact(s.queue, s.segment.value.last, first);
      hide SegmentEnd, RecordExact, ExactIn, Refers, N.Effect;
      ExactWith(s.hist, SegmentAnnounced(first, SegmentEnd(s.queue, s.segment.value.last), s.queue));
    }
  }

  lemma MoveExact(s: Sched, m: Move)
    requires Enabled(s, m) && AllExact(s) && DistinctGoals(s.queue)
    ensures AllExact(Do(s, m))
  {
    match m
    case MGroup =>
      GroupStarts(s);
      var rec := GroupStarted(s.queue[0].group, false, s.tasks, s.nav);
      StartedExact(rec);
      hide StartGroup, StartedBy, RecordExact, ExactIn;
      ExactWith(s.hist, rec);
    case MInstant =>
      InstantStarts(s);
      var rec := GroupStarted(s.interrupts[0], true, s.tasks, s.nav);
      StartedExact(rec);
      hide StartInstant, StartedBy, RecordExact, ExactIn;
      ExactWith(s.hist, rec);
    case MStep => StepExact(s);
    case MPatch => PatchExact(s);
    case _ =>
      QuietMoves(s, m);
      hide Do, Enabled, ExactIn;
  }

  // What leaves a queue distinct ////////////////////////////////////////////////////////////////

  lemma TailDistinct(items: seq<Item>)
    requires items != [] && DistinctGoals(items)
    ensures DistinctGoals(items[1..])
  {
    var rest := items[1..];
    assert forall i | 0 <= i < |rest| :: rest[i] == items[i + 1];
  }

  /** The steps that are kept on a cancel stand in the queue, in its order. */
  lemma {:induction false} KeptStepAt(items: seq<Item>, k: nat) returns (i: nat)
    requires k < |StepsToStop(items)|
    ensures i < |items| && StepsToStop(items)[k] == items[i] && items[i].Step?
    decreases |items|
  {
    if items[0].Step? && k == 0 {
      i := 0;
    } else {
      i := KeptStepAt(items[1..], if items[0].Step? then k - 1 else k);
      i := i + 1;
    }
  }

  lemma {:induction false} StepsDistinct(items: seq<Item>)
    requires DistinctGoals(items)
    ensures DistinctGoals(StepsToStop(items))
    decreases |items|
  {
    if items != [] {
      TailDistinct(items);
      StepsDistinct(items[1..]);
      var steps := StepsToStop(items[1..]);
      StepsAreSteps(items[1..]);
      if items[0].Step? && !items[0].stopHint {
        forall k | 0 <= k < |steps|
          ensures items[0].goal.seqId != steps[k].goal.seqId
        {
          var i := KeptStepAt(items[1..], k);
          assert items[i + 1] == steps[k];
        }
      }
    }
  }

  lemma MoveKeepsDistinct(s: Sched, m: Move)
    requires Enabled(s, m) && DistinctGoals(s.queue)
    ensures DistinctGoals(Do(s, m).queue)
  {
    assert DistinctGoals([]);
    hide DistinctGoals;
    match m
    case MGroup => TailDistinct(s.queue);
    case MStep => TailDistinct(s.queue);
    case MClear(_) => StepsDistinct(s.queue);
    case MUpdateTasks => UpdateTasksQueue(s);
    case MInstant => InstantStarts(s);
    case _ => hide A.Effect, N.Effect, Keep, A.Next, N.Transfer, WellFormed, SegmentEnd;
  }

  lemma {:induction false} PathExact(s: Sched, ms: seq<Move>, t: Sched)
    requires Path(s, ms, t) && AllExact(s) && DistinctGoals(s.queue)
    ensures AllExact(t) && DistinctGoals(t.queue)
    decreases |ms|
  {
    hide AllExact, Do, Enabled, DistinctGoals;
    if ms != [] {
      MoveExact(s, ms[0]);
      MoveKeepsDistinct(s, ms[0]);
      PathExact(Do(s, ms[0]), ms[1..], t);
    }
  }

  // Runs ////////////////////////////////////////////////////////////////////////////////////////

  lemma NothingExact()
    ensures AllExact(Run([])) && DistinctGoals(Run([]).queue)
  {
  }

  lemma AcceptExact(s: Sched, op: Op)
    requires AllExact(s) && DistinctGoals(s.queue) && (op.OpCommit? ==> DistinctGoals(s.queue + s.staging))
    ensures AllExact(Accept(s, op)) && DistinctGoals(Accept(s, op).queue)
  {
    hide RecordExact, DistinctGoals;
  }

  /** At every commit the goals in the queue differ from each other. */
  ghost predicate CommitsDistinct(ops: seq<Op>)
  {
    forall i | 0 <= i < |ops| && ops[i].OpCommit? :: DistinctGoals(Run(ops[..i]).queue + Run(ops[..i]).staging)
  }

  lemma CommitsDistinctBefore(ops: seq<Op>, n: nat)
    requires CommitsDistinct(ops) && n <= |ops|
    ensures CommitsDistinct(ops[..n])
    ensures n < |ops| && ops[n].OpCommit? ==> DistinctGoals(Run(ops[..n]).queue + Run(ops[..n]).staging)
  {
    hide Run, DistinctGoals;
    forall i | 0 <= i < n && ops[..n][i].OpCommit?
      ensures DistinctGoals(Run(ops[..n][..i]).queue + Run(ops[..n][..i]).staging)
    {
      assert ops[..n][..i] == ops[..i] && ops[i] == ops[..n][i];
    }
  }

  /** In every run whose commits never bring a goal that is in the queue already, with any orders, updates, cancels,
      failures and throws in it, each announced segment leads past no queued blocking group exactly when the queue was
      stopped at that moment. */
  lemma {:induction false} RunSegmentsExactly(ops: seq<Op>)
    requires CommitsDistinct(ops)
    ensures AllExact(Run(ops)) && DistinctGoals(Run(ops).queue)
  {
    hide *;
    if ops == [] {
      NothingExact();
    } else {
      var n := |ops| - 1;
      var s := Run(ops[..n]);
      CommitsDistinctBefore(ops, n);
      RunSegmentsExactly(ops[..n]);
      AcceptExact(s, ops[n]);
      RunLast(ops);
      var ms := PathApply(s, ops[n]);
      PathExact(Accept(s, ops[n]), ms, Run(ops));
    }
  }

  // Runs whose goals ascend /////////////////////////////////////////////////////////////////////

  lemma {:induction false} GoalListed(items: seq<Item>, j: nat)
    requires j < |items| && items[j].Step?
    ensures items[j].goal.seqId in R.Goals(items)
  {
    R.GoalsOfCons(items);
    if j > 0 {
      GoalListed(items[1..], j - 1);
    }
  }

  lemma {:induction false} StrictDistinct(items: seq<Item>, i: nat, j: nat)
    requires Strict(R.Goals(items)) && i < j < |items| && items[i].Step? && items[j].Step?
    ensures items[i].goal.seqId < items[j].goal.seqId
  {
    R.GoalsOfCons(items);
    var rest := R.Goals(items[1..]);
    hide R.Goals;
    if i == 0 {
      GoalListed(items[1..], j - 1);
      var k :| 0 <= k < |rest| && rest[k] == items[j].goal.seqId;
      assert R.Goals(items)[0] == items[0].goal.seqId && R.Goals(items)[k + 1] == rest[k];
    } else {
      var n := |R.Goals(items)| - |rest|;
      assert forall x | 0 <= x < |rest| :: rest[x] == R.Goals(items)[n + x];
      StrictDistinct(items[1..], i - 1, j - 1);
    }
  }

  lemma RouteDistinct(s: Sched, goals: seq<SeqId>)
    requires R.RouteOk(R.Route(s), goals)
    ensures DistinctGoals(s.queue + s.staging)
  {
    var items := s.queue + s.staging;
    var front, mine := Passed(s.out) + R.Driving(s.nav), R.Goals(items);
    R.GoalsAppend(s.queue, s.staging);
    assert R.Route(s) == front + mine;
    hide R.Route, R.Goals, R.Driving, Passed;
    forall x, y | 0 <= x < y < |mine|
      ensures mine[x] < mine[y]
    {
      assert (front + mine)[|front| + x] == mine[x] && (front + mine)[|front| + y] == mine[y];
    }
    forall i, j | 0 <= i < j < |items| && items[i].Step? && items[j].Step?
      ensures items[i].goal.seqId != items[j].goal.seqId
    {
      StrictDistinct(items, i, j);
    }
  }

  lemma {:induction false} GoalsBefore(ops: seq<Op>, n: nat)
    requires n <= |ops| && Strict(R.Goals(EnqueuedItems(ops)))
    ensures Strict(R.Goals(EnqueuedItems(ops[..n])))
  {
    var before, all := EnqueuedItems(ops[..n]), EnqueuedItems(ops);
    EnqueuedPrefix(ops, n);
    assert all == before + all[|before|..];
    R.GoalsAppend(before, all[|before|..]);
    hide EnqueuedItems, R.Goals;
    assert forall i | 0 <= i < |R.Goals(before)| :: R.Goals(before)[i] == R.Goals(all)[i];
  }

  /** A run whose navigation goals ascend commits no goal that is in the queue already. */
  lemma {:induction false} AscendingDistinct(ops: seq<Op>)
    requires Strict(R.Goals(EnqueuedItems(ops)))
    ensures CommitsDistinct(ops)
  {
    forall i | 0 <= i < |ops| && ops[i].OpCommit?
      ensures DistinctGoals(Run(ops[..i]).queue + Run(ops[..i]).staging)
    {
      hide *;
      GoalsBefore(ops, i);
      R.RunRoute(ops[..i]);
      R.FollowsStrictly(R.Route(Run(ops[..i])), R.Goals(EnqueuedItems(ops[..i])));
      RouteDistinct(Run(ops[..i]), R.Goals(EnqueuedItems(ops[..i])));
    }
  }

  /** The same for runs whose navigation goals ascend. */
  lemma {:induction false} AscendingSegmentsExactly(ops: seq<Op>)
    requires Strict(R.Goals(EnqueuedItems(ops)))
    ensures AllExact(Run(ops))
  {
    hide *;
    AscendingDistinct(ops);
    RunSegmentsExactly(ops);
  }
}
