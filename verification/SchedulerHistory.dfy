/** What was started, in which order, and what was live at that moment. */
module SchedulerHistory {
  import opened Vda
  import A = ActionTasks
  import N = NavigationTasks
  import opened SchedulerModel
  import opened SchedulerMoves
  import opened SchedulerAccounts
  import opened SchedulerOwnership
  import opened SchedulerBlocking

  ghost predicate AllEnded(tasks: seq<Task>)
  {
    forall r | 0 <= r < |tasks| :: tasks[r].state.IsTerminal()
  }

  /** No live task blocks driving. */
  ghost predicate LiveNone(tasks: seq<Task>)
  {
    forall r | 0 <= r < |tasks| && !tasks[r].state.IsTerminal() :: tasks[r].action.blocking == NONE
  }

  /** No live instant task blocks driving. */
  ghost predicate LiveInstantsNone(tasks: seq<Task>)
  {
    forall r | 0 <= r < |tasks| && !tasks[r].state.IsTerminal() && tasks[r].instant :: tasks[r].action.blocking == NONE
  }

  /** No live task is HARD. */
  ghost predicate NoneHard(tasks: seq<Task>)
  {
    forall r | 0 <= r < |tasks| && !tasks[r].state.IsTerminal() :: tasks[r].action.blocking != HARD
  }

  // The barrier of the queue ////////////////////////////////////////////////////////////////////

  /** A queued group starts only when every earlier action has ended, and a blocking one only when the
      navigation has ended too. A queued step starts only when the navigation before it has ended
      and no instant action forbids driving. An instant group starts only when no HARD action is live and, if it is HARD
      itself, none at all; one that blocks starts only when the navigation rests or has ended. */
  ghost predicate Guarded(rec: Record)
  {
    match rec
    case GroupStarted(group, instant, before, navBefore) =>
      if instant then
        && (group.ceiling != NONE && navBefore.Some? ==> navBefore.value.state in {N.NavPaused, N.NavResuming})
        && (group.ceiling == HARD ==> AllEnded(before)) && NoneHard(before)
      else AllEnded(before) && (navBefore.Some? ==> group.ceiling == NONE)
    case StepStarted(_, _, _, before, navBefore) =>
      navBefore.None? && LiveInstantsNone(before)
    case SegmentAnnounced(_, _, _) => true
  }

  ghost predicate HistoryGuarded(hist: seq<Record>)
  {
    forall i | 0 <= i < |hist| :: Guarded(hist[i])
  }

  lemma EmptyActiveEnded(s: Sched)
    requires LiveActive(s) && s.active == map[]
    ensures AllEnded(s.tasks)
  {
  }

  lemma EmptyNavIntNone(s: Sched)
    requires InstantsKnown(s) && s.navInt == map[]
    ensures LiveInstantsNone(s.tasks)
  {
  }

  lemma InstantGuarded(s: Sched)
    requires Enabled(s, MInstant) && LiveActive(s)
    ensures Guarded(GroupStarted(s.interrupts[0], true, s.tasks, s.nav))
  {
    var ceiling := s.interrupts[0].ceiling;
    forall r | 0 <= r < |s.tasks| && !s.tasks[r].state.IsTerminal()
      ensures s.tasks[r].action.blocking != HARD && ceiling != HARD
    {
      var id := s.tasks[r].action.id;
      assert id in s.active && s.active[id] == r;
    }
    hide WellFormed;
  }

  lemma MoveGuarded(s: Sched, m: Move)
    requires Enabled(s, m) && Owned(s) && HistoryGuarded(s.hist)
    ensures HistoryGuarded(Do(s, m).hist)
  {
    match m
    case MGroup =>
      EmptyActiveEnded(s);
      GroupStarts(s);
    case MStep =>
      EmptyNavIntNone(s);
      hide N.Effect, SegmentEnd;
    case MInstant =>
      InstantStarts(s);
      InstantGuarded(s);
      hide *;
      OneGuarded(s.hist, GroupStarted(s.interrupts[0], true, s.tasks, s.nav));
    case _ => hide N.Effect, A.Effect, SegmentEnd, ForgetItems, ForgetGroups, StepsToStop;
  }

  lemma OneGuarded(hist: seq<Record>, rec: Record)
    requires HistoryGuarded(hist) && Guarded(rec)
    ensures HistoryGuarded(hist + [rec])
  {
    hide Guarded;
  }

  lemma {:induction false} PathGuarded(s: Sched, ms: seq<Move>, t: Sched)
    requires Path(s, ms, t) && Owned(s) && Distinct(s) && HistoryGuarded(s.hist)
    ensures HistoryGuarded(t.hist)
    decreases |ms|
  {
    hide Owned, Distinct, HistoryGuarded;
    if ms != [] {
      MoveGuarded(s, ms[0]);
      MoveOwned(s, ms[0]);
      MoveDistinct(s, ms[0]);
      PathGuarded(Do(s, ms[0]), ms[1..], t);
    }
  }

  lemma AcceptHist(s: Sched, op: Op)
    ensures Accept(s, op).hist == s.hist
  {
  }

  /** The barrier holds for everything started in any run with unique ids, with cancels, pauses,
      instant actions and throws in it. */
  lemma {:induction false} RunGuarded(ops: seq<Op>)
    requires UniqueIds(ops)
    ensures HistoryGuarded(Run(ops).hist)
  {
    if ops != [] {
      var before, op := ops[..|ops| - 1], ops[|ops| - 1];
      AcceptHist(Run(before), op);
      hide Owned, Distinct, Apply, Accept, UniqueIds, HistoryGuarded;
      LastCall(ops);
      RunGuarded(before);
      var ms := PathApply(Run(before), op);
      PathGuarded(Accept(Run(before), op), ms, Run(ops));
    }
  }

  // First in, first out /////////////////////////////////////////////////////////////////////////

  /** The queued items started so far, oldest first. */
  function StartedItems(hist: seq<Record>): seq<Item>
  {
    if hist == [] then []
    else StartedItems(hist[..|hist| - 1]) + ItemOf(hist[|hist| - 1])
  }

  function ItemOf(rec: Record): seq<Item>
  {
    match rec
    case GroupStarted(group, instant, _, _) => if instant then [] else [Actions(group)]
    case StepStarted(goal, via, stopHint, _, _) => [Step(goal, via, stopHint)]
    case SegmentAnnounced(_, _, _) => []
  }

  lemma {:induction false} StartedItemsOfLast(hist: seq<Record>)
    requires hist != []
    ensures StartedItems(hist) == StartedItems(hist[..|hist| - 1]) + ItemOf(hist[|hist| - 1])
  {
  }

  lemma {:induction false} StartedItemsAppend(a: seq<Record>, b: seq<Record>)
    ensures StartedItems(a + b) == StartedItems(a) + StartedItems(b)
  {
    if b == [] {
      assert a + b == a;
      assert StartedItems(a) + [] == StartedItems(a);
    } else {
      hide *;
      var init := b[..|b| - 1];
      AppendInit(a, b);
      StartedItemsOfLast(b);
      StartedItemsOfLast(a + b);
      StartedItemsAppend(a, init);
      Associative(StartedItems(a), StartedItems(init), ItemOf(b[|b| - 1]));
    }
  }

  lemma StartedItemsOne(rec: Record)
    ensures StartedItems([rec]) == ItemOf(rec)
  {
    assert [rec][..0] == [];
  }

  /** The stream of committed and staged items, in order: started, then queued, then staged. */
  function Stream(s: Sched): seq<Item>
  {
    StartedItems(s.hist) + s.queue + s.staging
  }

  ghost predicate NotFailed(s: Sched)
  {
    s.nav.Some? ==> !s.nav.value.state.NavFailed?
  }

  lemma PopStream(s: Sched, t: Sched, rec: Record)
    requires s.queue != [] && ItemOf(rec) == [s.queue[0]]
    requires t.hist == s.hist + [rec] && t.queue == s.queue[1..] && t.staging == s.staging
    ensures Stream(t) == Stream(s)
  {
    StartedItemsAppend(s.hist, [rec]);
    StartedItemsOne(rec);
    assert s.queue == [s.queue[0]] + s.queue[1..];
    hide StartedItems, ItemOf;
  }

  lemma NoteStream(s: Sched, t: Sched, rec: Record)
    requires ItemOf(rec) == [] && t.hist == s.hist + [rec] && t.queue == s.queue && t.staging == s.staging
    ensures Stream(t) == Stream(s)
  {
    StartedItemsAppend(s.hist, [rec]);
    StartedItemsOne(rec);
    hide StartedItems, ItemOf;
  }

  lemma GroupStream(s: Sched)
    requires Enabled(s, MGroup)
    ensures Stream(StartGroup(s)) == Stream(s)
  {
    var rec := GroupStarted(s.queue[0].group, false, s.tasks, s.nav);
    GroupStarts(s);
    assert ItemOf(rec) == [s.queue[0]];
    assert StartGroup(s).staging == s.staging && StartGroup(s).queue == s.queue[1..];
    hide StartedItems, StartGroup, StartedBy, Stream, ItemOf;
    PopStream(s, StartGroup(s), rec);
  }

  lemma StepStream(s: Sched)
    requires Enabled(s, MStep)
    ensures Stream(StartStep(s)) == Stream(s)
  {
    var t := StartStep(s);
    var rec := StepStarted(s.queue[0].goal, s.queue[0].via, s.queue[0].stopHint, s.tasks, s.nav);
    assert ItemOf(rec) == [s.queue[0]];
    hide StartedItems, N.Effect, SegmentEnd, Stream;
    var u := t.(hist := s.hist + [rec]);
    PopStream(s, u, rec);
    if t.hist != u.hist {
      NoteStream(u, t, t.hist[|u.hist|]);
    }
  }

  lemma InstantStream(s: Sched)
    requires Enabled(s, MInstant)
    ensures Stream(StartInstant(s)) == Stream(s)
  {
    var rec := GroupStarted(s.interrupts[0], true, s.tasks, s.nav);
    InstantStarts(s);
    assert ItemOf(rec) == [];
    assert StartInstant(s).staging == s.staging && StartInstant(s).queue == s.queue;
    hide StartInstant, StartedBy, Stream, ItemOf;
    NoteStream(s, StartInstant(s), rec);
  }

  lemma PatchStream(s: Sched)
    ensures Stream(PatchSegment(s)) == Stream(s)
  {
    var t := PatchSegment(s);
    hide SegmentEnd, Stream;
    if t.hist != s.hist {
      NoteStream(s, t, t.hist[|s.hist|]);
    } else {
      SameStream(s, t);
    }
  }

  lemma SameStream(s: Sched, t: Sched)
    requires t.hist == s.hist && t.queue == s.queue && t.staging == s.staging
    ensures Stream(t) == Stream(s)
  {
  }

  lemma OtherStream(s: Sched, m: Move)
    requires Enabled(s, m) && NotFailed(s)
    requires m.MTask? || m.MNav? || m.MUpdateTasks? || m.MDropNavInt? || m.MEnter? || m.MCancelIdle?
    ensures Stream(Do(s, m)) == Stream(s)
  {
    UpdateTasksRecords(s);
    hide StartedItems, N.Effect, A.Effect, UpdateTasks, Stream, Refers, N.Transfer, A.Next, Keep;
    SameStream(s, Do(s, m));
  }

  lemma NavNotFailed(s: Sched, tr: N.NavTransition)
    requires Enabled(s, MNav(tr)) && NotFailed(s) && tr != N.IsFailed
    ensures NotFailed(Do(s, MNav(tr)))
  {
    hide N.Effect, Refers;
  }

  lemma MoveNotFailed(s: Sched, m: Move)
    requires Enabled(s, m) && NotFailed(s) && m != MNav(N.IsFailed)
    ensures NotFailed(Do(s, m))
  {
    if m.MNav? {
      NavNotFailed(s, m.navTr);
    } else if m.MStep? {
      hide N.Effect, SegmentEnd, Refers;
    } else {
      hide N.Effect, A.Effect, SegmentEnd, UpdateMaps, ForgetItems, ForgetGroups, StepsToStop, Refers, Keep, A.Next;
    }
  }

  lemma {:induction false} PathStream(op: Op, s: Sched, ms: seq<Move>, t: Sched)
    requires Path(s, ms, t) && Within(op, ms) && NotFailed(s)
    requires !op.OpCancel? && op != OpNavigation(N.IsFailed)
    ensures Stream(t) == Stream(s) && NotFailed(t)
    decreases |ms|
  {
    hide Stream, NotFailed, Do, Enabled, Within;
    if ms != [] {
      WithinFirst(op, ms);
      MoveStream(s, ms[0]);
      PathStream(op, Do(s, ms[0]), ms[1..], t);
    }
  }

  lemma WithinFirst(op: Op, ms: seq<Move>)
    requires Within(op, ms) && ms != [] && !op.OpCancel? && op != OpNavigation(N.IsFailed)
    ensures !ms[0].MClear? && ms[0] != MNav(N.IsFailed) && Within(op, ms[1..])
  {
    assert ms[0] in ms && forall x | x in ms[1..] :: x in ms;
  }

  lemma MoveStream(s: Sched, m: Move)
    requires Enabled(s, m) && !m.MClear? && m != MNav(N.IsFailed) && NotFailed(s)
    ensures Stream(Do(s, m)) == Stream(s) && NotFailed(Do(s, m))
  {
    MoveNotFailed(s, m);
    match m
    case MGroup =>
      GroupStream(s);
      DoGroup(s);
      hide *;
    case MStep =>
      StepStream(s);
      DoStep(s);
      hide *;
    case MInstant =>
      InstantStream(s);
      DoInstant(s);
      hide *;
    case MPatch =>
      PatchStream(s);
      DoPatch(s);
      hide *;
    case _ =>
      OtherStream(s, m);
      hide *;
  }

  lemma DoGroup(s: Sched)
    requires Enabled(s, MGroup)
    ensures s.queue != [] && s.queue[0].Actions? && Do(s, MGroup) == StartGroup(s)
  {
    hide StartGroup, Refers, GroupReady;
  }

  lemma DoStep(s: Sched)
    requires Enabled(s, MStep)
    ensures s.queue != [] && s.queue[0].Step? && Do(s, MStep) == StartStep(s)
  {
    hide StartStep, Refers, StepReady;
  }

  lemma DoInstant(s: Sched)
    requires Enabled(s, MInstant)
    ensures s.interrupts != [] && Do(s, MInstant) == StartInstant(s)
  {
    hide StartInstant, Refers, InstantReady;
  }

  lemma DoPatch(s: Sched)
    requires Enabled(s, MPatch)
    ensures Do(s, MPatch) == PatchSegment(s)
  {
    hide PatchSegment, Refers;
  }

  /** The items handed over by a run, in order. */
  function EnqueuedItems(ops: seq<Op>): seq<Item>
  {
    if ops == [] then []
    else
      var op := ops[|ops| - 1];
      EnqueuedItems(ops[..|ops| - 1]) + (if op.OpEnqueue? then [op.item] else [])
  }

  lemma {:induction false} EnqueuedPrefix(ops: seq<Op>, i: nat)
    requires i <= |ops|
    ensures EnqueuedItems(ops[..i]) <= EnqueuedItems(ops)
  {
    if i < |ops| {
      EnqueuedPrefix(ops[..|ops| - 1], i);
      assert ops[..|ops| - 1][..i] == ops[..i];
    } else {
      assert ops[..i] == ops;
    }
  }

  lemma AcceptStream(s: Sched, op: Op)
    ensures Stream(Accept(s, op)) == Stream(s) + if op.OpEnqueue? then [op.item] else []
  {
    hide StartedItems;
  }

  /** First in, first out: in every run without a cancel and without a navigation failure, the items
      started so far, the receive queue and the staged items are together exactly the items
      handed over, in their order. */
  lemma {:induction false} RunFifo(ops: seq<Op>)
    requires forall i | 0 <= i < |ops| :: !ops[i].OpCancel? && ops[i] != OpNavigation(N.IsFailed)
    ensures StartedItems(Run(ops).hist) + Run(ops).queue + Run(ops).staging == EnqueuedItems(ops)
    ensures NotFailed(Run(ops))
  {
    if ops != [] {
      var before, op := ops[..|ops| - 1], ops[|ops| - 1];
      RunFifo(before);
      AcceptStream(Run(before), op);
      assert NotFailed(Accept(Run(before), op));
      hide Apply, Accept, StartedItems, NotFailed;
      var ms := PathApply(Run(before), op);
      PathStream(op, Accept(Run(before), op), ms, Run(ops));
    }
  }
}
