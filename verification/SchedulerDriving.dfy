/** Nothing drives during a blocking action, as long as the recorded blocking type can be trusted. */
module SchedulerDriving {
  import opened Vda
  import N = NavigationTasks
  import opened SchedulerModel
  import O = SchedulerOperations
  import opened SchedulerMoves
  import opened SchedulerAccounts
  import opened SchedulerOwnership
  import opened SchedulerBlocking
  import opened SchedulerHistory

  // What explains a step beside a live blocking action //////////////////////////////////////////

  /** A live action that must not run while the vehicle drives. */
  ghost predicate Bars(tasks: seq<Task>, r: nat)
  {
    r < |tasks| && !tasks[r].state.IsTerminal() && tasks[r].action.blocking != NONE
  }

  /** The record of the group started last. */
  function LastGroup(hist: seq<Record>): Option<Record>
  {
    if hist == [] then None
    else if hist[|hist| - 1].GroupStarted? then Some(hist[|hist| - 1])
    else LastGroup(hist[..|hist| - 1])
  }

  /** The group started last is an instant group of ceiling NONE that was started while the action was live. */
  ghost predicate Overlooked(hist: seq<Record>, r: nat)
  {
    match LastGroup(hist)
    case Some(GroupStarted(group, instant, before, _)) => instant && group.ceiling == NONE && Bars(before, r)
    case _ => false
  }

  /** An instant group with ceiling NONE was started while no live action blocked driving. */
  ghost predicate InstantSafe(rec: Record)
  {
    rec.GroupStarted? && rec.instant ==> rec.group.ceiling != NONE || LiveNone(rec.before)
  }

  /** A blocking type of NONE can be trusted. */
  ghost predicate BlockingTrusted(s: Sched)
  {
    s.blocking == NONE ==> LiveNone(s.tasks)
  }

  /** The exact effect of an instant group: the blocking type can be trusted after its start if and
      only if the group forbids driving or nothing live did. */
  lemma InstantTrusted(s: Sched)
    requires Enabled(s, MInstant) && CeilingOk(s.interrupts[0])
    ensures BlockingTrusted(StartInstant(s)) <==> s.interrupts[0].ceiling != NONE || LiveNone(s.tasks)
  {
    var t := StartInstant(s);
    var g := s.interrupts[0];
    InstantStarts(s);
    assert t.blocking == g.ceiling;
    hide StartInstant;
    if !LiveNone(s.tasks) {
      var r :| 0 <= r < |s.tasks| && !s.tasks[r].state.IsTerminal() && s.tasks[r].action.blocking != NONE;
      assert t.tasks[r] == s.tasks[r];
    }
  }

  lemma GroupTrusted(s: Sched)
    requires Enabled(s, MGroup) && Owned(s) && CeilingsOk(s)
    ensures StartGroup(s).blocking == s.queue[0].group.ceiling
    ensures BlockingTrusted(StartGroup(s))
  {
    var t := StartGroup(s);
    var g := s.queue[0].group;
    GroupStarts(s);
    EmptyActiveEnded(s);
    assert ItemOk(s.queue[0]);
    hide StartAll;
    assert forall r | 0 <= r < |s.tasks| :: t.tasks[r] == s.tasks[r];
    forall r | 0 <= r < |t.tasks| && !t.tasks[r].state.IsTerminal() && t.blocking == NONE
      ensures t.tasks[r].action.blocking == NONE
    {
      assert r >= |s.tasks|;
    }
  }

  lemma ReadyNone(s: Sched)
    requires StepReady(s) && Owned(s) && BlockingTrusted(s)
    ensures LiveNone(s.tasks)
  {
    if s.active == map[] {
      EmptyActiveEnded(s);
    }
  }

  lemma {:induction false} BlockingStays(s: Sched, ms: seq<Move>, t: Sched)
    requires Path(s, ms, t) && forall m | m in ms :: !m.MGroup? && !m.MInstant?
    ensures t.blocking == s.blocking
    decreases |ms|
  {
    if ms != [] {
      assert ms[0] in ms && forall m | m in ms[1..] :: m in ms;
      MoveKeepsBlocking(s, ms[0]);
      hide Do, Enabled;
      BlockingStays(Do(s, ms[0]), ms[1..], t);
    }
  }

  lemma MoveKeepsBlocking(s: Sched, m: Move)
    requires Enabled(s, m) && !m.MGroup? && !m.MInstant?
    ensures Do(s, m).blocking == s.blocking
  {
    if m.MStep? {
      DoStep(s);
      O.DriveIs(s);
    } else if m.MPatch? {
      DoPatch(s);
      O.PatchIs(s);
    } else {
      QuietMoves(s, m);
    }
    hide Do, Enabled, StartStep, PatchSegment, SegmentEnd;
  }

  /** After an instant group that leaves the blocking type untrustworthy, and until the next group starts, no active
      action keeps a step from starting. */
  lemma UntrustedStarts(s: Sched, ms: seq<Move>, t: Sched)
    requires Enabled(s, MInstant) && !BlockingTrusted(StartInstant(s))
    requires Path(StartInstant(s), ms, t) && forall m | m in ms :: !m.MGroup? && !m.MInstant?
    ensures StepReady(t) <==> t.nav.None? && t.navInt == map[]
  {
    BlockingStays(StartInstant(s), ms, t);
    hide StartInstant, Path, WellFormed, LiveNone;
  }

  // Exactly when a step starts beside a live blocking action ////////////////////////////////////

  /** Where the blocking type would let a step start, each live blocking action was overlooked by the group started
      last; and so it was where a step was started. */
  ghost predicate Explained(s: Sched)
  {
    && (s.blocking == NONE ==> forall r | Bars(s.tasks, r) :: Overlooked(s.hist, r))
    && (forall i | 0 <= i < |s.hist| :: StepExplained(s.hist, i))
  }

  ghost predicate StepExplained(hist: seq<Record>, i: nat)
    requires i < |hist|
  {
    hist[i].StepStarted? ==> forall r | Bars(hist[i].before, r) :: Overlooked(hist[..i], r)
  }

  /** The tasks a record saw have kept their actions. */
  ghost predicate Kept(rec: Record, tasks: seq<Task>)
  {
    !rec.SegmentAnnounced? ==>
      |rec.before| <= |tasks| && forall r | 0 <= r < |rec.before| :: rec.before[r].action == tasks[r].action
  }

  ghost predicate AllKept(s: Sched)
  {
    forall i | 0 <= i < |s.hist| :: Kept(s.hist[i], s.tasks)
  }

  lemma {:induction false} LastGroupMore(hist: seq<Record>, rec: Record)
    ensures LastGroup(hist + [rec]) == if rec.GroupStarted? then Some(rec) else LastGroup(hist)
  {
    assert (hist + [rec])[..|hist|] == hist;
  }

  lemma StepExplainedMore(hist: seq<Record>, more: seq<Record>, i: nat)
    requires i < |hist|
    ensures StepExplained(hist + more, i) <==> StepExplained(hist, i)
  {
    assert (hist + more)[..i] == hist[..i] && (hist + more)[i] == hist[i];
  }

  /** The live blocking tasks only get fewer, and their actions stay. */
  ghost predicate Fewer(a: seq<Task>, b: seq<Task>)
  {
    && |a| == |b| && (forall r | 0 <= r < |a| :: a[r].action == b[r].action)
    && (forall r | 0 <= r < |a| && a[r].state.IsTerminal() :: b[r].state.IsTerminal())
  }

  lemma FewerExplained(s: Sched, t: Sched)
    requires Explained(s) && Fewer(s.tasks, t.tasks) && t.hist == s.hist && t.blocking == s.blocking
    ensures Explained(t)
  {
    hide Overlooked, StepExplained;
    forall r | Bars(t.tasks, r)
      ensures Bars(s.tasks, r)
    {
    }
  }

  lemma NotedExplained(s: Sched, t: Sched, rec: Record)
    requires Explained(s) && t.tasks == s.tasks && t.blocking == s.blocking && t.hist == s.hist + [rec]
    requires rec.SegmentAnnounced? || (rec.StepStarted? && forall r | Bars(rec.before, r) :: Overlooked(s.hist, r))
    ensures Explained(t)
  {
    LastGroupMore(s.hist, rec);
    hide Bars, LastGroup;
    forall i | 0 <= i < |t.hist|
      ensures StepExplained(t.hist, i)
    {
      if i < |s.hist| {
        StepExplainedMore(s.hist, [rec], i);
      } else {
        assert t.hist[..i] == s.hist;
      }
    }
  }

  lemma GroupNoted(s: Sched, t: Sched, rec: Record)
    requires Explained(s) && rec.GroupStarted? && t.hist == s.hist + [rec]
    requires t.blocking == NONE ==> forall r | Bars(t.tasks, r) ::
                                      rec.instant && rec.group.ceiling == NONE && Bars(rec.before, r)
    ensures Explained(t)
  {
    LastGroupMore(s.hist, rec);
    hide Bars, LastGroup;
    forall i | 0 <= i < |t.hist|
      ensures StepExplained(t.hist, i)
    {
      if i < |s.hist| {
        StepExplainedMore(s.hist, [rec], i);
      }
    }
  }

  lemma GroupExplained(s: Sched)
    requires Enabled(s, MGroup) && Owned(s) && CeilingsOk(s) && Explained(s)
    ensures Explained(StartGroup(s))
  {
    var t := StartGroup(s);
    GroupStarts(s);
    GroupTrusted(s);
    hide StartGroup, StartedBy, Explained, Owned, CeilingsOk;
    GroupNoted(s, t, GroupStarted(s.queue[0].group, false, s.tasks, s.nav));
  }

  lemma NoneBars(g: Group, a: Action)
    requires CeilingOk(g) && g.ceiling == NONE && a in g.actions
    ensures a.blocking == NONE
  {
  }

  lemma InstantBars(s: Sched, r: nat)
    requires Enabled(s, MInstant) && CeilingOk(s.interrupts[0])
    requires s.interrupts[0].ceiling == NONE && Bars(StartInstant(s).tasks, r)
    ensures Bars(s.tasks, r)
  {
    var t := StartInstant(s);
    InstantStarts(s);
    hide StartInstant, CeilingOk;
    if r >= |s.tasks| {
      NoneBars(s.interrupts[0], t.tasks[r].action);
    } else {
      assert t.tasks[r] == s.tasks[r];
    }
  }

  lemma InstantExplained(s: Sched)
    requires Enabled(s, MInstant) && CeilingsOk(s) && Explained(s)
    ensures Explained(StartInstant(s))
  {
    var t := StartInstant(s);
    var g := s.interrupts[0];
    InstantStarts(s);
    assert t.blocking == g.ceiling && CeilingOk(g);
    hide StartInstant, StartedBy, Explained, CeilingOk, Bars, CeilingsOk;
    if g.ceiling == NONE {
      forall r | Bars(t.tasks, r)
        ensures Bars(s.tasks, r)
      {
        InstantBars(s, r);
      }
    }
    GroupNoted(s, t, GroupStarted(g, true, s.tasks, s.nav));
  }

  lemma ReadyExplained(s: Sched, r: nat)
    requires StepReady(s) && Owned(s) && Explained(s) && Bars(s.tasks, r)
    ensures Overlooked(s.hist, r)
  {
    if s.active == map[] {
      EmptyActiveEnded(s);
    }
    hide Overlooked, StepExplained;
  }

  lemma StepIs(s: Sched)
    requires Enabled(s, MStep)
    ensures var t, step := StartStep(s), s.queue[0];
            var started := StepStarted(step.goal, step.via, step.stopHint, s.tasks, s.nav);
            && t.tasks == s.tasks && t.blocking == s.blocking
            && (t.hist == s.hist + [started] ||
                (t.segment.Some? && t.hist == s.hist + [started] +
                                     [SegmentAnnounced(t.segment.value.first, t.segment.value.last, s.queue)]))
  {
    StepEnabled(s);
    O.DriveIs(s);
    hide *;
    var step := s.queue[0];
    var hist := s.hist + [StepStarted(step.goal, step.via, step.stopHint, s.tasks, s.nav)];
    assert hist + [] == hist;
  }

  lemma StepKeepsExplained(s: Sched)
    requires Enabled(s, MStep) && Owned(s) && Explained(s)
    ensures Explained(StartStep(s))
  {
    var t, step := StartStep(s), s.queue[0];
    var started := StepStarted(step.goal, step.via, step.stopHint, s.tasks, s.nav);
    StepIs(s);
    hide StartStep, Explained, Overlooked, Owned, Bars, WellFormed;
    forall r | Bars(s.tasks, r)
      ensures Overlooked(s.hist, r)
    {
      ReadyExplained(s, r);
    }
    var u := s.(hist := s.hist + [started]);
    NotedExplained(s, u, started);
    if t.hist == u.hist {
      FewerExplained(u, t);
    } else {
      NotedExplained(u, t, SegmentAnnounced(t.segment.value.first, t.segment.value.last, s.queue));
    }
  }

  lemma PatchKeepsExplained(s: Sched)
    requires Explained(s)
    ensures Explained(PatchSegment(s)) && Fewer(s.tasks, PatchSegment(s).tasks)
  {
    var t := PatchSegment(s);
    hide SegmentEnd, Explained;
    if t.hist == s.hist {
      FewerExplained(s, t);
    } else {
      assert t.hist == s.hist + [t.hist[|s.hist|]];
      NotedExplained(s, t, t.hist[|s.hist|]);
    }
  }

  lemma OthersFewer(s: Sched, m: Move)
    requires Enabled(s, m) && !m.MGroup? && !m.MInstant? && !m.MStep? && !m.MPatch?
    ensures var t := Do(s, m); Fewer(s.tasks, t.tasks) && t.hist == s.hist && t.blocking == s.blocking
  {
    QuietMoves(s, m);
    hide Do, Enabled;
  }

  lemma MoveExplained(s: Sched, m: Move)
    requires Enabled(s, m) && Owned(s) && CeilingsOk(s) && Explained(s)
    ensures Explained(Do(s, m))
  {
    hide Owned, CeilingsOk, Explained, StartGroup, StartInstant, StartStep, PatchSegment, GroupReady, InstantReady,
      StepReady, WellFormed, SetTask, SetNav, UpdateTasks, DropNavInt, ClearQueues, Enter, Fewer;
    match m
    case MGroup => GroupExplained(s);
    case MInstant => InstantExplained(s);
    case MStep => StepKeepsExplained(s);
    case MPatch => PatchKeepsExplained(s);
    case _ =>
      OthersFewer(s, m);
      FewerExplained(s, Do(s, m));
  }

  // Recorded tasks keep their actions ///////////////////////////////////////////////////////////

  lemma KeptMore(s: Sched, t: Sched)
    requires AllKept(s) && s.hist <= t.hist && |s.tasks| <= |t.tasks|
    requires forall r | 0 <= r < |s.tasks| :: t.tasks[r].action == s.tasks[r].action
    requires forall i | |s.hist| <= i < |t.hist| :: t.hist[i].SegmentAnnounced? || t.hist[i].before == s.tasks
    ensures AllKept(t)
  {
    forall i | 0 <= i < |t.hist|
      ensures Kept(t.hist[i], t.tasks)
    {
      if i < |s.hist| {
        assert t.hist[i] == s.hist[i] && Kept(s.hist[i], s.tasks);
      }
    }
  }

  lemma MoveKept(s: Sched, m: Move)
    requires Enabled(s, m) && AllKept(s)
    ensures AllKept(Do(s, m))
  {
    hide AllKept, StartGroup, StartInstant, StartStep, GroupReady, InstantReady, StepReady, WellFormed, SetTask,
      SetNav, UpdateTasks, DropNavInt, ClearQueues, Enter, SegmentEnd;
    match m
    case MGroup => GroupStarts(s); KeptMore(s, Do(s, m));
    case MInstant => InstantStarts(s); KeptMore(s, Do(s, m));
    case MStep => StepIs(s); KeptMore(s, Do(s, m));
    case MPatch => KeptMore(s, Do(s, m));
    case _ => OthersFewer(s, m); KeptMore(s, Do(s, m));
  }

  ghost predicate Steady(s: Sched)
  {
    Owned(s) && Distinct(s) && Exclusive(s)
  }

  lemma MoveSteady(s: Sched, m: Move)
    requires Enabled(s, m) && Steady(s)
    ensures Steady(Do(s, m))
  {
    MoveOwned(s, m);
    MoveDistinct(s, m);
    MoveExclusive(s, m);
  }

  lemma {:induction false} PathExplained(s: Sched, ms: seq<Move>, t: Sched)
    requires Path(s, ms, t) && Steady(s) && Explained(s) && AllKept(s)
    ensures Explained(t) && AllKept(t)
    decreases |ms|
  {
    if ms != [] {
      MoveExplained(s, ms[0]);
      MoveKept(s, ms[0]);
      MoveSteady(s, ms[0]);
      hide Steady, Explained, AllKept, Do, Enabled;
      PathExplained(Do(s, ms[0]), ms[1..], t);
    }
  }

  lemma AcceptSteady(ops: seq<Op>)
    requires UniqueIds(ops) && ops != [] && forall i | 0 <= i < |ops| :: OpCeilingOk(ops[i])
    ensures Steady(Accept(Run(ops[..|ops| - 1]), ops[|ops| - 1]))
  {
    var before, op := ops[..|ops| - 1], ops[|ops| - 1];
    LastCall(ops);
    RunExclusive(before);
    AcceptExclusive(Run(before), op);
    hide Owned, Distinct, Exclusive, Apply, Accept;
  }

  lemma AcceptExplained(s: Sched, op: Op)
    requires Explained(s) && AllKept(s)
    ensures Explained(Accept(s, op)) && AllKept(Accept(s, op))
  {
    hide Overlooked, StepExplained, Kept;
  }

  lemma NothingExplained()
    ensures Explained(Run([])) && AllKept(Run([]))
  {
  }

  lemma {:induction false} RunExplained(ops: seq<Op>)
    requires UniqueIds(ops) && forall i | 0 <= i < |ops| :: OpCeilingOk(ops[i])
    ensures Explained(Run(ops)) && AllKept(Run(ops))
  {
    if ops == [] {
      NothingExplained();
    } else {
      var before, op := ops[..|ops| - 1], ops[|ops| - 1];
      hide Owned, Distinct, Steady, Explained, AllKept, Apply, Accept, OpCeilingOk;
      LastCall(ops);
      RunExplained(before);
      AcceptSteady(ops);
      AcceptExplained(Run(before), op);
      var ms := PathApply(Run(before), op);
      PathExplained(Accept(Run(before), op), ms, Run(ops));
    }
  }

  lemma {:induction false} LastGroupListed(hist: seq<Record>) returns (j: nat)
    requires LastGroup(hist).Some?
    ensures j < |hist| && hist[j].GroupStarted? && LastGroup(hist) == Some(hist[j])
    ensures forall k | j < k < |hist| :: !hist[k].GroupStarted?
  {
    if hist[|hist| - 1].GroupStarted? {
      j := |hist| - 1;
    } else {
      j := LastGroupListed(hist[..|hist| - 1]);
    }
  }

  lemma OverlookedBars(hist: seq<Record>, i: nat, r: nat, tasks: seq<Task>)
    requires i < |hist| && hist[i].StepStarted? && r < |hist[i].before| && Overlooked(hist[..i], r)
    requires forall k | 0 <= k < |hist| :: Kept(hist[k], tasks)
    ensures hist[i].before[r].action.blocking != NONE
  {
    var j := LastGroupListed(hist[..i]);
    assert hist[..i][j] == hist[j];
    assert Kept(hist[j], tasks) && Kept(hist[i], tasks);
    hide LastGroup;
  }

  /** Exactly when a navigation step was started while a SOFT or HARD action was live, in every run: the action had not
      ended, and the group started last before the step was an instant group of ceiling NONE that was itself started
      while that action was live. */
  lemma {:induction false} StepsStartExactly(ops: seq<Op>, i: nat, r: nat)
    requires UniqueIds(ops) && forall k | 0 <= k < |ops| :: OpCeilingOk(ops[k])
    requires i < |Run(ops).hist| && Run(ops).hist[i].StepStarted? && r < |Run(ops).hist[i].before|
    ensures var hist := Run(ops).hist;
            Bars(hist[i].before, r) <==>
              !hist[i].before[r].state.IsTerminal() && Overlooked(hist[..i], r)
  {
    RunExplained(ops);
    var hist := Run(ops).hist;
    assert StepExplained(hist, i);
    if Overlooked(hist[..i], r) {
      OverlookedBars(hist, i, r, Run(ops).tasks);
    }
    hide Run, UniqueIds, OpCeilingOk, Overlooked;
  }

  /** A step starts clear of live blocking actions unless the group started last is an instant group of ceiling NONE
      that was started beside one. */
  lemma {:induction false} StepsStartClear(ops: seq<Op>, i: nat)
    requires UniqueIds(ops) && forall k | 0 <= k < |ops| :: OpCeilingOk(ops[k])
    requires i < |Run(ops).hist| && Run(ops).hist[i].StepStarted?
    requires LastGroup(Run(ops).hist[..i]).Some? ==> InstantSafe(LastGroup(Run(ops).hist[..i]).value)
    ensures LiveNone(Run(ops).hist[i].before)
  {
    var hist := Run(ops).hist;
    forall r | 0 <= r < |hist[i].before| && !hist[i].before[r].state.IsTerminal()
      ensures hist[i].before[r].action.blocking == NONE
    {
      StepsStartExactly(ops, i, r);
      hide Run, LastGroup, UniqueIds, OpCeilingOk;
    }
    hide Run, LastGroup, UniqueIds, OpCeilingOk;
  }

  // Runs without instant groups /////////////////////////////////////////////////////////////////

  /** While a navigation task exists, no live action blocks driving. */
  ghost predicate NoBlockedDriving(s: Sched)
  {
    && s.interrupts == []
    && BlockingTrusted(s)
    && (s.nav.Some? ==> LiveNone(s.tasks))
  }

  lemma LiveNoneShrinks(s: Sched, t: Sched)
    requires LiveNone(s.tasks) && |t.tasks| == |s.tasks|
    requires forall r | 0 <= r < |s.tasks| ::
              (t.tasks[r].action == s.tasks[r].action &&
               (s.tasks[r].state.IsTerminal() ==> t.tasks[r].state.IsTerminal()))
    ensures LiveNone(t.tasks)
  {
  }

  lemma DrivingParts(s: Sched)
    requires NoBlockedDriving(s)
    ensures s.interrupts == [] && BlockingTrusted(s) && (s.nav.Some? ==> LiveNone(s.tasks))
  {
    hide BlockingTrusted, LiveNone;
  }

  lemma DrivingEnough(s: Sched)
    requires s.interrupts == [] && BlockingTrusted(s) && (s.nav.Some? ==> LiveNone(s.tasks))
    ensures NoBlockedDriving(s)
  {
    hide BlockingTrusted, LiveNone;
  }

  lemma SteadyParts(s: Sched)
    requires Steady(s)
    ensures Owned(s) && CeilingsOk(s)
  {
    hide Owned, Distinct, CeilingsOk, Batched, HardExclusive, WellFormed;
  }

  lemma NoInstant(s: Sched)
    requires s.interrupts == []
    ensures !Enabled(s, MInstant)
  {
  }

  lemma OthersTrusted(s: Sched, t: Sched)
    requires Fewer(s.tasks, t.tasks) && t.blocking == s.blocking && BlockingTrusted(s)
    ensures BlockingTrusted(t) && (LiveNone(s.tasks) ==> LiveNone(t.tasks))
  {
    if LiveNone(s.tasks) {
      LiveNoneShrinks(s, t);
    }
    hide LiveNone;
  }

  lemma PatchDrives(s: Sched)
    requires Enabled(s, MPatch)
    ensures var t := Do(s, MPatch);
            && t.interrupts == s.interrupts && t.tasks == s.tasks && (t.nav.Some? <==> s.nav.Some?)
            && (BlockingTrusted(s) ==> BlockingTrusted(t))
  {
    O.PatchIs(s);
    hide PatchSegment, SegmentEnd, Refers, LiveNone;
  }

  lemma StepDrives(s: Sched)
    requires Enabled(s, MStep)
    ensures var t := Do(s, MStep);
            && t.interrupts == s.interrupts && t.tasks == s.tasks && (BlockingTrusted(s) ==> BlockingTrusted(t))
  {
    O.DriveIs(s);
    hide StartStep, SegmentEnd, Refers, LiveNone, StepReady, N.Effect;
  }

  lemma GroupDrives(s: Sched)
    requires Enabled(s, MGroup) && BlockingTrusted(StartGroup(s))
    ensures Do(s, MGroup) == StartGroup(s) && Do(s, MGroup).interrupts == s.interrupts
    ensures Do(s, MGroup).nav.Some? ==> LiveNone(Do(s, MGroup).tasks)
  {
    O.GroupIs(s);
    assert StartGroup(s).nav == s.nav && StartGroup(s).blocking == s.queue[0].group.ceiling
           && StartGroup(s).interrupts == s.interrupts by {
      hide Refers, LiveNone;
    }
    hide StartGroup, StartAll, LiveNone;
  }

  lemma MoveNoBlockedDriving(s: Sched, m: Move)
    requires Enabled(s, m) && Steady(s) && NoBlockedDriving(s)
    ensures NoBlockedDriving(Do(s, m))
  {
    var t := Do(s, m);
    hide *;
    DrivingParts(s);
    SteadyParts(s);
    if m.MGroup? {
      GroupTrusted(s);
      GroupDrives(s);
      DrivingEnough(t);
    } else if m.MStep? {
      StepEnabled(s);
      ReadyNone(s);
      StepDrives(s);
      DrivingEnough(t);
    } else if m.MInstant? {
      NoInstant(s);
    } else if m.MPatch? {
      PatchDrives(s);
      DrivingEnough(t);
    } else {
      OthersFewer(s, m);
      QuietMoves(s, m);
      OthersTrusted(s, t);
      DrivingEnough(t);
    }
  }

  lemma {:induction false} PathNoBlockedDriving(s: Sched, ms: seq<Move>, t: Sched)
    requires Path(s, ms, t) && Steady(s) && NoBlockedDriving(s)
    ensures NoBlockedDriving(t)
    decreases |ms|
  {
    if ms != [] {
      MoveNoBlockedDriving(s, ms[0]);
      MoveSteady(s, ms[0]);
      hide Steady, NoBlockedDriving;
      PathNoBlockedDriving(Do(s, ms[0]), ms[1..], t);
    }
  }

  lemma AcceptNoBlockedDriving(s: Sched, op: Op)
    requires NoBlockedDriving(s) && !op.OpInterrupt?
    ensures NoBlockedDriving(Accept(s, op))
  {
  }

  /** In every run without instant groups, no SOFT or HARD action is live while a navigation task
      exists. */
  lemma {:induction false} RunNoBlockedDriving(ops: seq<Op>)
    requires UniqueIds(ops) && forall i | 0 <= i < |ops| :: OpCeilingOk(ops[i])
    requires forall i | 0 <= i < |ops| :: !ops[i].OpInterrupt?
    ensures NoBlockedDriving(Run(ops))
  {
    if ops != [] {
      var before, op := ops[..|ops| - 1], ops[|ops| - 1];
      hide Owned, Distinct, Steady, NoBlockedDriving, Apply, Accept;
      LastCall(ops);
      RunNoBlockedDriving(before);
      AcceptSteady(ops);
      AcceptNoBlockedDriving(Run(before), op);
      var ms := PathApply(Run(before), op);
      PathNoBlockedDriving(Accept(Run(before), op), ms, Run(ops));
    }
  }
}
