/** Blocking types: active HARD actions never run beside those of another group. */
module SchedulerBlocking {
  import opened Vda
  import A = ActionTasks
  import N = NavigationTasks
  import opened SchedulerModel
  import opened SchedulerMoves
  import opened SchedulerOwnership

  // Starting a group ////////////////////////////////////////////////////////////////////////////

  /** The tasks of t beyond those of s were started for one group, and everything else active in t
      was active in s. */
  ghost predicate StartedBy(s: Sched, t: Sched, actions: seq<Action>, batch: nat, instant: bool)
  {
    && s.tasks <= t.tasks
    && (forall r | |s.tasks| <= r < |t.tasks| ::
          t.tasks[r].batch == batch && t.tasks[r].instant == instant && t.tasks[r].action in actions)
    && (forall id | id in t.active :: t.active[id] < |t.tasks|)
    && (forall id | id in t.active && t.active[id] < |s.tasks| :: id in s.active && s.active[id] == t.active[id])
  }

  lemma {:induction false} StartAllStarts(s: Sched, actions: seq<Action>, batch: nat, instant: bool)
    requires WellFormed(s)
    ensures StartedBy(s, StartAll(s, actions, batch, instant), actions, batch, instant)
    decreases |actions|
  {
    hide A.Effect;
    if actions != [] {
      var u := StartAction(s, actions[0], batch, instant);
      StartAllStarts(u, actions[1..], batch, instant);
      var t := StartAll(s, actions, batch, instant);
      assert s.tasks <= u.tasks <= t.tasks;
      assert u.tasks[|s.tasks|] == t.tasks[|s.tasks|];
      forall r | |s.tasks| <= r < |t.tasks|
        ensures t.tasks[r].batch == batch && t.tasks[r].instant == instant && t.tasks[r].action in actions
      {
        if r > |s.tasks| {
          assert t.tasks[r].action in actions[1..];
        }
      }
    }
  }

  // Which group a task belongs to ///////////////////////////////////////////////////////////////

  ghost predicate Member(t: Task, hist: seq<Record>)
  {
    && t.batch < |hist| && hist[t.batch].GroupStarted?
    && hist[t.batch].instant == t.instant && t.action in hist[t.batch].group.actions
  }

  /** Every task is a member of the group that was started for it. */
  ghost predicate Batched(s: Sched)
  {
    forall r | 0 <= r < |s.tasks| :: Member(s.tasks[r], s.hist)
  }

  lemma MemberStays(t: Task, hist: seq<Record>, more: seq<Record>)
    requires Member(t, hist)
    ensures Member(t, hist + more)
  {
  }

  lemma StartedBatched(s: Sched, t: Sched, g: Group, instant: bool)
    requires Batched(s) && StartedBy(s, t, g.actions, |s.hist|, instant)
    requires t.hist == s.hist + [GroupStarted(g, instant, s.tasks, s.nav)]
    ensures Batched(t)
  {
    forall r | 0 <= r < |t.tasks|
      ensures Member(t.tasks[r], t.hist)
    {
      if r < |s.tasks| {
        assert t.tasks[r] == s.tasks[r];
        MemberStays(s.tasks[r], s.hist, [GroupStarted(g, instant, s.tasks, s.nav)]);
      }
    }
  }

  // The invariant ///////////////////////////////////////////////////////////////////////////////

  ghost predicate ItemOk(item: Item)
  {
    item.Actions? ==> CeilingOk(item.group)
  }

  /** Every queued group carries the ceiling of its members. */
  ghost predicate CeilingsOk(s: Sched)
  {
    && (forall i | 0 <= i < |s.queue| :: ItemOk(s.queue[i]))
    && (forall i | 0 <= i < |s.staging| :: ItemOk(s.staging[i]))
    && (forall i | 0 <= i < |s.interrupts| :: CeilingOk(s.interrupts[i]))
  }

  function BlockingOf(s: Sched, id: ActionId): BlockingType
    requires id in s.active && s.active[id] < |s.tasks|
  {
    s.tasks[s.active[id]].action.blocking
  }

  /** If an active action is HARD, all active actions belong to its group. */
  ghost predicate HardExclusive(s: Sched)
    requires WellFormed(s)
  {
    forall id, other | id in s.active && other in s.active && BlockingOf(s, id) == HARD ::
      s.tasks[s.active[id]].batch == s.tasks[s.active[other]].batch
  }

  ghost predicate Exclusive(s: Sched)
  {
    WellFormed(s) && CeilingsOk(s) && HardExclusive(s) && Batched(s)
  }

  lemma GroupStarts(s: Sched)
    requires Enabled(s, MGroup)
    ensures StartedBy(s, StartGroup(s), s.queue[0].group.actions, |s.hist|, false)
    ensures StartGroup(s).hist == s.hist + [GroupStarted(s.queue[0].group, false, s.tasks, s.nav)]
  {
    var g := s.queue[0].group;
    StartAllStarts(s.(segment := None, blocking := g.ceiling, queue := s.queue[1..],
                      hist := s.hist + [GroupStarted(g, false, s.tasks, s.nav)]), g.actions, |s.hist|, false);
  }

  lemma InstantStarts(s: Sched)
    requires Enabled(s, MInstant)
    ensures StartedBy(s, StartInstant(s), s.interrupts[0].actions, |s.hist|, true)
    ensures StartInstant(s).hist == s.hist + [GroupStarted(s.interrupts[0], true, s.tasks, s.nav)]
  {
    var g := s.interrupts[0];
    StartAllStarts(s.(blocking := g.ceiling, interrupts := s.interrupts[1..],
                      hist := s.hist + [GroupStarted(g, true, s.tasks, s.nav)]), g.actions, |s.hist|, true);
  }

  lemma GroupExclusive(s: Sched)
    requires Enabled(s, MGroup) && Exclusive(s)
    ensures Exclusive(StartGroup(s))
  {
    GroupStarts(s);
    StartedBatched(s, StartGroup(s), s.queue[0].group, false);
    hide StartAll, Batched, CeilingOk;
  }

  lemma InstantsBeside(s: Sched)
    requires Enabled(s, MInstant)
    ensures forall id | id in s.active :: BlockingOf(s, id) != HARD && s.interrupts[0].ceiling != HARD
  {
    forall id | id in s.active
      ensures BlockingOf(s, id) != HARD && s.interrupts[0].ceiling != HARD
    {
      assert !Conflicts(s.tasks[s.active[id]], s.interrupts[0].ceiling);
    }
  }

  lemma OldBesideInstants(s: Sched, t: Sched)
    requires Enabled(s, MInstant) && StartedBy(s, t, s.interrupts[0].actions, |s.hist|, true)
    ensures forall id | id in t.active && t.active[id] < |s.tasks| ::
              t.tasks[t.active[id]].action.blocking != HARD && s.interrupts[0].ceiling != HARD
  {
    InstantsBeside(s);
    forall id | id in t.active && t.active[id] < |s.tasks|
      ensures t.tasks[t.active[id]].action.blocking != HARD && s.interrupts[0].ceiling != HARD
    {
      assert t.tasks[t.active[id]] == s.tasks[s.active[id]];
      assert BlockingOf(s, id) != HARD;
    }
  }

  lemma InstantHardExclusive(s: Sched)
    requires Enabled(s, MInstant) && Exclusive(s)
    ensures HardExclusive(StartInstant(s))
  {
    var t := StartInstant(s);
    var g := s.interrupts[0];
    InstantStarts(s);
    OldBesideInstants(s, t);
    assert CeilingOk(g);
    hide StartAll, Batched, CeilingsOk, StartInstant;
    forall id, other | id in t.active && other in t.active && BlockingOf(t, id) == HARD
      ensures t.tasks[t.active[id]].batch == t.tasks[t.active[other]].batch
    {
      assert t.active[id] >= |s.tasks|;
      assert Rank(HARD) <= Rank(g.ceiling);
      assert t.active[other] >= |s.tasks|;
    }
  }

  lemma InstantExclusive(s: Sched)
    requires Enabled(s, MInstant) && Exclusive(s)
    ensures Exclusive(StartInstant(s))
  {
    var t := StartInstant(s);
    InstantStarts(s);
    StartedBatched(s, t, s.interrupts[0], true);
    InstantHardExclusive(s);
    assert t.queue == s.queue && t.staging == s.staging && t.interrupts == s.interrupts[1..];
    hide StartInstant, Batched, HardExclusive, CeilingOk, StartedBy;
  }

  lemma {:induction false} StepsAreSteps(items: seq<Item>)
    ensures forall i | 0 <= i < |StepsToStop(items)| :: StepsToStop(items)[i].Step?
  {
    if items != [] {
      StepsAreSteps(items[1..]);
    }
  }

  /** Nothing new is active or queued, and the tasks keep their actions and groups. */
  ghost predicate Narrows(s: Sched, t: Sched)
  {
    && WellFormed(t)
    && |t.tasks| == |s.tasks|
    && (forall r | 0 <= r < |s.tasks| :: t.tasks[r] == s.tasks[r].(state := t.tasks[r].state))
    && SubMap(t.active, s.active)
    && s.hist <= t.hist
    && (t.queue == s.queue || (s.queue != [] && t.queue == s.queue[1..])
        || forall i | 0 <= i < |t.queue| :: t.queue[i].Step?)
    && t.staging == s.staging && (t.interrupts == s.interrupts || t.interrupts == [])
  }

  lemma NarrowsExclusive(s: Sched, t: Sched)
    requires Exclusive(s) && Narrows(s, t)
    ensures Exclusive(t)
  {
    assert CeilingsOk(t) by { hide CeilingOk; }
    assert HardExclusive(t) by { hide CeilingsOk, Batched; }
    forall r | 0 <= r < |t.tasks|
      ensures Member(t.tasks[r], t.hist)
    {
      assert t.hist == s.hist + t.hist[|s.hist|..];
      assert Member(s.tasks[r], s.hist);
      MemberStays(s.tasks[r], s.hist, t.hist[|s.hist|..]);
    }
  }

  lemma UpdateMapsNarrows(s: Sched)
    requires WellFormed(s)
    ensures Narrows(s, UpdateMaps(s))
  {
    hide Keep;
  }

  lemma UpdateTasksNarrows(s: Sched)
    requires WellFormed(s)
    ensures Narrows(s, UpdateTasks(s))
  {
    UpdateMapsNarrows(s);
    hide UpdateMaps, ForgetItems, ForgetGroups;
  }

  lemma MoveNarrows(s: Sched, m: Move)
    requires Enabled(s, m) && !m.MGroup? && !m.MInstant?
    ensures Narrows(s, Do(s, m))
  {
    hide A.Effect, A.Next, N.Effect, N.Transfer, Keep, SegmentEnd, ForgetItems, ForgetGroups, UpdateTasks,
      StepsToStop, WellFormed;
    match m
    case MTask(r, tr) =>
    case MNav(tr) =>
    case MUpdateTasks => UpdateTasksNarrows(s);
    case MDropNavInt =>
    case MStep =>
    case MPatch =>
    case MClear(keepNav) => StepsAreSteps(s.queue);
    case MEnter(_, _) =>
    case MCancelIdle =>
  }

  lemma MoveExclusive(s: Sched, m: Move)
    requires Enabled(s, m) && Exclusive(s)
    ensures Exclusive(Do(s, m))
  {
    if m.MGroup? {
      GroupExclusive(s);
    } else if m.MInstant? {
      InstantExclusive(s);
    } else {
      MoveNarrows(s, m);
      hide Exclusive, Narrows;
      NarrowsExclusive(s, Do(s, m));
    }
  }

  lemma {:induction false} PathExclusive(s: Sched, ms: seq<Move>, t: Sched)
    requires Path(s, ms, t) && Exclusive(s)
    ensures Exclusive(t)
    decreases |ms|
  {
    if ms != [] {
      MoveExclusive(s, ms[0]);
      PathExclusive(Do(s, ms[0]), ms[1..], t);
    }
  }

  // Runs ////////////////////////////////////////////////////////////////////////////////////////

  ghost predicate OpCeilingOk(op: Op)
  {
    match op
    case OpInterrupt(g) => CeilingOk(g)
    case OpEnqueue(item) => ItemOk(item)
    case _ => true
  }

  lemma AcceptExclusive(s: Sched, op: Op)
    requires Exclusive(s) && OpCeilingOk(op)
    ensures Exclusive(Accept(s, op))
  {
    var t := Accept(s, op);
    assert t.tasks == s.tasks && t.active == s.active && t.hist == s.hist;
    assert CeilingsOk(t) by { hide CeilingOk; }
  }

  /** HARD exclusivity: in every state of every run whose groups carry their ceilings, if an active
      action is HARD then all active actions belong to its group. */
  lemma {:induction false} RunExclusive(ops: seq<Op>)
    requires forall i | 0 <= i < |ops| :: OpCeilingOk(ops[i])
    ensures Exclusive(Run(ops))
  {
    if ops != [] {
      var before, op := ops[..|ops| - 1], ops[|ops| - 1];
      RunExclusive(before);
      AcceptExclusive(Run(before), op);
      hide Exclusive, Apply, Accept;
      var ms := PathApply(Run(before), op);
      PathExclusive(Accept(Run(before), op), ms, Run(ops));
    }
  }

  /** A group that holds a HARD action holds nothing else. */
  ghost predicate HardAlone(g: Group)
  {
    (exists a :: a in g.actions && a.blocking == HARD) ==> |g.actions| == 1
  }

  /** A HARD action whose group holds nothing else is the only active action. */
  lemma HardRunsAlone(s: Sched, id: ActionId, other: ActionId)
    requires Exclusive(s) && id in s.active && other in s.active && BlockingOf(s, id) == HARD
    requires HardAlone(s.hist[s.tasks[s.active[id]].batch].group)
    ensures id == other
  {
    var x, y := s.tasks[s.active[id]], s.tasks[s.active[other]];
    assert Member(x, s.hist) && Member(y, s.hist);
  }
}
