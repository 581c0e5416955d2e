/** The vehicle is sent nowhere outside the segments announced to it, and actions are started in the order in which
    their groups are. */
module SchedulerCoverage {
  import opened Vda
  import opened Events
  import A = ActionTasks
  import N = NavigationTasks
  import opened SchedulerModel
  import O = SchedulerOperations
  import opened SchedulerMoves
  import opened SchedulerAccounts
  import opened SchedulerDialogue

  // Segments ////////////////////////////////////////////////////////////////////////////////////

  /** The end of the segment announced last, unless the scheduler has announced since that it is idle. */
  function LastTold(out: seq<Event>): Option<SeqId>
  {
    if out == [] then None
    else
      match out[|out| - 1]
      case NavigationUpcomingSegment(_, end) => Some(end)
      case OrderStatus(mode) => if mode == Idle then None else LastTold(out[..|out| - 1])
      case _ => LastTold(out[..|out| - 1])
  }

  /** The end of the segment announced last, unless an order group has started since. */
  function LastReach(hist: seq<Record>): Option<SeqId>
  {
    if hist == [] then None
    else
      match hist[|hist| - 1]
      case SegmentAnnounced(_, end, _) => Some(end)
      case GroupStarted(_, instant, _, _) => if instant then LastReach(hist[..|hist| - 1]) else None
      case _ => LastReach(hist[..|hist| - 1])
  }

  /** A step that is told lies in the segment announced before, or its own segment is announced with it. */
  ghost predicate CoveredAt(out: seq<Event>, i: nat)
    requires i < |out|
  {
    out[i].NavigationNextNode? ==>
      || (i + 1 < |out| && out[i + 1].NavigationUpcomingSegment? && out[i + 1].begin == out[i].next.seqId)
      || (LastTold(out[..i]).Some? && out[i].next.seqId <= LastTold(out[..i]).value)
  }

  /** A segment is announced with the step it begins at, or continues the one announced before. */
  ghost predicate JoinedAt(out: seq<Event>, i: nat)
    requires i < |out|
  {
    out[i].NavigationUpcomingSegment? ==>
      || (i > 0 && out[i - 1].NavigationNextNode? && out[i].begin == out[i - 1].next.seqId)
      || (LastTold(out[..i]).Some? && out[i].begin == Add32(LastTold(out[..i]).value, 1))
  }

  ghost predicate AllCovered(out: seq<Event>)
  {
    forall i | 0 <= i < |out| :: CoveredAt(out, i) && JoinedAt(out, i)
  }

  /** The segment in force is the one announced last, and neither an order group nor idleness has come since. */
  ghost predicate SegmentTold(s: Sched)
  {
    && AllCovered(s.out)
    && (s.segment.Some? ==>
          LastTold(s.out) == Some(s.segment.value.last) && LastReach(s.hist) == Some(s.segment.value.last))
  }

  ghost predicate Unreached(out: seq<Event>)
  {
    forall e | e in out :: !e.NavigationNextNode? && !e.NavigationUpcomingSegment? && e != OrderStatus(Idle)
  }

  lemma {:induction false} UnreachedTold(a: seq<Event>, b: seq<Event>)
    requires Unreached(b)
    ensures LastTold(a + b) == LastTold(a)
  {
    if b == [] {
      assert a + b == a;
    } else {
      var init, last := b[..|b| - 1], b[|b| - 1];
      assert (a + b)[..|a + b| - 1] == a + init && last in b;
      assert forall e | e in init :: e in b;
      UnreachedTold(a, init);
    }
  }

  lemma CoveredBefore(a: seq<Event>, b: seq<Event>, i: nat)
    requires AllCovered(a) && i < |a|
    ensures CoveredAt(a + b, i) && JoinedAt(a + b, i)
  {
    assert CoveredAt(a, i) && JoinedAt(a, i);
    assert (a + b)[..i] == a[..i];
    hide LastTold;
  }

  lemma CoveredMore(a: seq<Event>, b: seq<Event>)
    requires AllCovered(a) && forall e | e in b :: !e.NavigationNextNode? && !e.NavigationUpcomingSegment?
    ensures AllCovered(a + b)
  {
    var out := a + b;
    hide LastTold;
    forall i | 0 <= i < |out|
      ensures CoveredAt(out, i) && JoinedAt(out, i)
    {
      if i < |a| {
        CoveredBefore(a, b, i);
      } else {
        assert out[i] in b;
      }
    }
  }

  /** A segment that continues the one announced before. */
  lemma {:induction false} CoveredPatch(a: seq<Event>, end: SeqId)
    requires AllCovered(a) && LastTold(a).Some?
    ensures AllCovered(a + [NavigationUpcomingSegment(Add32(LastTold(a).value, 1), end)])
  {
    var b := [NavigationUpcomingSegment(Add32(LastTold(a).value, 1), end)];
    hide LastTold;
    forall i | 0 <= i < |a + b|
      ensures CoveredAt(a + b, i) && JoinedAt(a + b, i)
    {
      if i < |a| {
        CoveredBefore(a, b, i);
      } else {
        assert (a + b)[..|a|] == a;
      }
    }
  }

  lemma QuietTold(s: Sched, t: Sched, b: seq<Event>)
    requires SegmentTold(s) && t.out == s.out + b && Unreached(b) && t.hist == s.hist
    requires t.segment == s.segment || t.segment.None?
    ensures SegmentTold(t)
  {
    UnreachedTold(s.out, b);
    CoveredMore(s.out, b);
    hide AllCovered, LastTold, LastReach;
  }

  lemma {:induction false} HistReach(hist: seq<Record>, rec: Record)
    ensures LastReach(hist + [rec]) ==
            match rec
            case SegmentAnnounced(_, end, _) => Some(end)
            case GroupStarted(_, instant, _, _) => if instant then LastReach(hist) else None
            case _ => LastReach(hist)
  {
    assert (hist + [rec])[..|hist|] == hist;
  }

  lemma {:induction false} OutTold(out: seq<Event>, e: Event)
    ensures LastTold(out + [e]) ==
            match e
            case NavigationUpcomingSegment(_, end) => Some(end)
            case OrderStatus(mode) => if mode == Idle then None else LastTold(out)
            case _ => LastTold(out)
  {
    assert (out + [e])[..|out|] == out;
  }

  // Moves ///////////////////////////////////////////////////////////////////////////////////////

  lemma AnnouncedUnreached(tr: A.ActionTransition, id: ActionId)
    ensures Unreached(A.Announced(tr, id))
  {
  }

  lemma TaskTold(s: Sched, r: nat, tr: A.ActionTransition)
    requires Enabled(s, MTask(r, tr)) && SegmentTold(s)
    ensures SegmentTold(Do(s, MTask(r, tr)))
  {
    hide *;
    TaskMoveIs(s, r, tr);
    var id := s.tasks[r].action.id;
    AnnouncedUnreached(tr, id);
    QuietTold(s, Do(s, MTask(r, tr)), A.Announced(tr, id));
  }

  lemma NavTold(s: Sched, tr: N.NavTransition)
    requires Enabled(s, MNav(tr)) && SegmentTold(s) && !tr.DoStart?
    ensures SegmentTold(Do(s, MNav(tr)))
  {
    var n := s.nav.value.(state := N.Transfer(s.nav.value.state, tr, s.nav.value.goal.seqId).value);
    assert Unreached(N.Effect(n));
    hide N.Effect, N.Transfer, SegmentTold, Refers, Unreached;
    QuietTold(s, Do(s, MNav(tr)), N.Effect(n));
  }

  lemma {:induction false} ForgetsUnreached(actions: seq<Action>)
    ensures Unreached(ForgetActions(actions))
  {
    if actions != [] {
      ForgetsUnreached(actions[1..]);
    }
  }

  lemma {:induction false} ItemsUnreached(items: seq<Item>)
    ensures Unreached(ForgetItems(items))
  {
    if items != [] {
      ItemsUnreached(items[1..]);
      if items[0].Actions? {
        ForgetsUnreached(items[0].group.actions);
      }
    }
  }

  lemma {:induction false} GroupsUnreached(groups: seq<Group>)
    ensures Unreached(ForgetGroups(groups))
  {
    if groups != [] {
      GroupsUnreached(groups[1..]);
      ForgetsUnreached(groups[0].actions);
    }
  }

  lemma ClearTold(s: Sched, keepNav: bool)
    requires SegmentTold(s)
    ensures SegmentTold(ClearQueues(s, keepNav))
  {
    ItemsUnreached(s.queue);
    GroupsUnreached(s.interrupts);
    Associative(s.out, ForgetItems(s.queue), ForgetGroups(s.interrupts));
    assert Unreached(ForgetItems(s.queue) + ForgetGroups(s.interrupts));
    hide Unreached, ForgetItems, ForgetGroups, SegmentTold, StepsToStop;
    QuietTold(s, ClearQueues(s, keepNav), ForgetItems(s.queue) + ForgetGroups(s.interrupts));
  }

  lemma SameTold(s: Sched, t: Sched)
    requires SegmentTold(s) && t.out == s.out && t.hist == s.hist && t.segment == s.segment
    ensures SegmentTold(t)
  {
    hide AllCovered, LastTold, LastReach;
  }

  lemma UpdateTasksTold(s: Sched)
    requires WellFormed(s) && SegmentTold(s)
    ensures SegmentTold(UpdateTasks(s))
  {
    UpdateTasksRecords(s);
    ClearTold(s, false);
    UpdateTasksSegment(s);
    hide UpdateTasks, ClearQueues, SegmentTold, Refers;
    if s.nav.Some? && s.nav.value.state.NavFailed? {
      SameTold(ClearQueues(s, false), UpdateTasks(s));
    } else {
      SameTold(s, UpdateTasks(s));
    }
  }

  lemma UpdateTasksSegment(s: Sched)
    requires WellFormed(s)
    ensures UpdateTasks(s).segment == s.segment && ClearQueues(s, false).segment == s.segment
  {
    UpdateMapsFrame(s);
    hide UpdateMaps, ForgetItems, ForgetGroups, Refers;
  }

  lemma StartTold(s: Sched, a: Action, batch: nat, instant: bool)
    requires SegmentTold(s)
    ensures SegmentTold(StartAction(s, a, batch, instant))
  {
    A.TransitionExactly(A.ActionWaiting, A.DoStart, a.id);
    AnnouncedUnreached(A.DoStart, a.id);
    hide A.Effect, SegmentTold, Unreached;
    QuietTold(s, StartAction(s, a, batch, instant), A.Announced(A.DoStart, a.id));
  }

  lemma {:induction false} StartAllTold(s: Sched, actions: seq<Action>, batch: nat, instant: bool)
    requires SegmentTold(s)
    ensures SegmentTold(StartAll(s, actions, batch, instant))
    decreases |actions|
  {
    hide SegmentTold, StartAction;
    if actions != [] {
      StartTold(s, actions[0], batch, instant);
      StartAllTold(StartAction(s, actions[0], batch, instant), actions[1..], batch, instant);
    }
  }

  lemma GroupTold(s: Sched)
    requires Enabled(s, MGroup) && SegmentTold(s)
    ensures SegmentTold(Do(s, MGroup))
  {
    GroupEnabled(s);
    O.GroupIs(s);
    var g := s.queue[0].group;
    var t := s.(segment := None, blocking := g.ceiling, queue := s.queue[1..],
                hist := s.hist + [GroupStarted(g, false, s.tasks, s.nav)]);
    assert SegmentTold(t) by { hide AllCovered, LastTold, LastReach; }
    hide SegmentTold, StartAll, StartGroup, GroupReady, Refers;
    StartAllTold(t, g.actions, |s.hist|, false);
  }

  lemma InstantTold(s: Sched)
    requires Enabled(s, MInstant) && SegmentTold(s)
    ensures SegmentTold(Do(s, MInstant))
  {
    O.InstantIs(s);
    var g := s.interrupts[0];
    var rec := GroupStarted(g, true, s.tasks, s.nav);
    var t := s.(blocking := g.ceiling, interrupts := s.interrupts[1..], hist := s.hist + [rec]);
    HistReach(s.hist, rec);
    assert SegmentTold(t) by { hide AllCovered, LastTold, LastReach; }
    hide SegmentTold, StartAll, StartInstant, InstantReady, Refers;
    StartAllTold(t, g.actions, |s.hist|, true);
  }

  /** A step whose segment is announced with it. */
  lemma {:induction false} CoveredStep(out: seq<Event>, goal: Node, via: Edge, end: SeqId)
    requires AllCovered(out)
    ensures AllCovered(out + [NavigationNextNode(goal, via), NavigationUpcomingSegment(goal.seqId, end)])
    ensures LastTold(out).Some? && goal.seqId <= LastTold(out).value ==>
              AllCovered(out + [NavigationNextNode(goal, via)])
  {
    var one := [NavigationNextNode(goal, via)];
    var two := [NavigationNextNode(goal, via), NavigationUpcomingSegment(goal.seqId, end)];
    hide LastTold;
    assert (out + one)[..|out|] == out && (out + two)[..|out|] == out;
    forall i | 0 <= i < |out + two|
      ensures CoveredAt(out + two, i) && JoinedAt(out + two, i)
    {
      if i < |out| {
        CoveredBefore(out, two, i);
      }
    }
    if LastTold(out).Some? && goal.seqId <= LastTold(out).value {
      forall i | 0 <= i < |out + one|
        ensures CoveredAt(out + one, i) && JoinedAt(out + one, i)
      {
        if i < |out| {
          CoveredBefore(out, one, i);
        }
      }
    }
  }

  lemma StepTold(s: Sched)
    requires Enabled(s, MStep) && SegmentTold(s)
    ensures SegmentTold(Do(s, MStep))
  {
    StepEnabled(s);
    O.DriveIs(s);
    var t, step := StartStep(s), s.queue[0];
    var started := StepStarted(step.goal, step.via, step.stopHint, s.tasks, s.nav);
    var told := NavigationNextNode(step.goal, step.via);
    HistReach(s.hist, started);
    OutTold(s.out, told);
    if s.segment.Some? && s.segment.value.last >= step.goal.seqId {
      assert N.Effect(t.nav.value) == [told];
      CoveredStep(s.out, step.goal, step.via, 0);
      assert s.hist + [started] + [] == s.hist + [started];
    } else {
      var end := SegmentEnd(s.queue, step.goal.seqId);
      var segment := NavigationUpcomingSegment(step.goal.seqId, end);
      assert N.Effect(t.nav.value) == [told, segment];
      CoveredStep(s.out, step.goal, step.via, end);
      OutTold(s.out + [told], segment);
      assert s.out + [told] + [segment] == s.out + [told, segment];
      HistReach(s.hist + [started], SegmentAnnounced(step.goal.seqId, end, s.queue));
    }
    assert Do(s, MStep) == t by { hide StartStep; }
    hide AllCovered, LastTold, LastReach, N.Effect, SegmentEnd, StartStep, Enabled, Do;
  }

  lemma PatchTold(s: Sched)
    requires Enabled(s, MPatch) && SegmentTold(s)
    ensures SegmentTold(Do(s, MPatch))
  {
    var t := PatchSegment(s);
    assert Do(s, MPatch) == t by { hide PatchSegment; }
    O.PatchIs(s);
    if t != s {
      var last := SegmentEnd(s.queue, s.segment.value.last);
      var e := NavigationUpcomingSegment(Add32(s.segment.value.last, 1), last);
      CoveredPatch(s.out, last);
      OutTold(s.out, e);
      HistReach(s.hist, SegmentAnnounced(e.begin, last, s.queue));
    }
    hide AllCovered, LastTold, LastReach, SegmentEnd, PatchSegment, Refers, Do;
  }

  lemma EnterTold(s: Sched, mode: Mode, notify: bool)
    requires SegmentTold(s)
    ensures SegmentTold(Enter(s, mode, notify))
  {
    if notify {
      CoveredMore(s.out, [OrderStatus(mode)]);
      OutTold(s.out, OrderStatus(mode));
    }
    hide AllCovered, LastTold, LastReach;
  }

  lemma NeverWaiting(s: Sched, m: Move)
    requires Enabled(s, m) && m.MNav? && s.nav.Some? && !s.nav.value.state.NavWaiting?
    ensures !m.navTr.DoStart?
  {
    hide WellFormed;
  }

  lemma MoveTold(s: Sched, m: Move)
    requires Enabled(s, m) && SegmentTold(s) && (s.nav.Some? ==> !s.nav.value.state.NavWaiting?)
    ensures SegmentTold(Do(s, m)) && (Do(s, m).nav.Some? ==> !Do(s, m).nav.value.state.NavWaiting?)
  {
    MoveNotWaiting(s, m);
    hide SegmentTold, UpdateTasks, StartStep, StartGroup, StartInstant, PatchSegment, ClearQueues, Enter, SetTask,
      SetNav, A.Next, N.Transfer, GroupReady, InstantReady, StepReady, Refers;
    match m
    case MTask(r, tr) => TaskTold(s, r, tr);
    case MNav(tr) =>
      NeverWaiting(s, m);
      NavTold(s, tr);
    case MUpdateTasks => UpdateTasksTold(s);
    case MDropNavInt => SameTold(s, Do(s, m));
    case MGroup => GroupTold(s);
    case MStep => StepTold(s);
    case MPatch => PatchTold(s);
    case MInstant => InstantTold(s);
    case MClear(keepNav) => ClearTold(s, keepNav);
    case MEnter(mode, notify) => EnterTold(s, mode, notify);
    case MCancelIdle => EnterTold(s, Canceling, false);
  }

  lemma MoveNotWaiting(s: Sched, m: Move)
    requires Enabled(s, m) && (s.nav.Some? ==> !s.nav.value.state.NavWaiting?)
    ensures Do(s, m).nav.Some? ==> !Do(s, m).nav.value.state.NavWaiting?
  {
    hide N.Effect, A.Effect, A.Next, SegmentEnd, ForgetItems, ForgetGroups, StepsToStop, Covered, WellFormed, Keep,
      GroupReady, InstantReady;
  }

  lemma {:induction false} PathTold(s: Sched, ms: seq<Move>, t: Sched)
    requires Path(s, ms, t) && SegmentTold(s) && (s.nav.Some? ==> !s.nav.value.state.NavWaiting?)
    ensures SegmentTold(t) && (t.nav.Some? ==> !t.nav.value.state.NavWaiting?)
    decreases |ms|
  {
    hide SegmentTold, Enabled, Do;
    if ms != [] {
      MoveTold(s, ms[0]);
      PathTold(Do(s, ms[0]), ms[1..], t);
    }
  }

  lemma AcceptTold(s: Sched, op: Op)
    ensures Accept(s, op).out == s.out && Accept(s, op).hist == s.hist && Accept(s, op).segment == s.segment
    ensures Accept(s, op).nav == s.nav
  {
  }

  lemma NothingTold()
    ensures SegmentTold(Run([])) && Run([]).nav.None?
  {
  }

  lemma {:induction false} RunTold(ops: seq<Op>)
    ensures SegmentTold(Run(ops)) && (Run(ops).nav.Some? ==> !Run(ops).nav.value.state.NavWaiting?)
  {
    hide *;
    if ops == [] {
      NothingTold();
    } else {
      var before, op := ops[..|ops| - 1], ops[|ops| - 1];
      RunTold(before);
      RunLast(ops);
      AcceptTold(Run(before), op);
      SameTold(Run(before), Accept(Run(before), op));
      var ms := PathApply(Run(before), op);
      PathTold(Accept(Run(before), op), ms, Run(ops));
    }
  }

  /** In every run each step that the vehicle is told lies in the segment announced last, or its own segment is
      announced with it, and every other segment begins right behind the one announced last. The segment in force is
      the last one announced, and is none once an order group has started or the scheduler was idle. */
  lemma {:induction false} EveryStepCovered(ops: seq<Op>)
    ensures AllCovered(Run(ops).out)
    ensures Run(ops).segment.Some? ==>
              && LastTold(Run(ops).out) == Some(Run(ops).segment.value.last)
              && LastReach(Run(ops).hist) == Some(Run(ops).segment.value.last)
  {
    RunTold(ops);
    hide Run, AllCovered, LastTold, LastReach;
  }

  /** The segment of a step is announced with it exactly when there is none in force or its goal is beyond its end; it
      then reaches to the first step with a stop hint or to the last step of the queue. */
  lemma StepAnnounces(s: Sched)
    requires Enabled(s, MStep)
    ensures s.queue != [] && s.queue[0].Step?
    ensures var goal, via := s.queue[0].goal, s.queue[0].via;
            Do(s, MStep).out == s.out + [NavigationNextNode(goal, via)] +
            if s.segment.None? || s.segment.value.last < goal.seqId
            then [NavigationUpcomingSegment(goal.seqId, SegmentEnd(s.queue, goal.seqId))] else []
  {
    StepEnabled(s);
    O.DriveIs(s);
    assert Do(s, MStep) == StartStep(s) by { hide StartStep; }
    hide StartStep, SegmentEnd, Enabled, Do, Refers;
  }

  // The order of starts /////////////////////////////////////////////////////////////////////////

  /** The actions told to start, oldest first. */
  function StartedIds(out: seq<Event>): seq<ActionId>
  {
    if out == [] then []
    else StartedIds(out[..|out| - 1]) + (if out[|out| - 1].ActionStart? then [out[|out| - 1].id] else [])
  }

  function IdsOf(actions: seq<Action>): seq<ActionId>
  {
    seq(|actions|, i requires 0 <= i < |actions| => actions[i].id)
  }

  /** The actions of the groups started, oldest first. */
  function GroupedIds(hist: seq<Record>): seq<ActionId>
  {
    if hist == [] then []
    else
      GroupedIds(hist[..|hist| - 1]) +
      (if hist[|hist| - 1].GroupStarted? then IdsOf(hist[|hist| - 1].group.actions) else [])
  }

  lemma {:induction false} StartedMore(out: seq<Event>, e: Event, hist: seq<Record>, rec: Record)
    ensures StartedIds(out + [e]) == StartedIds(out) + if e.ActionStart? then [e.id] else []
    ensures GroupedIds(hist + [rec]) == GroupedIds(hist) + if rec.GroupStarted? then IdsOf(rec.group.actions) else []
  {
    assert (out + [e])[..|out|] == out && (hist + [rec])[..|hist|] == hist;
  }

  lemma {:induction false} NoneStarted(a: seq<Event>, b: seq<Event>)
    requires forall e | e in b :: !e.ActionStart?
    ensures StartedIds(a + b) == StartedIds(a)
  {
    if b == [] {
      assert a + b == a;
    } else {
      var init, last := b[..|b| - 1], b[|b| - 1];
      assert (a + b)[..|a + b| - 1] == a + init && last in b;
      assert forall e | e in init :: e in b;
      NoneStarted(a, init);
      assert StartedIds(a + b) == StartedIds(a + init);
    }
  }

  lemma OneStarted(s: Sched, a: Action, batch: nat, instant: bool)
    ensures StartedIds(StartAction(s, a, batch, instant).out) == StartedIds(s.out) + [a.id]
    ensures StartAction(s, a, batch, instant).hist == s.hist
  {
    A.TransitionExactly(A.ActionWaiting, A.DoStart, a.id);
    var status, start := ActionStatusChanged(a.id, INITIALIZING, None), ActionStart(a.id);
    assert StartAction(s, a, batch, instant).out == s.out + [status, start] by { hide A.Effect; }
    assert s.out + [status, start] == s.out + [status] + [start];
    var rec := SegmentAnnounced(0, 0, []);
    StartedMore(s.out, status, [], rec);
    StartedMore(s.out + [status], start, [], rec);
    hide StartAction, StartedIds, GroupedIds;
  }

  lemma {:induction false} AllStarted(s: Sched, actions: seq<Action>, batch: nat, instant: bool)
    ensures var t := StartAll(s, actions, batch, instant);
            StartedIds(t.out) == StartedIds(s.out) + IdsOf(actions) && t.hist == s.hist
    decreases |actions|
  {
    hide StartAction, StartedIds;
    if actions != [] {
      var t := StartAction(s, actions[0], batch, instant);
      OneStarted(s, actions[0], batch, instant);
      AllStarted(t, actions[1..], batch, instant);
      assert IdsOf(actions) == [actions[0].id] + IdsOf(actions[1..]);
      assert StartedIds(s.out) + IdsOf(actions) == StartedIds(s.out) + [actions[0].id] + IdsOf(actions[1..]);
    } else {
      assert StartedIds(s.out) + [] == StartedIds(s.out);
    }
  }

  /** The actions told to start are those of the started groups. */
  ghost predicate InOrder(s: Sched)
  {
    && StartedIds(s.out) == GroupedIds(s.hist)
    && forall r | 0 <= r < |s.tasks| :: !s.tasks[r].state.ActionWaiting?
  }

  lemma StartsInOrder(s: Sched, m: Move)
    requires Enabled(s, m) && (m.MGroup? || m.MInstant?) && InOrder(s)
    ensures StartedIds(Do(s, m).out) == GroupedIds(Do(s, m).hist)
  {
    hide StartedIds, GroupedIds, StartAll, GroupReady, InstantReady, Refers;
    if m.MGroup? {
      GroupEnabled(s);
      O.GroupIs(s);
      var g := s.queue[0].group;
      var rec := GroupStarted(g, false, s.tasks, s.nav);
      StartedMore(s.out, OrderStatus(Idle), s.hist, rec);
      AllStarted(s.(segment := None, blocking := g.ceiling, queue := s.queue[1..], hist := s.hist + [rec]),
                 g.actions, |s.hist|, false);
    } else {
      O.InstantIs(s);
      var g := s.interrupts[0];
      var rec := GroupStarted(g, true, s.tasks, s.nav);
      StartedMore(s.out, OrderStatus(Idle), s.hist, rec);
      AllStarted(s.(blocking := g.ceiling, interrupts := s.interrupts[1..], hist := s.hist + [rec]),
                 g.actions, |s.hist|, true);
    }
  }

  lemma TaskInOrder(s: Sched, r: nat, tr: A.ActionTransition)
    requires Enabled(s, MTask(r, tr)) && InOrder(s)
    ensures StartedIds(Do(s, MTask(r, tr)).out) == GroupedIds(Do(s, MTask(r, tr)).hist)
  {
    TaskMoveIs(s, r, tr);
    var id := s.tasks[r].action.id;
    assert forall e | e in A.Announced(tr, id) :: !e.ActionStart?;
    hide Do, Enabled, StartedIds, GroupedIds, A.Announced, A.Next;
    NoneStarted(s.out, A.Announced(tr, id));
  }

  lemma NavInOrder(s: Sched, tr: N.NavTransition)
    requires Enabled(s, MNav(tr)) && InOrder(s)
    ensures StartedIds(Do(s, MNav(tr)).out) == GroupedIds(Do(s, MNav(tr)).hist)
  {
    var n := s.nav.value.(state := N.Transfer(s.nav.value.state, tr, s.nav.value.goal.seqId).value);
    assert forall e | e in N.Effect(n) :: !e.ActionStart?;
    hide N.Effect, N.Transfer, StartedIds, GroupedIds, Refers;
    NoneStarted(s.out, N.Effect(n));
  }

  lemma {:induction false} SameGrouped(hist: seq<Record>, more: seq<Record>)
    requires forall r | r in more :: !r.GroupStarted?
    ensures GroupedIds(hist + more) == GroupedIds(hist)
  {
    if more == [] {
      assert hist + more == hist;
    } else {
      var init, last := more[..|more| - 1], more[|more| - 1];
      assert (hist + more)[..|hist + more| - 1] == hist + init && last in more;
      assert forall r | r in init :: r in more;
      SameGrouped(hist, init);
      assert GroupedIds(hist + more) == GroupedIds(hist + init);
    }
  }

  lemma StepRecords(s: Sched) returns (more: seq<Record>)
    requires Enabled(s, MStep)
    ensures Do(s, MStep).hist == s.hist + more && forall r | r in more :: !r.GroupStarted?
  {
    StepEnabled(s);
    O.DriveIs(s);
    assert Do(s, MStep) == StartStep(s) by { hide StartStep; }
    var step := s.queue[0];
    var started := StepStarted(step.goal, step.via, step.stopHint, s.tasks, s.nav);
    var end := SegmentAnnounced(step.goal.seqId, SegmentEnd(s.queue, step.goal.seqId), s.queue);
    var covered := s.segment.Some? && s.segment.value.last >= step.goal.seqId;
    more := [started] + (if covered then [] else [end]);
    Associative(s.hist, [started], if covered then [] else [end]);
    hide Do, Enabled, StartStep, SegmentEnd;
  }

  lemma PatchRecords(s: Sched) returns (more: seq<Record>)
    requires Enabled(s, MPatch)
    ensures Do(s, MPatch).hist == s.hist + more && forall r | r in more :: !r.GroupStarted?
  {
    O.PatchIs(s);
    assert Do(s, MPatch) == PatchSegment(s) by { hide PatchSegment; }
    hide Do, Enabled, PatchSegment, SegmentEnd;
    more := [];
    if PatchSegment(s) != s {
      var last := s.segment.value.last;
      more := [SegmentAnnounced(Add32(last, 1), SegmentEnd(s.queue, last), s.queue)];
    }
  }

  /** What the other moves record. */
  lemma OthersRecord(s: Sched, m: Move) returns (more: seq<Record>)
    requires Enabled(s, m) && !m.MGroup? && !m.MInstant?
    ensures Do(s, m).hist == s.hist + more && forall r | r in more :: !r.GroupStarted?
  {
    if m.MStep? {
      more := StepRecords(s);
    } else if m.MPatch? {
      more := PatchRecords(s);
    } else {
      QuietMoves(s, m);
      hide Do, Enabled;
      more := [];
    }
  }

  lemma MoveInOrder(s: Sched, m: Move)
    requires Enabled(s, m) && InOrder(s)
    ensures InOrder(Do(s, m))
  {
    MoveNeverWaits(s, m);
    hide Do, Enabled, StartedIds, GroupedIds;
    match m
    case MTask(r, tr) => TaskInOrder(s, r, tr);
    case MNav(tr) => NavInOrder(s, tr);
    case MGroup => StartsInOrder(s, m);
    case MInstant => StartsInOrder(s, m);
    case _ => OtherInOrder(s, m);
  }

  lemma OtherInOrder(s: Sched, m: Move)
    requires Enabled(s, m) && !m.MTask? && !m.MNav? && !m.MGroup? && !m.MInstant? && InOrder(s)
    ensures StartedIds(Do(s, m).out) == GroupedIds(Do(s, m).hist)
  {
    OthersSayNothing(s, m);
    var b :| Do(s, m).out == s.out + b && Unsaid(b);
    assert forall e | e in b :: !e.ActionStart?;
    hide Do, Enabled, StartedIds, GroupedIds, Untold;
    NoneStarted(s.out, b);
    var more := OthersRecord(s, m);
    SameGrouped(s.hist, more);
  }

  lemma {:induction false} StartedNeverWait(s: Sched, actions: seq<Action>, batch: nat, instant: bool)
    requires forall r | 0 <= r < |s.tasks| :: !s.tasks[r].state.ActionWaiting?
    ensures var t := StartAll(s, actions, batch, instant);
            forall r | 0 <= r < |t.tasks| :: !t.tasks[r].state.ActionWaiting?
    decreases |actions|
  {
    hide A.Effect, StartAction;
    if actions != [] {
      var u := StartAction(s, actions[0], batch, instant);
      StartTaskIs(s, actions[0], batch, instant, 0);
      StartedNeverWait(u, actions[1..], batch, instant);
      assert StartAll(s, actions, batch, instant) == StartAll(u, actions[1..], batch, instant);
    }
  }

  lemma MoveNeverWaits(s: Sched, m: Move)
    requires Enabled(s, m) && forall r | 0 <= r < |s.tasks| :: !s.tasks[r].state.ActionWaiting?
    ensures var t := Do(s, m); forall r | 0 <= r < |t.tasks| :: !t.tasks[r].state.ActionWaiting?
  {
    if m.MTask? {
      TaskMoveIs(s, m.r, m.tr);
      hide Do, Enabled;
    } else if m.MGroup? {
      GroupEnabled(s);
      O.GroupIs(s);
      var g := s.queue[0].group;
      hide StartAll, GroupReady, Refers;
      StartedNeverWait(s.(segment := None, blocking := g.ceiling, queue := s.queue[1..],
                          hist := s.hist + [GroupStarted(g, false, s.tasks, s.nav)]), g.actions, |s.hist|, false);
    } else if m.MInstant? {
      O.InstantIs(s);
      var g := s.interrupts[0];
      hide StartAll, InstantReady, Refers;
      StartedNeverWait(s.(blocking := g.ceiling, interrupts := s.interrupts[1..],
                          hist := s.hist + [GroupStarted(g, true, s.tasks, s.nav)]), g.actions, |s.hist|, true);
    } else {
      NavKeepsTasks(s, m);
      hide Do, Enabled;
    }
  }

  lemma NavKeepsTasks(s: Sched, m: Move)
    requires Enabled(s, m) && !m.MTask? && !m.MGroup? && !m.MInstant?
    ensures Do(s, m).tasks == s.tasks
  {
    if m.MNav? {
      hide N.Transfer, N.Effect, Refers;
    } else {
      OthersSayNothing(s, m);
      hide Do, Enabled;
    }
  }

  lemma {:induction false} PathInOrder(s: Sched, ms: seq<Move>, t: Sched)
    requires Path(s, ms, t) && InOrder(s)
    ensures InOrder(t)
    decreases |ms|
  {
    hide InOrder, Enabled, Do;
    if ms != [] {
      MoveInOrder(s, ms[0]);
      PathInOrder(Do(s, ms[0]), ms[1..], t);
    }
  }

  lemma AcceptInOrder(s: Sched, op: Op)
    requires InOrder(s)
    ensures InOrder(Accept(s, op))
  {
    hide StartedIds, GroupedIds;
  }

  lemma {:induction false} RunInOrder(ops: seq<Op>)
    ensures InOrder(Run(ops))
  {
    if ops == [] {
      assert InOrder(Run([]));
    } else {
      hide *;
      var before, op := ops[..|ops| - 1], ops[|ops| - 1];
      RunInOrder(before);
      RunLast(ops);
      AcceptInOrder(Run(before), op);
      var ms := PathApply(Run(before), op);
      PathInOrder(Accept(Run(before), op), ms, Run(ops));
    }
  }

  /** In every run the actions told to start are exactly those of the groups that were started, in their order. */
  lemma {:induction false} StartedAsGrouped(ops: seq<Op>)
    ensures StartedIds(Run(ops).out) == GroupedIds(Run(ops).hist)
  {
    RunInOrder(ops);
    hide Run, StartedIds, GroupedIds;
  }
}
