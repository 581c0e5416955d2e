/** The recorded history is what was published: the navigation was told exactly the recorded steps and
    segments, in that order. */
module SchedulerAnnouncements {
  import opened Vda
  import opened Events
  import A = ActionTasks
  import N = NavigationTasks
  import opened SchedulerModel
  import O = SchedulerOperations
  import opened SchedulerMoves
  import opened SchedulerAccounts

  predicate IsAnnouncement(e: Event)
  {
    e.NavigationNextNode? || e.NavigationUpcomingSegment?
  }

  /** The steps and segments told to the navigation, oldest first. */
  function Announced(out: seq<Event>): seq<Event>
  {
    if out == [] then []
    else Announced(out[..|out| - 1]) + (if IsAnnouncement(out[|out| - 1]) then [out[|out| - 1]] else [])
  }

  function NoteOf(rec: Record): seq<Event>
  {
    match rec
    case GroupStarted(_, _, _, _) => []
    case StepStarted(goal, via, _, _, _) => [NavigationNextNode(goal, via)]
    case SegmentAnnounced(begin, end, _) => [NavigationUpcomingSegment(begin, end)]
  }

  /** The steps and segments recorded in the history, oldest first. */
  function Noted(hist: seq<Record>): seq<Event>
  {
    if hist == [] then [] else Noted(hist[..|hist| - 1]) + NoteOf(hist[|hist| - 1])
  }

  ghost predicate Silent(out: seq<Event>)
  {
    forall i | 0 <= i < |out| :: !IsAnnouncement(out[i])
  }

  lemma {:induction false} SilentEvents(out: seq<Event>, more: seq<Event>)
    requires Silent(more)
    ensures Announced(out + more) == Announced(out)
  {
    if more == [] {
      assert out + more == out;
    } else {
      SilentEvents(out, more[..|more| - 1]);
      assert (out + more)[..|out + more| - 1] == out + more[..|more| - 1];
    }
  }

  lemma {:induction false} OneMore(out: seq<Event>, e: Event, hist: seq<Record>, rec: Record)
    ensures Announced(out + [e]) == Announced(out) + if IsAnnouncement(e) then [e] else []
    ensures Noted(hist + [rec]) == Noted(hist) + NoteOf(rec)
  {
    assert (out + [e])[..|out|] == out && (hist + [rec])[..|hist|] == hist;
  }

  /** A move that tells the navigation nothing. */
  ghost predicate Keeps(s: Sched, t: Sched)
  {
    s.out <= t.out && Silent(t.out[|s.out|..]) && Noted(t.hist) == Noted(s.hist)
  }

  lemma KeepsAnnounced(s: Sched, t: Sched)
    requires Keeps(s, t)
    ensures Announced(t.out) == Announced(s.out)
  {
    assert t.out == s.out + t.out[|s.out|..];
    SilentEvents(s.out, t.out[|s.out|..]);
  }

  lemma {:induction false} StartAllSilent(s: Sched, actions: seq<Action>, batch: nat, instant: bool)
    ensures var t := StartAll(s, actions, batch, instant); s.out <= t.out && Silent(t.out[|s.out|..])
    decreases |actions|
  {
    if actions != [] {
      var u := StartAction(s, actions[0], batch, instant);
      var t := StartAll(s, actions, batch, instant);
      StartAllSilent(u, actions[1..], batch, instant);
      assert t.out[|s.out|..] == A.Effect(actions[0].id, A.ActionInitializing) + t.out[|u.out|..];
    }
  }

  lemma {:induction false} ForgetsSilent(items: seq<Item>, groups: seq<Group>)
    ensures Silent(ForgetItems(items)) && Silent(ForgetGroups(groups))
    decreases |items| + |groups|
  {
    if items != [] {
      if items[0].Actions? {
        ForgetActionsSilent(items[0].group.actions);
      }
      ForgetsSilent(items[1..], []);
    }
    if groups != [] {
      ForgetActionsSilent(groups[0].actions);
      ForgetsSilent([], groups[1..]);
    }
  }

  lemma {:induction false} ForgetActionsSilent(actions: seq<Action>)
    ensures Silent(ForgetActions(actions))
  {
    if actions != [] {
      ForgetActionsSilent(actions[1..]);
    }
  }

  lemma ClearKeeps(s: Sched, keepNav: bool)
    ensures Keeps(s, ClearQueues(s, keepNav))
  {
    ForgetsSilent(s.queue, s.interrupts);
    hide ForgetItems, ForgetGroups, StepsToStop;
    var t := ClearQueues(s, keepNav);
    assert t.out[|s.out|..] == ForgetItems(s.queue) + ForgetGroups(s.interrupts);
  }

  lemma {:induction false} StartsKeep(s: Sched, u: Sched, rec: Record, actions: seq<Action>, batch: nat, instant: bool)
    requires u.out == s.out && u.hist == s.hist + [rec] && rec.GroupStarted?
    ensures Keeps(s, StartAll(u, actions, batch, instant))
  {
    StartAllSilent(u, actions, batch, instant);
    OneMore([], OrderStatus(Idle), s.hist, rec);
    hide StartAll, Noted;
  }

  lemma AppendKeeps(s: Sched, t: Sched, more: seq<Event>)
    requires t.out == s.out + more && Silent(more) && t.hist == s.hist
    ensures Keeps(s, t)
  {
    hide Noted, Silent;
    assert t.out[|s.out|..] == more;
  }

  lemma TaskEffectSilent(id: ActionId, st: A.ActionState)
    ensures Silent(A.Effect(id, st))
  {
  }

  lemma NavEffectSilent(n: N.Nav)
    requires !n.state.NavFirstInProgress?
    ensures Silent(N.Effect(n))
  {
  }

  lemma NavMoveKeeps(s: Sched, tr: N.NavTransition)
    requires Enabled(s, MNav(tr)) && !s.nav.value.state.NavWaiting?
    ensures Keeps(s, Do(s, MNav(tr)))
  {
    var t := Do(s, MNav(tr));
    assert !t.nav.value.state.NavFirstInProgress?;
    NavEffectSilent(t.nav.value);
    hide Keeps, N.Effect, Silent, Refers, N.Transfer;
    AppendKeeps(s, t, N.Effect(t.nav.value));
  }

  lemma TaskMoveKeeps(s: Sched, r: nat, tr: A.ActionTransition)
    requires Enabled(s, MTask(r, tr))
    ensures Keeps(s, Do(s, MTask(r, tr)))
  {
    var st := A.Next(s.tasks[r].state, tr).value;
    TaskEffectSilent(s.tasks[r].action.id, st);
    hide Keeps, A.Effect, Silent, Refers, A.Next;
    AppendKeeps(s, Do(s, MTask(r, tr)), A.Effect(s.tasks[r].action.id, st));
  }

  lemma EnterKeeps(s: Sched, mode: Mode, notify: bool)
    ensures Keeps(s, Enter(s, mode, notify))
  {
    hide Keeps;
    AppendKeeps(s, Enter(s, mode, notify), if notify then [OrderStatus(mode)] else []);
  }

  lemma QuietKeeps(s: Sched, t: Sched)
    requires t.out == s.out && t.hist == s.hist
    ensures Keeps(s, t)
  {
    hide Noted;
  }

  lemma TasksMoveKeeps(s: Sched)
    requires WellFormed(s)
    ensures Keeps(s, UpdateTasks(s))
  {
    UpdateTasksRecords(s);
    ClearKeeps(s, false);
    QuietKeeps(s, s);
    hide UpdateTasks, Noted, ClearQueues, Refers, Silent;
  }

  lemma MoveKeeps(s: Sched, m: Move)
    requires Enabled(s, m) && !m.MStep? && !m.MPatch?
    requires m.MNav? ==> !s.nav.value.state.NavWaiting?
    ensures Keeps(s, Do(s, m))
  {
    hide ForgetItems, ForgetGroups, StepsToStop, StartAll, Noted, Keeps, UpdateTasks, SetTask, SetNav, DropNavInt,
      Enter, ClearQueues, Refers, A.Next, N.Transfer;
    match m
    case MTask(r, tr) => TaskMoveKeeps(s, r, tr);
    case MNav(tr) => NavMoveKeeps(s, tr);
    case MUpdateTasks => TasksMoveKeeps(s);
    case MDropNavInt => DropKeeps(s);
    case MGroup =>
      var g := s.queue[0].group;
      var rec := GroupStarted(g, false, s.tasks, s.nav);
      StartsKeep(s, s.(segment := None, blocking := g.ceiling, queue := s.queue[1..], hist := s.hist + [rec]),
                 rec, g.actions, |s.hist|, false);
    case MInstant =>
      var g := s.interrupts[0];
      var rec := GroupStarted(g, true, s.tasks, s.nav);
      StartsKeep(s, s.(blocking := g.ceiling, interrupts := s.interrupts[1..], hist := s.hist + [rec]),
                 rec, g.actions, |s.hist|, true);
    case MClear(keepNav) => ClearKeeps(s, keepNav);
    case MEnter(mode, notify) => EnterKeeps(s, mode, notify);
    case MCancelIdle => EnterKeeps(s, Canceling, false);
  }

  lemma DropKeeps(s: Sched)
    requires WellFormed(s)
    ensures Keeps(s, DropNavInt(s))
  {
    hide Keep, Keeps;
    QuietKeeps(s, DropNavInt(s));
  }

  /** The history notes what was announced, and a navigation task is always started at once. */
  ghost predicate Faithful(s: Sched)
  {
    Announced(s.out) == Noted(s.hist) && (s.nav.Some? ==> !s.nav.value.state.NavWaiting?)
  }

  lemma AppendNothing<T>(a: seq<T>)
    ensures a + [] == a
  {
  }

  lemma EffectAtStart(n: N.Nav)
    requires n.state.NavFirstInProgress?
    ensures N.Effect(n) == [NavigationNextNode(n.goal, n.via)] +
                           if n.segment.None? then []
                           else [NavigationUpcomingSegment(n.segment.value.first, n.segment.value.last)]
  {
  }

  lemma StepShape(s: Sched)
    requires Enabled(s, MStep)
    ensures var t := StartStep(s);
            var step := s.queue[0];
            var out := s.out + [NavigationNextNode(step.goal, step.via)];
            var hist := s.hist + [StepStarted(step.goal, step.via, step.stopHint, s.tasks, s.nav)];
            && t.nav.Some? && t.nav.value.state.NavFirstInProgress?
            && ((t.out == out && t.hist == hist)
                || (t.segment.Some?
                    && t.out == out + [NavigationUpcomingSegment(t.segment.value.first, t.segment.value.last)]
                    && t.hist == hist + [SegmentAnnounced(t.segment.value.first, t.segment.value.last, s.queue)]))
  {
    StepEnabled(s);
    O.DriveIs(s);
    var t := StartStep(s);
    hide *;
    EffectAtStart(t.nav.value);
    var step := s.queue[0];
    var one := [NavigationNextNode(step.goal, step.via)];
    if t.nav.value.segment.None? {
      assert s.out + (one + []) == s.out + one;
    } else {
      Associative(s.out, one, [NavigationUpcomingSegment(t.segment.value.first, t.segment.value.last)]);
    }
    AppendNothing(s.hist + [StepStarted(step.goal, step.via, step.stopHint, s.tasks, s.nav)]);
  }

  lemma StepFaithful(s: Sched)
    requires Enabled(s, MStep) && Faithful(s)
    ensures Faithful(StartStep(s))
  {
    var t := StartStep(s);
    var step := s.queue[0];
    var next := NavigationNextNode(step.goal, step.via);
    var rec := StepStarted(step.goal, step.via, step.stopHint, s.tasks, s.nav);
    StepShape(s);
    OneMore(s.out, next, s.hist, rec);
    if t.segment.Some? {
      var segment := t.segment.value;
      OneMore(s.out + [next], NavigationUpcomingSegment(segment.first, segment.last),
              s.hist + [rec], SegmentAnnounced(segment.first, segment.last, s.queue));
    }
    hide Announced, Noted, StartStep, Enabled;
  }

  lemma PatchFaithful(s: Sched)
    requires Faithful(s)
    ensures Faithful(PatchSegment(s))
  {
    var t := PatchSegment(s);
    if t.hist != s.hist {
      var e, r := t.out[|s.out|], t.hist[|s.hist|];
      OneMore(s.out, e, s.hist, r);
      assert t.out == s.out + [e] && t.hist == s.hist + [r];
    }
    hide Announced, Noted, SegmentEnd;
  }

  lemma NavStarted(s: Sched, m: Move)
    requires Enabled(s, m) && Faithful(s) && !m.MStep? && !m.MPatch?
    ensures Do(s, m).nav.Some? ==> !Do(s, m).nav.value.state.NavWaiting?
  {
    hide Announced, Noted, UpdateMaps, A.Effect, N.Effect, Keep, Refers, StepsToStop, ForgetItems, ForgetGroups,
      A.Next;
    if m.MUpdateTasks? {
      assert UpdateMaps(s).nav == s.nav by { UpdateMapsFrame(s); }
    }
  }

  lemma MoveFaithful(s: Sched, m: Move)
    requires Enabled(s, m) && Faithful(s)
    ensures Faithful(Do(s, m))
  {
    if m.MStep? {
      StepFaithful(s);
    } else if m.MPatch? {
      PatchFaithful(s);
    } else {
      MoveKeeps(s, m);
      KeepsAnnounced(s, Do(s, m));
      NavStarted(s, m);
      hide Do, Enabled, Announced, Noted;
    }
  }

  lemma {:induction false} PathFaithful(s: Sched, ms: seq<Move>, t: Sched)
    requires Path(s, ms, t) && Faithful(s)
    ensures Faithful(t)
    decreases |ms|
  {
    if ms != [] {
      MoveFaithful(s, ms[0]);
      hide Faithful, Do, Enabled;
      PathFaithful(Do(s, ms[0]), ms[1..], t);
    }
  }

  lemma AcceptFaithful(s: Sched, op: Op)
    requires Faithful(s)
    ensures Faithful(Accept(s, op))
  {
    hide Announced, Noted;
  }

  /** In every run, the steps and segments recorded are exactly the next nodes and upcoming segments that
      were published, in the same order. */
  lemma {:induction false} RunFaithful(ops: seq<Op>)
    ensures Announced(Run(ops).out) == Noted(Run(ops).hist)
    ensures Faithful(Run(ops))
  {
    if ops != [] {
      var before, op := ops[..|ops| - 1], ops[|ops| - 1];
      RunFaithful(before);
      hide Apply, Announced, Noted;
      AcceptFaithful(Run(before), op);
      hide Faithful, Accept;
      var ms := PathApply(Run(before), op);
      PathFaithful(Accept(Run(before), op), ms, Run(ops));
    }
  }
}
