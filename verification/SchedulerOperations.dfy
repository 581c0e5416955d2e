/** The operations of the scheduler one level at a time: what each of them is in terms of the next ones, so that a proof
    can keep the rest closed. */
module SchedulerOperations {
  import opened Vda
  import opened Events
  import A = ActionTasks
  import N = NavigationTasks
  import opened SchedulerModel

  // Transitions /////////////////////////////////////////////////////////////////////////////////

  lemma {:induction false} TransitionNext(s: Sched, refs: seq<nat>, tr: A.ActionTransition)
    requires InRange(refs, |s.tasks|) && refs != []
    ensures refs[0] < |s.tasks| && |TaskTransition(s, refs[0], tr).s.tasks| == |s.tasks|
    ensures InRange(refs[1..], |s.tasks|)
    ensures TransitionAll(s, refs, tr) ==
            if TaskTransition(s, refs[0], tr).Throw? then TaskTransition(s, refs[0], tr)
            else TransitionAll(TaskTransition(s, refs[0], tr).s, refs[1..], tr)
  {
  }

  lemma {:induction false} TransitionNone(s: Sched, tr: A.ActionTransition)
    ensures InRange([], |s.tasks|) && TransitionAll(s, [], tr) == Ok(s)
  {
  }

  lemma TaskIs(s: Sched, r: nat, tr: A.ActionTransition)
    requires r < |s.tasks|
    ensures var next, o := A.Next(s.tasks[r].state, tr), TaskTransition(s, r, tr);
            && (next.None? ==> o == Throw(s))
            && (next.Some? ==>
                  o == Ok(s.(tasks := s.tasks[r := s.tasks[r].(state := next.value)],
                             out := s.out + A.Effect(s.tasks[r].action.id, next.value))))
  {
    hide A.Next, A.Effect;
  }

  lemma NavIs(s: Sched, tr: N.NavTransition)
    requires s.nav.Some?
    ensures var next, o := N.Transfer(s.nav.value.state, tr, s.nav.value.goal.seqId), NavTransition(s, tr);
            && (next.None? ==> o == Throw(s))
            && (next.Some? ==>
                  o.Ok? && o.s == s.(nav := Some(s.nav.value.(state := next.value)), out := o.s.out))
  {
    hide N.Transfer, N.Effect;
  }

  // Fetching ////////////////////////////////////////////////////////////////////////////////////

  lemma {:induction false} FetchNothing(s: Sched)
    requires s.queue == []
    ensures Fetch(s) == s
  {
  }

  lemma {:induction false} FetchGroupIs(s: Sched)
    requires s.queue != [] && s.queue[0].Actions?
    ensures Fetch(s) ==
            if s.active == map[] && (s.nav.None? || s.queue[0].group.ceiling == NONE) then Fetch(StartGroup(s)) else s
  {
    hide StartGroup;
  }

  lemma {:induction false} FetchStepIs(s: Sched)
    requires s.queue != [] && s.queue[0].Step?
    ensures Fetch(s) ==
            if s.nav.Some? then PatchSegment(s)
            else if s.navInt == map[] && (s.active == map[] || s.blocking == NONE) then Fetch(StartStep(s))
            else s
  {
    hide StartStep, PatchSegment;
  }

  lemma PatchIs(s: Sched)
    requires WellFormed(s)
    ensures WellFormed(PatchSegment(s))
    ensures PatchSegment(s) ==
            if s.nav.None? || s.segment.None? ||
               SegmentEnd(s.queue, s.segment.value.last) == s.segment.value.last then s
            else
              var last := SegmentEnd(s.queue, s.segment.value.last);
              var begin := Add32(s.segment.value.last, 1);
              s.(segment := Some(s.segment.value.(last := last)),
                 out := s.out + [NavigationUpcomingSegment(begin, last)],
                 hist := s.hist + [SegmentAnnounced(begin, last, s.queue)])
  {
    hide SegmentEnd, Refers;
  }

  lemma ClearIs(s: Sched, keepNav: bool)
    requires WellFormed(s)
    ensures var t := ClearQueues(s, keepNav);
            && WellFormed(t)
            && t == s.(queue := if keepNav then StepsToStop(s.queue) else [], interrupts := [],
                       out := s.out + (ForgetItems(s.queue) + ForgetGroups(s.interrupts)))
  {
    hide Refers, StepsToStop, ForgetItems, ForgetGroups;
    Associative(s.out, ForgetItems(s.queue), ForgetGroups(s.interrupts));
  }

  lemma EnterIs(s: Sched, mode: Mode, notify: bool)
    requires WellFormed(s)
    ensures var t := Enter(s, mode, notify);
            && WellFormed(t)
            && t == s.(mode := mode, out := if notify then s.out + [OrderStatus(mode)] else s.out,
                       segment := if mode == Idle then None else s.segment)
  {
    hide Refers;
  }

  lemma GroupIs(s: Sched)
    requires s.queue != [] && s.queue[0].Actions?
    ensures var g := s.queue[0].group;
            StartGroup(s) == StartAll(s.(segment := None, blocking := g.ceiling, queue := s.queue[1..],
                                         hist := s.hist + [GroupStarted(g, false, s.tasks, s.nav)]),
                                      g.actions, |s.hist|, false)
  {
  }

  lemma DriveIs(s: Sched)
    requires WellFormed(s) && s.queue != [] && s.queue[0].Step?
    ensures var step, t := s.queue[0], StartStep(s);
            var covered := s.segment.Some? && s.segment.value.last >= step.goal.seqId;
            var next := Some(N.Segment(step.goal.seqId, SegmentEnd(s.queue, step.goal.seqId)));
            && WellFormed(t)
            && t.nav == Some(N.Nav(N.NavFirstInProgress, step.goal, step.via, if covered then None else next))
            && t.segment == (if covered then s.segment else next)
            && t.out == s.out + N.Effect(t.nav.value) && t.queue == s.queue[1..]
            && t.hist == s.hist + [StepStarted(step.goal, step.via, step.stopHint, s.tasks, s.nav)] +
                         (if covered then [] else [SegmentAnnounced(next.value.first, next.value.last, s.queue)])
            && t == s.(nav := t.nav, segment := t.segment, queue := t.queue, out := t.out, hist := t.hist)
  {
    hide SegmentEnd, N.Effect, Refers;
  }

  lemma InstantIs(s: Sched)
    requires s.interrupts != []
    ensures var g := s.interrupts[0];
            StartInstant(s) == StartAll(s.(blocking := g.ceiling, interrupts := s.interrupts[1..],
                                           hist := s.hist + [GroupStarted(g, true, s.tasks, s.nav)]),
                                        g.actions, |s.hist|, true)
  {
  }

  // The operations of the states, and the public ones ///////////////////////////////////////////

  lemma {:induction false} CancelActiveIs(s: Sched)
    requires WellFormed(s)
    ensures var refs := RefsOf(s.active);
            && InRange(refs, |s.tasks|)
            && var o := TransitionAll(s, refs, A.DoCancel);
            var drives := o.s.nav.Some? && !o.s.nav.value.state.IsPaused() && !o.s.nav.value.state.IsTerminal();
            var nav := if drives then NavTransition(o.s, N.DoCancel) else o;
            CancelActive(s) ==
            if o.Throw? then (o, false)
            else if nav.Throw? then (nav, false)
            else (Ok(Enter(ClearQueues(nav.s, true), Canceling, true)), false)
  {
    RefsInRange(s.active, s.tasks);
    hide TransitionAll, RefsOf, Enter, ClearQueues, NavTransition;
  }

  lemma {:induction false} PauseActiveIs(s: Sched)
    requires WellFormed(s)
    ensures var refs := RefsOf(s.running);
            && InRange(refs, |s.tasks|)
            && var o := TransitionAll(s, refs, A.DoPause);
            var nav := if o.s.nav.Some? then NavTransition(o.s, N.DoPause) else o;
            PauseActive(s) ==
            if o.Throw? then (o, false)
            else if nav.Throw? then (nav, false)
            else (Ok(Enter(nav.s, Pausing, true)), false)
  {
    RefsInRange(s.running, s.tasks);
    hide TransitionAll, RefsOf, Enter, NavTransition;
  }

  lemma {:induction false} ResumePausedIs(s: Sched)
    requires WellFormed(s)
    ensures var refs := RefsOf(s.paused);
            && InRange(refs, |s.tasks|)
            && var o := TransitionAll(s, refs, A.DoResume);
            var nav := if o.s.nav.Some? then NavTransition(o.s, N.DoResume) else o;
            ResumePaused(s) ==
            if o.Throw? then (o, false)
            else if nav.Throw? then (nav, false)
            else (Ok(Enter(nav.s, Resuming, true)), true)
  {
    RefsInRange(s.paused, s.tasks);
    hide TransitionAll, RefsOf, Enter, NavTransition;
  }

  lemma RefreshIs(s: Sched)
    requires WellFormed(s)
    ensures WellFormed(UpdateTasks(s))
    ensures Refresh(s) == UpdateInterruptMapping(UpdateTasks(s))
  {
    hide UpdateTasks, UpdateInterruptMapping;
  }

  lemma {:induction false} UpdateIdleIs(s: Sched)
    requires WellFormed(s)
    ensures var t := Fetch(s);
            UpdateIdle(s) ==
            (Ok(if t.nav.Some? || t.active != map[] then Enter(t, Active, true) else Enter(t, Idle, false)), false)
  {
    hide Fetch, Enter;
  }

  lemma UpdateActiveIs(s: Sched)
    requires WellFormed(s)
    ensures var o := Refresh(s);
            var t := Fetch(o.s);
            UpdateActive(s) ==
            if o.Throw? then (o, false)
            else if t.active == map[] && (t.nav.None? || t.nav.value.state.IsTerminal())
            then (Ok(Enter(t, Idle, true)), false)
            else (Ok(Enter(t, Active, false)), false)
  {
    hide Fetch, Enter, Refresh;
  }

  lemma UpdateCancelingIs(s: Sched)
    requires WellFormed(s)
    ensures var o := Refresh(s);
            var t := Fetch(o.s);
            UpdateCanceling(s) ==
            if o.Throw? then (o, false)
            else if t.active == map[] && t.nav.None? then (Ok(Enter(t, Idle, true)), false)
            else (Ok(Enter(t, Canceling, false)), false)
  {
    hide Fetch, Enter, Refresh;
  }

  lemma UpdateResumingIs(s: Sched)
    requires WellFormed(s)
    ensures var o := Refresh(s);
            UpdateResuming(s) ==
            if o.Throw? then (o, false)
            else if o.s.paused != map[] || (o.s.nav.Some? && o.s.nav.value.state.IsPaused())
            then (Ok(Enter(o.s, Resuming, false)), false)
            else (Ok(Enter(o.s, Active, true)), true)
  {
    hide Enter, Refresh;
  }

  lemma UpdatePausingIs(s: Sched)
    requires WellFormed(s)
    ensures var o := Refresh(s);
            UpdatePausing(s) ==
            if o.Throw? then (o, false)
            else if o.s.running != map[] || (o.s.nav.Some? && !o.s.nav.value.state.IsPaused())
            then (Ok(Enter(o.s, Pausing, false)), false)
            else (Ok(Enter(o.s, Paused, true)), false)
  {
    hide Enter, Refresh;
  }

  lemma UpdatePausedIs(s: Sched)
    requires WellFormed(s)
    ensures var o := Refresh(s);
            UpdatePaused(s) == if o.Throw? then (o, false) else (Ok(Enter(o.s, Paused, false)), false)
  {
    hide Enter, Refresh;
  }

  lemma StateInterruptIs(s: Sched)
    requires WellFormed(s)
    ensures StateInterrupt(s) ==
            if s.mode == Idle || s.mode == Active then
              var o := DoInterrupt(s);
              if o.Throw? then (o, false) else (Ok(Enter(o.s, Interrupting, true)), true)
            else (Throw(s), false)
  {
    hide DoInterrupt, Enter;
  }

  lemma UpdateInterruptingIs(s: Sched)
    requires WellFormed(s)
    ensures WellFormed(UpdateTasks(s))
    ensures var t := FetchInterrupt(UpdateTasks(s));
            UpdateInterrupting(s) ==
            (Ok(if t.interrupts == [] then Enter(t, Active, true) else Enter(t, Interrupting, false)), false)
  {
    hide Enter, FetchInterrupt, UpdateTasks;
  }

  lemma StateUpdateIs(s: Sched)
    requires WellFormed(s)
    ensures StateUpdate(s) ==
            match s.mode
            case Idle => UpdateIdle(s)
            case IdlePaused => (Ok(Enter(s, IdlePaused, false)), false)
            case Active => UpdateActive(s)
            case Canceling => UpdateCanceling(s)
            case Resuming => UpdateResuming(s)
            case Pausing => UpdatePausing(s)
            case Paused => UpdatePaused(s)
            case Failed => (Ok(Enter(s, Failed, false)), false)
            case Interrupting => UpdateInterrupting(s)
  {
    hide UpdateIdle, UpdateActive, UpdateCanceling, UpdateResuming, UpdatePausing, UpdatePaused, UpdateInterrupting,
      Enter;
  }

  lemma {:induction false} UpdateIs(s: Sched)
    requires WellFormed(s)
    ensures var r := StateUpdate(s);
            && Update(s) == (if r.0.Ok? && r.1 then Update(r.0.s) else r.0)
            && (r.1 ==> s.mode == Resuming && r.0.s.mode == Active)
  {
    hide StateUpdate;
  }

  lemma FinishIs(r: StateResult)
    requires WellFormed(r.0.s)
    ensures Finish(r) == if r.0.Ok? && r.1 then Update(r.0.s) else r.0
  {
    hide Update;
  }

  lemma CancelIs(s: Sched)
    requires WellFormed(s)
    ensures WellFormed(StateCancel(s).0.s) && Apply(s, OpCancel) == Finish(StateCancel(s))
    ensures StateCancel(s) ==
            match s.mode
            case Idle => (Ok(Enter(s, Canceling, false)), true)
            case IdlePaused => (Ok(ClearQueues(s, false)), false)
            case Active => CancelActive(s)
            case Paused => CancelActive(s)
            case _ => (Throw(s), false)
  {
    hide Finish, CancelActive, Enter, ClearQueues;
  }

  lemma PauseIs(s: Sched)
    requires WellFormed(s)
    ensures WellFormed(StatePause(s).0.s) && Apply(s, OpPause) == Finish(StatePause(s))
    ensures StatePause(s) ==
            match s.mode
            case Idle => (Ok(Enter(s, IdlePaused, true)), false)
            case Active => PauseActive(s)
            case _ => (Throw(s), false)
  {
    hide Finish, PauseActive, Enter;
  }

  lemma ResumeIs(s: Sched)
    requires WellFormed(s)
    ensures WellFormed(StateResume(s).0.s) && Apply(s, OpResume) == Finish(StateResume(s))
    ensures StateResume(s) ==
            match s.mode
            case IdlePaused => (Ok(Enter(s, Idle, true)), true)
            case Paused => ResumePaused(s)
            case _ => (Throw(s), false)
  {
    hide Finish, ResumePaused, Enter;
  }

  lemma ActionIs(s: Sched, id: ActionId, tr: A.ActionTransition)
    requires WellFormed(s)
    ensures id in s.active ==> s.active[id] < |s.tasks|
    ensures Apply(s, OpAction(id, tr)) ==
            if id !in s.active then Throw(s)
            else
              var o := TaskTransition(s, s.active[id], tr);
              if o.Throw? then o else Update(o.s)
  {
    hide TaskTransition, Update;
  }

  lemma NavigationIs(s: Sched, tr: N.NavTransition)
    requires WellFormed(s)
    ensures Apply(s, OpNavigation(tr)) ==
            if s.nav.None? then Throw(s)
            else
              var o := NavTransition(s, tr);
              if o.Throw? then o else Update(o.s)
  {
    hide Update;
  }

  lemma InterruptIs(s: Sched, g: Group)
    requires WellFormed(s)
    ensures var t := s.(interrupts := s.interrupts + [g]);
            && WellFormed(t)
            && WellFormed(StateInterrupt(t).0.s) && Apply(s, OpInterrupt(g)) == Finish(StateInterrupt(t))
            && StateInterrupt(t) ==
               (if t.mode == Idle || t.mode == Active then
                  var o := DoInterrupt(t);
                  if o.Throw? then (o, false) else (Ok(Enter(o.s, Interrupting, true)), true)
                else (Throw(t), false))
  {
    hide Finish, DoInterrupt, Enter;
  }

  lemma CommitIs(s: Sched)
    requires WellFormed(s)
    ensures var t := s.(queue := s.queue + s.staging, staging := []);
            WellFormed(t) && Apply(s, OpCommit) == Update(t)
  {
    hide Update;
  }
}
