/** What is said to and about one action against what is heard from it. The state of the action task, its table and the
    effects of its states are an implementation of this dialogue. */
module ActionDialogue {
  import opened Vda
  import opened Events
  import opened ActionTasks

  /** The status that is due after the reports heard so far. A repeated initialization is not published. */
  function StatusDue(id: ActionId, heard: seq<ActionTransition>): Event
  {
    if heard == [] then ActionStatusChanged(id, INITIALIZING, None)
    else
      match heard[|heard| - 1]
      case IsRunning => ActionStatusChanged(id, RUNNING, None)
      case IsPaused => ActionStatusChanged(id, PAUSED, None)
      case IsFailed => ActionStatusChanged(id, FAILED, None)
      case IsFinished(result) => ActionStatusChanged(id, FINISHED, result)
      case _ => StatusDue(id, heard[..|heard| - 1])
  }

  predicate EndsLife(e: Event)
  {
    e.ActionStatusChanged? && (e.status == FINISHED || e.status == FAILED)
  }

  /** What may be said once the rest has been said: an action is started once and first, told to resume only when it is
      paused, told nothing once it is over, and once it is told to cancel only its end is published. */
  ghost predicate MaySay(before: seq<Event>, e: Event, id: ActionId)
  {
    && (forall b | b in before :: !EndsLife(b))
    && (ActionCancel(id) in before ==> EndsLife(e))
    && (e == ActionStatusChanged(id, INITIALIZING, None) <==> before == [])
    && (e == ActionStart(id) <==> before == [ActionStatusChanged(id, INITIALIZING, None)])
    && (e == ActionResume(id) ==> StatusOf(before, id) == Some(ActionStatusChanged(id, PAUSED, None)))
    && (e.ActionStatusChanged? ==> e.status != WAITING && (e.status != FINISHED ==> e.result == None))
  }

  ghost predicate Spoken(said: seq<Event>, id: ActionId)
  {
    forall i | 0 <= i < |said| :: About(said[i], id) && MaySay(said[..i], said[i], id)
  }

  /** A task in this state has heard and said this. */
  ghost predicate Told(st: ActionState, id: ActionId, heard: seq<ActionTransition>, said: seq<Event>)
  {
    && |said| >= 2 && Spoken(said, id) && StatusOf(said, id) == Some(StatusDue(id, heard))
    && Reports(heard) && LastHeard(st, heard) && LastSaid(st, id, said) && Closed(st, id, said)
  }

  /** Nothing but reports, and only the last one ends the action. */
  predicate Reports(heard: seq<ActionTransition>)
  {
    forall i | 0 <= i < |heard| :: IsReport(heard[i]) && (i < |heard| - 1 ==> !Ends(heard[i]))
  }

  /** An end is published only of actions that are over, and a cancel only of those that are canceling or over. */
  ghost predicate Closed(st: ActionState, id: ActionId, said: seq<Event>)
  {
    && (st.ActionFailed? || st.ActionFinished? || forall b | b in said :: !EndsLife(b))
    && (ActionCancel(id) in said ==> st.ActionCanceling? || st.ActionFailed? || st.ActionFinished?)
  }

  predicate LastHeard(st: ActionState, heard: seq<ActionTransition>)
  {
    var last := if heard == [] then None else Some(heard[|heard| - 1]);
    match st
    case ActionWaiting => false
    case ActionInitializing => last == None
    case ActionInitializingNoEffect => last == Some(IsInitializing)
    case ActionRunning => last == Some(IsRunning)
    case ActionPausing => last in {None, Some(IsInitializing), Some(IsRunning)}
    case ActionResuming => last == Some(IsPaused)
    case ActionPaused => last == Some(IsPaused)
    case ActionCanceling => last == None || !Ends(last.value)
    case ActionFailed => last == Some(IsFailed)
    case ActionFinished(result) => last == Some(IsFinished(result))
  }

  predicate LastSaid(st: ActionState, id: ActionId, said: seq<Event>)
    requires said != []
  {
    var last := said[|said| - 1];
    match st
    case ActionInitializing => last == ActionStart(id)
    case ActionRunning => last == ActionStatusChanged(id, RUNNING, None)
    case ActionPausing => last == ActionPause(id)
    case ActionResuming => last == ActionResume(id)
    case ActionPaused => last == ActionStatusChanged(id, PAUSED, None)
    case ActionCanceling => last == ActionCancel(id)
    case _ => true
  }

  // Transitions /////////////////////////////////////////////////////////////////////////////////

  /** What is said about an action when it takes a transition: what is announced, but for the forgetting. */
  function SaidOn(tr: ActionTransition, id: ActionId): seq<Event>
  {
    var all := Announced(tr, id);
    if Ends(tr) then all[..1] else all
  }

  lemma {:induction false} SaidOfTwo(d: Event, e: Event, id: ActionId)
    ensures Said([], id) == []
    ensures Said([d], id) == if About(d, id) then [d] else []
    ensures Said([d, e], id) == Said([d], id) + Said([e], id)
  {
    assert [d][..0] == [] && [d, e] == [d] + [e];
    SaidAppend([d], [e], id);
  }

  lemma {:induction false} SaidOnTransition(tr: ActionTransition, id: ActionId, other: ActionId)
    ensures Said(Announced(tr, id), other) == if other == id then SaidOn(tr, id) else []
  {
    hide Said;
    var all := Announced(tr, id);
    if |all| == 2 {
      assert all == [all[0], all[1]] && all[..1] == [all[0]];
      SaidOfTwo(all[0], all[1], other);
      SaidOfTwo(all[1], all[1], other);
    } else if |all| == 1 {
      assert all == [all[0]];
      SaidOfTwo(all[0], all[0], other);
    } else {
      assert all == [];
      SaidOfTwo(ActionStart(id), ActionStart(id), other);
    }
  }

  lemma {:induction false} CommandsOfTwo(d: Event, e: Event)
    ensures Commands([]) == [] && Commands([d]) == if Directs(d) then [d] else []
    ensures Commands([d, e]) == Commands([d]) + Commands([e])
  {
    assert [d][..0] == [] && [d, e] == [d] + [e];
    CommandsAppend([d], [e]);
  }

  lemma CommandsAnnounced(tr: ActionTransition, id: ActionId)
    ensures Commands(Announced(tr, id)) == Commanded(tr, id)
  {
    hide Commands;
    var all := Announced(tr, id);
    if |all| == 2 {
      assert all == [all[0], all[1]];
      CommandsOfTwo(all[0], all[1]);
      CommandsOfTwo(all[1], all[1]);
    } else if |all| == 1 {
      assert all == [all[0]];
      CommandsOfTwo(all[0], all[0]);
    } else {
      assert all == [];
      CommandsOfTwo(ActionStart(id), ActionStart(id));
    }
  }

  lemma SpokenMore(said: seq<Event>, e: Event, id: ActionId)
    requires Spoken(said, id) && About(e, id) && MaySay(said, e, id)
    ensures Spoken(said + [e], id)
  {
    var more := said + [e];
    forall i | 0 <= i < |more|
      ensures About(more[i], id) && MaySay(more[..i], more[i], id)
    {
      assert more[..i] == said[..i];
      hide MaySay;
    }
  }

  lemma {:induction false} StatusAfter(said: seq<Event>, e: Event, id: ActionId)
    ensures StatusOf(said + [e], id) == if e.ActionStatusChanged? && e.id == id then Some(e) else StatusOf(said, id)
  {
    assert (said + [e])[..|said|] == said;
  }

  lemma {:induction false} StatusDueAfter(id: ActionId, heard: seq<ActionTransition>, tr: ActionTransition)
    requires IsReport(tr)
    ensures StatusDue(id, heard + [tr]) == if tr.IsInitializing? then StatusDue(id, heard) else Announced(tr, id)[0]
  {
    assert (heard + [tr])[..|heard|] == heard;
  }

  // Tasks ///////////////////////////////////////////////////////////////////////////////////////

  /** An action that has just been started. */
  lemma ToldStarts(id: ActionId)
    ensures Told(ActionInitializing, id, [], SaidOn(DoStart, id))
  {
    var all := SaidOn(DoStart, id);
    assert all == [ActionStatusChanged(id, INITIALIZING, None), ActionStart(id)];
    StatusAfter([], all[0], id);
    StatusAfter([all[0]], all[1], id);
    assert [] + [all[0]] == [all[0]] && [all[0]] + [all[1]] == all;
    hide StatusOf;
    assert all[..0] == [] && all[..1] == [all[0]];
  }

  lemma NextSays(st: ActionState, tr: ActionTransition, id: ActionId, heard: seq<ActionTransition>, said: seq<Event>)
    requires Told(st, id, heard, said) && Takes(st, tr) && !tr.IsInitializing?
    ensures SaidOn(tr, id) == [SaidOn(tr, id)[0]]
    ensures About(SaidOn(tr, id)[0], id) && MaySay(said, SaidOn(tr, id)[0], id)
  {
    if tr.DoResume? {
      assert heard[|heard| - 1] == IsPaused;
    }
    assert said != [ActionStatusChanged(id, INITIALIZING, None)];
    hide StatusOf, Spoken, Reports;
  }

  lemma NextHears(st: ActionState, tr: ActionTransition, heard: seq<ActionTransition>)
    requires Reports(heard) && LastHeard(st, heard) && Takes(st, tr)
    ensures Next(st, tr).Some?
    ensures var more := if IsReport(tr) then heard + [tr] else heard;
            Reports(more) && LastHeard(Next(st, tr).value, more)
  {
  }

  lemma NextCloses(st: ActionState, tr: ActionTransition, id: ActionId, said: seq<Event>)
    requires Closed(st, id, said) && Takes(st, tr) && said != []
    ensures Next(st, tr).Some?
    ensures Closed(Next(st, tr).value, id, said + SaidOn(tr, id))
  {
    TransitionExactly(st, tr, id);
  }

  lemma NextLastSaid(st: ActionState, tr: ActionTransition, id: ActionId, said: seq<Event>)
    requires said != [] && LastSaid(st, id, said) && Takes(st, tr) && !st.ActionWaiting?
    ensures Next(st, tr).Some?
    ensures LastSaid(Next(st, tr).value, id, said + SaidOn(tr, id))
  {
  }

  lemma {:induction false} ToldParts(st: ActionState, id: ActionId, heard: seq<ActionTransition>, said: seq<Event>)
    requires Told(st, id, heard, said)
    ensures |said| >= 2 && Spoken(said, id) && StatusOf(said, id) == Some(StatusDue(id, heard))
    ensures Reports(heard) && LastHeard(st, heard) && LastSaid(st, id, said) && Closed(st, id, said)
    ensures !st.ActionWaiting?
  {
    hide Spoken, StatusOf, StatusDue, Reports, LastSaid, Closed;
  }

  lemma StatusNext(tr: ActionTransition, id: ActionId, heard: seq<ActionTransition>, said: seq<Event>)
    requires said != [] && StatusOf(said, id) == Some(StatusDue(id, heard))
    ensures StatusOf(said + SaidOn(tr, id), id) == Some(StatusDue(id, if IsReport(tr) then heard + [tr] else heard)) ||
            tr.DoStart?
  {
    if IsReport(tr) {
      StatusDueAfter(id, heard, tr);
    }
    if tr.IsInitializing? {
      assert said + SaidOn(tr, id) == said;
    } else {
      var e := SaidOn(tr, id)[0];
      StatusAfter(said, e, id);
      hide StatusOf, StatusDue;
      assert !tr.DoStart? ==> SaidOn(tr, id) == [e];
    }
  }

  /** Every transition continues the dialogue: a report is heard, and what is then said may be said. */
  lemma ToldNext(st: ActionState, tr: ActionTransition, id: ActionId, heard: seq<ActionTransition>, said: seq<Event>)
    requires Told(st, id, heard, said) && Takes(st, tr)
    ensures Next(st, tr).Some?
    ensures Told(Next(st, tr).value, id, if IsReport(tr) then heard + [tr] else heard, said + SaidOn(tr, id))
  {
    ToldParts(st, id, heard, said);
    assert !tr.DoStart?;
    if tr.IsInitializing? {
      assert said + SaidOn(tr, id) == said;
    } else {
      NextSays(st, tr, id, heard, said);
      SpokenMore(said, SaidOn(tr, id)[0], id);
    }
    hide *;
    NextHears(st, tr, heard);
    NextCloses(st, tr, id, said);
    NextLastSaid(st, tr, id, said);
    StatusNext(tr, id, heard, said);
    ToldFrom(Next(st, tr).value, id, if IsReport(tr) then heard + [tr] else heard, said + SaidOn(tr, id));
  }

  lemma {:induction false} ToldFrom(st: ActionState, id: ActionId, heard: seq<ActionTransition>, said: seq<Event>)
    requires |said| >= 2 && Spoken(said, id) && StatusOf(said, id) == Some(StatusDue(id, heard))
    requires Reports(heard) && LastHeard(st, heard) && LastSaid(st, id, said) && Closed(st, id, said)
    ensures Told(st, id, heard, said)
  {
    hide Spoken, StatusOf, StatusDue, Reports, LastSaid, Closed;
  }
}
