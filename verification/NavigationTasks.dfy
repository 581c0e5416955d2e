/** One navigation step: its state machine and the events each state publishes on entry. */
module NavigationTasks {
  import opened Vda
  import opened Events

  datatype NavTransition =
    | DoStart
    | IsResumed
    | DoPause
    | IsPaused
    | DoResume
    | ToSeqId(seqId: SeqId)
    | DoCancel
    | IsFailed

  /** The transitions the scheduler asks for; but for the start, the others are reports of what the vehicle does. */
  predicate IsCommand(tr: NavTransition)
  {
    tr.DoPause? || tr.DoResume? || tr.DoCancel?
  }

  datatype NavState =
    | NavWaiting
    | NavFirstInProgress
    | NavInProgress
    | NavPausing
    | NavPaused
    | NavResuming
    | NavCanceling
    | NavFailed
    | NavDone
  {
    predicate IsTerminal() { NavFailed? || NavDone? }

    predicate IsPaused() { NavPaused? || NavResuming? }
  }

  datatype Segment = Segment(first: SeqId, last: SeqId)

  /** The value of a navigation task. */
  datatype Nav = Nav(state: NavState, goal: Node, via: Edge, segment: Option<Segment>)

  /** The state after a transition, or None where the source throws. */
  function Transfer(st: NavState, tr: NavTransition, goal: SeqId): Option<NavState>
  {
    match st
    case NavWaiting =>
      (match tr
       case DoCancel => Some(NavCanceling)
       case DoStart => Some(NavFirstInProgress)
       case IsFailed => Some(NavFailed)
       case _ => None)
    case NavFirstInProgress => TransferInProgress(tr, goal)
    case NavInProgress => TransferInProgress(tr, goal)
    case NavPausing =>
      (match tr
       case DoCancel => Some(NavCanceling)
       case IsPaused => Some(NavPaused)
       case IsFailed => Some(NavFailed)
       case ToSeqId(s) => if s == goal then Some(NavDone) else None
       case _ => None)
    case NavPaused =>
      (match tr
       case DoCancel => Some(NavCanceling)
       case DoResume => Some(NavResuming)
       case IsResumed => Some(NavInProgress)
       case IsFailed => Some(NavFailed)
       case _ => None)
    case NavResuming =>
      (match tr
       case DoCancel => Some(NavCanceling)
       case IsResumed => Some(NavInProgress)
       case IsFailed => Some(NavFailed)
       case IsPaused => Some(NavPaused)
       case _ => None)
    case NavCanceling =>
      (match tr
       case IsFailed => Some(NavFailed)
       case ToSeqId(s) => if s == goal then Some(NavDone) else None
       case _ => None)
    case NavFailed => None
    case NavDone => None
  }

  function TransferInProgress(tr: NavTransition, goal: SeqId): Option<NavState>
  {
    match tr
    case DoCancel => Some(NavCanceling)
    case DoPause => Some(NavPausing)
    case IsFailed => Some(NavFailed)
    case IsPaused => Some(NavPaused)
    case ToSeqId(s) => if s == goal then Some(NavDone) else None
    case _ => None
  }

  /** What is published when the task enters its current state. */
  function Effect(n: Nav): seq<Event>
  {
    match n.state
    case NavFirstInProgress =>
      [NavigationNextNode(n.goal, n.via)] +
      (if n.segment.Some? then [NavigationUpcomingSegment(n.segment.value.first, n.segment.value.last)] else [])
    case NavPausing => [NavigationControl(Pause)]
    case NavResuming => [NavigationControl(Resume)]
    case NavCanceling => [NavigationControl(Cancel)]
    case NavDone => [OrderNewLastNode(n.goal.nodeId, n.goal.seqId)]
    case _ => []
  }

  /** Only completing a step reports a passed node, and it reports the goal. */
  lemma {:induction false} EffectCounts(n: Nav, other: ActionId)
    ensures Forgets(Effect(n), other) == 0 && Starts(Effect(n), other) == 0
    ensures Passed(Effect(n)) == if n.state.NavDone? then [n.goal.seqId] else []
    ensures Quiet(Effect(n))
  {
    CountsOfNone(other);
    var out := Effect(n);
    if |out| == 1 {
      CountsOfOne(out[0], other);
    } else if |out| == 2 {
      CountsOfTwo(out[0], out[1], other);
      CountsOfOne(out[0], other);
      CountsOfOne(out[1], other);
    }
    hide Forgets, Starts, Passed;
    assert out == [] || out == [out[0]] || out == [out[0], out[1]];
  }

  /** Reports are what the vehicle says about its driving. */
  predicate IsReport(tr: NavTransition)
  {
    tr.IsResumed? || tr.IsPaused? || tr.ToSeqId? || tr.IsFailed?
  }

  predicate Ends(tr: NavTransition)
  {
    tr.ToSeqId? || tr.IsFailed?
  }

  predicate Driving(st: NavState)
  {
    st.NavFirstInProgress? || st.NavInProgress?
  }

  /** The states that take a transition, column by column; only the goal of the step completes it. */
  predicate Takes(st: NavState, tr: NavTransition, goal: SeqId)
  {
    var over := st.NavFailed? || st.NavDone?;
    match tr
    case DoStart => st.NavWaiting?
    case IsResumed => st.NavPaused? || st.NavResuming?
    case DoPause => Driving(st)
    case IsPaused => Driving(st) || st.NavPausing? || st.NavResuming?
    case DoResume => st.NavPaused?
    case ToSeqId(id) => id == goal && (Driving(st) || st.NavPausing? || st.NavCanceling?)
    case DoCancel => !over && !st.NavCanceling?
    case IsFailed => !over
  }

  /** What is published when a transition is taken depends on the transition and the step alone. */
  function Announced(tr: NavTransition, n: Nav): seq<Event>
  {
    match tr
    case DoStart =>
      [NavigationNextNode(n.goal, n.via)] +
      (if n.segment.Some? then [NavigationUpcomingSegment(n.segment.value.first, n.segment.value.last)] else [])
    case DoPause => [NavigationControl(Pause)]
    case DoResume => [NavigationControl(Resume)]
    case DoCancel => [NavigationControl(Cancel)]
    case ToSeqId(_) => [OrderNewLastNode(n.goal.nodeId, n.goal.seqId)]
    case _ => []
  }

  /** What the navigation is told by a transition other than the start. */
  function Told(tr: NavTransition): seq<Event>
  {
    match tr
    case DoPause => [NavigationControl(Pause)]
    case DoResume => [NavigationControl(Resume)]
    case DoCancel => [NavigationControl(Cancel)]
    case _ => []
  }

  /** Table and effects against the columns. */
  lemma TransferExactly(n: Nav, tr: NavTransition)
    ensures var next := Transfer(n.state, tr, n.goal.seqId);
            && (next.Some? <==> Takes(n.state, tr, n.goal.seqId))
            && (next.Some? ==>
                  && Effect(n.(state := next.value)) == Announced(tr, n)
                  && (next.value.IsTerminal() <==> Ends(tr)) && (next.value.NavFailed? <==> tr.IsFailed?)
                  && (next.value.IsPaused() <==> tr.IsPaused? || tr.DoResume?))
  {
  }

  class NavigationTask {
    const goal: Node
    const via: Edge
    const bus: Bus
    var state: NavState
    var segment: Option<Segment>

    function Value(): Nav
      reads this
    {
      Nav(state, goal, via, segment)
    }

    constructor (goal: Node, via: Edge, bus: Bus)
      ensures this.bus == bus && Value() == Nav(NavWaiting, goal, via, None)
    {
      this.goal := goal;
      this.via := via;
      this.bus := bus;
      this.state := NavWaiting;
      this.segment := None;
    }

    method SetSegment(s: Segment)
      modifies this
      ensures Value() == old(Value()).(segment := Some(s))
    {
      segment := Some(s);
    }

    /** Takes a transition and publishes the effect of the new state. Where the source throws,
        nothing changes and `ok` is false. */
    method Transition(tr: NavTransition) returns (ok: bool)
      modifies this, bus
      ensures ok == Takes(old(state), tr, goal.seqId) && ok == Transfer(old(state), tr, goal.seqId).Some?
      ensures ok ==> Value() == old(Value()).(state := Transfer(old(state), tr, goal.seqId).value)
      ensures ok ==> bus.trace == old(bus.trace) + Effect(Value())
      ensures ok ==> bus.trace == old(bus.trace) + Announced(tr, old(Value()))
      ensures !ok ==> Value() == old(Value()) && bus.trace == old(bus.trace)
    {
      var next := Transfer(state, tr, goal.seqId);
      TransferExactly(Value(), tr);
      if next.None? {
        return false;
      }
      state := next.value;
      match state {
        case NavFirstInProgress =>
          bus.Publish(NavigationNextNode(goal, via));
          if segment.Some? {
            bus.Publish(NavigationUpcomingSegment(segment.value.first, segment.value.last));
          }
        case NavPausing =>
          bus.Publish(NavigationControl(Pause));
        case NavResuming =>
          bus.Publish(NavigationControl(Resume));
        case NavCanceling =>
          bus.Publish(NavigationControl(Cancel));
        case NavDone =>
          bus.Publish(OrderNewLastNode(goal.nodeId, goal.seqId));
        case _ =>
      }
      return true;
    }
  }
}
