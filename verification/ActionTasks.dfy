/** One action of an order: its state machine and the events each state publishes on entry
    (section 6.11 of VDA 5050 v2.0.0). */
module ActionTasks {
  import opened Vda
  import opened Events

  datatype ActionTransition =
    | DoStart
    | IsInitializing
    | IsRunning
    | DoPause
    | IsPaused
    | DoResume
    | IsFailed
    | IsFinished(result: Option<string>)
    | DoCancel

  /** The transitions the scheduler asks for; but for the start, the others are reports of what the action does. */
  predicate IsCommand(tr: ActionTransition)
  {
    tr.DoPause? || tr.DoResume? || tr.DoCancel?
  }

  datatype ActionState =
    | ActionWaiting
    | ActionInitializing
    | ActionInitializingNoEffect
    | ActionRunning
    | ActionPausing
    | ActionResuming
    | ActionPaused
    | ActionCanceling
    | ActionFailed
    | ActionFinished(result: Option<string>)
  {
    predicate IsTerminal() { ActionFailed? || ActionFinished? }

    predicate IsPaused() { ActionResuming? || ActionPaused? }
  }

  /** The state after a transition, or None where the source throws. */
  function Next(st: ActionState, tr: ActionTransition): Option<ActionState>
  {
    match st
    case ActionWaiting =>
      (match tr
       case DoStart => Some(ActionInitializing)
       case DoCancel => Some(ActionCanceling)
       case _ => None)
    case ActionInitializing => NextInitializing(tr)
    case ActionInitializingNoEffect => NextInitializing(tr)
    case ActionRunning =>
      (match tr
       case IsFailed => Some(ActionFailed)
       case IsFinished(result) => Some(ActionFinished(result))
       case DoPause => Some(ActionPausing)
       case DoCancel => Some(ActionCanceling)
       case _ => None)
    case ActionPausing =>
      (match tr
       case IsFailed => Some(ActionFailed)
       case IsPaused => Some(ActionPaused)
       case DoCancel => Some(ActionCanceling)
       case _ => None)
    case ActionResuming =>
      (match tr
       case IsFailed => Some(ActionFailed)
       case IsRunning => Some(ActionRunning)
       case DoCancel => Some(ActionCanceling)
       case IsInitializing => Some(ActionInitializingNoEffect)
       case _ => None)
    case ActionPaused =>
      (match tr
       case IsFailed => Some(ActionFailed)
       case DoResume => Some(ActionResuming)
       case DoCancel => Some(ActionCanceling)
       case IsInitializing => Some(ActionInitializingNoEffect)
       case IsRunning => Some(ActionRunning)
       case _ => None)
    case ActionCanceling =>
      (match tr
       case IsFailed => Some(ActionFailed)
       case IsFinished(result) => Some(ActionFinished(result))
       case _ => None)
    case ActionFailed => None
    case ActionFinished(_) => None
  }

  function NextInitializing(tr: ActionTransition): Option<ActionState>
  {
    match tr
    case IsFailed => Some(ActionFailed)
    case IsFinished(result) => Some(ActionFinished(result))
    case IsRunning => Some(ActionRunning)
    case DoCancel => Some(ActionCanceling)
    case IsInitializing => Some(ActionInitializingNoEffect)
    case DoPause => Some(ActionPausing)
    case IsPaused => Some(ActionPaused)
    case _ => None
  }

  /** What is published when a state is entered. */
  function Effect(id: ActionId, st: ActionState): seq<Event>
  {
    match st
    case ActionInitializing => [ActionStatusChanged(id, INITIALIZING, None), ActionStart(id)]
    case ActionRunning => [ActionStatusChanged(id, RUNNING, None)]
    case ActionPausing => [ActionPause(id)]
    case ActionResuming => [ActionResume(id)]
    case ActionPaused => [ActionStatusChanged(id, PAUSED, None)]
    case ActionCanceling => [ActionCancel(id)]
    case ActionFailed => [ActionStatusChanged(id, FAILED, None), ActionForget(id)]
    case ActionFinished(result) => [ActionStatusChanged(id, FINISHED, result), ActionForget(id)]
    case _ => []
  }

  /** Entering a state forgets the action exactly when the state is terminal, and starts it
      exactly when the state is the first initializing state. */
  lemma {:induction false} EffectCounts(id: ActionId, st: ActionState, other: ActionId)
    ensures Forgets(Effect(id, st), other) == if st.IsTerminal() && id == other then 1 else 0
    ensures Starts(Effect(id, st), other) == if st == ActionInitializing && id == other then 1 else 0
    ensures Passed(Effect(id, st)) == []
    ensures Quiet(Effect(id, st))
  {
    CountsOfNone(other);
    var out := Effect(id, st);
    if |out| == 1 {
      CountsOfOne(out[0], other);
    } else if |out| == 2 {
      CountsOfTwo(out[0], out[1], other);
      CountsOfOne(out[0], other);
      CountsOfOne(out[1], other);
    }
    hide Forgets, Starts, Passed;
    assert out == [] || out == [out[0]] || out == [out[0], out[1]];
  }

  /** Reports are what an action says about itself. */
  predicate IsReport(tr: ActionTransition)
  {
    tr.IsInitializing? || tr.IsRunning? || tr.IsPaused? || tr.IsFailed? || tr.IsFinished?
  }

  predicate Ends(tr: ActionTransition)
  {
    tr.IsFailed? || tr.IsFinished?
  }

  /** What is published when a transition is taken depends on the transition alone. */
  function Announced(tr: ActionTransition, id: ActionId): seq<Event>
  {
    match tr
    case DoStart => [ActionStatusChanged(id, INITIALIZING, None), ActionStart(id)]
    case IsInitializing => []
    case IsRunning => [ActionStatusChanged(id, RUNNING, None)]
    case DoPause => [ActionPause(id)]
    case IsPaused => [ActionStatusChanged(id, PAUSED, None)]
    case DoResume => [ActionResume(id)]
    case IsFailed => [ActionStatusChanged(id, FAILED, None), ActionForget(id)]
    case IsFinished(result) => [ActionStatusChanged(id, FINISHED, result), ActionForget(id)]
    case DoCancel => [ActionCancel(id)]
  }

  /** What the action is told by a transition other than the start. */
  function Commanded(tr: ActionTransition, id: ActionId): seq<Event>
  {
    match tr
    case DoPause => [ActionPause(id)]
    case DoResume => [ActionResume(id)]
    case DoCancel => [ActionCancel(id)]
    case _ => []
  }

  /** The states that take a transition, column by column. */
  predicate Takes(st: ActionState, tr: ActionTransition)
  {
    var initializing := st.ActionInitializing? || st.ActionInitializingNoEffect?;
    var over := st.ActionFailed? || st.ActionFinished?;
    match tr
    case DoStart => st.ActionWaiting?
    case IsInitializing => initializing || st.ActionResuming? || st.ActionPaused?
    case IsRunning => initializing || st.ActionResuming? || st.ActionPaused?
    case DoPause => initializing || st.ActionRunning?
    case IsPaused => initializing || st.ActionPausing?
    case DoResume => st.ActionPaused?
    case IsFailed => !over && !st.ActionWaiting?
    case IsFinished(_) => initializing || st.ActionRunning? || st.ActionCanceling?
    case DoCancel => !over && !st.ActionCanceling?
  }

  /** Table and effects against the columns: which states take a transition, what taking it publishes, and that the
      state behind it is a pause or an end exactly after the transitions that say so. */
  lemma TransitionExactly(st: ActionState, tr: ActionTransition, id: ActionId)
    ensures Next(st, tr).Some? <==> Takes(st, tr)
    ensures Next(st, tr).Some? ==>
              var next := Next(st, tr).value;
              && Effect(id, next) == Announced(tr, id)
              && (next.IsTerminal() <==> Ends(tr))
              && (next.IsPaused() <==> tr.IsPaused? || tr.DoResume?)
  {
  }

  class ActionTask {
    const action: Action
    const bus: Bus
    var state: ActionState

    constructor (action: Action, bus: Bus)
      ensures this.action == action && this.bus == bus && state == ActionWaiting
    {
      this.action := action;
      this.bus := bus;
      this.state := ActionWaiting;
    }

    /** Takes a transition and publishes the effect of the new state. Where the source throws,
        nothing changes and `ok` is false. */
    method Transition(tr: ActionTransition) returns (ok: bool)
      modifies this, bus
      ensures ok == Takes(old(state), tr) && ok == Next(old(state), tr).Some?
      ensures ok ==> state == Next(old(state), tr).value
      ensures ok ==> bus.trace == old(bus.trace) + Announced(tr, action.id)
      ensures ok ==> bus.trace == old(bus.trace) + Effect(action.id, state)
      ensures !ok ==> state == old(state) && bus.trace == old(bus.trace)
    {
      var next := Next(state, tr);
      TransitionExactly(state, tr, action.id);
      if next.None? {
        return false;
      }
      state := next.value;
      match state {
        case ActionInitializing =>
          bus.Publish(ActionStatusChanged(action.id, INITIALIZING, None));
          bus.Publish(ActionStart(action.id));
        case ActionRunning =>
          bus.Publish(ActionStatusChanged(action.id, RUNNING, None));
        case ActionPausing =>
          bus.Publish(ActionPause(action.id));
        case ActionResuming =>
          bus.Publish(ActionResume(action.id));
        case ActionPaused =>
          bus.Publish(ActionStatusChanged(action.id, PAUSED, None));
        case ActionCanceling =>
          bus.Publish(ActionCancel(action.id));
        case ActionFailed =>
          bus.Publish(ActionStatusChanged(action.id, FAILED, None));
          bus.Publish(ActionForget(action.id));
        case ActionFinished(result) =>
          bus.Publish(ActionStatusChanged(action.id, FINISHED, result));
          bus.Publish(ActionForget(action.id));
        case _ =>
      }
      return true;
    }
  }
}
