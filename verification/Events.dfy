/** The events the order layer publishes. The event managers of the source are represented by
    the sequence of published events. */
module Events {
  import opened Vda

  /** The scheduler state; the order status published for it has the same nine values. */
  datatype Mode =
    | Idle
    | IdlePaused
    | Active
    | Canceling
    | Resuming
    | Pausing
    | Paused
    | Failed
    | Interrupting

  datatype ActionStatus = WAITING | INITIALIZING | RUNNING | PAUSED | FINISHED | FAILED

  datatype ControlType = Pause | Resume | Cancel

  datatype Event =
    | ActionStart(id: ActionId)
    | ActionPause(id: ActionId)
    | ActionResume(id: ActionId)
    | ActionCancel(id: ActionId)
    | ActionForget(id: ActionId)
    | ActionStatusChanged(id: ActionId, status: ActionStatus, result: Option<string>)
    | NavigationNextNode(next: Node, via: Edge)
    | NavigationUpcomingSegment(begin: SeqId, end: SeqId)
    | NavigationControl(control: ControlType)
    | OrderNewLastNode(nodeId: string, seqId: SeqId)
    | OrderStatus(mode: Mode)

  function PassOf(e: Event): seq<SeqId>
  {
    if e.OrderNewLastNode? then [e.seqId] else []
  }

  /** How often an action was told to start. */
  function Starts(out: seq<Event>, id: ActionId): nat
  {
    if out == [] then 0 else Starts(out[..|out| - 1], id) + (if out[|out| - 1] == ActionStart(id) then 1 else 0)
  }

  /** How often an action was told to be forgotten. */
  function Forgets(out: seq<Event>, id: ActionId): nat
  {
    if out == [] then 0 else Forgets(out[..|out| - 1], id) + (if out[|out| - 1] == ActionForget(id) then 1 else 0)
  }

  /** The sequence ids of the nodes reported as passed, oldest first. */
  function Passed(out: seq<Event>): seq<SeqId>
  {
    if out == [] then [] else Passed(out[..|out| - 1]) + PassOf(out[|out| - 1])
  }

  /** The last published order status; the order manager starts out with idle. */
  function LastStatus(out: seq<Event>): Mode
  {
    if out == [] then Idle
    else if out[|out| - 1].OrderStatus? then out[|out| - 1].mode
    else LastStatus(out[..|out| - 1])
  }

  /** The events that tell an action what to do or report its status, but for the forgetting. */
  predicate About(e: Event, id: ActionId)
  {
    match e
    case ActionStart(i) => i == id
    case ActionPause(i) => i == id
    case ActionResume(i) => i == id
    case ActionCancel(i) => i == id
    case ActionStatusChanged(i, _, _) => i == id
    case _ => false
  }

  /** What was published about an action, oldest first. */
  function Said(out: seq<Event>, id: ActionId): seq<Event>
  {
    if out == [] then []
    else Said(out[..|out| - 1], id) + (if About(out[|out| - 1], id) then [out[|out| - 1]] else [])
  }

  /** The last status published for an action. */
  function StatusOf(out: seq<Event>, id: ActionId): Option<Event>
  {
    if out == [] then None
    else if out[|out| - 1].ActionStatusChanged? && out[|out| - 1].id == id then Some(out[|out| - 1])
    else StatusOf(out[..|out| - 1], id)
  }

  /** The events that tell something that goes on to pause, to resume or to cancel. */
  predicate Directs(e: Event)
  {
    e.ActionPause? || e.ActionResume? || e.ActionCancel? || e.NavigationControl?
  }

  /** What the actions and the navigation were told apart from starts, steps and segments, oldest first. */
  function Commands(out: seq<Event>): seq<Event>
  {
    if out == [] then []
    else Commands(out[..|out| - 1]) + (if Directs(out[|out| - 1]) then [out[|out| - 1]] else [])
  }

  lemma {:induction false} SaidAppend(a: seq<Event>, b: seq<Event>, id: ActionId)
    ensures Said(a + b, id) == Said(a, id) + Said(b, id)
  {
    if b == [] {
      assert a + b == a;
    } else {
      SaidAppend(a, b[..|b| - 1], id);
      assert (a + b)[..|a + b| - 1] == a + b[..|b| - 1];
    }
  }

  /** The last status is the last one among what was said. */
  lemma {:induction false} StatusSaid(out: seq<Event>, id: ActionId)
    ensures StatusOf(Said(out, id), id) == StatusOf(out, id)
  {
    if out != [] {
      var init, last := out[..|out| - 1], out[|out| - 1];
      StatusSaid(init, id);
      if About(last, id) {
        var said := Said(out, id);
        assert said == Said(init, id) + [last] && said[..|said| - 1] == Said(init, id);
      } else {
        assert Said(out, id) == Said(init, id);
      }
    }
  }

  lemma {:induction false} CommandsAppend(a: seq<Event>, b: seq<Event>)
    ensures Commands(a + b) == Commands(a) + Commands(b)
  {
    if b == [] {
      assert a + b == a;
    } else {
      CommandsAppend(a, b[..|b| - 1]);
      assert (a + b)[..|a + b| - 1] == a + b[..|b| - 1];
    }
  }

  lemma {:induction false} StartsAppend(a: seq<Event>, b: seq<Event>, id: ActionId)
    ensures Starts(a + b, id) == Starts(a, id) + Starts(b, id)
  {
    if b == [] {
      assert a + b == a;
    } else {
      StartsAppend(a, b[..|b| - 1], id);
      assert (a + b)[..|a + b| - 1] == a + b[..|b| - 1];
    }
  }

  lemma {:induction false} ForgetsAppend(a: seq<Event>, b: seq<Event>, id: ActionId)
    ensures Forgets(a + b, id) == Forgets(a, id) + Forgets(b, id)
  {
    if b == [] {
      assert a + b == a;
    } else {
      ForgetsAppend(a, b[..|b| - 1], id);
      assert (a + b)[..|a + b| - 1] == a + b[..|b| - 1];
    }
  }

  /** No order status among the events. */
  ghost predicate Quiet(out: seq<Event>)
  {
    forall i | 0 <= i < |out| :: !out[i].OrderStatus?
  }

  lemma {:induction false} LastStatusAppend(a: seq<Event>, b: seq<Event>)
    requires Quiet(b)
    ensures LastStatus(a + b) == LastStatus(a)
  {
    if b == [] {
      assert a + b == a;
    } else {
      assert (a + b)[..|a + b| - 1] == a + b[..|b| - 1];
      LastStatusAppend(a, b[..|b| - 1]);
    }
  }

  lemma {:induction false} PassedAppend(a: seq<Event>, b: seq<Event>)
    ensures Passed(a + b) == Passed(a) + Passed(b)
  {
    if b == [] {
      assert a + b == a;
    } else {
      assert (a + b)[..|a + b| - 1] == a + b[..|b| - 1];
      PassedAppend(a, b[..|b| - 1]);
    }
  }

  lemma {:induction false} CountsOfNone(id: ActionId)
    ensures Starts([], id) == 0 && Forgets([], id) == 0 && Passed([]) == []
  {
  }

  lemma {:induction false} CountsOfOne(e: Event, id: ActionId)
    ensures Starts([e], id) == if e == ActionStart(id) then 1 else 0
    ensures Forgets([e], id) == if e == ActionForget(id) then 1 else 0
    ensures Passed([e]) == PassOf(e)
  {
    assert [e][..0] == [];
  }

  lemma {:induction false} CountsOfTwo(d: Event, e: Event, id: ActionId)
    ensures Starts([d, e], id) == Starts([d], id) + Starts([e], id)
    ensures Forgets([d, e], id) == Forgets([d], id) + Forgets([e], id)
    ensures Passed([d, e]) == Passed([d]) + Passed([e])
  {
    assert [d, e] == [d] + [e];
    StartsAppend([d], [e], id);
    ForgetsAppend([d], [e], id);
    PassedAppend([d], [e]);
  }

  /** Where the order layer publishes. */
  class Bus {
    ghost var trace: seq<Event>

    constructor ()
      ensures trace == []
    {
      trace := [];
    }

    method Publish(e: Event)
      modifies this
      ensures trace == old(trace) + [e]
    {
      trace := trace + [e];
    }
  }
}
