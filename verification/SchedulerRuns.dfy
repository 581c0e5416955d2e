/** Runs of the scheduler object: what is proved about runs of the model holds for its fields and its trace. */
module SchedulerRuns {
  import opened Vda
  import opened Events
  import A = ActionTasks
  import opened SchedulerModel
  import opened Schedulers
  import SchedulerAccounts
  import SchedulerOwnership
  import SchedulerIdle
  import SchedulerStatus

  /** One call of the object. */
  method Perform(s: Scheduler, op: Op) returns (ok: bool)
    requires s.Valid()
    modifies s, s.bus, s.heap, s.navTask
    ensures s.Valid() && Apply(old(s.model), op) == if ok then Ok(s.model) else Throw(s.model)
    ensures old(s.heap) <= s.heap && forall i | |old(s.heap)| <= i < |s.heap| :: fresh(s.heap[i])
    ensures s.navTask == null || s.navTask == old(s.navTask) || fresh(s.navTask)
  {
    hide *;
    ghost var before := s.model;
    s.PartsOf();
    UpdateApplies(before);
    match op {
      case OpCancel => ok := s.Cancel();
      case OpPause => ok := s.Pause();
      case OpResume => ok := s.Resume();
      case OpUpdate => ok := s.Update();
      case OpAction(id, tr) => ok := s.ActionTransition(id, tr);
      case OpNavigation(tr) => ok := s.NavigationTransition(tr);
      case OpInterrupt(g) => ok := s.EnqueueInterruptActions(g);
      case OpEnqueue(item) => ok := s.Enqueue(item);
      case OpCommit => ok := s.CommitQueue();
    }
  }

  lemma {:induction false} UpdateApplies(s: Sched)
    requires WellFormed(s)
    ensures Apply(s, OpUpdate) == Update(s)
  {
    hide Update;
  }

  lemma OwnedParts(s: Sched)
    requires SchedulerOwnership.Owned(s)
    ensures s.running.Keys !! s.paused.Keys && s.running.Keys + s.paused.Keys == s.active.Keys
  {
    forall id: ActionId | true
      ensures id in s.active <==> id in s.running || id in s.paused
      ensures !(id in s.running && id in s.paused)
    {
      SchedulerOwnership.PartitionAt(s, id);
    }
  }

  lemma RestsParts(s: Sched)
    requires SchedulerIdle.Rests(s) && s.mode == Idle
    ensures s.queue == [] && s.active == map[] && s.running == map[] && s.paused == map[] && s.navInt == map[]
    ensures s.nav.None?
  {
  }

  lemma SameKeys(heap: seq<A.ActionTask>, m: Tasks, refs: TaskMap)
    requires Same(heap, m, refs)
    ensures m.Keys == refs.Keys
  {
  }

  /** What any run leaves behind, in terms of the object. */
  lemma {:induction false} AfterRun(s: Scheduler, ops: seq<Op>)
    requires s.Valid() && s.model == Run(ops)
    ensures LastStatus(s.bus.trace) == s.mode
    ensures SchedulerAccounts.UniqueIds(ops) ==>
              s.running.Keys !! s.paused.Keys && s.running.Keys + s.paused.Keys == s.active.Keys
    ensures SchedulerAccounts.UniqueIds(ops) && s.mode == Idle ==>
              && s.queue == [] && s.active == map[] && s.running == map[] && s.paused == map[]
              && s.navInt == map[] && s.navTask == null
  {
    hide *;
    SchedulerStatus.StatusIsCurrent(ops);
    s.PartsOf();
    s.TakeApart();
    if SchedulerAccounts.UniqueIds(ops) {
      SchedulerOwnership.RunOwned(ops);
      SchedulerIdle.IdleIsDrained(ops);
      OwnedParts(Run(ops));
      if s.mode == Idle {
        RestsParts(Run(ops));
      }
      SameKeys(s.heap, s.active, s.model.active);
      SameKeys(s.heap, s.running, s.model.running);
      SameKeys(s.heap, s.paused, s.model.paused);
    }
  }

  /** Any sequence of calls on a new scheduler. */
  method Execute(ops: seq<Op>) returns (s: Scheduler)
    ensures fresh(s) && s.Valid() && s.model == Run(ops)
    ensures LastStatus(s.bus.trace) == s.mode
    ensures SchedulerAccounts.UniqueIds(ops) ==>
              s.running.Keys !! s.paused.Keys && s.running.Keys + s.paused.Keys == s.active.Keys
    ensures SchedulerAccounts.UniqueIds(ops) && s.mode == Idle ==>
              && s.queue == [] && s.active == map[] && s.running == map[] && s.paused == map[]
              && s.navInt == map[] && s.navTask == null
  {
    hide *;
    var bus := new Bus();
    s := new Scheduler(bus);
    RunStart(ops);
    for i := 0 to |ops|
      invariant fresh(s) && fresh(s.bus) && s.Valid() && s.model == Run(ops[..i])
      invariant forall k | 0 <= k < |s.heap| :: fresh(s.heap[k])
      invariant s.navTask == null || fresh(s.navTask)
    {
      RunNext(ops, i);
      var ok := Perform(s, ops[i]);
    }
    assert ops[..|ops|] == ops;
    AfterRun(s, ops);
  }

  lemma RunStart(ops: seq<Op>)
    ensures Run(ops[..0]) == INITIAL
  {
  }

  lemma RunNext(ops: seq<Op>, i: nat)
    requires i < |ops|
    ensures Run(ops[..i + 1]) == Apply(Run(ops[..i]), ops[i]).s
  {
    assert ops[..i + 1][..i] == ops[..i];
    hide Apply;
  }
}
