/** The segments announced to the navigation: the vehicle is never told that it may drive past a
    node where a blocking action waits. */
module SchedulerSegments {
  import opened Vda
  import A = ActionTasks
  import N = NavigationTasks
  import opened SchedulerModel
  import O = SchedulerOperations
  import opened SchedulerMoves
  import opened SchedulerBlocking

  predicate Blocks(item: Item)
  {
    item.Actions? && item.group.ceiling != NONE
  }

  ghost predicate NoStep(items: seq<Item>, from: nat, to: nat)
  {
    forall i | from <= i < to && i < |items| :: items[i].Actions?
  }

  /** A step that is followed by a blocking group before the next step carries the stop hint. */
  ghost predicate Hinted(items: seq<Item>)
  {
    forall i, j | 0 <= i < j < |items| && items[i].Step? && Blocks(items[j]) && NoStep(items, i + 1, j) ::
      items[i].stopHint
  }

  /** The segment ends at a queued step, and no group queued before that step blocks. */
  ghost predicate SegmentSafe(ahead: seq<Item>, end: SeqId)
  {
    exists k :: 0 <= k < |ahead| && EndsSafely(ahead, end, k)
  }

  ghost predicate EndsSafely(ahead: seq<Item>, end: SeqId, k: nat)
    requires k < |ahead|
  {
    ahead[k].Step? && ahead[k].goal.seqId == end && forall j | 0 <= j < k :: !Blocks(ahead[j])
  }

  // Where a segment ends ////////////////////////////////////////////////////////////////////////

  /** The prefetch ends at the first step with a stop hint, or else at the last step. */
  lemma {:induction false} SegmentEndAt(items: seq<Item>, default: SeqId) returns (k: nat)
    requires exists i :: 0 <= i < |items| && items[i].Step?
    ensures k < |items| && items[k].Step? && SegmentEnd(items, default) == items[k].goal.seqId
    ensures forall j | 0 <= j < k && items[j].Step? :: !items[j].stopHint
    ensures items[k].stopHint || NoStep(items, k + 1, |items|)
    decreases |items|
  {
    var rest := items[1..];
    if items[0].Step? && items[0].stopHint {
      k := 0;
    } else if exists i :: 0 <= i < |rest| && rest[i].Step? {
      var next := if items[0].Step? then items[0].goal.seqId else default;
      k := SegmentEndAt(rest, next);
      k := k + 1;
    } else {
      k := 0;
      assert items[0].Step?;
      SegmentEndWithoutStep(rest, items[0].goal.seqId);
      forall i | 1 <= i < |items|
        ensures items[i].Actions?
      {
        assert rest[i - 1].Actions?;
      }
    }
  }

  lemma {:induction false} SegmentEndWithoutStep(items: seq<Item>, default: SeqId)
    requires forall i | 0 <= i < |items| :: items[i].Actions?
    ensures SegmentEnd(items, default) == default
  {
    if items != [] {
      SegmentEndWithoutStep(items[1..], default);
    }
  }

  lemma LastStepBefore(items: seq<Item>, j: nat) returns (i: nat)
    requires j < |items| && items[0].Step? && 0 < j
    ensures i < j && items[i].Step? && NoStep(items, i + 1, j)
  {
    i := j - 1;
    while items[i].Actions?
      invariant i < j && NoStep(items, i + 1, j)
      decreases i
    {
      i := i - 1;
    }
  }

  lemma {:induction false} PrefetchSafe(items: seq<Item>, default: SeqId)
    requires items != [] && items[0].Step? && Hinted(items)
    ensures SegmentSafe(items, SegmentEnd(items, default))
  {
    assert items[0].Step?;
    var k := SegmentEndAt(items, default);
    forall j | 0 <= j < k
      ensures !Blocks(items[j])
    {
      if items[j].Actions? {
        var i := LastStepBefore(items, j);
        assert !items[i].stopHint;
      }
    }
    assert EndsSafely(items, SegmentEnd(items, default), k);
  }

  // When two streams join ///////////////////////////////////////////////////////////////////////

  /** A blocking group comes before the first step. */
  ghost predicate BlocksFirst(items: seq<Item>)
  {
    exists j :: 0 <= j < |items| && Blocks(items[j]) && NoStep(items, 0, j)
  }

  /** The last step, if there is one, carries the stop hint. */
  ghost predicate EndsHinted(items: seq<Item>)
  {
    forall i | 0 <= i < |items| && items[i].Step? && NoStep(items, i + 1, |items|) :: items[i].stopHint
  }

  lemma JoinedHinted(a: seq<Item>, b: seq<Item>)
    requires Hinted(a) && Hinted(b) && (BlocksFirst(b) ==> EndsHinted(a))
    ensures Hinted(a + b)
  {
    var c := a + b;
    forall i, j | 0 <= i < j < |c| && c[i].Step? && Blocks(c[j]) && NoStep(c, i + 1, j)
      ensures c[i].stopHint
    {
      if j < |a| {
        assert NoStep(a, i + 1, j) by {
          forall x | i + 1 <= x < j ensures a[x].Actions? { assert c[x] == a[x]; }
        }
      } else if |a| <= i {
        assert NoStep(b, i - |a| + 1, j - |a|) by {
          forall x | i - |a| + 1 <= x < j - |a| ensures b[x].Actions? { assert c[x + |a|] == b[x]; }
        }
        assert b[i - |a|].Step? && Blocks(b[j - |a|]);
      } else {
        assert NoStep(b, 0, j - |a|) by {
          forall x | 0 <= x < j - |a| ensures b[x].Actions? { assert c[x + |a|] == b[x]; }
        }
        assert Blocks(b[j - |a|]);
        assert BlocksFirst(b);
        assert NoStep(a, i + 1, |a|) by {
          forall x | i + 1 <= x < |a| ensures a[x].Actions? { assert c[x] == a[x]; }
        }
      }
    }
  }

  lemma HintedParts(a: seq<Item>, b: seq<Item>)
    requires Hinted(a + b)
    ensures Hinted(a) && Hinted(b) && (BlocksFirst(b) ==> EndsHinted(a))
  {
    var c := a + b;
    forall i, j | 0 <= i < j < |a| && a[i].Step? && Blocks(a[j]) && NoStep(a, i + 1, j)
      ensures a[i].stopHint
    {
      assert c[i] == a[i] && c[j] == a[j];
      assert NoStep(c, i + 1, j) by {
        forall x | i + 1 <= x < j ensures c[x].Actions? { assert c[x] == a[x]; }
      }
    }
    forall i, j | 0 <= i < j < |b| && b[i].Step? && Blocks(b[j]) && NoStep(b, i + 1, j)
      ensures b[i].stopHint
    {
      assert c[i + |a|] == b[i] && c[j + |a|] == b[j];
      assert NoStep(c, i + |a| + 1, j + |a|) by {
        forall x | i + |a| + 1 <= x < j + |a| ensures c[x].Actions? { assert c[x] == b[x - |a|]; }
      }
    }
    if BlocksFirst(b) {
      var j :| 0 <= j < |b| && Blocks(b[j]) && NoStep(b, 0, j);
      forall i | 0 <= i < |a| && a[i].Step? && NoStep(a, i + 1, |a|)
        ensures a[i].stopHint
      {
        assert c[i] == a[i] && c[j + |a|] == b[j];
        assert NoStep(c, i + 1, j + |a|) by {
          forall x | i + 1 <= x < j + |a| ensures c[x].Actions? {
            assert c[x] == if x < |a| then a[x] else b[x - |a|];
          }
        }
      }
    }
  }

  /** Committing a stream behind the queue keeps the hints right exactly when both are right and the
      stream does not put a blocking group behind a last step without a hint. */
  lemma JoinHinted(a: seq<Item>, b: seq<Item>)
    ensures Hinted(a + b) <==> Hinted(a) && Hinted(b) && (BlocksFirst(b) ==> EndsHinted(a))
  {
    if Hinted(a + b) {
      HintedParts(a, b);
    }
    if Hinted(a) && Hinted(b) && (BlocksFirst(b) ==> EndsHinted(a)) {
      JoinedHinted(a, b);
    }
  }

  // Moves ///////////////////////////////////////////////////////////////////////////////////////

  ghost predicate RecordSafe(rec: Record)
  {
    rec.SegmentAnnounced? ==> SegmentSafe(rec.ahead, rec.end)
  }

  ghost predicate SegmentsSafe(s: Sched)
  {
    Hinted(s.queue) && forall i | 0 <= i < |s.hist| :: RecordSafe(s.hist[i])
  }

  lemma TailHinted(items: seq<Item>)
    requires items != [] && Hinted(items)
    ensures Hinted(items[1..])
  {
    assert items == items[..1] + items[1..];
    HintedParts(items[..1], items[1..]);
  }

  lemma {:induction false} StepsHinted(items: seq<Item>)
    ensures Hinted(StepsToStop(items))
  {
    StepsAreSteps(items);
  }

  lemma SafeParts(s: Sched)
    requires SegmentsSafe(s)
    ensures Hinted(s.queue)
  {
    hide Hinted, RecordSafe;
  }

  lemma SafeSame(s: Sched, t: Sched)
    requires SegmentsSafe(s) && t.hist == s.hist && Hinted(t.queue)
    ensures SegmentsSafe(t)
  {
    hide Hinted, RecordSafe;
  }

  lemma SafeMore(s: Sched, t: Sched, rec: Record)
    requires SegmentsSafe(s) && t.hist == s.hist + [rec] && Hinted(t.queue) && RecordSafe(rec)
    ensures SegmentsSafe(t)
  {
    hide Hinted, RecordSafe;
  }

  lemma QuietRecord(rec: Record)
    requires !rec.SegmentAnnounced?
    ensures RecordSafe(rec)
  {
  }

  lemma SafeRecord(begin: SeqId, end: SeqId, ahead: seq<Item>)
    requires SegmentSafe(ahead, end)
    ensures RecordSafe(SegmentAnnounced(begin, end, ahead))
  {
    hide SegmentSafe;
  }

  lemma GroupSafe(s: Sched)
    requires Enabled(s, MGroup) && SegmentsSafe(s)
    ensures SegmentsSafe(Do(s, MGroup))
  {
    GroupStarts(s);
    GroupEnabled(s);
    assert Do(s, MGroup) == StartGroup(s) && StartGroup(s).queue == s.queue[1..] by { hide StartGroup, Refers; }
    hide *;
    SafeParts(s);
    TailHinted(s.queue);
    QuietRecord(GroupStarted(s.queue[0].group, false, s.tasks, s.nav));
    SafeMore(s, StartGroup(s), GroupStarted(s.queue[0].group, false, s.tasks, s.nav));
  }

  lemma InstantSafe(s: Sched)
    requires Enabled(s, MInstant) && SegmentsSafe(s)
    ensures SegmentsSafe(Do(s, MInstant))
  {
    InstantStarts(s);
    assert Do(s, MInstant) == StartInstant(s) && StartInstant(s).queue == s.queue && s.interrupts != [] by {
      hide StartAll, Refers, InstantReady;
    }
    hide *;
    SafeParts(s);
    QuietRecord(GroupStarted(s.interrupts[0], true, s.tasks, s.nav));
    SafeMore(s, StartInstant(s), GroupStarted(s.interrupts[0], true, s.tasks, s.nav));
  }

  lemma StepSafe(s: Sched)
    requires Enabled(s, MStep) && SegmentsSafe(s)
    ensures SegmentsSafe(Do(s, MStep))
  {
    StepEnabled(s);
    O.DriveIs(s);
    assert Do(s, MStep) == StartStep(s) by { hide StartStep, Refers, StepReady; }
    hide *;
    SafeParts(s);
    TailHinted(s.queue);
    var t, step := StartStep(s), s.queue[0];
    var started := StepStarted(step.goal, step.via, step.stopHint, s.tasks, s.nav);
    var u := t.(hist := s.hist + [started]);
    QuietRecord(started);
    SafeMore(s, u, started);
    PrefetchSafe(s.queue, step.goal.seqId);
    var end := SegmentEnd(s.queue, step.goal.seqId);
    SafeRecord(step.goal.seqId, end, s.queue);
    if t.hist == u.hist + [] {
      assert u.hist + [] == u.hist;
      SafeSame(u, t);
    } else {
      SafeMore(u, t, SegmentAnnounced(step.goal.seqId, end, s.queue));
    }
  }

  lemma PatchSafe(s: Sched)
    requires Enabled(s, MPatch) && SegmentsSafe(s)
    ensures SegmentsSafe(Do(s, MPatch))
  {
    assert WellFormed(s) && s.queue != [] && s.queue[0].Step? && Do(s, MPatch) == PatchSegment(s) by {
      hide PatchSegment, Refers;
    }
    O.PatchIs(s);
    hide *;
    SafeParts(s);
    var t := PatchSegment(s);
    if t == s {
      SafeSame(s, t);
    } else {
      PrefetchSafe(s.queue, s.segment.value.last);
      var last := SegmentEnd(s.queue, s.segment.value.last);
      SafeRecord(Add32(s.segment.value.last, 1), last, s.queue);
      SafeMore(s, t, SegmentAnnounced(Add32(s.segment.value.last, 1), last, s.queue));
    }
  }

  lemma NothingSafe()
    ensures Hinted([])
  {
  }

  lemma ClearSafe(s: Sched, keepNav: bool)
    requires Enabled(s, MClear(keepNav)) && SegmentsSafe(s)
    ensures SegmentsSafe(Do(s, MClear(keepNav)))
  {
    assert WellFormed(s) && Do(s, MClear(keepNav)) == ClearQueues(s, keepNav) by { hide ClearQueues, Refers; }
    O.ClearIs(s, keepNav);
    hide *;
    StepsHinted(s.queue);
    NothingSafe();
    SafeSame(s, ClearQueues(s, keepNav));
  }

  lemma UpdateSafe(s: Sched)
    requires Enabled(s, MUpdateTasks) && SegmentsSafe(s)
    ensures SegmentsSafe(Do(s, MUpdateTasks))
  {
    assert WellFormed(s) && Do(s, MUpdateTasks) == UpdateTasks(s) by { hide UpdateTasks, Refers; }
    hide *;
    SafeParts(s);
    UpdateTasksQueue(s);
    NothingSafe();
    SafeSame(s, UpdateTasks(s));
  }

  lemma RestSafe(s: Sched, m: Move)
    requires Enabled(s, m) && SegmentsSafe(s) && (m.MTask? || m.MNav? || m.MDropNavInt? || m.MEnter? || m.MCancelIdle?)
    ensures SegmentsSafe(Do(s, m))
  {
    assert Do(s, m).hist == s.hist && Do(s, m).queue == s.queue by {
      hide A.Effect, A.Next, N.Effect, N.Transfer, Keep, Refers;
    }
    hide *;
    SafeParts(s);
    SafeSame(s, Do(s, m));
  }

  lemma MoveSegmentsSafe(s: Sched, m: Move)
    requires Enabled(s, m) && SegmentsSafe(s)
    ensures SegmentsSafe(Do(s, m))
  {
    var t := Do(s, m);
    hide *;
    SafeParts(s);
    match m {
      case MGroup => GroupSafe(s);
      case MInstant => InstantSafe(s);
      case MStep => StepSafe(s);
      case MPatch => PatchSafe(s);
      case MClear(keepNav) => ClearSafe(s, keepNav);
      case MUpdateTasks => UpdateSafe(s);
      case _ => RestSafe(s, m);
    }
  }

  lemma UpdateTasksQueue(s: Sched)
    requires WellFormed(s)
    ensures UpdateTasks(s).hist == s.hist && (UpdateTasks(s).queue == s.queue || UpdateTasks(s).queue == [])
  {
    assert UpdateMaps(s).hist == s.hist && UpdateMaps(s).queue == s.queue by { hide Keep; }
    hide UpdateMaps, ForgetItems, ForgetGroups;
  }

  lemma {:induction false} PathSegmentsSafe(s: Sched, ms: seq<Move>, t: Sched)
    requires Path(s, ms, t) && SegmentsSafe(s)
    ensures SegmentsSafe(t)
    decreases |ms|
  {
    if ms != [] {
      MoveSegmentsSafe(s, ms[0]);
      hide SegmentsSafe, Do, Enabled;
      PathSegmentsSafe(Do(s, ms[0]), ms[1..], t);
    }
  }

  /** Every commit joins without putting a blocking group behind an unhinted step. */
  ghost predicate CommitsJoin(ops: seq<Op>)
  {
    forall i | 0 <= i < |ops| && ops[i].OpCommit? :: Hinted(Run(ops[..i]).queue + Run(ops[..i]).staging)
  }

  lemma AcceptSegmentsSafe(s: Sched, op: Op)
    requires SegmentsSafe(s) && (op.OpCommit? ==> Hinted(s.queue + s.staging))
    ensures SegmentsSafe(Accept(s, op))
  {
    hide Hinted, RecordSafe;
  }

  lemma CommitsJoinBefore(ops: seq<Op>, n: nat)
    requires CommitsJoin(ops) && n <= |ops|
    ensures CommitsJoin(ops[..n])
    ensures n < |ops| && ops[n].OpCommit? ==> Hinted(Run(ops[..n]).queue + Run(ops[..n]).staging)
  {
    hide Run, Hinted;
    forall i | 0 <= i < n && ops[..n][i].OpCommit?
      ensures Hinted(Run(ops[..n][..i]).queue + Run(ops[..n][..i]).staging)
    {
      assert ops[..n][..i] == ops[..i] && ops[i] == ops[..n][i];
    }
  }

  lemma NoSegments()
    ensures SegmentsSafe(Run([]))
  {
  }

  /** Segment safety: in every run whose commits join, with any cancels, pauses, instant actions and
      throws in it, every announced segment ends at a queued step and no group queued before that step
      blocks. */
  lemma {:induction false} RunSegmentsSafe(ops: seq<Op>)
    requires CommitsJoin(ops)
    ensures SegmentsSafe(Run(ops))
  {
    hide *;
    if ops == [] {
      NoSegments();
    } else {
      var n := |ops| - 1;
      var s := Run(ops[..n]);
      CommitsJoinBefore(ops, n);
      RunSegmentsSafe(ops[..n]);
      AcceptSegmentsSafe(s, ops[n]);
      RunLast(ops);
      var ms := PathApply(s, ops[n]);
      PathSegmentsSafe(Accept(s, ops[n]), ms, Run(ops));
    }
  }
}
