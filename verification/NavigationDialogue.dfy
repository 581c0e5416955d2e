/** What a navigation is told against what it reports. The states of the navigation task, its table and the effects of
    its states are an implementation of this dialogue. */
module NavigationDialogue {
  import opened Vda
  import opened Events
  import opened NavigationTasks

  lemma {:induction false} CommandsOfOne(e: Event)
    ensures Commands([]) == [] && Commands([e]) == if Directs(e) then [e] else []
  {
    assert [e][..0] == [];
  }

  lemma CommandsAnnounced(tr: NavTransition, n: Nav)
    ensures Commands(Announced(tr, n)) == Told(tr)
  {
    hide Commands;
    var all := Announced(tr, n);
    if all == [] {
      CommandsOfOne(NavigationControl(Pause));
    } else if |all| == 1 {
      assert all == [all[0]];
      CommandsOfOne(all[0]);
    } else {
      assert all == [all[0]] + [all[1]];
      CommandsOfOne(all[0]);
      CommandsOfOne(all[1]);
      CommandsAppend([all[0]], [all[1]]);
    }
  }

  /** The state of a navigation fits the reports taken so far; between two steps the last report is the end of the one
      before. */
  predicate Fits(nav: Option<Nav>, heard: seq<NavTransition>)
  {
    var last := if heard == [] then None else Some(heard[|heard| - 1]);
    var between := last == None || Ends(last.value);
    if nav.None? then between
    else
      match nav.value.state
      case NavWaiting => false
      case NavFirstInProgress => between
      case NavInProgress => last == Some(IsResumed)
      case NavPausing => between || last == Some(IsResumed)
      case NavPaused => last == Some(IsPaused)
      case NavResuming => last == Some(IsPaused)
      case NavCanceling => true
      case NavFailed => last == Some(IsFailed)
      case NavDone => last == Some(ToSeqId(nav.value.goal.seqId))
  }

  /** Every transition keeps the state of the step in line with the reports. */
  lemma FitsNext(n: Nav, tr: NavTransition, heard: seq<NavTransition>)
    requires Fits(Some(n), heard) && Takes(n.state, tr, n.goal.seqId)
    ensures var next := Transfer(n.state, tr, n.goal.seqId);
            next.Some? && Fits(Some(n.(state := next.value)), if IsReport(tr) then heard + [tr] else heard)
  {
  }
}
