/** The blocking queue over its semaphore, as interleaved steps of any number of threads.

    The queue has one mutex and the semaphore another; every step is what a thread does while it holds one of
    them, or one notification. */
module BlockingQueues {
  import opened Vda

  /** Where a thread is within its call. */
  datatype Thread =
    | Outside
    | Pushed         // its value is queued, the semaphore not yet released
    | Released       // the semaphore is released, one sleeper still to be notified
    | Acquiring      // about to look at the semaphore, in a call or after waking up
    | Asleep         // waits for a notification
    | Acquired       // took one from the semaphore, one sleeper still to be notified
    | Entitled       // about to take the front of the queue
  {
    predicate Holds() { Acquired? || Entitled? }

    /** A thread that will look at the semaphore or notify another one. */
    predicate Stirs() { Released? || Acquiring? || Acquired? }
  }

  datatype State<T> = State(queue: seq<T>, avail: nat, threads: seq<Thread>, pushed: seq<T>, popped: seq<T>)

  datatype Step<T> =
    | Push(value: T)
    | Release
    | BeginPop
    | Acquire
    | TryAcquire(locked: bool)
    | GiveUp
    | Wake
    | Notify(woken: nat)
    | Pop

  function Initial<T>(threads: nat): State<T>
  {
    State([], 0, seq(threads, i => Outside), [], [])
  }

  /** Whether thread t can make a step. A notification wakes some sleeper, if there is one. */
  predicate Enabled<T>(s: State<T>, t: nat, step: Step<T>)
  {
    && t < |s.threads|
    && match step
       case Push(_) => s.threads[t].Outside?
       case Release => s.threads[t].Pushed?
       case BeginPop => s.threads[t].Outside?
       case Acquire => s.threads[t].Acquiring?
       case TryAcquire(_) => s.threads[t].Outside?
       case GiveUp => (s.threads[t].Acquiring? || s.threads[t].Asleep?) && s.avail == 0
       case Wake => s.threads[t].Asleep?
       case Notify(woken) =>
         && (s.threads[t].Released? || s.threads[t].Acquired?)
         && (if Asleep in s.threads then woken < |s.threads| && s.threads[woken].Asleep? else true)
       case Pop => s.threads[t].Entitled?
  }

  function Take<T>(s: State<T>, t: nat): State<T>
    requires t < |s.threads| && s.avail > 0
  {
    s.(avail := s.avail - 1, threads := s.threads[t := Acquired])
  }

  /** The state after a step; None where a thread would take the front of an empty queue. */
  function Next<T>(s: State<T>, t: nat, step: Step<T>): Option<State<T>>
    requires Enabled(s, t, step)
  {
    match step
    case Push(value) =>
      Some(s.(queue := s.queue + [value], threads := s.threads[t := Pushed], pushed := s.pushed + [value]))
    case Release => Some(s.(avail := s.avail + 1, threads := s.threads[t := Released]))
    case BeginPop => Some(s.(threads := s.threads[t := Acquiring]))
    case Acquire => Some(if s.avail > 0 then Take(s, t) else s.(threads := s.threads[t := Asleep]))
    case TryAcquire(locked) => Some(if locked && s.avail > 0 then Take(s, t) else s)
    case GiveUp => Some(s.(threads := s.threads[t := Outside]))
    case Wake => Some(s.(threads := s.threads[t := Acquiring]))
    case Notify(woken) =>
      var threads := s.threads[t := if s.threads[t].Released? then Outside else Entitled];
      Some(s.(threads := if Asleep in s.threads then threads[woken := Acquiring] else threads))
    case Pop =>
      if s.queue == [] then None
      else Some(s.(queue := s.queue[1..], threads := s.threads[t := Outside], popped := s.popped + [s.queue[0]]))
  }

  // Runs ////////////////////////////////////////////////////////////////////////////////////////

  datatype Turn<T> = Turn(thread: nat, step: Step<T>)

  /** An interleaving: every turn is possible when it comes; the run ends early at a fault. */
  predicate Interleaving<T>(s: State<T>, turns: seq<Turn<T>>)
    decreases |turns|
  {
    turns == [] ||
    (Enabled(s, turns[0].thread, turns[0].step) &&
     var r := Next(s, turns[0].thread, turns[0].step);
     r.None? || Interleaving(r.value, turns[1..]))
  }

  function Final<T>(s: State<T>, turns: seq<Turn<T>>): Option<State<T>>
    requires Interleaving(s, turns)
    decreases |turns|
  {
    if turns == [] then Some(s)
    else
      var r := Next(s, turns[0].thread, turns[0].step);
      if r.None? then None else Final(r.value, turns[1..])
  }

  // Counting threads ////////////////////////////////////////////////////////////////////////////

  /** The threads that took one from the semaphore and not yet their value. */
  function Holding(threads: seq<Thread>): nat
  {
    if threads == [] then 0 else (if threads[0].Holds() then 1 else 0) + Holding(threads[1..])
  }

  /** The threads that queued a value and did not yet release the semaphore. */
  function Owing(threads: seq<Thread>): nat
  {
    if threads == [] then 0 else (if threads[0].Pushed? then 1 else 0) + Owing(threads[1..])
  }

  lemma {:induction false} Recount(threads: seq<Thread>, t: nat, after: Thread)
    requires t < |threads|
    ensures Holding(threads[t := after]) + (if threads[t].Holds() then 1 else 0) ==
            Holding(threads) + (if after.Holds() then 1 else 0)
    ensures Owing(threads[t := after]) + (if threads[t].Pushed? then 1 else 0) ==
            Owing(threads) + (if after.Pushed? then 1 else 0)
    decreases |threads|
  {
    var next := threads[t := after];
    if t == 0 {
      assert next[1..] == threads[1..];
    } else {
      assert next[1..] == threads[1..][t - 1 := after];
      Recount(threads[1..], t - 1, after);
    }
  }

  lemma {:induction false} NobodyInside(threads: seq<Thread>)
    requires forall t | 0 <= t < |threads| :: threads[t].Outside? || threads[t].Asleep?
    ensures Holding(threads) == 0 && Owing(threads) == 0
  {
    if threads != [] {
      NobodyInside(threads[1..]);
    }
  }

  lemma {:induction false} HolderCounts(threads: seq<Thread>, t: nat)
    requires t < |threads| && threads[t].Holds()
    ensures Holding(threads) >= 1
  {
    if t > 0 {
      HolderCounts(threads[1..], t - 1);
    }
  }

  // What every step keeps ///////////////////////////////////////////////////////////////////////

  /** The queue is as long as the semaphore, the holders and the owing threads together account for. */
  ghost predicate Counted<T>(s: State<T>)
  {
    |s.queue| == s.avail + Holding(s.threads) + Owing(s.threads)
  }

  /** Values leave in the order they came. */
  ghost predicate InOrder<T>(s: State<T>)
  {
    s.pushed == s.popped + s.queue
  }

  /** While something is available and a thread sleeps, some thread stirs: no wake-up is lost. */
  ghost predicate Attended<T>(s: State<T>)
  {
    s.avail > 0 && Asleep in s.threads ==> exists t :: 0 <= t < |s.threads| && s.threads[t].Stirs()
  }

  ghost predicate Inv<T>(s: State<T>)
  {
    Counted(s) && InOrder(s) && Attended(s)
  }

  /** One thread changes, and the queue and the semaphore with it. */
  lemma ThreadCounted<T>(s: State<T>, t: nat, after: Thread, n: State<T>)
    requires t < |s.threads| && Counted(s) && n.threads == s.threads[t := after]
    requires |n.queue| - n.avail - |s.queue| + s.avail ==
             (if after.Holds() then 1 else 0) + (if after.Pushed? then 1 else 0) -
             (if s.threads[t].Holds() then 1 else 0) - (if s.threads[t].Pushed? then 1 else 0)
    ensures Counted(n)
  {
    Recount(s.threads, t, after);
    hide Holding, Owing;
  }

  lemma NotifyCounted<T>(s: State<T>, t: nat, woken: nat)
    requires Enabled(s, t, Notify(woken)) && Counted(s)
    ensures Next(s, t, Notify(woken)).Some? && Counted(Next(s, t, Notify(woken)).value)
  {
    hide Counted;
    var after := if s.threads[t].Released? then Outside else Entitled;
    var n := s.(threads := s.threads[t := after]);
    ThreadCounted(s, t, after, n);
    if Asleep in s.threads {
      ThreadCounted(n, woken, Acquiring, n.(threads := n.threads[woken := Acquiring]));
    }
  }

  lemma PopCounted<T>(s: State<T>, t: nat)
    requires Enabled(s, t, Pop) && Counted(s)
    ensures Next(s, t, Pop).Some? && Counted(Next(s, t, Pop).value)
  {
    HolderCounts(s.threads, t);
    hide Holding, Owing;
    assert s.queue != [];
    hide Counted;
    ThreadCounted(s, t, Outside, Next(s, t, Pop).value);
  }

  lemma NextCounted<T>(s: State<T>, t: nat, step: Step<T>)
    requires Enabled(s, t, step) && Counted(s)
    ensures Next(s, t, step).Some? && Counted(Next(s, t, step).value)
  {
    hide Counted;
    match step
    case Push(_) => ThreadCounted(s, t, Pushed, Next(s, t, step).value);
    case Release => ThreadCounted(s, t, Released, Next(s, t, step).value);
    case BeginPop => ThreadCounted(s, t, Acquiring, Next(s, t, step).value);
    case Acquire => ThreadCounted(s, t, if s.avail > 0 then Acquired else Asleep, Next(s, t, step).value);
    case TryAcquire(locked) =>
      if locked && s.avail > 0 {
        ThreadCounted(s, t, Acquired, Next(s, t, step).value);
      }
    case GiveUp => ThreadCounted(s, t, Outside, Next(s, t, step).value);
    case Wake => ThreadCounted(s, t, Acquiring, Next(s, t, step).value);
    case Notify(woken) => NotifyCounted(s, t, woken);
    case Pop => PopCounted(s, t);
  }

  lemma NextInOrder<T>(s: State<T>, t: nat, step: Step<T>)
    requires Enabled(s, t, step) && InOrder(s) && Next(s, t, step).Some?
    ensures InOrder(Next(s, t, step).value)
  {
  }

  // a thread that stirs afterwards settles the matter
  lemma StirsAt<T>(s: State<T>, t: nat)
    requires t < |s.threads| && s.threads[t].Stirs()
    ensures Attended(s)
  {
  }

  // a step of a thread that did not stir before and does not fall asleep
  lemma OthersStir<T>(s: State<T>, t: nat, after: Thread, n: State<T>)
    requires t < |s.threads| && !s.threads[t].Stirs() && !after.Asleep? && Attended(s)
    requires n.threads == s.threads[t := after] && n.avail == s.avail
    ensures Attended(n)
  {
    if n.avail > 0 && Asleep in n.threads {
      var k :| 0 <= k < |n.threads| && n.threads[k] == Asleep;
      assert s.threads[k] == Asleep;
      var w :| 0 <= w < |s.threads| && s.threads[w].Stirs();
      assert n.threads[w].Stirs();
    }
  }

  lemma NextAttended<T>(s: State<T>, t: nat, step: Step<T>)
    requires Enabled(s, t, step) && Attended(s) && Next(s, t, step).Some?
    ensures Attended(Next(s, t, step).value)
  {
    var n := Next(s, t, step).value;
    match step
    case Push(_) => OthersStir(s, t, Pushed, n);
    case Release => StirsAt(n, t);
    case BeginPop => StirsAt(n, t);
    case Acquire =>
      if s.avail > 0 {
        StirsAt(n, t);
      }
    case TryAcquire(locked) =>
      if locked && s.avail > 0 {
        StirsAt(n, t);
      }
    case GiveUp =>
    case Wake => StirsAt(n, t);
    case Notify(woken) =>
      if Asleep in s.threads {
        StirsAt(n, woken);
      } else {
        assert forall k | 0 <= k < |n.threads| :: n.threads[k] == s.threads[k] || k == t;
        assert forall k | 0 <= k < |s.threads| :: s.threads[k] in s.threads;
        assert Asleep !in n.threads;
      }
    case Pop => OthersStir(s, t, Outside, n);
  }

  lemma InitialInv<T>(threads: nat)
    ensures Inv(Initial<T>(threads))
  {
    NobodyInside(Initial<T>(threads).threads);
  }

  lemma {:induction false} InterleavingInv<T>(s: State<T>, turns: seq<Turn<T>>)
    requires Inv(s) && Interleaving(s, turns)
    ensures Final(s, turns).Some? && Inv(Final(s, turns).value)
    decreases |turns|
  {
    if turns != [] {
      NextCounted(s, turns[0].thread, turns[0].step);
      NextInOrder(s, turns[0].thread, turns[0].step);
      NextAttended(s, turns[0].thread, turns[0].step);
      hide Counted, InOrder, Attended;
      InterleavingInv(Next(s, turns[0].thread, turns[0].step).value, turns[1..]);
    }
  }

  // Results /////////////////////////////////////////////////////////////////////////////////////

  /** In every interleaving of any number of threads, nobody takes from an empty queue, the queue is exactly as
      long as semaphore, holders and owing threads account for, and values leave in the order they came. */
  lemma {:induction false} EveryInterleaving<T>(threads: nat, turns: seq<Turn<T>>)
    requires Interleaving(Initial(threads), turns)
    ensures var r := Final(Initial(threads), turns);
            && r.Some?
            && |r.value.queue| == r.value.avail + Holding(r.value.threads) + Owing(r.value.threads)
            && r.value.pushed == r.value.popped + r.value.queue
            && Inv(r.value)
  {
    InitialInv<T>(threads);
    InterleavingInv(Initial(threads), turns);
  }

  /** No wake-up is lost: when every thread is either outside or asleep, a sleeping thread means that the queue is
      empty. */
  lemma {:induction false} NothingStranded<T>(threads: nat, turns: seq<Turn<T>>)
    requires Interleaving(Initial(threads), turns) && Final(Initial(threads), turns).Some?
    requires var s := Final(Initial(threads), turns).value;
             Asleep in s.threads && forall t | 0 <= t < |s.threads| :: s.threads[t].Outside? || s.threads[t].Asleep?
    ensures Final(Initial(threads), turns).value.queue == []
  {
    EveryInterleaving(threads, turns);
    var s := Final(Initial(threads), turns).value;
    NobodyInside(s.threads);
    assert Attended(s);
  }
}
