/** The order graph: elements by sequence id, a released base followed by a horizon
    (section 6.6.2 of VDA 5050 v2.0.0). */
module Graphs {
  import opened Vda
  import opened KeyOrder

  datatype Element = NodeElement(node: Node) | EdgeElement(edge: Edge)
  {
    function SeqIdOf(): SeqId { if NodeElement? then node.seqId else edge.seqId }

    predicate IsBase() { if NodeElement? then node.released else edge.released }

    predicate IsHorizon() { !IsBase() }
  }

  type Elements = map<SeqId, Element>

  // Invariants //////////////////////////////////////////////////////////////////////////////////

  ghost predicate Keyed(m: Elements)
  {
    forall k | k in m :: m[k].SeqIdOf() == k
  }

  /** No horizon element comes before a base element. */
  ghost predicate BaseFirst(m: Elements)
  {
    forall j, k | j in m && k in m && m[j].IsBase() && m[k].IsHorizon() :: j < k
  }

  ghost predicate Contiguous(m: Elements)
  {
    forall i, j, k | i in m && k in m && i <= j <= k :: j in m
  }

  ghost predicate Sound(m: Elements)
  {
    m != map[] && Keyed(m) && BaseFirst(m) && Contiguous(m)
  }

  // Queries /////////////////////////////////////////////////////////////////////////////////////

  lemma MaxExists(s: set<nat>)
    requires s != {}
    ensures exists m :: m in s && forall k | k in s :: k <= m
  {
    var x :| x in s;
    if s != {x} {
      var rest := s - {x};
      MaxExists(rest);
      var m :| m in rest && forall k | k in rest :: k <= m;
      var most := if x >= m then x else m;
      assert forall k | k in s :: k == x || k in rest;
      assert most in s && forall k | k in s :: k <= most;
    }
  }

  function MaxOf(s: set<nat>): (m: nat)
    requires s != {}
    ensures m in s && forall k | k in s :: k <= m
  {
    MaxExists(s);
    var m :| m in s && forall k | k in s :: k <= m;
    m
  }

  function First(m: Elements): (k: SeqId)
    requires m != map[]
    ensures k in m && forall j | j in m :: k <= j
  {
    MinOf(m.Keys)
  }

  function Last(m: Elements): (k: SeqId)
    requires m != map[]
    ensures k in m && forall j | j in m :: j <= k
  {
    MaxOf(m.Keys)
  }

  /** The released part. */
  function Base(m: Elements): (b: Elements)
    ensures forall k :: k in b <==> k in m && m[k].IsBase()
    ensures forall k | k in b :: b[k] == m[k]
  {
    map k | k in m && m[k].IsBase() :: m[k]
  }

  /** The sequence id of the last base element, or None where the source throws. */
  function BaseLast(m: Elements): (r: Option<SeqId>)
    ensures r.None? <==> forall k | k in m :: m[k].IsHorizon()
    ensures r.Some? ==> r.value in m && m[r.value].IsBase() && forall k | k in m && m[k].IsBase() :: k <= r.value
  {
    if Base(m) == map[] then
      assert forall k | k in m :: k !in Base(m);
      None
    else
      Some(Last(Base(m)))
  }

  predicate HasHorizon(m: Elements)
    requires m != map[]
  {
    m[Last(m)].IsHorizon()
  }

  // Inserting an element ////////////////////////////////////////////////////////////////////////

  /** The first element after a sequence id. */
  function After(m: Elements, s: SeqId): (r: Option<SeqId>)
    ensures r.None? <==> forall k | k in m :: k <= s
    ensures r.Some? ==> r.value in m && r.value > s && forall k | k in m && k > s :: r.value <= k
  {
    var above := set k | k in m && k > s;
    if above == {} then
      assert forall k | k in m :: k !in above;
      None
    else
      assert forall k | k in m && k > s :: k in above;
      Some(MinOf(above))
  }

  /** The last element at or before a sequence id. */
  function Before(m: Elements, s: SeqId): (r: Option<SeqId>)
    ensures r.None? <==> forall k | k in m :: k > s
    ensures r.Some? ==> r.value in m && r.value <= s && forall k | k in m && k <= s :: k <= r.value
  {
    var below := set k | k in m && k <= s;
    if below == {} then
      assert forall k | k in m :: k !in below;
      None
    else
      assert forall k | k in m && k <= s :: k in below;
      Some(MaxOf(below))
  }

  /** The two-neighbour test of an update. */
  predicate Fits(m: Elements, e: Element)
  {
    var before, after := Before(m, e.SeqIdOf()), After(m, e.SeqIdOf());
    && !(e.IsBase() && before.Some? && m[before.value].IsHorizon())
    && !(e.IsHorizon() && after.Some? && m[after.value].IsBase())
  }

  function Insert(m: Elements, e: Element): Elements
  {
    m[e.SeqIdOf() := e]
  }

  /** The test of the two neighbours decides about the whole graph: an update is accepted exactly when the
      result has its base first and the update does not release an element of the horizon in place. */
  lemma FitsExactly(m: Elements, e: Element)
    requires BaseFirst(m)
    ensures Fits(m, e) <==>
            BaseFirst(Insert(m, e)) && !(e.IsBase() && e.SeqIdOf() in m && m[e.SeqIdOf()].IsHorizon())
    ensures Keyed(m) ==> Keyed(Insert(m, e))
  {
    var s, n := e.SeqIdOf(), Insert(m, e);
    var before, after := Before(m, s), After(m, s);
    if Fits(m, e) {
      assert e.IsBase() ==> forall k | k in m && k <= s :: m[k].IsBase();
      assert e.IsHorizon() ==> forall k | k in m && k > s :: m[k].IsHorizon();
    } else if e.IsBase() {
      assert before.Some? && m[before.value].IsHorizon();
      if before.value < s {
        assert n[before.value].IsHorizon() && n[s].IsBase();
      }
    } else {
      assert n[after.value].IsBase() && n[s].IsHorizon();
    }
  }

  // Stitching ///////////////////////////////////////////////////////////////////////////////////

  /** Erases from the first id after the base, if the graph has a horizon and holds that id. */
  function WithoutHorizon(m: Elements): Elements
    requires m != map[] && BaseLast(m).Some?
  {
    if !HasHorizon(m) then m
    else
      var first := Add32(BaseLast(m).value, 1);
      if first in m then map k | k in m && k < first :: m[k] else m
  }

  /** The overlap the source allows: the extension starts at the last base element or right after it. */
  predicate Extends(m: Elements, other: Elements)
    requires m != map[] && other != map[]
  {
    && BaseLast(m).Some?
    && (Add32(BaseLast(m).value, 1) == First(other) || BaseLast(m).value == First(other))
  }

  /** The extension is accepted: its vehicle, if any, stands where this one stands, and it starts at the end of
      the base. */
  predicate Stitches(m: Elements, agv: Option<SeqId>, other: Elements, otherAgv: Option<SeqId>)
    requires m != map[] && other != map[]
  {
    (agv.Some? && otherAgv.Some? ==> agv == otherAgv) && Extends(m, other)
  }

  function Extended(m: Elements, other: Elements): Elements
    requires m != map[] && other != map[] && Extends(m, other)
  {
    WithoutHorizon(m) + other
  }

  function DeltaFirst(m: Elements, other: Elements): SeqId
    requires m != map[] && other != map[] && Extends(m, other)
  {
    var next := Add32(BaseLast(m).value, 1);
    if next >= First(other) then next else First(other)
  }

  /** Cleaning removes exactly the horizon of a sound graph. */
  lemma CleanIsBase(m: Elements)
    requires Sound(m) && BaseLast(m).Some?
    ensures WithoutHorizon(m) == Base(m)
  {
    var last := BaseLast(m).value;
    if HasHorizon(m) {
      assert last < Last(m);
      assert Add32(last, 1) == last + 1 && last + 1 in m;
      forall k | k in m
        ensures m[k].IsBase() <==> k < last + 1
      {
        assert k <= last && m[k].IsHorizon() ==> last < k;
      }
    } else {
      forall k | k in m
        ensures m[k].IsBase()
      {
      }
    }
  }

  /** The base ends at the largest id and the extension starts at 0, which counts as the next id. */
  predicate Wraps(m: Elements, other: Elements)
    requires m != map[] && other != map[] && Extends(m, other)
  {
    BaseLast(m).value == 0xFFFF_FFFF && First(other) == 0
  }

  /** The extension reaches the stored graph from below, without a horizon in between. */
  predicate Closes(m: Elements, other: Elements)
    requires m != map[] && other != map[]
  {
    Last(other) == 0xFFFF_FFFF || (!HasHorizon(other) && First(m) <= Last(other) + 1)
  }

  lemma Follows(m: Elements, other: Elements)
    requires m != map[] && other != map[] && Extends(m, other)
    ensures Wraps(m, other) || First(other) == BaseLast(m).value || First(other) == BaseLast(m).value + 1
  {
  }

  lemma StitchPlain(m: Elements, other: Elements)
    requires Sound(m) && Sound(other) && Extends(m, other) && !Wraps(m, other)
    ensures Sound(Extended(m, other))
  {
    var r := Extended(m, other);
    var last, of := BaseLast(m).value, First(other);
    CleanIsBase(m);
    Follows(m, other);
    assert First(other) in r;
    forall j, k | j in r && k in r && r[j].IsBase() && r[k].IsHorizon()
      ensures j < k
    {
      if j !in other {
        assert j <= last <= of;
        assert j != of;
      }
    }
    forall i, j, k | i in r && k in r && i <= j <= k
      ensures j in r
    {
      if j < of {
        assert i in m && m[i].IsBase() && j <= last;
        assert m[j].IsBase();
      } else {
        assert k in other || k <= last;
      }
    }
  }

  lemma NoHorizonBelow(m: Elements)
    requires Sound(m) && BaseLast(m) == Some(0xFFFF_FFFF)
    ensures Base(m) == m && forall k: SeqId :: k in m <==> First(m) <= k
  {
    forall k | k in m
      ensures m[k].IsBase()
    {
      assert m[k].IsHorizon() ==> 0xFFFF_FFFF < k;
    }
  }

  lemma AllBase(m: Elements)
    requires Sound(m) && !HasHorizon(m)
    ensures forall k | k in m :: m[k].IsBase()
  {
  }

  lemma StitchWrapped(m: Elements, other: Elements)
    requires Sound(m) && Sound(other) && Extends(m, other) && Wraps(m, other)
    ensures Sound(Extended(m, other)) <==> Closes(m, other)
  {
    var r := Extended(m, other);
    CleanIsBase(m);
    NoHorizonBelow(m);
    assert r == m + other;
    var last := Last(other);
    assert forall k: SeqId :: k in other <==> k <= last;
    assert 0xFFFF_FFFF in r && 0 in r;
    if last == 0xFFFF_FFFF {
      assert r == other;
    } else if HasHorizon(other) {
      assert r[last].IsHorizon() && r[0xFFFF_FFFF].IsBase();
    } else if last + 1 < First(m) {
      assert last + 1 !in r;
    } else {
      AllBase(other);
      assert forall k: SeqId :: k in r;
    }
  }

  /** Stitching a sound graph and a sound extension yields the old base with the extension laid over it, and nothing
      of the old horizon is left. The result is sound, but for the one case in which the next id wraps to 0: then it
      is sound exactly when the extension reaches up to the stored graph. */
  lemma Stitch(m: Elements, other: Elements)
    requires Sound(m) && Sound(other) && Extends(m, other)
    ensures Extended(m, other) == Base(m) + other
    ensures Sound(Extended(m, other)) <==> (Wraps(m, other) ==> Closes(m, other))
  {
    CleanIsBase(m);
    hide *;
    if Wraps(m, other) {
      StitchWrapped(m, other);
    } else {
      StitchPlain(m, other);
    }
    ExtendedIs(m, other);
  }

  lemma ExtendedIs(m: Elements, other: Elements)
    requires m != map[] && other != map[] && Extends(m, other)
    ensures Extended(m, other) == WithoutHorizon(m) + other
  {
    hide WithoutHorizon;
  }

  /** A stored edge at the largest id is extended by a node at 0, and the result has a gap. */
  lemma WrappedStitch(edge: Edge, node: Node)
    requires edge.seqId == 0xFFFF_FFFF && edge.released && node.seqId == 0
    ensures var m: Elements, other: Elements := map[0xFFFF_FFFF := EdgeElement(edge)], map[0 := NodeElement(node)];
            Sound(m) && Sound(other) && Extends(m, other) && !Sound(Extended(m, other))
  {
    var m: Elements, other: Elements := map[0xFFFF_FFFF := EdgeElement(edge)], map[0 := NodeElement(node)];
    assert 0xFFFF_FFFF in m && m[0xFFFF_FFFF].IsBase() && 0 in other;
    assert BaseLast(m) == Some(0xFFFF_FFFF) && First(other) == 0;
    assert Last(other) == 0 && First(m) == 0xFFFF_FFFF;
    StitchWrapped(m, other);
  }

  function Between(m: Elements, first: SeqId, last: SeqId): (r: Elements)
    ensures forall k: SeqId :: k in r <==> k in m && first <= k <= last
    ensures forall k | k in r :: r[k] == m[k]
  {
    map k | k in m && first <= k <= last :: m[k]
  }

  /** The part of an extension that is announced to the navigation. */
  function Delta(m: Elements, other: Elements): Elements
    requires m != map[] && other != map[] && Extends(m, other) && BaseLast(other).Some?
  {
    Between(other, DeltaFirst(m, other), BaseLast(other).value)
  }

  /** The base of a graph is what lies up to its last base element. */
  lemma BaseIsPrefix(m: Elements)
    requires BaseFirst(m) && BaseLast(m).Some?
    ensures forall k: SeqId :: k in Base(m) <==> k in m && k <= BaseLast(m).value
  {
    var last := BaseLast(m).value;
    forall k: SeqId | k in m && k <= last
      ensures m[k].IsBase()
    {
      assert m[k].IsHorizon() ==> last < k;
    }
  }

  lemma NewBase(m: Elements, other: Elements)
    requires Sound(m) && Sound(other) && Extends(m, other)
    ensures forall k: SeqId :: k in Base(Extended(m, other)) <==> k in Base(other) || (k in Base(m) && k !in other)
  {
    CleanIsBase(m);
    hide Sound, WithoutHorizon, Extends;
  }

  lemma DeltaIs(m: Elements, other: Elements)
    requires Sound(m) && Sound(other) && Extends(m, other) && other[First(other)].IsBase()
    ensures BaseLast(other).Some?
    ensures forall k: SeqId :: k in Delta(m, other) <==> k in Base(other) && k >= DeltaFirst(m, other)
    ensures forall k: SeqId | k in Delta(m, other) :: Delta(m, other)[k] == Extended(m, other)[k]
  {
    assert BaseLast(other).Some?;
    BaseIsPrefix(other);
    hide Base, Sound, WithoutHorizon, Extends;
  }

  /** The announced elements are exactly the new base without the old base, when the extension starts with a base
      element; where the stored base ends at the largest id, exactly when nothing announced was stored before. */
  lemma DeltaIsGrowth(m: Elements, other: Elements)
    requires Sound(m) && Sound(other) && Extends(m, other) && other[First(other)].IsBase()
    ensures BaseLast(other).Some?
    ensures (forall k: SeqId :: k in Delta(m, other) <==> k in Base(Extended(m, other)) && k !in Base(m)) <==>
            BaseLast(m).value < 0xFFFF_FFFF || Base(other).Keys !! m.Keys
    ensures forall k: SeqId | k in Delta(m, other) :: Delta(m, other)[k] == Extended(m, other)[k]
  {
    DeltaIs(m, other);
    NewBase(m, other);
    BaseIsPrefix(m);
    Follows(m, other);
    var last := BaseLast(m).value;
    if last == 0xFFFF_FFFF {
      NoHorizonBelow(m);
      assert DeltaFirst(m, other) == First(other);
      assert forall k: SeqId :: k in Delta(m, other) <==> k in Base(other);
      hide Base, Sound, WithoutHorizon, Extended, Extends, Delta;
      if k: SeqId :| k in Base(other) && k in m {
        assert k in Delta(m, other) && k in Base(m);
      }
    } else {
      assert DeltaFirst(m, other) == last + 1;
      hide Base, Sound, WithoutHorizon, Extended, Extends, Delta;
      assert forall k: SeqId | k in Base(other) :: k >= First(other);
    }
  }

  /** The vehicle stands on a base node. It still does after an extension exactly when the extension does not
      replace this node by something else than a base node. */
  lemma VehicleStays(m: Elements, other: Elements, v: SeqId)
    requires Sound(m) && Sound(other) && Extends(m, other) && MayStand(m, v)
    ensures MayStand(Extended(m, other), v) <==> (v in other ==> MayStand(other, v))
    ensures !Wraps(m, other) && v in other ==> v == First(other)
  {
    CleanIsBase(m);
    Follows(m, other);
    assert v <= BaseLast(m).value;
    assert v in Base(m);
  }

  // The vehicle on the graph ////////////////////////////////////////////////////////////////////

  predicate MayStand(m: Elements, s: SeqId)
  {
    s in m && m[s].NodeElement? && m[s].IsBase()
  }

  function From(m: Elements, s: SeqId): (r: Elements)
    ensures forall k :: k in r <==> k in m && k >= s
    ensures forall k | k in r :: r[k] == m[k]
  {
    map k | k in m && k >= s :: m[k]
  }

  lemma FromSound(m: Elements, s: SeqId)
    requires Sound(m) && s in m
    ensures Sound(From(m, s)) && First(From(m, s)) == s
  {
    assert s in From(m, s);
  }

  /** Where the vehicle is told to go next: two ids on from a node, one from an edge. */
  function NextGoalId(m: Elements, agv: SeqId): SeqId
    requires agv in m
  {
    if m[agv].NodeElement? then Add32(agv, 2) else Add32(agv, 1)
  }

  function CurrentGoal(m: Elements, agv: SeqId): Option<Element>
    requires agv in m
  {
    var goal := NextGoalId(m, agv);
    if goal in m && m[goal].NodeElement? && m[goal].node.released then Some(m[goal]) else None
  }

  ghost predicate Alternates(m: Elements)
  {
    forall k | k in m :: m[k].NodeElement? <==> k % 2 == 0
  }

  /** The goal is the nearest released node ahead of the vehicle; without a goal no released node is ahead. */
  ghost predicate Nearest(m: Elements, agv: SeqId, goal: Option<Element>)
  {
    match goal
    case Some(e) =>
      var g := e.SeqIdOf();
      MayStand(m, g) && g > agv && forall k: SeqId | MayStand(m, k) && k > agv :: g <= k
    case None => forall k: SeqId | MayStand(m, k) :: k <= agv
  }

  /** In a sound graph with nodes at even and edges at odd ids, the current goal is the nearest released node ahead of
      the vehicle, unless the vehicle is at one of the last two ids, where the goal id wraps to a released node 0. */
  lemma GoalIsNearest(m: Elements, agv: SeqId)
    requires Sound(m) && Alternates(m) && agv in m && m[agv].IsBase()
    ensures Nearest(m, agv, CurrentGoal(m, agv)) <==> agv <= 0xFFFF_FFFD || !MayStand(m, 0)
  {
    var goal := NextGoalId(m, agv);
    if agv <= 0xFFFF_FFFD {
      assert goal == if agv % 2 == 0 then agv + 2 else agv + 1;
      forall k: SeqId | MayStand(m, k) && k > agv
        ensures goal <= k && MayStand(m, goal)
      {
        assert goal in m;
        assert m[goal].IsHorizon() ==> k < goal;
      }
    } else {
      assert goal == 0;
      assert forall k: SeqId | MayStand(m, k) && k > agv :: k == 0xFFFF_FFFF;
    }
  }

  /** The vehicle reaches a node: the graph from there on, or None where the source throws. */
  function Arrive(m: Elements, s: SeqId): Option<Elements>
  {
    if MayStand(m, s) then Some(From(m, s)) else None
  }

  /** The vehicle reaches nodes one after the other. */
  function Replay(m: Elements, passed: seq<SeqId>): Option<Elements>
  {
    if passed == [] then Some(m)
    else
      var before := Replay(m, passed[..|passed| - 1]);
      if before.None? then None else Arrive(before.value, passed[|passed| - 1])
  }

  lemma {:induction false} ReplayNext(m: Elements, passed: seq<SeqId>)
    ensures passed == [] ==> Replay(m, passed) == Some(m)
    ensures passed != [] ==>
              var before := Replay(m, passed[..|passed| - 1]);
              var s := passed[|passed| - 1];
              Replay(m, passed) ==
              if before.None? then None
              else if MayStand(before.value, s) then Some(From(before.value, s)) else None
  {
    hide MayStand, From;
  }

  lemma StrictInit(ids: seq<SeqId>)
    requires ids != [] && Strict(ids)
    ensures Strict(ids[..|ids| - 1]) && (|ids| > 1 ==> ids[|ids| - 2] < ids[|ids| - 1])
  {
  }

  lemma FromStarts(m: Elements, s: SeqId)
    requires MayStand(m, s)
    ensures s in m
  {
  }

  /** What lies from a later node on is the same from the first node on. */
  lemma FromThere(m: Elements, r: SeqId, s: SeqId)
    requires MayStand(m, s) && r <= s
    ensures MayStand(From(m, r), s) && s in From(m, r) && From(From(m, r), s) == From(m, s)
  {
  }

  /** Ascending base nodes can always be reached one after the other, and the graph then starts at the last of
      them and is sound. */
  lemma {:induction false} ReplayAscending(m: Elements, passed: seq<SeqId>)
    requires Sound(m) && Strict(passed) && forall s | s in passed :: MayStand(m, s)
    ensures Replay(m, passed).Some? && Sound(Replay(m, passed).value)
    ensures passed != [] ==>
              First(Replay(m, passed).value) == passed[|passed| - 1] &&
              Replay(m, passed).value == From(m, passed[|passed| - 1])
  {
    hide *;
    if passed == [] {
      ReplayNext(m, passed);
    } else {
      var init, s := passed[..|passed| - 1], passed[|passed| - 1];
      ReplayNext(m, passed);
      StrictInit(passed);
      assert forall k | k in init :: k in passed;
      ReplayAscending(m, init);
      assert s in passed;
      var before := Replay(m, init).value;
      if init == [] {
        ReplayNext(m, init);
        FromStarts(m, s);
      } else {
        FromThere(m, init[|init| - 1], s);
      }
      FromSound(before, s);
    }
  }

  // Lists ///////////////////////////////////////////////////////////////////////////////////////

  function FromList(es: seq<Element>): Elements
  {
    if es == [] then map[] else Insert(FromList(es[..|es| - 1]), es[|es| - 1])
  }

  /** Every element of the list is accepted in turn. */
  predicate Accepts(es: seq<Element>)
  {
    es == [] || (Accepts(es[..|es| - 1]) && Fits(FromList(es[..|es| - 1]), es[|es| - 1]))
  }

  ghost predicate DistinctIds(es: seq<Element>)
  {
    forall i, j | 0 <= i < j < |es| :: es[i].SeqIdOf() != es[j].SeqIdOf()
  }

  lemma {:induction false} FromListHolds(es: seq<Element>)
    requires DistinctIds(es)
    ensures forall i | 0 <= i < |es| :: es[i].SeqIdOf() in FromList(es) && FromList(es)[es[i].SeqIdOf()] == es[i]
    ensures forall k: SeqId | k in FromList(es) :: FromList(es)[k].SeqIdOf() == k && FromList(es)[k] in es
  {
    if es != [] {
      var init, e := es[..|es| - 1], es[|es| - 1];
      FromListHolds(init);
      assert es == init + [e];
      forall i | 0 <= i < |es|
        ensures es[i].SeqIdOf() in FromList(es) && FromList(es)[es[i].SeqIdOf()] == es[i]
      {
        if i < |init| {
          assert es[i] == init[i];
        }
      }
    }
  }

  /** Elements with different ids can be inserted one by one, in whatever order, exactly when the complete graph
      has its base first. */
  lemma {:induction false} AcceptsExactly(es: seq<Element>)
    requires DistinctIds(es)
    ensures Accepts(es) <==> BaseFirst(FromList(es))
  {
    if es != [] {
      var init, e := es[..|es| - 1], es[|es| - 1];
      AcceptsExactly(init);
      FromListHolds(init);
      var m, n := FromList(init), FromList(es);
      assert forall i | 0 <= i < |init| :: es[i] == init[i];
      assert e.SeqIdOf() !in m;
      if BaseFirst(m) {
        FitsExactly(m, e);
      } else {
        var j, k :| j in m && k in m && m[j].IsBase() && m[k].IsHorizon() && j >= k;
        assert n[j] == m[j] && n[k] == m[k];
      }
    }
  }

  function AscendingIds(s: set<SeqId>): (ids: seq<SeqId>)
    ensures forall k: SeqId :: k in ids <==> k in s
    ensures Strict(ids)
  {
    if s == {} then []
    else
      var m: SeqId := MinOf(s);
      [m] + AscendingIds(s - {m})
  }

  /** The ids of the elements, ascending. */
  function SortedIds(m: Elements): (ids: seq<SeqId>)
    ensures forall k: SeqId :: k in ids <==> k in m
    ensures Strict(ids)
  {
    AscendingIds(m.Keys)
  }

  function NodesAt(m: Elements, ids: seq<SeqId>, i: nat): seq<Node>
    requires i <= |ids| && forall k: SeqId | k in ids :: k in m
  {
    if i == 0 then []
    else NodesAt(m, ids, i - 1) + (if m[ids[i - 1]].NodeElement? then [m[ids[i - 1]].node] else [])
  }

  function EdgesAt(m: Elements, ids: seq<SeqId>, i: nat): seq<Edge>
    requires i <= |ids| && forall k: SeqId | k in ids :: k in m
  {
    if i == 0 then []
    else EdgesAt(m, ids, i - 1) + (if m[ids[i - 1]].EdgeElement? then [m[ids[i - 1]].edge] else [])
  }

  function NodesOf(m: Elements): seq<Node>
  {
    NodesAt(m, SortedIds(m), |SortedIds(m)|)
  }

  function EdgesOf(m: Elements): seq<Edge>
  {
    EdgesAt(m, SortedIds(m), |SortedIds(m)|)
  }

  lemma {:induction false} NodeAt(m: Elements, ids: seq<SeqId>, i: nat, n: Node)
    requires Keyed(m) && i <= |ids| && forall k: SeqId | k in ids :: k in m
    ensures n in NodesAt(m, ids, i) <==> n.seqId in ids[..i] && m[n.seqId] == NodeElement(n)
  {
    if i > 0 {
      var last := ids[i - 1];
      assert NodesAt(m, ids, i) == NodesAt(m, ids, i - 1) + (if m[last].NodeElement? then [m[last].node] else []);
      assert m[last].SeqIdOf() == last;
      assert ids[..i] == ids[..i - 1] + [last];
      NodeAt(m, ids, i - 1, n);
      hide NodesAt, Keyed;
    }
  }

  lemma {:induction false} NodesAtAscend(m: Elements, ids: seq<SeqId>, i: nat)
    requires Keyed(m) && Strict(ids) && i <= |ids| && forall k: SeqId | k in ids :: k in m
    ensures forall j, k | 0 <= j < k < |NodesAt(m, ids, i)| ::
              NodesAt(m, ids, i)[j].seqId < NodesAt(m, ids, i)[k].seqId
  {
    if i > 0 {
      var before, last := NodesAt(m, ids, i - 1), ids[i - 1];
      NodesAtAscend(m, ids, i - 1);
      forall j | 0 <= j < |before|
        ensures before[j].seqId < last
      {
        NodeAt(m, ids, i - 1, before[j]);
      }
      assert NodesAt(m, ids, i) == before + (if m[last].NodeElement? then [m[last].node] else []);
      hide NodesAt;
    }
  }

  lemma {:induction false} EdgeAt(m: Elements, ids: seq<SeqId>, i: nat, e: Edge)
    requires Keyed(m) && i <= |ids| && forall k: SeqId | k in ids :: k in m
    ensures e in EdgesAt(m, ids, i) <==> e.seqId in ids[..i] && m[e.seqId] == EdgeElement(e)
  {
    if i > 0 {
      var last := ids[i - 1];
      assert EdgesAt(m, ids, i) == EdgesAt(m, ids, i - 1) + (if m[last].EdgeElement? then [m[last].edge] else []);
      assert m[last].SeqIdOf() == last;
      assert ids[..i] == ids[..i - 1] + [last];
      EdgeAt(m, ids, i - 1, e);
      hide EdgesAt, Keyed;
    }
  }

  lemma {:induction false} EdgesAtAscend(m: Elements, ids: seq<SeqId>, i: nat)
    requires Keyed(m) && Strict(ids) && i <= |ids| && forall k: SeqId | k in ids :: k in m
    ensures forall j, k | 0 <= j < k < |EdgesAt(m, ids, i)| ::
              EdgesAt(m, ids, i)[j].seqId < EdgesAt(m, ids, i)[k].seqId
  {
    if i > 0 {
      var before, last := EdgesAt(m, ids, i - 1), ids[i - 1];
      EdgesAtAscend(m, ids, i - 1);
      forall j | 0 <= j < |before|
        ensures before[j].seqId < last
      {
        EdgeAt(m, ids, i - 1, before[j]);
      }
      assert EdgesAt(m, ids, i) == before + (if m[last].EdgeElement? then [m[last].edge] else []);
      hide EdgesAt;
    }
  }

  /** The listed nodes and edges of a graph are all of its nodes and edges, each once and ascending. */
  lemma ListedElements(m: Elements)
    requires Keyed(m)
    ensures var ns := NodesOf(m);
            && (forall i, j | 0 <= i < j < |ns| :: ns[i].seqId < ns[j].seqId)
            && (forall n :: n in ns <==> n.seqId in m && m[n.seqId] == NodeElement(n))
    ensures var es := EdgesOf(m);
            && (forall i, j | 0 <= i < j < |es| :: es[i].seqId < es[j].seqId)
            && (forall e :: e in es <==> e.seqId in m && m[e.seqId] == EdgeElement(e))
  {
    var ids := SortedIds(m);
    assert ids[..|ids|] == ids;
    NodesAtAscend(m, ids, |ids|);
    EdgesAtAscend(m, ids, |ids|);
    forall n | true
      ensures n in NodesOf(m) <==> n.seqId in m && m[n.seqId] == NodeElement(n)
    {
      NodeAt(m, ids, |ids|, n);
    }
    forall e | true
      ensures e in EdgesOf(m) <==> e.seqId in m && m[e.seqId] == EdgeElement(e)
    {
      EdgeAt(m, ids, |ids|, e);
    }
    hide NodesAt, EdgesAt;
  }

  // The graph object ////////////////////////////////////////////////////////////////////////////

  class Graph {
    var elems: Elements
    var agv: Option<SeqId>

    /** What every operation keeps: the graph is not empty, its base comes first, and the vehicle is on it. */
    ghost predicate Valid()
      reads this
    {
      elems != map[] && Keyed(elems) && BaseFirst(elems) && (agv.Some? ==> agv.value in elems)
    }

    constructor (elems: Elements, agv: Option<SeqId>)
      ensures this.elems == elems && this.agv == agv
    {
      this.elems := elems;
      this.agv := agv;
    }

    /** A graph with the given elements; null where the source throws. */
    static method Create(list: seq<Element>) returns (g: Graph?)
      ensures g != null <==> list != [] && Accepts(list)
      ensures g != null ==> fresh(g) && g.elems == FromList(list) && g.agv == None
    {
      if list == [] {
        return null;
      }
      var r := new Graph(map[], None);
      var i := 0;
      while i < |list|
        invariant i <= |list|
        invariant fresh(r) && r.elems == FromList(list[..i]) && r.agv == None
        invariant Accepts(list[..i])
      {
        var ok := r.Update(list[i]);
        assert list[..i + 1][..i] == list[..i];
        if !ok {
          NotAccepted(list, i + 1);
          return null;
        }
        i := i + 1;
      }
      assert list[..i] == list;
      return r;
    }

    method Update(e: Element) returns (ok: bool)
      modifies `elems
      ensures ok == Fits(old(elems), e)
      ensures elems == if ok then Insert(old(elems), e) else old(elems)
      ensures old(Valid()) ==> Valid()
    {
      if elems != map[] {
        var after := After(elems, e.SeqIdOf());
        var before := Before(elems, e.SeqIdOf());
        if (e.IsBase() && before.Some? && elems[before.value].IsHorizon())
           || (e.IsHorizon() && after.Some? && elems[after.value].IsBase())
        {
          return false;
        }
      }
      if old(Valid()) {
        FitsExactly(elems, e);
      }
      elems := elems[e.SeqIdOf() := e];
      return true;
    }

    method CleanHorizon() returns (ok: bool)
      requires elems != map[]
      modifies `elems
      ensures ok == (HasHorizon(old(elems)) ==> BaseLast(old(elems)).Some?)
      ensures elems == if BaseLast(old(elems)).Some? then WithoutHorizon(old(elems)) else old(elems)
    {
      if !HasHorizon(elems) {
        return true;
      }
      var last := BaseLast(elems);
      if last.None? {
        return false;
      }
      var first := Add32(last.value, 1);
      if first in elems {
        elems := map k | k in elems && k < first :: elems[k];
      }
      return true;
    }

    /** Extends this graph by another one; yields the ids of the first and the last new element. */
    method Extend(other: Graph) returns (ok: bool, first: SeqId, last: SeqId)
      requires elems != map[] && other.elems != map[]
      modifies this
      ensures ok == Stitches(old(elems), old(agv), old(other.elems), old(other.agv))
      ensures old(agv).Some? && old(other.agv).Some? && old(agv) != old(other.agv) ==> !ok
      ensures ok ==> elems == Extended(old(elems), old(other.elems))
      ensures ok ==> agv == if old(agv).Some? then old(agv) else old(other.agv)
      ensures ok ==> first == DeltaFirst(old(elems), old(other.elems)) && last == Last(old(other.elems))
      ensures !ok ==> elems == old(elems) && agv == old(agv)
    {
      first, last := 0, 0;
      if agv.Some? && other.agv.Some? && agv != other.agv {
        return false, 0, 0;
      }
      var bl := BaseLast(elems);
      if bl.None? {
        return false, 0, 0;
      }
      var of, ol, rest := First(other.elems), Last(other.elems), other.elems;
      if Add32(bl.value, 1) != of && bl.value != of {
        return false, 0, 0;
      }
      if agv.None? {
        agv := other.agv;
      }
      ok := CleanHorizon();
      elems := elems + rest;
      first := if Add32(bl.value, 1) >= of then Add32(bl.value, 1) else of;
      last := ol;
    }

    method SetAgvLastNodeSequenceId(s: SeqId) returns (ok: bool)
      modifies `agv
      ensures ok == MayStand(elems, s)
      ensures agv == if ok then Some(s) else old(agv)
      ensures old(Valid()) ==> Valid()
    {
      if s !in elems || !elems[s].NodeElement? || elems[s].IsHorizon() {
        return false;
      }
      agv := Some(s);
      return true;
    }

    /** Drops what lies behind the vehicle. */
    method Trim()
      requires agv.Some? && agv.value in elems
      modifies `elems
      ensures elems == From(old(elems), agv.value)
      ensures old(Valid()) ==> Valid()
    {
      elems := map k | k in elems && k >= agv.value :: elems[k];
    }

    /** The part between two elements; null where the source throws. */
    method Subgraph(first: SeqId, last: SeqId) returns (g: Graph?)
      ensures g != null <==> first <= last && first in elems && last in elems
      ensures g != null ==> fresh(g) && g.elems == Between(elems, first, last)
      ensures g != null ==> g.agv == if agv.Some? && first <= agv.value <= last then agv else None
    {
      if last < first || first !in elems || last !in elems {
        return null;
      }
      var here := if agv.Some? && first <= agv.value && agv.value <= last then agv else None;
      g := new Graph(Between(elems, first, last), here);
    }

    method GetNodes() returns (nodes: seq<Node>)
      ensures nodes == NodesOf(elems)
    {
      var ids := SortedIds(elems);
      nodes := [];
      for i := 0 to |ids|
        invariant nodes == NodesAt(elems, ids, i)
      {
        if elems[ids[i]].NodeElement? {
          nodes := nodes + [elems[ids[i]].node];
        }
      }
    }

    method GetEdges() returns (edges: seq<Edge>)
      ensures edges == EdgesOf(elems)
    {
      var ids := SortedIds(elems);
      edges := [];
      for i := 0 to |ids|
        invariant edges == EdgesAt(elems, ids, i)
      {
        if elems[ids[i]].EdgeElement? {
          edges := edges + [elems[ids[i]].edge];
        }
      }
    }
  }

  lemma {:induction false} NotAccepted(list: seq<Element>, i: nat)
    requires i <= |list| && !Accepts(list[..i])
    ensures !Accepts(list)
    decreases |list| - i
  {
    if i < |list| {
      assert list[..i + 1][..i] == list[..i];
      NotAccepted(list, i + 1);
    } else {
      assert list[..i] == list;
    }
  }
}
