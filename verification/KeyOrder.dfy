/** Ascending iteration over the keys of a map, as std::map iterates. */
module KeyOrder {

  lemma MinBelow(s: set<nat>, x: nat)
    requires x in s
    ensures exists m :: m in s && forall k | k in s :: m <= k
    decreases x
  {
    if k :| k in s && k < x {
      MinBelow(s, k);
    }
  }

  lemma MinExists(s: set<nat>)
    requires s != {}
    ensures exists m :: m in s && forall k | k in s :: m <= k
  {
    var x :| x in s;
    MinBelow(s, x);
  }

  function MinOf(s: set<nat>): (m: nat)
    requires s != {}
    ensures m in s && forall k | k in s :: m <= k
  {
    MinExists(s);
    var m :| m in s && forall k | k in s :: m <= k;
    m
  }

  /** The members of a set, ascending and without repetition. */
  function Ascending(s: set<nat>): (r: seq<nat>)
    ensures forall k :: k in r <==> k in s
    ensures forall i, j | 0 <= i < j < |r| :: r[i] < r[j]
  {
    if s == {} then []
    else
      var m := MinOf(s);
      [m] + Ascending(s - {m})
  }
}
