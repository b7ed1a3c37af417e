/** The network as a graph: links, walks over them, and the fact that a cheapest
    walk need not visit a router twice. */
module Walks {
  import opened RoutingTable
  import opened RouterNode

  /** The network as configured: router `u` starts as `t[u]`. */
  type Topology = seq<RouterState>

  function LinkTo(t: Topology, u: nat, v: nat): nat
    requires u < |t| && v < |t|
  {
    NeighborByPort(t[u].neighbors, t[v].ctrlPort)
  }

  /** `u` lists `v` as a neighbour. */
  predicate Linked(t: Topology, u: nat, v: nat) {
    u < |t| && v < |t| && LinkTo(t, u, v) < |t[u].neighbors|
  }

  function LinkCost(t: Topology, u: nat, v: nat): nat
    requires Linked(t, u, v)
  {
    t[u].neighbors[LinkTo(t, u, v)].cost
  }

  ghost predicate Attached(t: Topology, u: nat, key: Key) {
    u < |t| && exists i | 0 <= i < |t[u].routes| :: t[u].routes[i].key == key
  }

  /** A walk over links from its first router to its last. */
  ghost predicate IsWalk(t: Topology, w: seq<nat>) {
    && w != []
    && (forall i | 0 <= i < |w| :: w[i] < |t|)
    && (forall i | 0 <= i < |w| - 1 :: Linked(t, w[i], w[i + 1]))
  }

  ghost predicate WalkTo(t: Topology, u: nat, key: Key, w: seq<nat>) {
    IsWalk(t, w) && w[0] == u && Attached(t, w[|w| - 1], key)
  }

  ghost function WalkCost(t: Topology, w: seq<nat>): nat
    requires IsWalk(t, w)
  {
    if |w| == 1 then 0 else LinkCost(t, w[0], w[1]) + WalkCost(t, w[1..])
  }

  /** Some walk from `u` to a router attached to `key` costs exactly `c`. */
  ghost predicate Reaches(t: Topology, u: nat, key: Key, c: nat) {
    exists w :: WalkTo(t, u, key, w) && WalkCost(t, w) == c
  }

  lemma ConsWalk(t: Topology, u: nat, w: seq<nat>)
    requires IsWalk(t, w) && Linked(t, u, w[0])
    ensures IsWalk(t, [u] + w) && WalkCost(t, [u] + w) == LinkCost(t, u, w[0]) + WalkCost(t, w)
  {
    var longer := [u] + w;
    assert longer[1..] == w;
    forall i | 0 <= i < |longer| - 1 ensures Linked(t, longer[i], longer[i + 1]) {
      if i > 0 {
        assert Linked(t, w[i - 1], w[i]);
      }
    }
  }

  lemma TailWalk(t: Topology, w: seq<nat>)
    requires IsWalk(t, w) && |w| > 1
    ensures IsWalk(t, w[1..]) && Linked(t, w[0], w[1])
    ensures WalkCost(t, w) == LinkCost(t, w[0], w[1]) + WalkCost(t, w[1..])
  {
    forall i | 0 <= i < |w| - 2 ensures Linked(t, w[1..][i], w[1..][i + 1]) {
      assert Linked(t, w[i + 1], w[i + 2]);
    }
  }

  lemma ReachesOverLink(t: Topology, u: nat, v: nat, key: Key, c: nat)
    requires Linked(t, u, v) && Reaches(t, v, key, c)
    ensures Reaches(t, u, key, LinkCost(t, u, v) + c)
  {
    var w :| WalkTo(t, v, key, w) && WalkCost(t, w) == c;
    ConsWalk(t, u, w);
    assert WalkTo(t, u, key, [u] + w);
  }

  // ----- cycles never help -----

  function Below(n: nat): (s: set<nat>)
    ensures |s| == n && forall x: nat :: x in s <==> x < n
  {
    if n == 0 then {} else Below(n - 1) + {n - 1}
  }

  function Elements<T>(s: seq<T>): set<T> { set x | x in s }

  lemma {:induction false} DistinctAreMany<T>(s: seq<T>)
    requires forall i, j | 0 <= i < j < |s| :: s[i] != s[j]
    ensures |Elements(s)| == |s|
  {
    if s == [] {
    } else {
      var last := |s| - 1;
      DistinctAreMany(s[..last]);
      assert s == s[..last] + [s[last]];
      assert Elements(s) == Elements(s[..last]) + {s[last]};
    }
  }

  lemma {:induction false} SubsetIsNoLarger<T>(a: set<T>, b: set<T>)
    requires a <= b
    ensures |a| <= |b|
  {
    if a != {} {
      var x :| x in a;
      SubsetIsNoLarger(a - {x}, b - {x});
    }
  }

  lemma Pigeonhole(s: seq<nat>, n: nat) returns (i: nat, j: nat)
    requires |s| > n && forall k | 0 <= k < |s| :: s[k] < n
    ensures i < j < |s| && s[i] == s[j]
  {
    if forall i, j | 0 <= i < j < |s| :: s[i] != s[j] {
      DistinctAreMany(s);
      SubsetIsNoLarger(Elements(s), Below(n));
      assert false;
    }
    i, j :| 0 <= i < j < |s| && s[i] == s[j];
  }

  lemma {:induction false} SuffixIsCheaper(t: Topology, w: seq<nat>, j: nat)
    requires IsWalk(t, w) && j < |w|
    ensures IsWalk(t, w[j..]) && WalkCost(t, w[j..]) <= WalkCost(t, w)
  {
    if j > 0 {
      TailWalk(t, w);
      SuffixIsCheaper(t, w[1..], j - 1);
      assert w[1..][j - 1..] == w[j..];
    } else {
      assert w[0..] == w;
    }
  }

  lemma CutTail(w: seq<nat>, i: nat, j: nat)
    requires 0 < i < j < |w| && w[i] == w[j]
    ensures w[..i] + w[j..] == [w[0]] + (w[1..][..i - 1] + w[1..][j - 1..])
    ensures (w[1..][..i - 1] + w[1..][j - 1..])[0] == w[1]
  {
    assert w[..i] == [w[0]] + w[1..][..i - 1];
    assert w[j..] == w[1..][j - 1..];
  }

  lemma {:induction false} CutCycle(t: Topology, w: seq<nat>, i: nat, j: nat)
    requires IsWalk(t, w) && i < j < |w| && w[i] == w[j]
    ensures IsWalk(t, w[..i] + w[j..]) && WalkCost(t, w[..i] + w[j..]) <= WalkCost(t, w)
    decreases j
  {
    if i == 0 {
      assert w[..i] + w[j..] == w[j..];
      SuffixIsCheaper(t, w, j);
    } else {
      TailWalk(t, w);
      CutCycle(t, w[1..], i - 1, j - 1);
      var rest := w[1..][..i - 1] + w[1..][j - 1..];
      CutTail(w, i, j);
      ConsWalk(t, w[0], rest);
    }
  }

  /** No walk is cheaper than every walk that visits no router twice. */
  lemma {:induction false} ShortWalkSuffices(t: Topology, u: nat, key: Key, w: seq<nat>) returns (w': seq<nat>)
    requires WalkTo(t, u, key, w)
    ensures WalkTo(t, u, key, w') && |w'| <= |t| && WalkCost(t, w') <= WalkCost(t, w)
    decreases |w|
  {
    if |w| <= |t| {
      w' := w;
    } else {
      var i, j := Pigeonhole(w, |t|);
      CutCycle(t, w, i, j);
      w' := ShortWalkSuffices(t, u, key, w[..i] + w[j..]);
    }
  }
}
