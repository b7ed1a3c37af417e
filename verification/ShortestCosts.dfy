/** The shortest cost from a router to a network, its first hop, and the routers
    that are nearer. */
module ShortestCosts {
  import opened RoutingTable
  import opened Walks
  import opened DvRounds

  ghost function LeastFrom(t: Topology, u: nat, key: Key, c: Cost): (d: Cost)
    ensures c <= d && (d < INF_COST ==> Reaches(t, u, key, d))
    ensures forall x | c <= x < d :: !Reaches(t, u, key, x)
    decreases INF_COST - c
  {
    if c == INF_COST || Reaches(t, u, key, c) then c else LeastFrom(t, u, key, c + 1)
  }

  /** The cost of a cheapest walk, or INF_COST if there is none below it. */
  ghost function Dist(t: Topology, u: nat, key: Key): Cost { LeastFrom(t, u, key, 0) }

  lemma DistIsLeast(t: Topology, u: nat, key: Key, c: nat)
    requires Reaches(t, u, key, c)
    ensures Dist(t, u, key) <= c
  {
  }

  lemma DistOverLink(t: Topology, u: nat, v: nat, key: Key)
    requires Linked(t, u, v)
    ensures Dist(t, u, key) <= LinkCost(t, u, v) + Dist(t, v, key)
  {
    if Dist(t, v, key) < INF_COST {
      ReachesOverLink(t, u, v, key, Dist(t, v, key));
      DistIsLeast(t, u, key, LinkCost(t, u, v) + Dist(t, v, key));
    }
  }

  /** A router either is attached to the network, or reaches it best over some link. */
  lemma FirstHop(t: Topology, u: nat, key: Key) returns (y: nat)
    requires WellConfigured(t) && u < |t| && !Attached(t, u, key) && Dist(t, u, key) < INF_COST
    ensures Linked(t, u, y) && Dist(t, u, key) == LinkCost(t, u, y) + Dist(t, y, key)
    ensures Dist(t, y, key) < Dist(t, u, key)
  {
    var w :| WalkTo(t, u, key, w) && WalkCost(t, w) == Dist(t, u, key);
    assert |w| > 1;
    y := w[1];
    TailWalk(t, w);
    assert WalkTo(t, y, key, w[1..]);
    DistIsLeast(t, y, key, WalkCost(t, w[1..]));
    DistOverLink(t, u, y, key);
    ViaIdentifies(t, u, y, y);
  }

  lemma DistAttached(t: Topology, u: nat, key: Key)
    requires Attached(t, u, key)
    ensures Dist(t, u, key) == 0
  {
    assert WalkTo(t, u, key, [u]) && WalkCost(t, [u]) == 0;
    DistIsLeast(t, u, key, 0);
  }

  /** How many routers are nearer to the network. */
  ghost function Nearer(t: Topology, u: nat, key: Key): set<nat> {
    set v: nat | v < |t| && Dist(t, v, key) < Dist(t, u, key)
  }

  lemma NearerGrows(t: Topology, x: nat, u: nat, key: Key)
    requires x < |t| && Dist(t, x, key) < Dist(t, u, key)
    ensures |Nearer(t, x, key)| < |Nearer(t, u, key)|
  {
    assert x in Nearer(t, u, key) && x !in Nearer(t, x, key);
    SubsetIsNoLarger(Nearer(t, x, key), Nearer(t, u, key) - {x});
  }

  lemma NearerIsFew(t: Topology, u: nat, key: Key)
    requires u < |t|
    ensures |Nearer(t, u, key)| <= |t| - 1
  {
    SubsetIsNoLarger(Nearer(t, u, key), Below(|t|) - {u});
  }
}
