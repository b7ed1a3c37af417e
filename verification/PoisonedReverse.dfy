/** What poisoned reverse is for: a router never learns from a neighbour a route that the
    neighbour has through the router itself, so no fresh vector closes a loop of two. */
module PoisonedReverse {
  import opened RoutingTable
  import opened RouterNode
  import opened TableVectors
  import opened Walks
  import opened DvNetwork
  import opened DvRounds
  import opened DvTrace
  import opened DvRecovery
  import opened DvListed

  /** An advertised entry hides its route exactly from the route's own next hop. */
  lemma HiddenExactlyFromNextHop(r: Route, receiver: Ip)
    ensures var e := Advertised(r, receiver);
      && e.key == r.key
      && (r.cost < INF_COST ==> (e.cost == INF_COST <==> r.nextHop == receiver != NO_HOP))
      && (e.cost != INF_COST ==> e.cost == r.cost)
  {
  }

  /** Hearing it never leaves a route through its sender, whatever the table was. */
  lemma EntryNotLearnedBack(routes: seq<Route>, via: Ip, w: Cost, r: Route, receiver: Ip)
    requires r.nextHop == receiver != NO_HOP
    ensures !LeadsTo(Entry(ApplyEntry(routes, via, w, Advertised(r, receiver)), r.key), via)
  {
    ApplyEntryAt(routes, via, w, Advertised(r, receiver), r.key);
  }

  /** Nor does hearing a whole vector, for any network its sender reaches through the
      receiver. */
  lemma VectorNotLearnedBack(keys: set<Key>, routes: seq<Route>, via: Ip, w: Cost, from: seq<Route>, receiver: Ip,
                             key: Key)
    requires Fits(keys, routes) && Fits(keys, from) && Entry(from, key).nextHop == receiver != NO_HOP
    ensures !LeadsTo(Entry(ApplyVector(routes, via, w, Vector(from, receiver), |from|), key), via)
  {
    hide ApplyVector, Fits;
    VectorAt(keys, routes, via, w, from, receiver, |from|, key);
  }

  /** Each of two neighbours has a reachable route through the other. */
  predicate TwoLoop(t: Topology, n: Network, u: nat, v: nat, key: Key)
    requires |n.routers| == |t| && Linked(t, u, v) && Linked(t, v, u)
  {
    GoesThrough(t, u, Entry(n.routers[u].routes, key), v) && GoesThrough(t, v, Entry(n.routers[v].routes, key), u)
  }

  /** Once `u` has heard a vector that shows `v`'s table as it is, there is no loop between
      the two, in any network whatever the tables were. */
  lemma HearingLeavesNoTwoLoop(t: Topology, n: Network, u: nat, v: nat, now: int, key: Key)
    requires WellConfigured(t) && Recoverable(t, n) && |n.routers| == |t|
    requires u != v && Linked(t, u, v) && Linked(t, v, u)
    requires VectorFor(t, n.routers, v, u) in n.inFlight
    ensures var m := Step(n, Hear(u, VectorFor(t, n.routers, v, u), now));
      |m.routers| == |t| && !TwoLoop(t, m, u, v, key)
  {
    var from := n.routers[v].routes;
    BothFit(t, n, u, v, key);
    HearingApplies(t, n, u, v, now);
    ViaIdentifies(t, v, u, u);
    hide Recoverable, WellConfigured, Fits, ApplyVector, Step;
    if Entry(from, key).nextHop == Via(t, v, u) {
      VectorNotLearnedBack(AllKeys(t), n.routers[u].routes, Via(t, u, v), LinkCost(t, u, v), from, Via(t, v, u), key);
    }
  }

  /** Hearing `v` applies its vector to `u`'s table and changes no other. */
  lemma HearingApplies(t: Topology, n: Network, u: nat, v: nat, now: int)
    requires SameShape(t, n) && u != v && Linked(t, u, v) && Linked(t, v, u)
    requires VectorFor(t, n.routers, v, u) in n.inFlight
    ensures var m, from := Step(n, Hear(u, VectorFor(t, n.routers, v, u), now)), n.routers[v].routes;
      && |m.routers| == |t| && m.routers[v] == n.routers[v]
      && m.routers[u].routes == ApplyVector(n.routers[u].routes, Via(t, u, v), LinkCost(t, u, v),
                                            Vector(from, Via(t, v, u)), |from|)
  {
    SameIndexByPort(n.routers[u], t[u], t[v].ctrlPort);
    hide ApplyVector;
  }

  lemma BothFit(t: Topology, n: Network, u: nat, v: nat, key: Key)
    requires WellConfigured(t) && Recoverable(t, n) && |n.routers| == |t| && u < |t| && v < |t|
    ensures Fits(AllKeys(t), n.routers[u].routes) && Fits(AllKeys(t), n.routers[v].routes)
  {
    TablesAreTraced(t, n, u, key);
    TablesAreTraced(t, n, v, key);
    TableFits(t, u, n.routers[u].routes);
    TableFits(t, v, n.routers[v].routes);
  }

  /** So after every run: if `v` announces and `u` hears that, neither routes a network
      through the other that routes it back. */
  lemma AnnouncingBreaksTwoLoops(t: Topology, es: seq<Event>, u: nat, v: nat, now: int, key: Key)
    requires WellConfigured(t) && u != v && Linked(t, u, v) && Linked(t, v, u)
    requires var n := Run(Network(t, {}), es); |n.routers| == |t| && ThinksAlive(t, n.routers[v], v, u)
    ensures var n := Run(Network(t, {}), es); var p := VectorFor(t, n.routers, v, u);
      var m := Step(Step(n, Announce(v)), Hear(u, p, now));
      |m.routers| == |t| && !TwoLoop(t, m, u, v, key)
  {
    var n := Run(Network(t, {}), es);
    EveryRunIsRecoverable(t, es);
    StepIsRecoverable(t, n, Announce(v));
    VectorIsSent(t, n, v, u);
    hide Recoverable, WellConfigured, Run;
    HearingLeavesNoTwoLoop(t, Step(n, Announce(v)), u, v, now, key);
  }

  lemma VectorIsSent(t: Topology, n: Network, v: nat, u: nat)
    requires SameShape(t, n) && Linked(t, v, u) && ThinksAlive(t, n.routers[v], v, u)
    ensures var m := Step(n, Announce(v));
      m.routers == n.routers && VectorFor(t, n.routers, v, u) in m.inFlight
  {
    var s, i := n.routers[v], LinkTo(t, v, u);
    BroadcastReaches(s, i, |s.neighbors|);
    var d := Dispatch(s.neighbors[i].ctrlPort, Vector(s.routes, s.neighbors[i].ip));
    assert Packet(s.ctrlPort, d.port, d.entries) in Packets(s.ctrlPort, Broadcast(s));
  }
}
