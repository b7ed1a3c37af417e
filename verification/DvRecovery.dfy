/** Recovery.  Whatever has happened in a network, once every link is thought alive
    at one of its ends, as many rounds as there are routers bring every table to the
    shortest costs. */
module DvRecovery {
  import opened Common
  import opened RoutingTable
  import opened RouterNode
  import opened TableVectors
  import opened Walks
  import opened DvNetwork
  import opened DvRounds
  import opened ShortestCosts
  import opened DvTrace

  // ----- a round, router by router -----

  /** Router `u` after the first `k` announcements of its order, those of them that
      are in flight. */
  ghost function HearFrom(t: Topology, rs: seq<RouterState>, flight: set<Packet>, u: nat, order: seq<nat>,
                          k: nat): RouterState
    requires |rs| == |t| && u < |t| && k <= |order| && ValidOrder(t, u, order)
  {
    if k == 0 then rs[u]
    else
      var s, p := HearFrom(t, rs, flight, u, order, k - 1), VectorFor(t, rs, order[k - 1], u);
      if p in flight then Receive(s, p.from, p.entries, 0) else s
  }

  lemma {:induction false} HearSomeIsFold(t: Topology, rs: seq<RouterState>, start: Network, u: nat, order: seq<nat>,
                                          k: nat)
    requires |rs| == |t| == |start.routers| && u < |t| && k <= |order| && ValidOrder(t, u, order)
    requires start.routers[u] == rs[u] && rs[u].ctrlPort == t[u].ctrlPort
    ensures var s := HearFrom(t, rs, start.inFlight, u, order, k);
      s.ctrlPort == t[u].ctrlPort &&
      HearSome(t, rs, start, u, order, k) == Network(start.routers[u := s], start.inFlight)
  {
    hide Receive, VectorFor;
    if k == 0 {
    } else {
      HearSomeIsFold(t, rs, start, u, order, k - 1);
      ReceiveKeepsPort(HearFrom(t, rs, start.inFlight, u, order, k - 1), VectorFor(t, rs, order[k - 1], u));
      PacketIsTo(t, rs, order[k - 1], u);
    }
  }

  lemma ReceiveKeepsPort(s: RouterState, p: Packet)
    ensures Receive(s, p.from, p.entries, 0).ctrlPort == s.ctrlPort
  {
  }

  lemma PacketIsTo(t: Topology, rs: seq<RouterState>, v: nat, u: nat)
    requires |rs| == |t| && Linked(t, v, u)
    ensures VectorFor(t, rs, v, u).to == t[u].ctrlPort
  {
  }

  lemma {:induction false} HearAllIsFold(t: Topology, rs: seq<RouterState>, start: Network, orders: seq<seq<nat>>,
                                         k: nat)
    requires |rs| == |t| && k <= |t| && ValidOrders(t, orders) && start.routers == rs
    requires forall u | 0 <= u < |t| :: rs[u].ctrlPort == t[u].ctrlPort
    ensures var m := HearAll(t, rs, start, orders, k);
      && |m.routers| == |t| && m.inFlight == start.inFlight
      && (forall u | 0 <= u < k :: m.routers[u] == HearFrom(t, rs, start.inFlight, u, orders[u], |orders[u]|))
      && (forall u | k <= u < |t| :: m.routers[u] == rs[u])
  {
    hide HearSome, HearFrom, ValidOrder;
    if k == 0 {
    } else {
      HearAllIsFold(t, rs, start, orders, k - 1);
      HearSomeIsFold(t, rs, HearAll(t, rs, start, orders, k - 1), k - 1, orders[k - 1], |orders[k - 1]|);
    }
  }

  /** The announcements a round can hear. */
  function Flight(t: Topology, n: Network): set<Packet>
    requires |t| <= |n.routers|
  {
    AnnounceAll(n, |t|).inFlight
  }

  lemma RoundIsFold(t: Topology, n: Network, orders: seq<seq<nat>>)
    requires SameShape(t, n) && ValidOrders(t, orders)
    ensures var m := Round(t, n, orders);
      |m.routers| == |t| &&
      forall u | 0 <= u < |t| :: m.routers[u] == HearFrom(t, n.routers, Flight(t, n), u, orders[u], |orders[u]|)
  {
    AnnounceAllIs(n, |t|);
    HearAllIsFold(t, n.routers, AnnounceAll(n, |t|), orders, |t|);
  }

  lemma RoundIsRecoverable(t: Topology, n: Network, orders: seq<seq<nat>>)
    requires WellConfigured(t) && Recoverable(t, n) && ValidOrders(t, orders)
    ensures Recoverable(t, Round(t, n, orders))
  {
    RoundIsRun(t, n, orders);
    RunIsRecoverable(t, n, RoundEvents(t, n.routers, orders));
  }

  // ----- links come back -----

  /** Every link is thought alive at one of its ends at least. */
  ghost predicate HalfAlive(t: Topology, n: Network)
    requires |n.routers| == |t|
  {
    forall u: nat, v: nat | Linked(t, u, v) && Linked(t, v, u) ::
      ThinksAlive(t, n.routers[u], u, v) || ThinksAlive(t, n.routers[v], v, u)
  }

  ghost predicate AllAlive(t: Topology, n: Network)
    requires |n.routers| == |t|
  {
    forall u: nat, v: nat | Linked(t, u, v) :: ThinksAlive(t, n.routers[u], u, v)
  }

  /** Whoever is thought alive is sent the vector. */
  lemma AliveAreSentTo(t: Topology, n: Network, v: nat, u: nat)
    requires SameShape(t, n) && Linked(t, v, u) && ThinksAlive(t, n.routers[v], v, u)
    ensures VectorFor(t, n.routers, v, u) in Flight(t, n)
  {
    AnnounceAllIs(n, |t|);
    var s, i := n.routers[v], LinkTo(t, v, u);
    BroadcastReaches(s, i, |s.neighbors|);
    var d := Dispatch(s.neighbors[i].ctrlPort, Vector(s.routes, s.neighbors[i].ip));
    assert Packet(s.ctrlPort, d.port, d.entries) in Packets(s.ctrlPort, Broadcast(s));
  }

  lemma {:induction false} HearingKeepsLinks(t: Topology, rs: seq<RouterState>, flight: set<Packet>,
                                             u: nat, order: seq<nat>, k: nat)
    requires |rs| == |t| && u < |t| && k <= |order| && ValidOrder(t, u, order) && SameLinks(rs[u], t[u])
    ensures SameLinks(HearFrom(t, rs, flight, u, order, k), t[u])
  {
    hide Receive, SameLinks, VectorFor;
    if k == 0 {
    } else {
      HearingKeepsLinks(t, rs, flight, u, order, k - 1);
      ReceiveKeepsLinks(t, u, HearFrom(t, rs, flight, u, order, k - 1), VectorFor(t, rs, order[k - 1], u));
    }
  }

  lemma ReceiveKeepsLinks(t: Topology, u: nat, s: RouterState, p: Packet)
    requires u < |t| && SameLinks(s, t[u])
    ensures SameLinks(Receive(s, p.from, p.entries, 0), t[u])
  {
  }

  /** Who has been heard is thought alive, and nobody is forgotten. */
  lemma {:induction false} HearingRevives(t: Topology, rs: seq<RouterState>, flight: set<Packet>,
                                          u: nat, order: seq<nat>, k: nat, v: nat)
    requires |rs| == |t| && u < |t| && k <= |order| && ValidOrder(t, u, order) && SameLinks(rs[u], t[u])
    requires Linked(t, u, v) && Linked(t, v, u)
    ensures var s := HearFrom(t, rs, flight, u, order, k);
      && SameLinks(s, t[u])
      && (ThinksAlive(t, rs[u], u, v) || (v in order[..k] && VectorFor(t, rs, v, u) in flight) ==>
          ThinksAlive(t, s, u, v))
  {
    hide Receive, SameLinks, ThinksAlive, VectorFor;
    if k == 0 {
    } else {
      HearingRevives(t, rs, flight, u, order, k - 1, v);
      TakeOneMore(order, k);
      ReceiveRevives(t, rs, u, HearFrom(t, rs, flight, u, order, k - 1), order[k - 1], v);
    }
  }

  lemma ReceiveRevives(t: Topology, rs: seq<RouterState>, u: nat, s: RouterState, x: nat, v: nat)
    requires |rs| == |t| && Linked(t, u, x) && Linked(t, x, u) && Linked(t, u, v) && SameLinks(s, t[u])
    ensures var p := VectorFor(t, rs, x, u); var after := Receive(s, p.from, p.entries, 0);
      && SameLinks(after, t[u])
      && (ThinksAlive(t, s, u, v) || x == v ==> ThinksAlive(t, after, u, v))
  {
    hide ApplyVector;
    SameIndexByPort(s, t[u], t[x].ctrlPort);
  }

  /** One round makes both ends of a link think each other alive. */
  lemma RoundRevives(t: Topology, n: Network, orders: seq<seq<nat>>)
    requires WellConfigured(t) && SameShape(t, n) && HalfAlive(t, n) && ValidOrders(t, orders)
    ensures SameShape(t, Round(t, n, orders)) && AllAlive(t, Round(t, n, orders))
  {
    hide HearFrom, ValidOrder, VectorFor, Round;
    var m := Round(t, n, orders);
    RoundIsFold(t, n, orders);
    forall u | 0 <= u < |t| ensures SameLinks(m.routers[u], t[u]) {
      HearingKeepsLinks(t, n.routers, Flight(t, n), u, orders[u], |orders[u]|);
    }
    forall u: nat, v: nat | Linked(t, u, v) ensures ThinksAlive(t, m.routers[u], u, v) {
      HearingRevives(t, n.routers, Flight(t, n), u, orders[u], |orders[u]|, v);
      InOrder(t, u, orders[u], v);
      if !ThinksAlive(t, n.routers[u], u, v) {
        AliveAreSentTo(t, n, v, u);
      }
    }
  }

  lemma InOrder(t: Topology, u: nat, order: seq<nat>, v: nat)
    requires ValidOrder(t, u, order) && Linked(t, u, v)
    ensures v in order[..|order|]
  {
    assert order[..|order|] == order;
  }

  // ----- costs come back, the nearest routers first -----

  /** A router whose cost is right does not advertise it as unreachable to a router
      that is farther away. */
  lemma RightIsAdvertised(t: Topology, u: nat, x: nat, e: Route)
    requires WellConfigured(t) && Linked(t, u, x) && Linked(t, x, u) && Traced(t, x, e)
    ensures e.cost == Dist(t, x, e.key) < Dist(t, u, e.key) ==> Advertised(e, Via(t, x, u)).cost == e.cost
  {
    ViaIdentifies(t, x, u, u);
    if e.cost == Dist(t, x, e.key) < Dist(t, u, e.key) && e.nextHop == Via(t, x, u) {
      var v: nat :| LearnedFrom(t, x, e, v);
      ViaIdentifies(t, x, u, v);
    }
  }

  /** What `x` advertises is no cheaper than the way through it. */
  lemma NeverTooCheap(t: Topology, u: nat, x: nat, f: Route, receiver: Ip)
    requires Linked(t, u, x) && Traced(t, x, f)
    ensures Dist(t, u, f.key) <= LinkCost(t, u, x) + Advertised(f, receiver).cost
  {
    DistOverLink(t, u, x, f.key);
    if f.cost < INF_COST {
      TracedReaches(t, x, f);
      DistIsLeast(t, x, f.key, f.cost);
    }
  }

  /** What `u`'s entry becomes when it hears what `x` advertised in state `rs`. */
  function AfterHearing(t: Topology, rs: seq<RouterState>, u: nat, x: nat, e: Route): Route
    requires |rs| == |t| && Linked(t, u, x) && Linked(t, x, u)
  {
    Relax(e, Via(t, u, x), LinkCost(t, u, x), Advertised(Entry(rs[x].routes, e.key), Via(t, x, u)).cost)
  }

  /** All routers nearer than `u` have the right cost. */
  ghost predicate NearerAreRight(t: Topology, rs: seq<RouterState>, u: nat, key: Key)
    requires |rs| == |t|
  {
    forall x | x in Nearer(t, u, key) :: Entry(rs[x].routes, key).cost == Dist(t, x, key)
  }

  /** And `u` reaches the network best over its link to `y`. */
  ghost predicate BestHop(t: Topology, rs: seq<RouterState>, u: nat, y: nat, key: Key)
    requires |rs| == |t|
  {
    && NearerAreRight(t, rs, u, key) && Linked(t, u, y)
    && Dist(t, u, key) == LinkCost(t, u, y) + Dist(t, y, key) < INF_COST
  }

  /** While `u` hears advertisements made then: a cost that is right stays right. */
  lemma RightStaysRight(t: Topology, rs: seq<RouterState>, u: nat, x: nat, e: Route)
    requires WellConfigured(t) && |rs| == |t| && Linked(t, u, x) && Linked(t, x, u)
    requires Traced(t, u, e) && Traced(t, x, Entry(rs[x].routes, e.key))
    ensures NearerAreRight(t, rs, u, e.key) && e.cost == Dist(t, u, e.key) < INF_COST ==>
      AfterHearing(t, rs, u, x, e).cost == e.cost
  {
    var f := Entry(rs[x].routes, e.key);
    hide WellConfigured, Dist, Traced, Nearer, NearerAreRight, Via, Linked, LinkCost, Advertised, Reaches, Relax, Entry;
    if NearerAreRight(t, rs, u, e.key) && e.cost == Dist(t, u, e.key) < INF_COST {
      NeverTooCheap(t, u, x, f, Via(t, x, u));
      ThroughNearer(t, u, x, e);
      if e.nextHop == Via(t, u, x) {
        RightIfNearer(t, rs, u, x, e.key);
        RightIsAdvertised(t, u, x, f);
      }
      RelaxKeeps(e, Via(t, u, x), LinkCost(t, u, x), Advertised(f, Via(t, x, u)).cost);
    }
  }

  lemma RelaxKeeps(e: Route, via: Ip, w: Cost, c: Cost)
    requires e.cost <= w + c && e.cost < INF_COST && (e.nextHop == via ==> e.cost == w + c)
    ensures Relax(e, via, w, c).cost == e.cost
  {
  }

  /** If the right cost was learned from `x`, then `x` is nearer, at the right distance. */
  lemma ThroughNearer(t: Topology, u: nat, x: nat, e: Route)
    requires WellConfigured(t) && Linked(t, u, x) && Traced(t, u, e)
    ensures e.cost == Dist(t, u, e.key) < INF_COST && e.nextHop == Via(t, u, x) ==>
      e.cost == LinkCost(t, u, x) + Dist(t, x, e.key) && x in Nearer(t, u, e.key)
  {
    hide Dist, Reaches, WellConfigured;
    ViaIdentifies(t, u, x, x);
    if e.cost == Dist(t, u, e.key) < INF_COST && e.nextHop == Via(t, u, x) {
      var v: nat :| LearnedFrom(t, u, e, v);
      ViaIdentifies(t, u, x, v);
      DistIsLeast(t, x, e.key, e.cost - LinkCost(t, u, x));
      DistOverLink(t, u, x, e.key);
    }
  }

  lemma RightIfNearer(t: Topology, rs: seq<RouterState>, u: nat, x: nat, key: Key)
    requires |rs| == |t| && x in Nearer(t, u, key) && NearerAreRight(t, rs, u, key)
    ensures Dist(t, x, key) < Dist(t, u, key) && x < |t| && Entry(rs[x].routes, key).cost == Dist(t, x, key)
  {
    hide Dist;
  }

  /** Hearing the best next hop makes the cost right. */
  lemma BestMakesRight(t: Topology, rs: seq<RouterState>, u: nat, y: nat, e: Route)
    requires WellConfigured(t) && |rs| == |t| && Linked(t, u, y) && Linked(t, y, u)
    requires Traced(t, u, e) && Traced(t, y, Entry(rs[y].routes, e.key))
    ensures BestHop(t, rs, u, y, e.key) ==> AfterHearing(t, rs, u, y, e).cost == Dist(t, u, e.key)
  {
    hide Dist, Traced;
    ViaIdentifies(t, u, y, y);
    if BestHop(t, rs, u, y, e.key) {
      assert y in Nearer(t, u, e.key);
      RightIsAdvertised(t, u, y, Entry(rs[y].routes, e.key));
      NeverBelow(t, u, e);
    }
  }

  lemma NeverBelow(t: Topology, u: nat, e: Route)
    requires u < |t| && Traced(t, u, e)
    ensures Dist(t, u, e.key) <= e.cost
  {
    if e.cost < INF_COST {
      TracedReaches(t, u, e);
      DistIsLeast(t, u, e.key, e.cost);
    }
  }

  /** What hearing `x`'s announcement does to `u`'s table. */
  lemma OneHearing(t: Topology, n: Network, u: nat, x: nat, s: RouterState, key: Key)
    requires WellConfigured(t) && Recoverable(t, n) && Linked(t, u, x) && Linked(t, x, u)
    requires VectorFor(t, n.routers, x, u) in Flight(t, n)
    requires SameLinks(s, t[u]) && TracedTable(t, u, s.routes)
    ensures var p, e := VectorFor(t, n.routers, x, u), Entry(s.routes, key);
      var after := Receive(s, p.from, p.entries, 0);
      && SameLinks(after, t[u]) && TracedTable(t, u, after.routes)
      && Entry(after.routes, key) in {e, AfterHearing(t, n.routers, u, x, e)}
      && (Entry(n.routers[x].routes, key).cost < INF_COST ==>
          Entry(after.routes, key) == AfterHearing(t, n.routers, u, x, e))
  {
    hide Traced, TracedTable, ApplyVector, Fits, AfterHearing, WellConfigured;
    AnnounceAllIsRun(n, |t|);
    RunIsRecoverable(t, n, AnnounceEvents(|t|));
    InFlightIsSound(t, AnnounceAll(n, |t|), VectorFor(t, n.routers, x, u));
    TablesAreTraced(t, n, x, key);
    ReceiveTraced(t, u, s, VectorFor(t, n.routers, x, u), 0);
    ReceiveApplies(t, n.routers, u, x, s);
    TableFits(t, u, s.routes);
    TableFits(t, x, n.routers[x].routes);
    AppliedAt(t, n.routers, u, x, s.routes, key);
  }

  lemma InFlightIsSound(t: Topology, n: Network, p: Packet)
    requires Recoverable(t, n) && p in n.inFlight
    ensures PacketSound(t, p) && KeysAmong(AllKeys(t), p.entries)
  {
  }

  lemma ReceiveApplies(t: Topology, rs: seq<RouterState>, u: nat, x: nat, s: RouterState)
    requires |rs| == |t| && Linked(t, u, x) && Linked(t, x, u) && SameLinks(s, t[u])
    ensures var p := VectorFor(t, rs, x, u); var after := Receive(s, p.from, p.entries, 0);
      && SameLinks(after, t[u])
      && after.routes == ApplyVector(s.routes, Via(t, u, x), LinkCost(t, u, x), p.entries, |p.entries|)
  {
    SameIndexByPort(s, t[u], t[x].ctrlPort);
  }

  lemma AppliedAt(t: Topology, rs: seq<RouterState>, u: nat, x: nat, routes: seq<Route>, key: Key)
    requires |rs| == |t| && Linked(t, u, x) && Linked(t, x, u)
    requires Fits(AllKeys(t), routes) && Fits(AllKeys(t), rs[x].routes)
    ensures var es, e := VectorFor(t, rs, x, u).entries, Entry(routes, key);
      var after := Entry(ApplyVector(routes, Via(t, u, x), LinkCost(t, u, x), es, |es|), key);
      && after in {e, AfterHearing(t, rs, u, x, e)}
      && (Entry(rs[x].routes, key).cost < INF_COST ==> after == AfterHearing(t, rs, u, x, e))
  {
    hide Relax, Advertised, ApplyVector, Fits;
    var from := rs[x].routes;
    VectorAt(AllKeys(t), routes, Via(t, u, x), LinkCost(t, u, x), from, Via(t, x, u), |from|, key);
  }

  /** While `u` hears everybody: once it has heard its best next hop its cost is right,
      and it stays right. */
  lemma {:induction false} HearingMakesRight(t: Topology, n: Network, u: nat, order: seq<nat>, k: nat, y: nat, key: Key)
    requires |n.routers| == |t| && WellConfigured(t) && Recoverable(t, n) && AllAlive(t, n)
    requires u < |t| && k <= |order| && ValidOrder(t, u, order)
    ensures var s := HearFrom(t, n.routers, Flight(t, n), u, order, k);
      && SameLinks(s, t[u]) && TracedTable(t, u, s.routes)
      && (BestHop(t, n.routers, u, y, key) && y in order[..k] ==> Entry(s.routes, key).cost == Dist(t, u, key))
  {
    hide *;
    if k == 0 {
      TablesAreTraced(t, n, u, key);
      HearsNone(t, n.routers, Flight(t, n), u, order);
    } else {
      TakeOneMore(order, k);
      HearingMakesRight(t, n, u, order, k - 1, y, key);
      OrderIsLinked(t, u, order, k - 1);
      AllAreSentTo(t, n, order[k - 1], u);
      HearsNext(t, n.routers, Flight(t, n), u, order, k);
      OneMakesRight(t, n, u, order[k - 1], y, HearFrom(t, n.routers, Flight(t, n), u, order, k - 1), key);
    }
  }

  lemma HearsNone(t: Topology, rs: seq<RouterState>, flight: set<Packet>, u: nat, order: seq<nat>)
    requires |rs| == |t| && u < |t| && ValidOrder(t, u, order)
    ensures HearFrom(t, rs, flight, u, order, 0) == rs[u]
  {
  }

  lemma OrderIsLinked(t: Topology, u: nat, order: seq<nat>, i: nat)
    requires ValidOrder(t, u, order) && i < |order|
    ensures Linked(t, u, order[i]) && Linked(t, order[i], u)
  {
  }

  lemma HearsNext(t: Topology, rs: seq<RouterState>, flight: set<Packet>, u: nat, order: seq<nat>, k: nat)
    requires |rs| == |t| && u < |t| && 0 < k <= |order| && ValidOrder(t, u, order)
    requires Linked(t, order[k - 1], u) && VectorFor(t, rs, order[k - 1], u) in flight
    ensures var p := VectorFor(t, rs, order[k - 1], u);
      HearFrom(t, rs, flight, u, order, k) ==
        Receive(HearFrom(t, rs, flight, u, order, k - 1), p.from, p.entries, 0)
  {
  }

  lemma OneMakesRight(t: Topology, n: Network, u: nat, x: nat, y: nat, s: RouterState, key: Key)
    requires WellConfigured(t) && Recoverable(t, n) && Linked(t, u, x) && Linked(t, x, u)
    requires VectorFor(t, n.routers, x, u) in Flight(t, n)
    requires SameLinks(s, t[u]) && TracedTable(t, u, s.routes)
    ensures var p := VectorFor(t, n.routers, x, u);
      var after := Receive(s, p.from, p.entries, 0);
      && SameLinks(after, t[u]) && TracedTable(t, u, after.routes)
      && (BestHop(t, n.routers, u, y, key) && (x == y || Entry(s.routes, key).cost == Dist(t, u, key)) ==>
            Entry(after.routes, key).cost == Dist(t, u, key))
  {
    hide Traced, NearerAreRight, WellConfigured, SameLinks, Receive, AfterHearing, Dist, VectorFor;
    OneHearing(t, n, u, x, s, key);
    TablesAreTraced(t, n, x, key);
    var e := Entry(s.routes, key);
    assert Traced(t, u, e);
    if BestHop(t, n.routers, u, y, key) {
      if x == y {
        BestMakesRight(t, n.routers, u, y, e);
        BestIsFinite(t, n.routers, u, y, key);
      } else if e.cost == Dist(t, u, key) {
        RightStaysRight(t, n.routers, u, x, e);
      }
    }
  }

  lemma TablesAreTraced(t: Topology, n: Network, u: nat, key: Key)
    requires Recoverable(t, n) && u < |t|
    ensures SameLinks(n.routers[u], t[u]) && TracedTable(t, u, n.routers[u].routes)
    ensures Traced(t, u, Entry(n.routers[u].routes, key))
  {
  }

  lemma AllAreSentTo(t: Topology, n: Network, x: nat, u: nat)
    requires Recoverable(t, n) && AllAlive(t, n) && Linked(t, x, u)
    ensures VectorFor(t, n.routers, x, u) in Flight(t, n)
  {
    AliveAreSentTo(t, n, x, u);
  }

  lemma BestIsFinite(t: Topology, rs: seq<RouterState>, u: nat, y: nat, key: Key)
    requires WellConfigured(t) && |rs| == |t| && Linked(t, u, y) && NearerAreRight(t, rs, u, key)
    requires Dist(t, u, key) == LinkCost(t, u, y) + Dist(t, y, key) < INF_COST
    ensures Entry(rs[y].routes, key).cost < INF_COST
  {
    ViaIdentifies(t, u, y, y);
    assert y in Nearer(t, u, key);
  }

  /** The network after the rounds of `schedule`, from a state with all links alive. */
  ghost function RoundsFrom(t: Topology, n: Network, schedule: seq<seq<seq<nat>>>): (m: Network)
    requires WellConfigured(t) && SameShape(t, n) && AllAlive(t, n) && ValidSchedule(t, schedule)
    ensures SameShape(t, m) && AllAlive(t, m)
    ensures Recoverable(t, n) ==> Recoverable(t, m)
  {
    if schedule == [] then n
    else
      var last := |schedule| - 1;
      var before := RoundsFrom(t, n, schedule[..last]);
      AllAreHalf(t, before);
      RoundRevives(t, before, schedule[last]);
      assert Recoverable(t, n) ==> Recoverable(t, Round(t, before, schedule[last])) by {
        if Recoverable(t, n) {
          RoundIsRecoverable(t, before, schedule[last]);
        }
      }
      Round(t, before, schedule[last])
  }

  lemma AllAreHalf(t: Topology, n: Network)
    requires |n.routers| == |t| && AllAlive(t, n)
    ensures HalfAlive(t, n)
  {
  }

  /** After as many rounds as there are routers nearer, a router's cost is right. */
  lemma {:induction false} NearestFirst(t: Topology, n: Network, schedule: seq<seq<seq<nat>>>, u: nat, key: Key)
    requires WellConfigured(t) && Recoverable(t, n) && AllAlive(t, n) && ValidSchedule(t, schedule)
    requires u < |t| && |schedule| >= |Nearer(t, u, key)|
    ensures Entry(RoundsFrom(t, n, schedule).routers[u].routes, key).cost == Dist(t, u, key)
    decreases |schedule|
  {
    var m := RoundsFrom(t, n, schedule);
    if Dist(t, u, key) == INF_COST || Attached(t, u, key) {
      RightWithoutHearing(t, m, u, key);
    } else {
      var last := |schedule| - 1;
      NoneNearerThanNone(t, u, key);
      OneRoundMore(t, n, schedule);
      var before := RoundsFrom(t, n, schedule[..last]);
      hide *;
      forall x | x in Nearer(t, u, key)
        ensures x < |t| && Entry(before.routers[x].routes, key).cost == Dist(t, x, key)
      {
        NearerIsNearer(t, x, u, key);
        NearerGrows(t, x, u, key);
        NearestFirst(t, n, schedule[..last], x, key);
      }
      ThenRight(t, before.routers, u, key);
      RoundMakesRight(t, before, schedule[last], u, key);
    }
  }

  lemma NoneNearerThanNone(t: Topology, u: nat, key: Key)
    requires WellConfigured(t) && u < |t| && !Attached(t, u, key) && Dist(t, u, key) < INF_COST
    ensures |Nearer(t, u, key)| > 0
  {
    var y := FirstHop(t, u, key);
    NearerGrows(t, y, u, key);
  }

  lemma OneRoundMore(t: Topology, n: Network, schedule: seq<seq<seq<nat>>>)
    requires WellConfigured(t) && SameShape(t, n) && AllAlive(t, n) && ValidSchedule(t, schedule) && schedule != []
    ensures var last := |schedule| - 1;
      && ValidSchedule(t, schedule[..last]) && ValidOrders(t, schedule[last])
      && RoundsFrom(t, n, schedule) == Round(t, RoundsFrom(t, n, schedule[..last]), schedule[last])
  {
    hide Round, ValidOrders;
  }

  lemma RightWithoutHearing(t: Topology, m: Network, u: nat, key: Key)
    requires WellConfigured(t) && Recoverable(t, m) && |m.routers| == |t| && u < |t|
    requires Dist(t, u, key) == INF_COST || Attached(t, u, key)
    ensures Entry(m.routers[u].routes, key).cost == Dist(t, u, key)
  {
    TablesAreTraced(t, m, u, key);
    hide Recoverable, Traced, TracedTable, Dist, Attached;
    if Dist(t, u, key) == INF_COST {
      UnreachableIsRight(t, u, Entry(m.routers[u].routes, key));
    } else {
      AttachedIsRight(t, u, Entry(m.routers[u].routes, key));
    }
  }

  /** One round, once all nearer routers are right. */
  lemma RoundMakesRight(t: Topology, n: Network, orders: seq<seq<nat>>, u: nat, key: Key)
    requires WellConfigured(t) && SameShape(t, n) && Recoverable(t, n) && AllAlive(t, n) && ValidOrders(t, orders)
    requires u < |t| && !Attached(t, u, key) && Dist(t, u, key) < INF_COST && NearerAreRight(t, n.routers, u, key)
    ensures |Round(t, n, orders).routers| == |t|
    ensures Entry(Round(t, n, orders).routers[u].routes, key).cost == Dist(t, u, key)
  {
    var y := FirstHop(t, u, key);
    assert BestHop(t, n.routers, u, y, key);
    hide Round, Attached, Dist, NearerAreRight, BestHop, Recoverable, HearFrom, ValidOrder, AllAlive, WellConfigured;
    RoundIsFold(t, n, orders);
    HearingAllMakesRight(t, n, u, orders[u], y, key);
  }

  lemma HearingAllMakesRight(t: Topology, n: Network, u: nat, order: seq<nat>, y: nat, key: Key)
    requires |n.routers| == |t| && WellConfigured(t) && Recoverable(t, n) && AllAlive(t, n)
    requires u < |t| && ValidOrder(t, u, order) && Linked(t, u, y) && BestHop(t, n.routers, u, y, key)
    ensures var s := HearFrom(t, n.routers, Flight(t, n), u, order, |order|);
      Entry(s.routes, key).cost == Dist(t, u, key)
  {
    hide *;
    HearingMakesRight(t, n, u, order, |order|, y, key);
    InOrder(t, u, order, y);
  }

  lemma UnreachableIsRight(t: Topology, u: nat, e: Route)
    requires u < |t| && Traced(t, u, e) && Dist(t, u, e.key) == INF_COST
    ensures e.cost == INF_COST
  {
    if e.cost < INF_COST {
      TracedReaches(t, u, e);
      DistIsLeast(t, u, e.key, e.cost);
    }
  }

  lemma AttachedIsRight(t: Topology, u: nat, e: Route)
    requires Traced(t, u, e) && Attached(t, u, e.key)
    ensures e.cost == Dist(t, u, e.key)
  {
    DistAttached(t, u, e.key);
  }

  lemma NearerIsNearer(t: Topology, x: nat, u: nat, key: Key)
    requires x in Nearer(t, u, key)
    ensures x < |t| && Dist(t, x, key) < Dist(t, u, key)
  {
  }

  lemma ThenRight(t: Topology, rs: seq<RouterState>, u: nat, key: Key)
    requires |rs| == |t|
    requires forall x | x in Nearer(t, u, key) :: Entry(rs[x].routes, key).cost == Dist(t, x, key)
    ensures NearerAreRight(t, rs, u, key)
  {
  }

  /** After any run whatever, if every link is then thought alive at one end at least,
      one round brings the links back, and as many more as there are routers less one
      bring every table to the shortest costs. */
  lemma RecoversAfterAnyRun(t: Topology, es: seq<Event>, first: seq<seq<nat>>, schedule: seq<seq<seq<nat>>>, u: nat,
                            key: Key)
    requires WellConfigured(t) && ValidOrders(t, first) && ValidSchedule(t, schedule)
    requires |Run(Network(t, {}), es).routers| == |t| && HalfAlive(t, Run(Network(t, {}), es))
    requires u < |t| && |schedule| >= |t| - 1
    ensures var revived := Round(t, Run(Network(t, {}), es), first);
      && Recoverable(t, revived) && AllAlive(t, revived)
      && var c := Entry(RoundsFrom(t, revived, schedule).routers[u].routes, key).cost;
         && (forall w | WalkTo(t, u, key, w) :: c <= WalkCost(t, w))
         && (c < INF_COST ==> Reaches(t, u, key, c))
  {
    hide Round, Step, Recoverable, HalfAlive, AllAlive, WellConfigured;
    var n := Run(Network(t, {}), es);
    EveryRunIsRecoverable(t, es);
    RecoverableIsSound(t, n);
    RoundIsRecoverable(t, n, first);
    RoundRevives(t, n, first);
    NearerIsFew(t, u, key);
    NearestFirst(t, Round(t, n, first), schedule, u, key);
    forall w | WalkTo(t, u, key, w) ensures Dist(t, u, key) <= WalkCost(t, w) {
      DistIsLeast(t, u, key, WalkCost(t, w));
    }
  }

  lemma RecoverableIsSound(t: Topology, n: Network)
    requires Recoverable(t, n)
    ensures Sound(t, n)
  {
  }
}
