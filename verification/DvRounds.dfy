/** Convergence without failures.  In a round every router announces its vectors
    and then hears its neighbours' announcements, in any order and any number of
    times.  A round is made of the network's own steps. */
module DvRounds {
  import opened Common
  import opened RoutingTable
  import opened RouterNode
  import opened TableVectors
  import opened Walks
  import opened DvNetwork

  // ----- the configured network -----

  ghost predicate LinksOk(ns: seq<Neighbor>) {
    && (forall i | 0 <= i < |ns| :: ns[i].ip != NO_HOP && ns[i].cost > 0 && ns[i].alive)
    && (forall i, j | 0 <= i < j < |ns| :: ns[i].ip != ns[j].ip && ns[i].ctrlPort != ns[j].ctrlPort)
  }

  predicate PortsDiffer(t: Topology, u: nat, v: nat)
    requires u < |t| && v < |t|
  {
    t[u].ctrlPort != t[v].ctrlPort
  }

  function AllKeys(t: Topology): set<Key> {
    set u, r | 0 <= u < |t| && r in t[u].routes :: r.key
  }

  /** Distinct addresses and ports, positive link costs, links listed at both
      ends, connected routes only, and no more destinations than a table holds. */
  ghost predicate WellConfigured(t: Topology) {
    && ColdStart(t)
    && (forall u, v | 0 <= u < v < |t| :: PortsDiffer(t, u, v))
    && (forall u | 0 <= u < |t| :: LinksOk(t[u].neighbors) && UniqueKeys(t[u].routes))
    && (forall u, v | Linked(t, u, v) :: Linked(t, v, u))
    && |AllKeys(t)| <= MAX_DEST
  }

  /** The address by which `u` knows `v`. */
  function Via(t: Topology, u: nat, v: nat): Ip
    requires Linked(t, u, v)
  {
    t[u].neighbors[LinkTo(t, u, v)].ip
  }

  lemma ViaIdentifies(t: Topology, u: nat, v: nat, v': nat)
    requires WellConfigured(t) && Linked(t, u, v) && Linked(t, u, v')
    ensures LinkCost(t, u, v) > 0 && Via(t, u, v) != NO_HOP
    ensures Via(t, u, v) == Via(t, u, v') ==> v == v'
  {
    assert LinksOk(t[u].neighbors);
    assert v < v' ==> PortsDiffer(t, v, v');
    assert v' < v ==> PortsDiffer(t, v', v);
  }

  // ----- rounds -----

  /** What `v` announces to `u` when the routers are `rs`. */
  function VectorFor(t: Topology, rs: seq<RouterState>, v: nat, u: nat): Packet
    requires |rs| == |t| && Linked(t, v, u)
  {
    Packet(t[v].ctrlPort, t[u].ctrlPort, Vector(rs[v].routes, Via(t, v, u)))
  }

  /** Each router hears every neighbour at least once. */
  ghost predicate ValidOrder(t: Topology, u: nat, order: seq<nat>) {
    && (forall i | 0 <= i < |order| :: Linked(t, u, order[i]) && Linked(t, order[i], u))
    && (forall v: nat | Linked(t, u, v) :: v in order)
  }

  ghost predicate ValidOrders(t: Topology, orders: seq<seq<nat>>) {
    |orders| == |t| && forall u | 0 <= u < |t| :: ValidOrder(t, u, orders[u])
  }

  function AnnounceAll(n: Network, k: nat): Network {
    if k == 0 then n else Step(AnnounceAll(n, k - 1), Announce(k - 1))
  }

  /** Router `u` hears the first `k` announcements of its order. */
  ghost function HearSome(t: Topology, rs: seq<RouterState>, n: Network, u: nat, order: seq<nat>, k: nat): Network
    requires |rs| == |t| && k <= |order| && ValidOrder(t, u, order)
  {
    if k == 0 then n
    else Step(HearSome(t, rs, n, u, order, k - 1), Hear(u, VectorFor(t, rs, order[k - 1], u), 0))
  }

  ghost function HearAll(t: Topology, rs: seq<RouterState>, n: Network, orders: seq<seq<nat>>, k: nat): Network
    requires |rs| == |t| && k <= |t| && ValidOrders(t, orders)
  {
    if k == 0 then n
    else HearSome(t, rs, HearAll(t, rs, n, orders, k - 1), k - 1, orders[k - 1], |orders[k - 1]|)
  }

  ghost function Round(t: Topology, n: Network, orders: seq<seq<nat>>): Network
    requires |n.routers| == |t| && ValidOrders(t, orders)
  {
    HearAll(t, n.routers, AnnounceAll(n, |t|), orders, |t|)
  }

  ghost predicate ValidSchedule(t: Topology, schedule: seq<seq<seq<nat>>>) {
    forall i | 0 <= i < |schedule| :: ValidOrders(t, schedule[i])
  }

  /** The network after the rounds of `schedule`, from a cold start. */
  ghost function Rounds(t: Topology, schedule: seq<seq<seq<nat>>>): (n: Network)
    requires WellConfigured(t) && ValidSchedule(t, schedule)
    ensures Good(t, n)
  {
    if schedule == [] then
      StartIsGood(t);
      Network(t, {})
    else
      var last := |schedule| - 1;
      RoundKeepsGood(t, Rounds(t, schedule[..last]), schedule[last]);
      Round(t, Rounds(t, schedule[..last]), schedule[last])
  }

  // ----- what every round keeps -----

  /** Router `u`, in state `s`, thinks `v` alive. */
  predicate ThinksAlive(t: Topology, s: RouterState, u: nat, v: nat)
    requires Linked(t, u, v)
  {
    LinkTo(t, u, v) < |s.neighbors| && s.neighbors[LinkTo(t, u, v)].alive
  }

  /** The links are as configured, every neighbour is thought alive, and the table fits. */
  ghost predicate Healthy(t: Topology, u: nat, s: RouterState) {
    && u < |t| && SameLinks(s, t[u]) && Fits(AllKeys(t), s.routes)
    && forall v: nat | Linked(t, u, v) :: ThinksAlive(t, s, u, v)
  }

  /** A finite cost is 0 without a next hop, and otherwise covers the link to the
      next hop plus the next hop's own cost. */
  ghost predicate Feasible(t: Topology, rs: seq<RouterState>, u: nat, e: Route)
    requires |rs| == |t| && u < |t|
  {
    e.cost < INF_COST ==>
      if e.nextHop == NO_HOP then e.cost == 0 && Attached(t, u, e.key)
      else exists v: nat :: CoveredBy(t, rs, u, e, v)
  }

  /** Router `v` is the next hop of `e`, and `e` costs at least the way through it. */
  ghost predicate CoveredBy(t: Topology, rs: seq<RouterState>, u: nat, e: Route, v: nat)
    requires |rs| == |t|
  {
    && Linked(t, u, v)
    && e.nextHop == Via(t, u, v)
    && e.cost >= LinkCost(t, u, v) + Entry(rs[v].routes, e.key).cost
  }

  ghost predicate FeasibleAt(t: Topology, rs: seq<RouterState>, u: nat, key: Key)
    requires |rs| == |t| && u < |t|
  {
    Feasible(t, rs, u, Entry(rs[u].routes, key))
  }

  ghost predicate Good(t: Topology, n: Network) {
    && |n.routers| == |t|
    && (forall u | 0 <= u < |t| :: Healthy(t, u, n.routers[u]))
    && (forall u, key | 0 <= u < |t| :: FeasibleAt(t, n.routers, u, key))
  }

  lemma StartIsGood(t: Topology)
    requires WellConfigured(t)
    ensures Good(t, Network(t, {}))
  {
    forall u | 0 <= u < |t| ensures Healthy(t, u, t[u]) {
      assert LinksOk(t[u].neighbors);
    }
    forall u, key | 0 <= u < |t| ensures FeasibleAt(t, t, u, key) {
      assert Healthy(t, u, t[u]);
    }
  }

  // ----- one announcement, one destination -----

  /** The way through `v` costs no less than `e`. */
  ghost predicate Beats(t: Topology, rs: seq<RouterState>, u: nat, e: Route, v: nat)
    requires |rs| == |t|
  {
    Linked(t, u, v) ==> e.cost <= LinkCost(t, u, v) + Entry(rs[v].routes, e.key).cost
  }

  /** Where `u` stands on one destination when the announcements it hears were
      made in state `rs`. */
  ghost predicate Settling(t: Topology, rs: seq<RouterState>, u: nat, e: Route)
    requires |rs| == |t| && u < |t|
  {
    e.cost <= Entry(rs[u].routes, e.key).cost && Feasible(t, rs, u, e)
  }

  /** If the next hop of a reachable `e` is `v`, the way through `v` is covered. */
  lemma NextHopCovers(t: Topology, rs: seq<RouterState>, u: nat, e: Route, v: nat)
    requires WellConfigured(t) && |rs| == |t| && Linked(t, u, v)
    requires Feasible(t, rs, u, e) && e.cost < INF_COST && e.nextHop == Via(t, u, v)
    ensures e.cost >= LinkCost(t, u, v) + Entry(rs[v].routes, e.key).cost
  {
    ViaIdentifies(t, u, v, v);
    var x: nat :| CoveredBy(t, rs, u, e, x);
    ViaIdentifies(t, u, v, x);
  }

  /** Hearing `v` once more.  The cost cannot rise: the only vector that could
      raise it is poisoned by, or dearer than, the current next hop, and positive
      links rule that out. */
  lemma RelaxSettles(t: Topology, rs: seq<RouterState>, u: nat, v: nat, e: Route)
    requires WellConfigured(t) && |rs| == |t| && Linked(t, u, v) && Linked(t, v, u)
    requires Settling(t, rs, u, e) && FeasibleAt(t, rs, v, e.key)
    ensures var after := Relax(e, Via(t, u, v), LinkCost(t, u, v),
        Advertised(Entry(rs[v].routes, e.key), Via(t, v, u)).cost);
      after.cost <= e.cost && Settling(t, rs, u, after) && Beats(t, rs, u, after, v)
  {
    var f := Entry(rs[v].routes, e.key);
    ViaIdentifies(t, u, v, v);
    ViaIdentifies(t, v, u, u);
    if e.cost < INF_COST && e.nextHop == Via(t, u, v) {
      NextHopCovers(t, rs, u, e, v);
    }
    if f.cost < INF_COST && f.nextHop == Via(t, v, u) {
      NextHopCovers(t, rs, v, f, u);
    }
    var after := Relax(e, Via(t, u, v), LinkCost(t, u, v), Advertised(f, Via(t, v, u)).cost);
    if after != e {
      assert CoveredBy(t, rs, u, after, v);
    }
  }

  /** Hearing `v` does not spoil what was gained from hearing `x`. */
  ghost predicate Progress(t: Topology, rs: seq<RouterState>, u: nat, routes: seq<Route>, heard: seq<nat>, key: Key)
    requires |rs| == |t| && u < |t|
  {
    && Settling(t, rs, u, Entry(routes, key))
    && forall i | 0 <= i < |heard| :: Beats(t, rs, u, Entry(routes, key), heard[i])
  }

  lemma VectorKeepsProgress(t: Topology, n: Network, u: nat, v: nat, routes: seq<Route>, heard: seq<nat>, key: Key)
    requires WellConfigured(t) && Good(t, n) && Linked(t, u, v) && Linked(t, v, u) && Fits(AllKeys(t), routes)
    requires Progress(t, n.routers, u, routes, heard, key)
    ensures var es := VectorFor(t, n.routers, v, u).entries;
      Progress(t, n.routers, u, ApplyVector(routes, Via(t, u, v), LinkCost(t, u, v), es, |es|), heard + [v], key)
  {
    hide WellConfigured, Settling, Advertised, Relax, Fits;
    var from := n.routers[v].routes;
    assert Healthy(t, v, n.routers[v]);
    VectorAt(AllKeys(t), routes, Via(t, u, v), LinkCost(t, u, v), from, Via(t, v, u), |from|, key);
    RelaxSettles(t, n.routers, u, v, Entry(routes, key));
  }

  // ----- one router's round -----

  lemma {:induction false} AnnounceAllIs(n: Network, k: nat)
    requires k <= |n.routers|
    ensures var m := AnnounceAll(n, k);
      && m.routers == n.routers
      && forall u | 0 <= u < k :: Packets(n.routers[u].ctrlPort, Broadcast(n.routers[u])) <= m.inFlight
  {
    if k == 0 {
    } else {
      AnnounceAllIs(n, k - 1);
    }
  }

  /** Everything the routers announced in state `rs` is in flight. */
  ghost predicate Announced(t: Topology, rs: seq<RouterState>, flight: set<Packet>)
    requires |rs| == |t|
  {
    forall v: nat, u: nat | Linked(t, v, u) :: VectorFor(t, rs, v, u) in flight
  }

  lemma AnnouncementsAreInFlight(t: Topology, n: Network)
    requires Good(t, n)
    ensures AnnounceAll(n, |t|).routers == n.routers && Announced(t, n.routers, AnnounceAll(n, |t|).inFlight)
  {
    AnnounceAllIs(n, |t|);
    forall v: nat, u: nat | Linked(t, v, u) ensures VectorFor(t, n.routers, v, u) in AnnounceAll(n, |t|).inFlight {
      var s := n.routers[v];
      assert Healthy(t, v, s);
      var i := LinkTo(t, v, u);
      BroadcastReaches(s, i, |s.neighbors|);
      var d := Dispatch(s.neighbors[i].ctrlPort, Vector(s.routes, s.neighbors[i].ip));
      assert Packet(s.ctrlPort, d.port, d.entries) in Packets(s.ctrlPort, Broadcast(s));
    }
  }

  /** What receiving `v`'s announcement does to `u`. */
  lemma ReceiveIs(t: Topology, n: Network, u: nat, v: nat, s: RouterState)
    requires WellConfigured(t) && Good(t, n) && Linked(t, u, v) && Linked(t, v, u) && Healthy(t, u, s)
    ensures var p := VectorFor(t, n.routers, v, u);
      var after := Receive(s, p.from, p.entries, 0);
      && after.routes == ApplyVector(s.routes, Via(t, u, v), LinkCost(t, u, v), p.entries, |p.entries|)
      && Healthy(t, u, after)
  {
    SameIndexByPort(s, t[u], t[v].ctrlPort);
    assert Healthy(t, v, n.routers[v]);
    var from := n.routers[v].routes;
    VectorKeepsFit(AllKeys(t), s.routes, Via(t, u, v), LinkCost(t, u, v), from, Via(t, v, u), |from|);
  }

  /** Router `u` of state `m` has heard `heard`, and nobody else has moved. */
  ghost predicate Heard(t: Topology, n: Network, start: Network, m: Network, u: nat, heard: seq<nat>)
    requires |n.routers| == |t| && |start.routers| == |t| && u < |t|
  {
    && |m.routers| == |t| && m.inFlight == start.inFlight
    && (forall x | 0 <= x < |t| && x != u :: m.routers[x] == start.routers[x])
    && Healthy(t, u, m.routers[u])
    && forall key :: Progress(t, n.routers, u, m.routers[u].routes, heard, key)
  }

  lemma HeardNobody(t: Topology, n: Network, start: Network, u: nat)
    requires Good(t, n) && |start.routers| == |t| && u < |t| && start.routers[u] == n.routers[u]
    ensures Heard(t, n, start, start, u, [])
  {
    assert Healthy(t, u, n.routers[u]);
    forall key ensures Progress(t, n.routers, u, start.routers[u].routes, [], key) {
      assert FeasibleAt(t, n.routers, u, key);
    }
  }

  lemma HearOne(t: Topology, n: Network, start: Network, m: Network, u: nat, heard: seq<nat>, v: nat)
    requires WellConfigured(t) && Good(t, n) && |start.routers| == |t| && Linked(t, u, v) && Linked(t, v, u)
    requires Announced(t, n.routers, start.inFlight)
    requires Heard(t, n, start, m, u, heard)
    ensures Heard(t, n, start, Step(m, Hear(u, VectorFor(t, n.routers, v, u), 0)), u, heard + [v])
  {
    var p := VectorFor(t, n.routers, v, u);
    var s := m.routers[u];
    ReceiveIs(t, n, u, v, s);
    var after := Step(m, Hear(u, p, 0));
    assert after.routers == m.routers[u := Receive(s, p.from, p.entries, 0)];
    forall key ensures Progress(t, n.routers, u, after.routers[u].routes, heard + [v], key) {
      VectorKeepsProgress(t, n, u, v, s.routes, heard, key);
    }
  }

  lemma {:induction false} HearSomeIs(t: Topology, n: Network, start: Network, u: nat, order: seq<nat>, k: nat)
    requires WellConfigured(t) && Good(t, n) && |n.routers| == |start.routers| == |t|
    requires u < |t| && k <= |order| && ValidOrder(t, u, order)
    requires Announced(t, n.routers, start.inFlight) && start.routers[u] == n.routers[u]
    ensures Heard(t, n, start, HearSome(t, n.routers, start, u, order, k), u, order[..k])
  {
    hide Step, Good, WellConfigured, Announced, Heard;
    if k == 0 {
      HeardNobody(t, n, start, u);
      assert order[..0] == [];
    } else {
      var before, v := HearSome(t, n.routers, start, u, order, k - 1), order[k - 1];
      TakeOneMore(order, k);
      HearSomeIs(t, n, start, u, order, k - 1);
      HearOne(t, n, start, before, u, order[..k - 1], v);
    }
  }

  /** On `key` router `u` is no dearer than in state `rs`, nor than the way
      through any neighbour was then. */
  ghost predicate SettledAt(t: Topology, rs: seq<RouterState>, u: nat, s: RouterState, key: Key)
    requires |rs| == |t| && u < |t|
  {
    && Settling(t, rs, u, Entry(s.routes, key))
    && forall v: nat | Linked(t, u, v) :: Beats(t, rs, u, Entry(s.routes, key), v)
  }

  /** Router `u` has done its part of the round that began in state `rs`. */
  ghost predicate Done(t: Topology, rs: seq<RouterState>, u: nat, s: RouterState)
    requires |rs| == |t|
  {
    Healthy(t, u, s) && forall key :: SettledAt(t, rs, u, s, key)
  }

  lemma HeardEverybody(t: Topology, n: Network, start: Network, m: Network, u: nat, order: seq<nat>)
    requires |n.routers| == |t| && |start.routers| == |t| && u < |t|
    requires ValidOrder(t, u, order) && Heard(t, n, start, m, u, order)
    ensures Done(t, n.routers, u, m.routers[u])
  {
    forall key ensures SettledAt(t, n.routers, u, m.routers[u], key) {
      assert Progress(t, n.routers, u, m.routers[u].routes, order, key);
      forall v: nat | Linked(t, u, v) ensures Beats(t, n.routers, u, Entry(m.routers[u].routes, key), v) {
        var i :| 0 <= i < |order| && order[i] == v;
        assert Beats(t, n.routers, u, Entry(m.routers[u].routes, key), order[i]);
      }
    }
  }

  lemma {:induction false} HearAllIs(t: Topology, n: Network, start: Network, orders: seq<seq<nat>>, k: nat)
    requires WellConfigured(t) && Good(t, n) && ValidOrders(t, orders) && k <= |t| == |n.routers|
    requires start.routers == n.routers && Announced(t, n.routers, start.inFlight)
    ensures var m := HearAll(t, n.routers, start, orders, k);
      && |m.routers| == |t| && m.inFlight == start.inFlight
      && (forall u | 0 <= u < k :: Done(t, n.routers, u, m.routers[u]))
      && (forall u | k <= u < |t| :: m.routers[u] == n.routers[u])
  {
    hide Done, Good, WellConfigured, Announced, Healthy, ValidOrder, Feasible;
    if k == 0 {
    } else {
      HearAllIs(t, n, start, orders, k - 1);
      var u, order := k - 1, orders[k - 1];
      var before := HearAll(t, n.routers, start, orders, k - 1);
      HearSomeIs(t, n, before, u, order, |order|);
      assert order[..|order|] == order;
      HeardEverybody(t, n, before, HearAll(t, n.routers, start, orders, k), u, order);
    }
  }

  /** One round: no cost rises, and each is at most any neighbour's previous cost
      plus the link to it. */
  lemma RoundIs(t: Topology, n: Network, orders: seq<seq<nat>>)
    requires WellConfigured(t) && Good(t, n) && ValidOrders(t, orders)
    ensures var m := Round(t, n, orders);
      |m.routers| == |t| && forall u | 0 <= u < |t| :: Done(t, n.routers, u, m.routers[u])
  {
    AnnouncementsAreInFlight(t, n);
    HearAllIs(t, n, AnnounceAll(n, |t|), orders, |t|);
  }

  lemma StaysFeasible(t: Topology, rs: seq<RouterState>, rs': seq<RouterState>, u: nat, e: Route)
    requires |rs| == |t| == |rs'| && u < |t|
    requires forall v | 0 <= v < |t| :: Done(t, rs, v, rs'[v])
    requires Feasible(t, rs, u, e)
    ensures Feasible(t, rs', u, e)
  {
    if e.cost < INF_COST && e.nextHop != NO_HOP {
      var v: nat :| CoveredBy(t, rs, u, e, v);
      assert Done(t, rs, v, rs'[v]);
      assert SettledAt(t, rs, v, rs'[v], e.key);
      assert CoveredBy(t, rs', u, e, v);
    }
  }

  lemma RoundKeepsGood(t: Topology, n: Network, orders: seq<seq<nat>>)
    requires WellConfigured(t) && Good(t, n) && ValidOrders(t, orders)
    ensures Good(t, Round(t, n, orders))
  {
    RoundIs(t, n, orders);
    var m := Round(t, n, orders);
    forall u, key | 0 <= u < |t| ensures FeasibleAt(t, m.routers, u, key) {
      assert Done(t, n.routers, u, m.routers[u]);
      assert SettledAt(t, n.routers, u, m.routers[u], key);
      StaysFeasible(t, n.routers, m.routers, u, Entry(m.routers[u].routes, key));
    }
  }

  /** After any number of rounds a reachable route costs at least the link to its
      next hop plus what the next hop's own route costs. */
  lemma CostCoversNextHop(t: Topology, schedule: seq<seq<seq<nat>>>, u: nat, v: nat, key: Key)
    requires WellConfigured(t) && ValidSchedule(t, schedule) && Linked(t, u, v)
    ensures var rs := Rounds(t, schedule).routers; var e := Entry(rs[u].routes, key);
      e.cost < INF_COST && e.nextHop == Via(t, u, v) ==> e.cost >= LinkCost(t, u, v) + Entry(rs[v].routes, key).cost
  {
    var rs := Rounds(t, schedule).routers;
    var e := Entry(rs[u].routes, key);
    assert FeasibleAt(t, rs, u, key);
    if e.cost < INF_COST && e.nextHop == Via(t, u, v) {
      NextHopCovers(t, rs, u, e, v);
    }
  }

  // ----- a round is a run -----

  function AnnounceEvents(k: nat): seq<Event> {
    if k == 0 then [] else AnnounceEvents(k - 1) + [Announce(k - 1)]
  }

  lemma {:induction false} AnnounceAllIsRun(n: Network, k: nat)
    ensures NoFailures(AnnounceEvents(k)) && AnnounceAll(n, k) == Run(n, AnnounceEvents(k))
  {
    if k == 0 {
    } else {
      hide Step, Run;
      AnnounceAllIsRun(n, k - 1);
      RunOneMore(n, AnnounceEvents(k - 1), Announce(k - 1));
    }
  }

  /** What router `u` hears, in its order. */
  ghost function HearEvents(t: Topology, rs: seq<RouterState>, u: nat, order: seq<nat>, k: nat): seq<Event>
    requires |rs| == |t| && k <= |order| && ValidOrder(t, u, order)
  {
    if k == 0 then [] else HearEvents(t, rs, u, order, k - 1) + [Hear(u, VectorFor(t, rs, order[k - 1], u), 0)]
  }

  lemma {:induction false} HearSomeIsRun(t: Topology, rs: seq<RouterState>, n: Network, u: nat, order: seq<nat>, k: nat)
    requires |rs| == |t| && k <= |order| && ValidOrder(t, u, order)
    ensures var es := HearEvents(t, rs, u, order, k);
      NoFailures(es) && HearSome(t, rs, n, u, order, k) == Run(n, es)
  {
    hide Step, VectorFor;
    if k == 0 {
    } else {
      HearSomeIsRun(t, rs, n, u, order, k - 1);
      RunOneMore(n, HearEvents(t, rs, u, order, k - 1), Hear(u, VectorFor(t, rs, order[k - 1], u), 0));
    }
  }

  ghost function HearAllEvents(t: Topology, rs: seq<RouterState>, orders: seq<seq<nat>>, k: nat): seq<Event>
    requires |rs| == |t| && k <= |t| && ValidOrders(t, orders)
  {
    if k == 0 then []
    else HearAllEvents(t, rs, orders, k - 1) + HearEvents(t, rs, k - 1, orders[k - 1], |orders[k - 1]|)
  }

  lemma {:induction false} HearAllIsRun(t: Topology, rs: seq<RouterState>, n: Network, orders: seq<seq<nat>>, k: nat)
    requires |rs| == |t| && k <= |t| && ValidOrders(t, orders)
    ensures var es := HearAllEvents(t, rs, orders, k);
      NoFailures(es) && HearAll(t, rs, n, orders, k) == Run(n, es)
  {
    hide HearSome, HearEvents, ValidOrder;
    if k == 0 {
    } else {
      HearAllIsRun(t, rs, n, orders, k - 1);
      HearSomeIsRun(t, rs, HearAll(t, rs, n, orders, k - 1), k - 1, orders[k - 1], |orders[k - 1]|);
      RunSplit(n, HearAllEvents(t, rs, orders, k - 1), HearEvents(t, rs, k - 1, orders[k - 1], |orders[k - 1]|));
    }
  }

  ghost function RoundEvents(t: Topology, rs: seq<RouterState>, orders: seq<seq<nat>>): seq<Event>
    requires |rs| == |t| && ValidOrders(t, orders)
  {
    AnnounceEvents(|t|) + HearAllEvents(t, rs, orders, |t|)
  }

  lemma RoundIsRun(t: Topology, n: Network, orders: seq<seq<nat>>)
    requires |n.routers| == |t| && ValidOrders(t, orders)
    ensures var es := RoundEvents(t, n.routers, orders);
      NoFailures(es) && Round(t, n, orders) == Run(n, es)
  {
    AnnounceAllIsRun(n, |t|);
    HearAllIsRun(t, n.routers, AnnounceAll(n, |t|), orders, |t|);
    RunSplit(n, AnnounceEvents(|t|), HearAllEvents(t, n.routers, orders, |t|));
  }

  lemma {:induction false} RoundsAreSound(t: Topology, schedule: seq<seq<seq<nat>>>)
    requires WellConfigured(t) && ValidSchedule(t, schedule)
    ensures Sound(t, Rounds(t, schedule))
  {
    if schedule == [] {
      EveryRunIsSound(t, []);
    } else {
      var last := |schedule| - 1;
      var n := Rounds(t, schedule[..last]);
      RoundsAreSound(t, schedule[..last]);
      RoundIsRun(t, n, schedule[last]);
      RunIsSound(t, n, RoundEvents(t, n.routers, schedule[last]));
    }
  }

  // ----- convergence -----

  lemma AttachedIsFree(t: Topology, u: nat, key: Key)
    requires WellConfigured(t) && Attached(t, u, key)
    ensures Entry(t[u].routes, key).cost == 0
  {
    var i :| 0 <= i < |t[u].routes| && t[u].routes[i].key == key;
    IndexOfIs(t[u].routes, key, i);
  }

  /** What the last round did for `u` on `key`. */
  lemma LastRound(t: Topology, schedule: seq<seq<seq<nat>>>, u: nat, key: Key)
    requires WellConfigured(t) && ValidSchedule(t, schedule) && schedule != [] && u < |t|
    ensures var rs := Rounds(t, schedule[..|schedule| - 1]).routers;
      SettledAt(t, rs, u, Rounds(t, schedule).routers[u], key)
  {
    var last := |schedule| - 1;
    RoundIs(t, Rounds(t, schedule[..last]), schedule[last]);
    assert Done(t, Rounds(t, schedule[..last]).routers, u, Rounds(t, schedule).routers[u]);
  }

  lemma NoWorse(t: Topology, rs: seq<RouterState>, u: nat, after: RouterState, key: Key)
    requires |rs| == |t| && u < |t| && SettledAt(t, rs, u, after, key)
    ensures Entry(after.routes, key).cost <= Entry(rs[u].routes, key).cost
  {
  }

  lemma OneHopMore(t: Topology, rs: seq<RouterState>, u: nat, after: RouterState, key: Key, v: nat)
    requires |rs| == |t| && Linked(t, u, v) && SettledAt(t, rs, u, after, key)
    ensures Entry(after.routes, key).cost <= LinkCost(t, u, v) + Entry(rs[v].routes, key).cost
  {
    assert Beats(t, rs, u, Entry(after.routes, key), v);
  }

  /** After k rounds every cost is at most that of any walk of at most k hops. */
  lemma {:induction false} RoundsBeatShortWalks(t: Topology, schedule: seq<seq<seq<nat>>>, u: nat, key: Key,
                                                w: seq<nat>)
    requires WellConfigured(t) && ValidSchedule(t, schedule)
    requires WalkTo(t, u, key, w) && |w| - 1 <= |schedule|
    ensures Entry(Rounds(t, schedule).routers[u].routes, key).cost <= WalkCost(t, w)
  {
    hide SettledAt, WellConfigured, ValidOrders, Healthy, FeasibleAt, Round;
    if schedule == [] {
      AttachedIsFree(t, u, key);
    } else {
      var before := schedule[..|schedule| - 1];
      LastRound(t, schedule, u, key);
      if |w| == 1 {
        RoundsBeatShortWalks(t, before, u, key, w);
        NoWorse(t, Rounds(t, before).routers, u, Rounds(t, schedule).routers[u], key);
      } else {
        TailWalk(t, w);
        RoundsBeatShortWalks(t, before, w[1], key, w[1..]);
        OneHopMore(t, Rounds(t, before).routers, u, Rounds(t, schedule).routers[u], key, w[1]);
      }
    }
  }

  /** Convergence: after as many rounds as there are routers less one, and ever
      after, each cost is the cheapest walk's, or INF_COST if no walk is cheaper. */
  lemma Converges(t: Topology, schedule: seq<seq<seq<nat>>>, u: nat, key: Key)
    requires WellConfigured(t) && ValidSchedule(t, schedule)
    requires u < |t| && |schedule| >= |t| - 1
    ensures var c := Entry(Rounds(t, schedule).routers[u].routes, key).cost;
      && (forall w | WalkTo(t, u, key, w) :: c <= WalkCost(t, w))
      && (c < INF_COST ==> Reaches(t, u, key, c))
  {
    forall w | WalkTo(t, u, key, w)
      ensures Entry(Rounds(t, schedule).routers[u].routes, key).cost <= WalkCost(t, w)
    {
      var w' := ShortWalkSuffices(t, u, key, w);
      RoundsBeatShortWalks(t, schedule, u, key, w');
    }
    RoundsAreSound(t, schedule);
  }
}
