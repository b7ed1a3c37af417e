/** A network of routers joined by a channel that may lose, duplicate, delay and
    reorder vectors.  Whatever happens, a finite cost is the cost of a real walk. */
module DvNetwork {
  import opened RoutingTable
  import opened RouterNode
  import opened Walks

  /** A vector in flight, between control ports. */
  datatype Packet = Packet(from: Port, to: Port, entries: seq<DvEntry>)

  /** A packet stays in `inFlight` until it is lost, so it may be received late,
      repeatedly, out of order or not at all. */
  datatype Network = Network(routers: seq<RouterState>, inFlight: set<Packet>)

  datatype Event =
    | Announce(u: nat)
    | Check(u: nat, now: int)
    | Hear(u: nat, p: Packet, now: int)
    | Lose(u: nat, p: Packet)

  function Packets(from: Port, sent: seq<Dispatch>): set<Packet> {
    set d | d in sent :: Packet(from, d.port, d.entries)
  }

  /** One step of the network; an event that is not possible changes nothing. */
  function Step(n: Network, e: Event): Network {
    if e.u >= |n.routers| then n
    else
      var s := n.routers[e.u];
      match e
      case Announce(u) => n.(inFlight := n.inFlight + Packets(s.ctrlPort, Broadcast(s)))
      case Check(u, now) =>
        var o := Timeouts(s, now);
        Network(n.routers[u := o.state], n.inFlight + Packets(s.ctrlPort, o.sent))
      case Hear(u, p, now) =>
        if p in n.inFlight && p.to == s.ctrlPort
        then n.(routers := n.routers[u := Receive(s, p.from, p.entries, now)])
        else n
      case Lose(u, p) => if p.to == s.ctrlPort then n.(inFlight := n.inFlight - {p}) else n
  }

  function Run(n: Network, es: seq<Event>): Network {
    if es == [] then n else Step(Run(n, es[..|es| - 1]), es[|es| - 1])
  }

  lemma {:induction false} RunSplit(n: Network, a: seq<Event>, b: seq<Event>)
    ensures Run(n, a + b) == Run(Run(n, a), b)
    decreases |b|
  {
    if b == [] {
      assert a + b == a;
    } else {
      RunSplit(n, a, b[..|b| - 1]);
      assert (a + b)[..|a + b| - 1] == a + b[..|b| - 1];
    }
  }

  predicate NoTimeouts(es: seq<Event>) { forall i | 0 <= i < |es| :: !es[i].Check? }

  /** Neither timeouts nor losses. */
  predicate NoFailures(es: seq<Event>) { NoTimeouts(es) && forall i | 0 <= i < |es| :: !es[i].Lose? }

  lemma RunOneMore(n: Network, es: seq<Event>, e: Event)
    ensures Run(n, es + [e]) == Step(Run(n, es), e)
  {
    assert (es + [e])[..|es|] == es;
  }

  // ----- soundness -----

  /** A cold start: every configured route is a connected one. */
  ghost predicate ColdStart(t: Topology) {
    forall u, i | 0 <= u < |t| && 0 <= i < |t[u].routes| ::
      t[u].routes[i].cost == 0 && t[u].routes[i].nextHop == NO_HOP
  }

  /** Only the liveness of neighbours and the table change. */
  ghost predicate SameLinks(s: RouterState, s0: RouterState) {
    && s.selfIp == s0.selfIp && s.ctrlPort == s0.ctrlPort && |s.neighbors| == |s0.neighbors|
    && forall i | 0 <= i < |s.neighbors| ::
         var nb, nb0 := s.neighbors[i], s0.neighbors[i];
         nb.ip == nb0.ip && nb.ctrlPort == nb0.ctrlPort && nb.cost == nb0.cost
  }

  /** The routers and their links are those configured. */
  ghost predicate SameShape(t: Topology, n: Network) {
    |n.routers| == |t| && forall u | 0 <= u < |t| :: SameLinks(n.routers[u], t[u])
  }

  ghost predicate TableSound(t: Topology, u: nat, routes: seq<Route>) {
    forall i | 0 <= i < |routes| && routes[i].cost < INF_COST :: Reaches(t, u, routes[i].key, routes[i].cost)
  }

  ghost predicate EntriesSound(t: Topology, v: nat, es: seq<DvEntry>) {
    forall i | 0 <= i < |es| && es[i].cost < INF_COST :: Reaches(t, v, es[i].key, es[i].cost)
  }

  ghost predicate PacketSound(t: Topology, p: Packet) {
    exists v | 0 <= v < |t| :: t[v].ctrlPort == p.from && EntriesSound(t, v, p.entries)
  }

  /** Every finite cost, in a table or in flight, is the cost of a real walk. */
  ghost predicate Sound(t: Topology, n: Network) {
    && |n.routers| == |t|
    && (forall u | 0 <= u < |t| :: SameLinks(n.routers[u], t[u]) && TableSound(t, u, n.routers[u].routes))
    && (forall p | p in n.inFlight :: PacketSound(t, p))
  }

  lemma SameIndexByPort(s: RouterState, s0: RouterState, port: Port)
    requires SameLinks(s, s0)
    ensures NeighborByPort(s.neighbors, port) == NeighborByPort(s0.neighbors, port)
  {
    FirstPort(s0.neighbors, port, NeighborByPort(s.neighbors, port));
  }

  lemma EntryIsSound(t: Topology, u: nat, v: nat, routes: seq<Route>, e: DvEntry)
    requires Linked(t, u, v) && TableSound(t, u, routes)
    requires e.cost < INF_COST ==> Reaches(t, v, e.key, e.cost)
    ensures var nb := t[u].neighbors[LinkTo(t, u, v)];
      TableSound(t, u, ApplyEntry(routes, nb.ip, nb.cost, e))
  {
    if e.cost < INF_COST {
      ReachesOverLink(t, u, v, e.key, e.cost);
    }
    assert TableSound(t, u, FindOrAdd(routes, e.key));
  }

  lemma {:induction false} ReceiveIsSound(t: Topology, u: nat, v: nat, routes: seq<Route>, es: seq<DvEntry>, n: nat)
    requires Linked(t, u, v) && TableSound(t, u, routes) && EntriesSound(t, v, es) && n <= |es|
    ensures var nb := t[u].neighbors[LinkTo(t, u, v)];
      TableSound(t, u, ApplyVector(routes, nb.ip, nb.cost, es, n))
  {
    hide TableSound, Reaches, ApplyEntry;
    if n == 0 {
    } else {
      ReceiveIsSound(t, u, v, routes, es, n - 1);
      var nb := t[u].neighbors[LinkTo(t, u, v)];
      EntryIsSound(t, u, v, ApplyVector(routes, nb.ip, nb.cost, es, n - 1), es[n - 1]);
    }
  }

  lemma {:induction false} BroadcastIsSound(t: Topology, u: nat, s: RouterState, n: nat)
    requires u < |t| && s.ctrlPort == t[u].ctrlPort && TableSound(t, u, s.routes) && n <= |s.neighbors|
    ensures forall p | p in Packets(s.ctrlPort, BroadcastTo(s, n)) :: PacketSound(t, p)
  {
    if n == 0 {
    } else {
      BroadcastIsSound(t, u, s, n - 1);
      var d := Dispatch(s.neighbors[n - 1].ctrlPort, Vector(s.routes, s.neighbors[n - 1].ip));
      assert EntriesSound(t, u, d.entries);
      forall p | p in Packets(s.ctrlPort, BroadcastTo(s, n)) ensures PacketSound(t, p) {
        var x :| x in BroadcastTo(s, n) && p == Packet(s.ctrlPort, x.port, x.entries);
        if x in BroadcastTo(s, n - 1) {
          assert p in Packets(s.ctrlPort, BroadcastTo(s, n - 1));
        } else {
          assert x == d;
        }
      }
    }
  }

  lemma {:induction false} TimeoutsAreSound(t: Topology, u: nat, s: RouterState, n: nat, now: int)
    requires u < |t| && SameLinks(s, t[u]) && TableSound(t, u, s.routes) && n <= |s.neighbors|
    ensures var o := TimeoutsOf(s, n, now);
      && SameLinks(o.state, t[u]) && TableSound(t, u, o.state.routes)
      && forall p | p in Packets(s.ctrlPort, o.sent) :: PacketSound(t, p)
  {
    hide TimeoutOf, TableSound, PacketSound, Packets;
    NoPackets(s.ctrlPort);
    if n == 0 {
    } else {
      TimeoutsAreSound(t, u, s, n - 1, now);
      var before := TimeoutsOf(s, n - 1, now);
      OneTimeoutIsSound(t, u, before.state, n - 1, now);
      PacketsOfBoth(s.ctrlPort, before.sent, TimeoutOf(before.state, n - 1, now).sent);
    }
  }

  lemma OneTimeoutIsSound(t: Topology, u: nat, s: RouterState, i: nat, now: int)
    requires u < |t| && SameLinks(s, t[u]) && TableSound(t, u, s.routes) && i < |s.neighbors|
    ensures var o := TimeoutOf(s, i, now);
      && SameLinks(o.state, t[u]) && TableSound(t, u, o.state.routes)
      && forall p | p in Packets(s.ctrlPort, o.sent) :: PacketSound(t, p)
  {
    var after := TimeoutOf(s, i, now).state;
    BroadcastIsSound(t, u, after, |after.neighbors|);
  }

  lemma NoPackets(from: Port)
    ensures Packets(from, []) == {}
  {
  }

  lemma PacketsOfBoth(from: Port, a: seq<Dispatch>, b: seq<Dispatch>)
    ensures Packets(from, a + b) == Packets(from, a) + Packets(from, b)
  {
  }

  lemma HearingIsSound(t: Topology, u: nat, s: RouterState, p: Packet, now: int)
    requires u < |t| && SameLinks(s, t[u]) && TableSound(t, u, s.routes) && PacketSound(t, p)
    ensures var after := Receive(s, p.from, p.entries, now);
      SameLinks(after, t[u]) && TableSound(t, u, after.routes)
  {
    var v :| 0 <= v < |t| && t[v].ctrlPort == p.from && EntriesSound(t, v, p.entries);
    SameIndexByPort(s, t[u], p.from);
    if Linked(t, u, v) {
      ReceiveIsSound(t, u, v, s.routes, p.entries, |p.entries|);
    }
  }

  lemma UpdateIsSound(t: Topology, n: Network, u: nat, s: RouterState, more: set<Packet>)
    requires Sound(t, n) && u < |t| && SameLinks(s, t[u]) && TableSound(t, u, s.routes)
    requires forall p | p in more :: PacketSound(t, p)
    ensures Sound(t, Network(n.routers[u := s], n.inFlight + more))
  {
  }

  lemma StepIsSound(t: Topology, n: Network, e: Event)
    requires Sound(t, n)
    ensures Sound(t, Step(n, e))
  {
    if e.u < |n.routers| {
      var s := n.routers[e.u];
      match e
      case Announce(u) =>
        BroadcastIsSound(t, u, s, |s.neighbors|);
        UpdateIsSound(t, n, u, s, Packets(s.ctrlPort, Broadcast(s)));
        assert n.routers[u := s] == n.routers;
      case Check(u, now) =>
        TimeoutsAreSound(t, u, s, |s.neighbors|, now);
        UpdateIsSound(t, n, u, Timeouts(s, now).state, Packets(s.ctrlPort, Timeouts(s, now).sent));
      case Hear(u, p, now) =>
        if p in n.inFlight && p.to == s.ctrlPort {
          HearingIsSound(t, u, s, p, now);
          UpdateIsSound(t, n, u, Receive(s, p.from, p.entries, now), {});
          assert n.inFlight + {} == n.inFlight;
        }
      case Lose(_, _) =>
    }
  }

  lemma {:induction false} RunIsSound(t: Topology, n: Network, es: seq<Event>)
    requires Sound(t, n)
    ensures Sound(t, Run(n, es))
  {
    hide Sound, Step;
    if es == [] {
    } else {
      RunIsSound(t, n, es[..|es| - 1]);
      StepIsSound(t, Run(n, es[..|es| - 1]), es[|es| - 1]);
    }
  }

  /** From a cold start, after any events whatever, every finite cost in a table
      or in flight is the exact cost of a walk to a router attached to the
      destination. */
  lemma EveryRunIsSound(t: Topology, es: seq<Event>)
    requires ColdStart(t)
    ensures Sound(t, Run(Network(t, {}), es))
  {
    forall u, i | 0 <= u < |t| && 0 <= i < |t[u].routes| ensures Reaches(t, u, t[u].routes[i].key, 0) {
      assert WalkTo(t, u, t[u].routes[i].key, [u]) && WalkCost(t, [u]) == 0;
    }
    RunIsSound(t, Network(t, {}), es);
  }

  /** Hence no router ever believes in a route cheaper than the cheapest walk. */
  lemma NeverBelowShortest(t: Topology, es: seq<Event>, u: nat, key: Key, d: nat)
    requires ColdStart(t) && u < |t| && d <= INF_COST
    requires forall w | WalkTo(t, u, key, w) :: d <= WalkCost(t, w)
    ensures |Run(Network(t, {}), es).routers| == |t| && d <= Entry(Run(Network(t, {}), es).routers[u].routes, key).cost
  {
    EveryRunIsSound(t, es);
  }
}
