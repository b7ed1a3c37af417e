/** After links are lost for good.  The network as the survivors see it is a network of
    its own, in which nobody is dead but tables are stale; it comes right again, to the
    shortest costs over the links that are left. */
module DvSurvivors {
  import opened RoutingTable
  import opened RouterNode
  import opened TableVectors
  import opened Walks
  import opened DvNetwork
  import opened DvRounds
  import opened ShortestCosts
  import opened DvTrace
  import opened DvRecovery
  import opened DvSilence
  import opened DvStale
  import opened DvListed
  import RouterInvariant

  // ----- the neighbours that are left -----

  function Live(ns: seq<Neighbor>): seq<Neighbor> {
    if ns == [] then [] else Live(ns[..|ns| - 1]) + if ns[|ns| - 1].alive then [ns[|ns| - 1]] else []
  }

  ghost predicate DistinctPorts(ns: seq<Neighbor>) {
    forall i, j | 0 <= i < j < |ns| :: ns[i].ctrlPort != ns[j].ctrlPort
  }

  lemma {:induction false} LiveAre(ns: seq<Neighbor>)
    ensures forall nb :: nb in Live(ns) <==> nb in ns && nb.alive
  {
    if ns == [] {
    } else {
      LiveAre(ns[..|ns| - 1]);
      assert ns == ns[..|ns| - 1] + [ns[|ns| - 1]];
    }
  }

  lemma {:induction false} LiveAreDistinct(ns: seq<Neighbor>)
    requires forall i, j | 0 <= i < j < |ns| :: ns[i].ip != ns[j].ip && ns[i].ctrlPort != ns[j].ctrlPort
    ensures forall i, j | 0 <= i < j < |Live(ns)| ::
      Live(ns)[i].ip != Live(ns)[j].ip && Live(ns)[i].ctrlPort != Live(ns)[j].ctrlPort
  {
    if ns == [] {
    } else {
      LiveAreDistinct(ns[..|ns| - 1]);
      LiveAre(ns[..|ns| - 1]);
    }
  }

  /** A neighbour is found by its port if it was found alive. */
  lemma LiveByPort(ns: seq<Neighbor>, port: Port)
    requires DistinctPorts(ns)
    ensures var i, k := NeighborByPort(ns, port), NeighborByPort(Live(ns), port);
      && (k < |Live(ns)| <==> i < |ns| && ns[i].alive)
      && (k < |Live(ns)| ==> Live(ns)[k] == ns[i])
  {
    LiveAre(ns);
    var i, k := NeighborByPort(ns, port), NeighborByPort(Live(ns), port);
    hide Live;
    if k < |Live(ns)| {
      assert Live(ns)[k] in ns;
      var j :| 0 <= j < |ns| && ns[j] == Live(ns)[k];
      assert j == i;
    }
    assert i < |ns| && ns[i].alive ==> ns[i] in Live(ns);
  }

  lemma {:induction false} LiveUpdate(ns: seq<Neighbor>, i: nat, nb: Neighbor)
    requires DistinctPorts(ns) && i < |ns| && ns[i].alive && nb.alive && nb.ctrlPort == ns[i].ctrlPort
    ensures var k := NeighborByPort(Live(ns), nb.ctrlPort);
      k < |Live(ns)| && Live(ns[i := nb]) == Live(ns)[k := nb]
  {
    var last := |ns| - 1;
    LiveByPort(ns, nb.ctrlPort);
    FirstPort(ns, nb.ctrlPort, i);
    var k := NeighborByPort(Live(ns), nb.ctrlPort);
    if i == last {
      assert ns[i := nb][..last] == ns[..last];
      LiveAre(ns[..last]);
      FirstPort(Live(ns), nb.ctrlPort, |Live(ns[..last])|);
    } else {
      assert ns[i := nb][..last] == ns[..last][i := nb];
      LiveUpdate(ns[..last], i, nb);
      FirstPort(Live(ns), nb.ctrlPort, NeighborByPort(Live(ns[..last]), nb.ctrlPort));
    }
  }

  // ----- the network that is left -----

  function Shrunk(s: RouterState): RouterState { s.(neighbors := Live(s.neighbors)) }

  /** The network without the neighbours thought dead. */
  function Seen(n: Network): (m: Network)
    ensures |m.routers| == |n.routers| && m.inFlight == n.inFlight
    ensures forall u | 0 <= u < |n.routers| :: m.routers[u] == Shrunk(n.routers[u])
  {
    Network(seq(|n.routers|, u requires 0 <= u < |n.routers| => Shrunk(n.routers[u])), n.inFlight)
  }

  /** The links that are left, and the networks attached as configured. */
  function Survivors(t: Topology, n: Network): (t': Topology)
    requires |n.routers| == |t|
    ensures |t'| == |t| && forall u | 0 <= u < |t| :: t'[u] == Shrunk(n.routers[u]).(routes := t[u].routes)
  {
    seq(|t|, u requires 0 <= u < |t| => Shrunk(n.routers[u]).(routes := t[u].routes))
  }

  /** Every link is thought alive at both ends, or silent. */
  ghost predicate Settled(t: Topology, n: Network) {
    && Sound(t, n)
    && forall u: nat, v: nat | Linked(t, u, v) && Linked(t, v, u) :: Silent(t, n, u, v) || Mutual(t, n, u, v)
  }

  lemma PortsAreDistinct(t: Topology, n: Network, u: nat)
    requires WellConfigured(t) && Sound(t, n) && u < |t|
    ensures DistinctPorts(n.routers[u].neighbors)
  {
    assert LinksOk(t[u].neighbors);
  }

  // ----- what the survivors see is what happens -----

  lemma {:induction false} BroadcastIsSame(s: RouterState, n: nat)
    requires n <= |s.neighbors|
    ensures BroadcastTo(s, n) == BroadcastTo(s.(neighbors := Live(s.neighbors[..n])), |Live(s.neighbors[..n])|)
  {
    if n == 0 {
    } else {
      BroadcastIsSame(s, n - 1);
      var ns, nb := s.neighbors[..n - 1], s.neighbors[n - 1];
      assert s.neighbors[..n][..n - 1] == ns && s.neighbors[..n][n - 1] == nb;
      var live := Live(ns);
      if nb.alive {
        assert Live(s.neighbors[..n]) == live + [nb];
        assert (live + [nb])[..|live|] == live[..|live|];
        SamePrefixBroadcast(s.(neighbors := live), s.(neighbors := live + [nb]), |live|);
      } else {
        assert Live(s.neighbors[..n]) == live;
      }
    }
  }

  lemma {:induction false} SamePrefixBroadcast(s: RouterState, s': RouterState, n: nat)
    requires n <= |s.neighbors| && n <= |s'.neighbors| && s.neighbors[..n] == s'.neighbors[..n] && s.routes == s'.routes
    ensures BroadcastTo(s, n) == BroadcastTo(s', n)
  {
    if n == 0 {
    } else {
      assert s.neighbors[n - 1] == s.neighbors[..n][n - 1] == s'.neighbors[..n][n - 1];
      assert s.neighbors[..n - 1] == s.neighbors[..n][..n - 1] == s'.neighbors[..n][..n - 1] == s'.neighbors[..n - 1];
      SamePrefixBroadcast(s, s', n - 1);
    }
  }

  lemma AnnouncesSame(s: RouterState)
    ensures Broadcast(s) == Broadcast(Shrunk(s))
  {
    BroadcastIsSame(s, |s.neighbors|);
    assert s.neighbors[..|s.neighbors|] == s.neighbors;
  }

  /** A vector from nobody, or from a neighbour thought alive, does the same. */
  lemma ReceivesSame(s: RouterState, from: Port, es: seq<DvEntry>, now: int)
    requires DistinctPorts(s.neighbors)
    requires var i := NeighborByPort(s.neighbors, from); i < |s.neighbors| ==> s.neighbors[i].alive
    ensures Shrunk(Receive(s, from, es, now)) == Receive(Shrunk(s), from, es, now)
  {
    hide ApplyVector, Live;
    LiveByPort(s.neighbors, from);
    var i := NeighborByPort(s.neighbors, from);
    if i < |s.neighbors| {
      LiveUpdate(s.neighbors, i, s.neighbors[i].(lastHeard := now, alive := true));
    }
  }

  /** Nothing in flight comes from a neighbour thought dead. */
  lemma FromTheLiving(t: Topology, n: Network, u: nat, p: Packet)
    requires WellConfigured(t) && Settled(t, n) && u < |t| && p in n.inFlight && p.to == t[u].ctrlPort
    ensures var s := n.routers[u]; var i := NeighborByPort(s.neighbors, p.from);
      i < |s.neighbors| ==> s.neighbors[i].alive
  {
    var s := n.routers[u];
    assert PacketSound(t, p) && SameLinks(s, t[u]);
    var v :| 0 <= v < |t| && t[v].ctrlPort == p.from && EntriesSound(t, v, p.entries);
    SameIndexByPort(s, t[u], p.from);
    if Linked(t, u, v) {
      assert Linked(t, v, u);
      if Silent(t, n, u, v) {
        assert Between(t, p, v, u);
      }
    }
  }

  lemma StepIsSeen(t: Topology, n: Network, e: Event)
    requires WellConfigured(t) && Settled(t, n) && !e.Check?
    ensures Seen(Step(n, e)) == Step(Seen(n), e)
  {
    assert |n.routers| == |t|;
    if e.u < |t| {
      var s := n.routers[e.u];
      assert SameLinks(s, t[e.u]);
      match e
      case Announce(u) =>
        AnnouncesSame(s);
      case Hear(u, p, now) =>
        if p in n.inFlight && p.to == s.ctrlPort {
          FromTheLiving(t, n, u, p);
          PortsAreDistinct(t, n, u);
          ReceivesSame(s, p.from, p.entries, now);
        }
      case Lose(_, _) =>
    }
  }

  lemma StepStaysSettled(t: Topology, n: Network, e: Event)
    requires WellConfigured(t) && Settled(t, n) && !e.Check?
    ensures Settled(t, Step(n, e))
  {
    StepIsSound(t, n, e);
    StepForgetsNobody(t, n, e);
    SizeIs(t, n);
    var m := Step(n, e);
    hide Sound, Step, Mutual, Silent, NobodyForgotten, WellConfigured;
    forall u: nat, v: nat | Linked(t, u, v) && Linked(t, v, u) ensures Silent(t, m, u, v) || Mutual(t, m, u, v) {
      if Silent(t, n, u, v) {
        StepStaysSilent(t, n, e, u, v);
      } else {
        StaysMutual(t, n, m, u, v);
      }
    }
  }

  /** Without timeouts the survivors' network runs by itself. */
  lemma {:induction false} RunIsSeen(t: Topology, n: Network, es: seq<Event>)
    requires WellConfigured(t) && Settled(t, n) && NoTimeouts(es)
    ensures Settled(t, Run(n, es)) && Seen(Run(n, es)) == Run(Seen(n), es)
  {
    hide WellConfigured, Settled, Step, Seen;
    if es == [] {
    } else {
      var before, last := es[..|es| - 1], es[|es| - 1];
      RunIsSeen(t, n, before);
      StepIsSeen(t, Run(n, before), last);
      StepStaysSettled(t, Run(n, before), last);
    }
  }

  // ----- what the survivors see is a network of its own -----

  lemma LinkedIffAlive(t: Topology, n: Network, u: nat, v: nat)
    requires WellConfigured(t) && Sound(t, n)
    ensures var t' := Survivors(t, n);
      && (Linked(t', u, v) <==> Linked(t, u, v) && ThinksAlive(t, n.routers[u], u, v))
      && (Linked(t', u, v) ==> Via(t', u, v) == Via(t, u, v) && t'[u].neighbors[LinkTo(t', u, v)].alive)
  {
    if u < |t| && v < |t| {
      PortsAreDistinct(t, n, u);
      LiveByPort(n.routers[u].neighbors, t[v].ctrlPort);
      SameIndexByPort(n.routers[u], t[u], t[v].ctrlPort);
    }
  }

  lemma LinksAreOk(t: Topology, n: Network, u: nat)
    requires WellConfigured(t) && Sound(t, n) && u < |t|
    ensures LinksOk(Survivors(t, n)[u].neighbors)
  {
    var ns := n.routers[u].neighbors;
    assert SameLinks(n.routers[u], t[u]) && LinksOk(t[u].neighbors);
    LiveAreDistinct(ns);
    LiveAre(ns);
    hide Live;
    forall i | 0 <= i < |Live(ns)| ensures Live(ns)[i].ip != NO_HOP && Live(ns)[i].cost > 0 && Live(ns)[i].alive {
      assert Live(ns)[i] in ns;
    }
  }

  lemma SurvivorsAreConfigured(t: Topology, n: Network)
    requires WellConfigured(t) && Settled(t, n)
    ensures WellConfigured(Survivors(t, n)) && AllKeys(Survivors(t, n)) == AllKeys(t)
  {
    var t' := Survivors(t, n);
    forall u | 0 <= u < |t'| ensures LinksOk(t'[u].neighbors) && UniqueKeys(t'[u].routes) {
      LinksAreOk(t, n, u);
    }
    forall u, v | 0 <= u < v < |t'| ensures PortsDiffer(t', u, v) {
      assert PortsDiffer(t, u, v) && SameLinks(n.routers[u], t[u]) && SameLinks(n.routers[v], t[v]);
    }
    forall u, v | Linked(t', u, v) ensures Linked(t', v, u) {
      LinkedIffAlive(t, n, u, v);
      LinkedIffAlive(t, n, v, u);
    }
    assert AllKeys(t') == AllKeys(t);
  }

  lemma SurvivorsAreAlive(t: Topology, n: Network)
    requires WellConfigured(t) && Sound(t, n)
    ensures SameShape(Survivors(t, n), Seen(n)) && AllAlive(Survivors(t, n), Seen(n))
  {
    var t' := Survivors(t, n);
    forall u: nat, v: nat | Linked(t', u, v) ensures ThinksAlive(t', Seen(n).routers[u], u, v) {
      LinkedIffAlive(t, n, u, v);
    }
  }

  /** Whatever has happened before, the survivors' tables are at worst stale. */
  lemma SurvivorsAreStale(t: Topology, n: Network)
    requires WellConfigured(t) && Recoverable(t, n) && Listed(t, n) && HopsAlive(n) && Settled(t, n)
    ensures Stale(Survivors(t, n), Seen(n))
  {
    SurvivorsAreAlive(t, n);
    SurvivorsAreConfigured(t, n);
    var t', rs := Survivors(t, n), Seen(n).routers;
    hide WellConfigured, Settled, Listed, HopsAlive, Recoverable, Fits, SameShape;
    forall u | 0 <= u < |t| ensures StaleAt(t', rs, u) {
      TablesAreTraced(t, n, u, Key(0, 0));
      TableFits(t, u, n.routers[u].routes);
      forall key ensures StaleEntry(t', rs, u, Entry(rs[u].routes, key)) {
        EntryIsStale(t, n, u, key);
      }
    }
  }

  lemma EntryIsStale(t: Topology, n: Network, u: nat, key: Key)
    requires WellConfigured(t) && Recoverable(t, n) && Listed(t, n) && HopsAlive(n) && |n.routers| == |t| && u < |t|
    ensures StaleEntry(Survivors(t, n), Seen(n).routers, u, Entry(n.routers[u].routes, key))
  {
    hide *;
    TablesAreTraced(t, n, u, key);
    SameAttached(t, n, u, key);
    TracedIsStale(t, n, u, key);
  }

  lemma SameAttached(t: Topology, n: Network, u: nat, key: Key)
    requires |n.routers| == |t|
    ensures Attached(Survivors(t, n), u, key) <==> Attached(t, u, key)
  {
  }

  lemma TracedIsStale(t: Topology, n: Network, u: nat, key: Key)
    requires WellConfigured(t) && Recoverable(t, n) && Listed(t, n) && HopsAlive(n) && |n.routers| == |t| && u < |t|
    requires Attached(Survivors(t, n), u, key) <==> Attached(t, u, key)
    requires Traced(t, u, Entry(n.routers[u].routes, key))
    ensures StaleEntry(Survivors(t, n), Seen(n).routers, u, Entry(n.routers[u].routes, key))
  {
    hide Attached, Recoverable, WellConfigured, Listed, HopsAlive, Survivors, Seen, Reaches, Entry, KeysOf;
    var e := Entry(n.routers[u].routes, key);
    if e.cost < INF_COST && e.nextHop != NO_HOP {
      var v: nat :| LearnedFrom(t, u, e, v);
      HopListsStill(t, n, u, v, key);
    }
  }

  lemma HopListsStill(t: Topology, n: Network, u: nat, v: nat, key: Key)
    requires WellConfigured(t) && Recoverable(t, n) && Listed(t, n) && HopsAlive(n)
    requires Linked(t, u, v) && GoesThrough(t, u, Entry(n.routers[u].routes, key), v)
    ensures HopLists(Survivors(t, n), Seen(n).routers, u, Entry(n.routers[u].routes, key), v)
  {
    hide Entry, KeysOf;
    HopIsAlive(t, n, u, v, key);
    LinkedIffAlive(t, n, u, v);
  }

  lemma HopIsAlive(t: Topology, n: Network, u: nat, v: nat, key: Key)
    requires Sound(t, n) && HopsAlive(n) && Linked(t, u, v) && GoesThrough(t, u, Entry(n.routers[u].routes, key), v)
    ensures ThinksAlive(t, n.routers[u], u, v)
  {
    var s := n.routers[u];
    assert SameLinks(s, t[u]) && RouterInvariant.Inv(s);
    assert RouterInvariant.RouteOk(s.neighbors, s.routes[IndexOf(s.routes, key)]);
    assert s.neighbors[LinkTo(t, u, v)].ip == Via(t, u, v);
  }

  // ----- and comes right -----

  /** The events of the rounds of `schedule`. */
  ghost function ScheduleEvents(t: Topology, n: Network, schedule: seq<seq<seq<nat>>>): seq<Event>
    requires WellConfigured(t) && SameShape(t, n) && AllAlive(t, n) && ValidSchedule(t, schedule)
  {
    if schedule == [] then []
    else
      var last := |schedule| - 1;
      ScheduleEvents(t, n, schedule[..last]) +
      RoundEvents(t, RoundsFrom(t, n, schedule[..last]).routers, schedule[last])
  }

  lemma {:induction false} RoundsAreRun(t: Topology, n: Network, schedule: seq<seq<seq<nat>>>)
    requires WellConfigured(t) && SameShape(t, n) && AllAlive(t, n) && ValidSchedule(t, schedule)
    ensures var es := ScheduleEvents(t, n, schedule);
      NoFailures(es) && RoundsFrom(t, n, schedule) == Run(n, es)
  {
    hide Round, RoundEvents, AllAlive, WellConfigured, ValidOrders;
    if schedule == [] {
    } else {
      var last := |schedule| - 1;
      var before := RoundsFrom(t, n, schedule[..last]);
      RoundsAreRun(t, n, schedule[..last]);
      RoundIsRun(t, before, schedule[last]);
      RunSplit(n, ScheduleEvents(t, n, schedule[..last]), RoundEvents(t, before.routers, schedule[last]));
    }
  }

  /** If every link is alive at both ends or silent for ever, rounds over the links that
      are left bring every cost to the shortest over those links: stale costs rise until
      they are unreachable, and then the true ones spread. */
  lemma RecoversWithoutTheLost(t: Topology, n: Network, a: seq<seq<seq<nat>>>, b: seq<seq<seq<nat>>>, u: nat, key: Key)
    requires WellConfigured(t) && Recoverable(t, n) && Listed(t, n) && HopsAlive(n) && Settled(t, n)
    requires |n.routers| == |t| && ValidSchedule(Survivors(t, n), a) && ValidSchedule(Survivors(t, n), b)
    requires |a| >= INF_COST && |b| >= |t| - 1 && u < |t|
    ensures var t' := Survivors(t, n);
      && WellConfigured(t') && SameShape(t', Seen(n)) && AllAlive(t', Seen(n)) && ValidSchedule(t', a + b)
      && var m := Run(n, ScheduleEvents(t', Seen(n), a + b));
         && |m.routers| == |t|
         && var c := Entry(m.routers[u].routes, key).cost;
            && (forall w | WalkTo(t', u, key, w) :: c <= WalkCost(t', w))
            && (c < INF_COST ==> Reaches(t', u, key, c))
  {
    var t' := Survivors(t, n);
    SettledIsSound(t, n);
    SurvivorsAreConfigured(t, n);
    SurvivorsAreAlive(t, n);
    SurvivorsAreStale(t, n);
    StaleTablesComeRight(t', Seen(n), a, b, u, key);
    RoundsAreRun(t', Seen(n), a + b);
    var more := ScheduleEvents(t', Seen(n), a + b);
    RunIsSeen(t, n, more);
    SettledIsSound(t, Run(n, more));
    SizeIs(t, Run(n, more));
    hide WellConfigured, Run, RoundsFrom, Settled, Live, Dist, Stale, AllAlive;
    forall w | WalkTo(t', u, key, w) ensures Dist(t', u, key) <= WalkCost(t', w) {
      DistIsLeast(t', u, key, WalkCost(t', w));
    }
  }

  /** So it is after any run that has lost what is in flight over the links it has lost. */
  lemma RecoversAfterLosses(t: Topology, es: seq<Event>, a: seq<seq<seq<nat>>>, b: seq<seq<seq<nat>>>, u: nat, key: Key)
    requires WellConfigured(t) && Settled(t, Run(Network(t, {}), es)) && |Run(Network(t, {}), es).routers| == |t|
    requires var t' := Survivors(t, Run(Network(t, {}), es)); ValidSchedule(t', a) && ValidSchedule(t', b)
    requires |a| >= INF_COST && |b| >= |t| - 1 && u < |t|
    ensures var n := Run(Network(t, {}), es); var t' := Survivors(t, n);
      && WellConfigured(t') && SameShape(t', Seen(n)) && AllAlive(t', Seen(n)) && ValidSchedule(t', a + b)
      && var m := Run(n, ScheduleEvents(t', Seen(n), a + b));
         && |m.routers| == |t|
         && var c := Entry(m.routers[u].routes, key).cost;
            && (forall w | WalkTo(t', u, key, w) :: c <= WalkCost(t', w))
            && (c < INF_COST ==> Reaches(t', u, key, c))
  {
    hide *;
    EveryRunIsRecoverable(t, es);
    EveryRunIsListed(t, es);
    RecoversWithoutTheLost(t, Run(Network(t, {}), es), a, b, u, key);
  }

  lemma SettledIsSound(t: Topology, n: Network)
    requires Settled(t, n)
    ensures Sound(t, n)
  {
  }

  /** And every state can get there: links that are not silent come back. */
  lemma CanSettle(t: Topology, n: Network) returns (es: seq<Event>)
    requires WellConfigured(t) && Sound(t, n) && |n.routers| == |t|
    ensures NoFailures(es) && Settled(t, Run(n, es))
  {
    hide WellConfigured, Run, Linked, Sound, Silent, Mutual;
    var links := set l | l in Links(t) && Linked(t, l.0, l.1) && Linked(t, l.1, l.0) && !Silent(t, n, l.0, l.1);
    es := AllComeBack(t, n, links);
    LinksAre(t);
    RunIsSound(t, n, es);
    var m := Run(n, es);
    SizeIs(t, m);
    forall u: nat, v: nat | Linked(t, u, v) && Linked(t, v, u) ensures Silent(t, m, u, v) || Mutual(t, m, u, v) {
      if Silent(t, n, u, v) {
        NeverHeardAgain(t, n, es, u, v);
      } else {
        assert (u, v) in links;
      }
    }
  }
}
