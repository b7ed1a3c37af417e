/** What every run keeps about next hops: a reachable route goes through a neighbour
    thought alive, whose own table lists the network, as tables only ever grow. */
module DvListed {
  import opened RoutingTable
  import opened RouterNode
  import opened TableVectors
  import opened Walks
  import opened DvNetwork
  import opened DvRounds
  import opened DvTrace
  import opened DvStale
  import RouterInvariant

  /** `u`'s route to `key`, if it is reachable and goes through `v`. */
  predicate GoesThrough(t: Topology, u: nat, e: Route, v: nat)
    requires Linked(t, u, v)
  {
    LeadsTo(e, Via(t, u, v))
  }

  ghost predicate HopsList(t: Topology, rs: seq<RouterState>)
    requires |rs| == |t|
  {
    forall u: nat, v: nat, key | Linked(t, u, v) && GoesThrough(t, u, Entry(rs[u].routes, key), v) ::
      key in KeysOf(rs[v].routes)
  }

  /** What a vector in flight mentions, its sender's table lists. */
  ghost predicate SenderLists(t: Topology, rs: seq<RouterState>, p: Packet)
    requires |rs| == |t|
  {
    forall v | 0 <= v < |t| && t[v].ctrlPort == p.from :: KeysAmong(KeysOf(rs[v].routes), p.entries)
  }

  ghost predicate Listed(t: Topology, n: Network) {
    && |n.routers| == |t| && HopsList(t, n.routers)
    && forall p | p in n.inFlight :: SenderLists(t, n.routers, p)
  }

  // ----- timeouts -----

  /** A timeout makes routes unreachable and forgets none. */
  ghost predicate OnlyPoisons(before: seq<Route>, after: seq<Route>) {
    && KeysOf(after) == KeysOf(before)
    && forall key :: Entry(after, key).cost < INF_COST ==> Entry(after, key) == Entry(before, key)
  }

  lemma PoisonOnlyPoisons(routes: seq<Route>, dead: Ip)
    ensures OnlyPoisons(routes, Poison(routes, dead))
  {
    var after := Poison(routes, dead);
    forall key ensures key in KeysOf(after) <==> key in KeysOf(routes) {
      ListedIs(routes, key);
      ListedIs(after, key);
      FirstIndex(after, key, IndexOf(routes, key));
    }
    forall key ensures Entry(after, key).cost < INF_COST ==> Entry(after, key) == Entry(routes, key) {
      FirstIndex(after, key, IndexOf(routes, key));
    }
  }

  lemma {:induction false} TimeoutsOnlyPoison(s: RouterState, n: nat, now: int)
    requires n <= |s.neighbors|
    ensures var o := TimeoutsOf(s, n, now);
      && o.state.ctrlPort == s.ctrlPort && OnlyPoisons(s.routes, o.state.routes)
      && forall d | d in o.sent :: KeysAmong(KeysOf(s.routes), d.entries)
  {
    hide TimeoutOf, KeysOf, KeysAmong;
    if n == 0 {
    } else {
      TimeoutsOnlyPoison(s, n - 1, now);
      OneTimeoutOnlyPoisons(TimeoutsOf(s, n - 1, now).state, n - 1, now);
    }
  }

  lemma OneTimeoutOnlyPoisons(s: RouterState, i: nat, now: int)
    requires i < |s.neighbors|
    ensures var o := TimeoutOf(s, i, now);
      && o.state.ctrlPort == s.ctrlPort && OnlyPoisons(s.routes, o.state.routes)
      && forall d | d in o.sent :: KeysAmong(KeysOf(s.routes), d.entries)
  {
    PoisonOnlyPoisons(s.routes, s.neighbors[i].ip);
    var after := TimeoutOf(s, i, now).state;
    BroadcastKnown(KeysOf(s.routes), after, |after.neighbors|);
  }

  // ----- a vector -----

  /** A reachable route is as before, or goes through the sender, which mentioned it. */
  lemma {:induction false} VectorLists(keys: set<Key>, routes: seq<Route>, via: Ip, w: Cost, es: seq<DvEntry>, n: nat,
                                       key: Key)
    requires Fits(keys, routes) && KeysAmong(keys, es) && n <= |es|
    ensures var e := Entry(ApplyVector(routes, via, w, es, n), key);
      e == Entry(routes, key) || e.cost == INF_COST ||
      (e.nextHop == via && exists i :: 0 <= i < |es| && es[i].key == key)
  {
    hide Fits, ApplyEntry;
    if n == 0 {
    } else {
      VectorLists(keys, routes, via, w, es, n - 1, key);
      EntriesKeepFit(keys, routes, via, w, es, n - 1);
      FittingEntryAt(keys, ApplyVector(routes, via, w, es, n - 1), via, w, es[n - 1], key);
    }
  }

  // ----- every run -----

  /** Tables have grown, and each reachable route is as before or goes through a
      neighbour whose table lists it. */
  ghost predicate ListsStill(t: Topology, rs: seq<RouterState>, u: nat, routes: seq<Route>)
    requires |rs| == |t| && u < |t|
  {
    && KeysOf(rs[u].routes) <= KeysOf(routes)
    && forall key, v: nat | Linked(t, u, v) && GoesThrough(t, u, Entry(routes, key), v) :: key in KeysOf(rs[v].routes)
  }

  lemma TimeoutsListStill(t: Topology, n: Network, u: nat, now: int)
    requires Listed(t, n) && u < |t|
    ensures ListsStill(t, n.routers, u, Timeouts(n.routers[u], now).state.routes)
  {
    var s := n.routers[u];
    TimeoutsOnlyPoison(s, |s.neighbors|, now);
    hide TimeoutsOf, KeysOf;
    forall key, v: nat | Linked(t, u, v) && GoesThrough(t, u, Entry(Timeouts(s, now).state.routes, key), v)
      ensures key in KeysOf(n.routers[v].routes)
    {
      assert GoesThrough(t, u, Entry(s.routes, key), v);
    }
  }

  lemma ReceiveListsStill(t: Topology, n: Network, u: nat, p: Packet, now: int)
    requires WellConfigured(t) && Listed(t, n) && Recoverable(t, n) && u < |t| && p in n.inFlight
    ensures ListsStill(t, n.routers, u, Receive(n.routers[u], p.from, p.entries, now).routes)
  {
    var s := n.routers[u];
    assert PacketSound(t, p);
    var x :| 0 <= x < |t| && t[x].ctrlPort == p.from && EntriesSound(t, x, p.entries);
    SameIndexByPort(s, t[u], p.from);
    TableFits(t, u, s.routes);
    hide Recoverable, WellConfigured, Fits, ApplyVector, KeysOf, Entry;
    if Linked(t, u, x) {
      VectorKeepsKeys(s.routes, Via(t, u, x), LinkCost(t, u, x), p.entries, |p.entries|);
      var after := ApplyVector(s.routes, Via(t, u, x), LinkCost(t, u, x), p.entries, |p.entries|);
      forall key, v: nat | Linked(t, u, v) && GoesThrough(t, u, Entry(after, key), v)
        ensures key in KeysOf(n.routers[v].routes)
      {
        VectorLists(AllKeys(t), s.routes, Via(t, u, x), LinkCost(t, u, x), p.entries, |p.entries|, key);
        if Entry(after, key) == Entry(s.routes, key) {
          assert GoesThrough(t, u, Entry(s.routes, key), v);
        } else {
          ViaIdentifies(t, u, v, x);
          assert SenderLists(t, n.routers, p);
        }
      }
    } else {
      forall key, v: nat | Linked(t, u, v) && GoesThrough(t, u, Entry(s.routes, key), v)
        ensures key in KeysOf(n.routers[v].routes)
      {
      }
    }
  }

  lemma UpdateLists(t: Topology, n: Network, u: nat, s: RouterState, more: set<Packet>)
    requires WellConfigured(t) && Listed(t, n) && u < |t| && ListsStill(t, n.routers, u, s.routes)
    requires forall p | p in more :: p.from == t[u].ctrlPort && KeysAmong(KeysOf(n.routers[u].routes), p.entries)
    ensures Listed(t, Network(n.routers[u := s], n.inFlight + more))
  {
    var m := Network(n.routers[u := s], n.inFlight + more);
    hide KeysOf, Entry;
    forall v | 0 <= v < |t| ensures KeysOf(n.routers[v].routes) <= KeysOf(m.routers[v].routes) {}
    forall p, v | p in more && 0 <= v < |t| && t[v].ctrlPort == p.from ensures v == u {
      assert v < u ==> PortsDiffer(t, v, u);
      assert u < v ==> PortsDiffer(t, u, v);
    }
    forall x: nat, v: nat, key | Linked(t, x, v) && GoesThrough(t, x, Entry(m.routers[x].routes, key), v)
      ensures key in KeysOf(m.routers[v].routes)
    {
      assert key in KeysOf(n.routers[v].routes);
    }
  }

  lemma FewerStayListed(t: Topology, n: Network, m: Network)
    requires Listed(t, n) && m.routers == n.routers && m.inFlight <= n.inFlight
    ensures Listed(t, m)
  {
  }

  lemma StepLists(t: Topology, n: Network, e: Event)
    requires WellConfigured(t) && Listed(t, n) && Recoverable(t, n)
    ensures Listed(t, Step(n, e))
  {
    hide WellConfigured, Listed, KeysAmong, ListsStill;
    if e.u < |n.routers| {
      SizesAgree(t, n);
      var s := n.routers[e.u];
      match e
      case Announce(u) =>
        BroadcastKnown(KeysOf(s.routes), s, |s.neighbors|);
        ListsItself(t, n, u);
        UpdateLists(t, n, u, s, Packets(s.ctrlPort, Broadcast(s)));
        assert n.routers[u := s] == n.routers;
      case Check(u, now) =>
        TimeoutsOnlyPoison(s, |s.neighbors|, now);
        TimeoutsListStill(t, n, u, now);
        UpdateLists(t, n, u, Timeouts(s, now).state, Packets(s.ctrlPort, Timeouts(s, now).sent));
      case Hear(u, p, now) =>
        if p in n.inFlight && p.to == s.ctrlPort {
          ReceiveListsStill(t, n, u, p, now);
          UpdateLists(t, n, u, Receive(s, p.from, p.entries, now), {});
          assert n.inFlight + {} == n.inFlight;
        }
      case Lose(_, _) =>
        FewerStayListed(t, n, Step(n, e));
    }
  }

  lemma SizesAgree(t: Topology, n: Network)
    requires Recoverable(t, n)
    ensures SameShape(t, n)
  {
  }

  lemma ListsItself(t: Topology, n: Network, u: nat)
    requires Listed(t, n) && u < |t|
    ensures ListsStill(t, n.routers, u, n.routers[u].routes)
  {
  }

  // ----- and goes through neighbours thought alive -----

  ghost predicate HopsAlive(n: Network) {
    forall u | 0 <= u < |n.routers| :: RouterInvariant.Inv(n.routers[u])
  }

  lemma StepKeepsHopsAlive(n: Network, e: Event)
    requires HopsAlive(n)
    ensures HopsAlive(Step(n, e))
  {
    if e.u < |n.routers| {
      match e
      case Announce(_) =>
      case Lose(_, _) =>
      case Check(u, now) => RouterInvariant.EventKeepsInv(n.routers[u], RouterInvariant.Tick(now));
      case Hear(u, p, now) =>
        RouterInvariant.EventKeepsInv(n.routers[u], RouterInvariant.Vectors(p.from, p.entries, now));
    }
  }

  lemma StartsListed(t: Topology)
    requires WellConfigured(t)
    ensures Listed(t, Network(t, {})) && HopsAlive(Network(t, {}))
  {
    forall u: nat, v: nat, key | Linked(t, u, v) ensures !GoesThrough(t, u, Entry(t[u].routes, key), v) {
      ViaIdentifies(t, u, v, v);
    }
    forall u | 0 <= u < |t| ensures RouterInvariant.Inv(t[u]) {
      assert LinksOk(t[u].neighbors);
      RouterInvariant.EveryReachableStateOk(t[u], []);
    }
  }

  /** In every reachable state of the network, a reachable route goes through a
      neighbour thought alive, whose table lists the same network. */
  lemma {:induction false} EveryRunIsListed(t: Topology, es: seq<Event>)
    requires WellConfigured(t)
    ensures Listed(t, Run(Network(t, {}), es)) && HopsAlive(Run(Network(t, {}), es))
  {
    hide Listed, HopsAlive, Step, WellConfigured;
    if es == [] {
      StartsListed(t);
    } else {
      var before := Run(Network(t, {}), es[..|es| - 1]);
      EveryRunIsListed(t, es[..|es| - 1]);
      EveryRunIsRecoverable(t, es[..|es| - 1]);
      StepLists(t, before, es[|es| - 1]);
      StepKeepsHopsAlive(before, es[|es| - 1]);
    }
  }
}
