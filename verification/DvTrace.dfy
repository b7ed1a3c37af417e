/** What every run keeps beside soundness: each route can be traced to the neighbour
    it was learned from, and connected routes stand. */
module DvTrace {
  import opened RoutingTable
  import opened RouterNode
  import opened TableVectors
  import opened Walks
  import opened DvNetwork
  import opened DvRounds

  /** The route was learned from `v`, at a cost some walk from `v` has. */
  ghost predicate LearnedFrom(t: Topology, u: nat, e: Route, v: nat) {
    && Linked(t, u, v) && e.nextHop == Via(t, u, v)
    && LinkCost(t, u, v) <= e.cost && Reaches(t, v, e.key, e.cost - LinkCost(t, u, v))
  }

  ghost predicate Traced(t: Topology, u: nat, e: Route) {
    && (Attached(t, u, e.key) ==> e.cost == 0 && e.nextHop == NO_HOP)
    && (e.cost < INF_COST ==>
          if e.nextHop == NO_HOP then e.cost == 0 && Attached(t, u, e.key)
          else exists v: nat :: LearnedFrom(t, u, e, v))
  }

  ghost predicate TracedTable(t: Topology, u: nat, routes: seq<Route>) {
    Fits(AllKeys(t), routes) && forall key :: Traced(t, u, Entry(routes, key))
  }

  predicate KeysAmong(keys: set<Key>, es: seq<DvEntry>) {
    forall i | 0 <= i < |es| :: es[i].key in keys
  }

  /** Besides soundness: every route can be traced to the neighbour it was learned
      from, and connected routes stand. */
  ghost predicate Recoverable(t: Topology, n: Network) {
    && Sound(t, n)
    && (forall u | 0 <= u < |t| :: TracedTable(t, u, n.routers[u].routes))
    && (forall p | p in n.inFlight :: KeysAmong(AllKeys(t), p.entries))
  }

  lemma TracedReaches(t: Topology, u: nat, e: Route)
    requires u < |t| && Traced(t, u, e) && e.cost < INF_COST
    ensures Reaches(t, u, e.key, e.cost)
  {
    if e.nextHop == NO_HOP {
      assert WalkTo(t, u, e.key, [u]) && WalkCost(t, [u]) == 0;
    } else {
      var v: nat :| LearnedFrom(t, u, e, v);
      ReachesOverLink(t, u, v, e.key, e.cost - LinkCost(t, u, v));
    }
  }

  lemma RelaxTraced(t: Topology, u: nat, v: nat, e: Route, c: Cost)
    requires WellConfigured(t) && Linked(t, u, v) && Traced(t, u, e)
    requires c < INF_COST ==> Reaches(t, v, e.key, c)
    ensures Traced(t, u, Relax(e, Via(t, u, v), LinkCost(t, u, v), c))
  {
    ViaIdentifies(t, u, v, v);
    var after := Relax(e, Via(t, u, v), LinkCost(t, u, v), c);
    if after != e && after.cost < INF_COST {
      assert LearnedFrom(t, u, after, v);
    }
  }

  lemma {:induction false} VectorTraced(t: Topology, u: nat, v: nat, routes: seq<Route>, es: seq<DvEntry>, n: nat)
    requires WellConfigured(t) && Linked(t, u, v) && TracedTable(t, u, routes) && n <= |es|
    requires EntriesSound(t, v, es) && KeysAmong(AllKeys(t), es)
    ensures TracedTable(t, u, ApplyVector(routes, Via(t, u, v), LinkCost(t, u, v), es, n))
  {
    hide Traced, WellConfigured, Reaches, Fits, Relax, ApplyEntry;
    if n == 0 {
    } else {
      VectorTraced(t, u, v, routes, es, n - 1);
      var before := ApplyVector(routes, Via(t, u, v), LinkCost(t, u, v), es, n - 1);
      var after := ApplyEntry(before, Via(t, u, v), LinkCost(t, u, v), es[n - 1]);
      EntryKeepsFit(AllKeys(t), before, Via(t, u, v), LinkCost(t, u, v), es[n - 1]);
      forall key ensures Traced(t, u, Entry(after, key)) {
        FittingEntryAt(AllKeys(t), before, Via(t, u, v), LinkCost(t, u, v), es[n - 1], key);
        if key == es[n - 1].key {
          RelaxTraced(t, u, v, Entry(before, key), es[n - 1].cost);
        }
      }
    }
  }

  lemma PoisonTraced(t: Topology, u: nat, routes: seq<Route>, dead: Ip)
    requires TracedTable(t, u, routes) && dead != NO_HOP
    ensures TracedTable(t, u, Poison(routes, dead))
  {
    var after := Poison(routes, dead);
    assert KeysOf(after) <= KeysOf(routes) by {
      forall key | key in KeysOf(after) ensures key in KeysOf(routes) {
        var i :| 0 <= i < |after| && after[i].key == key;
        assert routes[i] in routes;
      }
    }
    forall key ensures Traced(t, u, Entry(after, key)) {
      FirstIndex(after, key, IndexOf(routes, key));
      var e, e' := Entry(routes, key), Entry(after, key);
      assert Traced(t, u, e);
    }
  }

  lemma ReceiveTraced(t: Topology, u: nat, s: RouterState, p: Packet, now: int)
    requires WellConfigured(t) && u < |t| && SameLinks(s, t[u]) && TracedTable(t, u, s.routes)
    requires PacketSound(t, p) && KeysAmong(AllKeys(t), p.entries)
    ensures TracedTable(t, u, Receive(s, p.from, p.entries, now).routes)
  {
    var v :| 0 <= v < |t| && t[v].ctrlPort == p.from && EntriesSound(t, v, p.entries);
    SameIndexByPort(s, t[u], p.from);
    if Linked(t, u, v) {
      VectorTraced(t, u, v, s.routes, p.entries, |p.entries|);
    }
  }

  lemma {:induction false} BroadcastKnown(keys: set<Key>, s: RouterState, n: nat)
    requires KeysOf(s.routes) <= keys && n <= |s.neighbors|
    ensures forall d | d in BroadcastTo(s, n) :: KeysAmong(keys, d.entries)
  {
    if n == 0 {
    } else {
      BroadcastKnown(keys, s, n - 1);
      var es := Vector(s.routes, s.neighbors[n - 1].ip);
      forall i | 0 <= i < |es| ensures es[i].key in keys {
        assert s.routes[i].key in KeysOf(s.routes);
      }
    }
  }

  lemma {:induction false} TimeoutsTraced(t: Topology, u: nat, s: RouterState, n: nat, now: int)
    requires WellConfigured(t) && u < |t| && SameLinks(s, t[u]) && TracedTable(t, u, s.routes) && n <= |s.neighbors|
    ensures var o := TimeoutsOf(s, n, now);
      && SameLinks(o.state, t[u]) && TracedTable(t, u, o.state.routes)
      && forall d | d in o.sent :: KeysAmong(AllKeys(t), d.entries)
  {
    hide TracedTable, Fits, TimeoutOf, SameLinks, KeysAmong, WellConfigured;
    if n == 0 {
    } else {
      TimeoutsTraced(t, u, s, n - 1, now);
      OneTimeoutTraced(t, u, TimeoutsOf(s, n - 1, now).state, n - 1, now);
    }
  }

  lemma OneTimeoutTraced(t: Topology, u: nat, s: RouterState, i: nat, now: int)
    requires WellConfigured(t) && u < |t| && SameLinks(s, t[u]) && TracedTable(t, u, s.routes) && i < |s.neighbors|
    ensures var o := TimeoutOf(s, i, now);
      && SameLinks(o.state, t[u]) && TracedTable(t, u, o.state.routes)
      && forall d | d in o.sent :: KeysAmong(AllKeys(t), d.entries)
  {
    hide TracedTable, Fits;
    assert LinksOk(t[u].neighbors);
    PoisonTraced(t, u, s.routes, s.neighbors[i].ip);
    var after := TimeoutOf(s, i, now).state;
    TableFits(t, u, after.routes);
    BroadcastKnown(AllKeys(t), after, |after.neighbors|);
  }

  lemma TableFits(t: Topology, u: nat, routes: seq<Route>)
    requires TracedTable(t, u, routes)
    ensures Fits(AllKeys(t), routes)
  {
  }

  lemma StepIsRecoverable(t: Topology, n: Network, e: Event)
    requires WellConfigured(t) && Recoverable(t, n)
    ensures Recoverable(t, Step(n, e))
  {
    hide TracedTable, WellConfigured, KeysAmong, Fits;
    StepIsSound(t, n, e);
    if e.u < |n.routers| {
      var s := n.routers[e.u];
      TableFits(t, e.u, s.routes);
      match e
      case Announce(u) =>
        BroadcastKnown(AllKeys(t), s, |s.neighbors|);
      case Check(u, now) =>
        TimeoutsTraced(t, u, s, |s.neighbors|, now);
      case Hear(u, p, now) =>
        if p in n.inFlight && p.to == s.ctrlPort {
          ReceiveTraced(t, u, s, p, now);
        }
      case Lose(_, _) =>
    }
  }

  lemma StartIsRecoverable(t: Topology)
    requires WellConfigured(t)
    ensures Recoverable(t, Network(t, {}))
  {
    EveryRunIsSound(t, []);
    StartIsGood(t);
    forall u | 0 <= u < |t| ensures TracedTable(t, u, t[u].routes) {
      assert Healthy(t, u, t[u]);
      forall key ensures Traced(t, u, Entry(t[u].routes, key)) {
        if Attached(t, u, key) {
          AttachedIsFree(t, u, key);
        }
      }
    }
  }

  lemma {:induction false} RunIsRecoverable(t: Topology, n: Network, es: seq<Event>)
    requires WellConfigured(t) && Recoverable(t, n)
    ensures Recoverable(t, Run(n, es))
  {
    hide Recoverable, Step, WellConfigured;
    if es == [] {
    } else {
      RunIsRecoverable(t, n, es[..|es| - 1]);
      StepIsRecoverable(t, Run(n, es[..|es| - 1]), es[|es| - 1]);
    }
  }

  lemma EveryRunIsRecoverable(t: Topology, es: seq<Event>)
    requires WellConfigured(t)
    ensures Recoverable(t, Run(Network(t, {}), es))
  {
    hide Recoverable;
    StartIsRecoverable(t);
    RunIsRecoverable(t, Network(t, {}), es);
  }
}
