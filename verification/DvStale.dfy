/** Rounds from tables with any costs at all.  What a network once was may still stand in its
    tables, at costs no walk has.  Each round makes such costs dearer, until they count as
    unreachable; then the tables come right. */
module DvStale {
  import opened Common
  import opened RoutingTable
  import opened RouterNode
  import opened TableVectors
  import opened Walks
  import opened DvNetwork
  import opened DvRounds
  import opened ShortestCosts
  import opened DvTrace
  import opened DvRecovery

  // ----- what stale tables still have -----

  /** The next hop of `e` is `v`, whose table lists the network too. */
  ghost predicate HopLists(t: Topology, rs: seq<RouterState>, u: nat, e: Route, v: nat)
    requires |rs| == |t|
  {
    Linked(t, u, v) && e.nextHop == Via(t, u, v) && e.key in KeysOf(rs[v].routes)
  }

  ghost predicate ConnectedStands(t: Topology, u: nat, e: Route) {
    Attached(t, u, e.key) ==> e.cost == 0 && e.nextHop == NO_HOP
  }

  /** Nothing is said about costs, but for connected routes. */
  ghost predicate StaleEntry(t: Topology, rs: seq<RouterState>, u: nat, e: Route)
    requires |rs| == |t|
  {
    && ConnectedStands(t, u, e)
    && (e.cost < INF_COST ==>
          if e.nextHop == NO_HOP then e.cost == 0 && Attached(t, u, e.key)
          else exists v: nat :: HopLists(t, rs, u, e, v))
  }

  ghost predicate StaleAt(t: Topology, rs: seq<RouterState>, u: nat)
    requires |rs| == |t| && u < |t|
  {
    Fits(AllKeys(t), rs[u].routes) && forall key :: StaleEntry(t, rs, u, Entry(rs[u].routes, key))
  }

  ghost predicate Stale(t: Topology, n: Network) {
    SameShape(t, n) && forall u | 0 <= u < |t| :: StaleAt(t, n.routers, u)
  }

  // ----- one vector -----

  /** The cost was set by what `v` advertised in state `rs`. */
  ghost predicate CameFrom(t: Topology, rs: seq<RouterState>, u: nat, e: Route, v: nat)
    requires |rs| == |t|
  {
    HopLists(t, rs, u, e, v) && e.cost == LinkCost(t, u, v) + Entry(rs[v].routes, e.key).cost
  }

  /** Its next hop has not been heard yet. */
  ghost predicate Unheard(t: Topology, rs: seq<RouterState>, u: nat, e: Route, heard: seq<nat>)
    requires |rs| == |t|
  {
    exists v: nat :: HopLists(t, rs, u, e, v) && v !in heard
  }

  /** Where `u` stands on one network after hearing some announcements made in state `rs`. */
  ghost predicate Ageing(t: Topology, rs: seq<RouterState>, u: nat, e: Route, heard: seq<nat>)
    requires |rs| == |t|
  {
    && ConnectedStands(t, u, e)
    && (e.cost < INF_COST ==>
          if e.nextHop == NO_HOP then e.cost == 0 && Attached(t, u, e.key)
          else (exists v: nat :: CameFrom(t, rs, u, e, v)) || Unheard(t, rs, u, e, heard))
  }

  lemma RelaxAges(t: Topology, rs: seq<RouterState>, u: nat, x: nat, e: Route, heard: seq<nat>)
    requires WellConfigured(t) && |rs| == |t| && Linked(t, u, x) && Linked(t, x, u) && Ageing(t, rs, u, e, heard)
    requires e.key in KeysOf(rs[x].routes)
    ensures Ageing(t, rs, u, AfterHearing(t, rs, u, x, e), heard + [x])
  {
    ViaIdentifies(t, u, x, x);
    var f, after := Entry(rs[x].routes, e.key), AfterHearing(t, rs, u, x, e);
    hide WellConfigured, Attached, KeysOf, Entry;
    if after.cost < INF_COST && after.nextHop != NO_HOP {
      if after.nextHop == Via(t, u, x) {
        assert CameFrom(t, rs, u, after, x);
      } else if Unheard(t, rs, u, e, heard) {
        var v: nat :| HopLists(t, rs, u, e, v) && v !in heard;
        assert HopLists(t, rs, u, after, v) && v !in heard + [x];
      }
    }
  }

  lemma UnlistedAges(t: Topology, rs: seq<RouterState>, u: nat, x: nat, e: Route, heard: seq<nat>)
    requires |rs| == |t| && x < |t| && Ageing(t, rs, u, e, heard) && e.key !in KeysOf(rs[x].routes)
    ensures Ageing(t, rs, u, e, heard + [x])
  {
    if Unheard(t, rs, u, e, heard) {
      var v: nat :| HopLists(t, rs, u, e, v) && v !in heard;
      assert v !in heard + [x];
    }
  }

  lemma ListedIs(routes: seq<Route>, key: Key)
    ensures key in KeysOf(routes) <==> IndexOf(routes, key) < |routes|
  {
    if key in KeysOf(routes) {
      var i :| 0 <= i < |routes| && routes[i].key == key;
    }
  }

  lemma VectorAges(t: Topology, rs: seq<RouterState>, u: nat, x: nat, routes: seq<Route>, heard: seq<nat>, key: Key)
    requires WellConfigured(t) && |rs| == |t| && Linked(t, u, x) && Linked(t, x, u)
    requires Fits(AllKeys(t), routes) && Fits(AllKeys(t), rs[x].routes)
    requires Ageing(t, rs, u, Entry(routes, key), heard)
    ensures var es := VectorFor(t, rs, x, u).entries;
      Ageing(t, rs, u, Entry(ApplyVector(routes, Via(t, u, x), LinkCost(t, u, x), es, |es|), key), heard + [x])
  {
    hide WellConfigured, Ageing, Relax, Advertised, ApplyVector, Fits, KeysOf;
    var from := rs[x].routes;
    VectorAt(AllKeys(t), routes, Via(t, u, x), LinkCost(t, u, x), from, Via(t, x, u), |from|, key);
    ListedIs(from, key);
    if key in KeysOf(from) {
      RelaxAges(t, rs, u, x, Entry(routes, key), heard);
    } else {
      UnlistedAges(t, rs, u, x, Entry(routes, key), heard);
    }
  }

  // ----- one router's round -----

  lemma EntryKeepsKeys(routes: seq<Route>, via: Ip, w: Cost, e: DvEntry)
    ensures KeysOf(routes) <= KeysOf(ApplyEntry(routes, via, w, e))
  {
    var after := ApplyEntry(routes, via, w, e);
    forall key | key in KeysOf(routes) ensures key in KeysOf(after) {
      var i :| 0 <= i < |routes| && routes[i].key == key;
      assert after[i] in after && after[i].key == key;
    }
  }

  /** Tables only ever grow. */
  lemma {:induction false} VectorKeepsKeys(routes: seq<Route>, via: Ip, w: Cost, es: seq<DvEntry>, n: nat)
    requires n <= |es|
    ensures KeysOf(routes) <= KeysOf(ApplyVector(routes, via, w, es, n))
  {
    hide KeysOf, ApplyEntry;
    if n == 0 {
    } else {
      VectorKeepsKeys(routes, via, w, es, n - 1);
      EntryKeepsKeys(ApplyVector(routes, via, w, es, n - 1), via, w, es[n - 1]);
    }
  }

  /** Router `u` in state `s`, having heard these announcements made in state `rs`. */
  ghost predicate Underway(t: Topology, rs: seq<RouterState>, u: nat, s: RouterState, heard: seq<nat>)
    requires |rs| == |t| && u < |t|
  {
    && SameLinks(s, t[u]) && Fits(AllKeys(t), s.routes) && KeysOf(rs[u].routes) <= KeysOf(s.routes)
    && forall key :: Ageing(t, rs, u, Entry(s.routes, key), heard)
  }

  lemma ReceiveAges(t: Topology, rs: seq<RouterState>, u: nat, x: nat, s: RouterState, heard: seq<nat>)
    requires WellConfigured(t) && |rs| == |t| && Linked(t, u, x) && Linked(t, x, u)
    requires Fits(AllKeys(t), rs[x].routes) && Underway(t, rs, u, s, heard)
    ensures var p := VectorFor(t, rs, x, u);
      Underway(t, rs, u, Receive(s, p.from, p.entries, 0), heard + [x])
  {
    hide WellConfigured, Ageing, Fits, ApplyVector, SameLinks, Receive, KeysOf;
    var es := VectorFor(t, rs, x, u).entries;
    ReceiveApplies(t, rs, u, x, s);
    VectorKeepsFit(AllKeys(t), s.routes, Via(t, u, x), LinkCost(t, u, x), rs[x].routes, Via(t, x, u), |rs[x].routes|);
    VectorKeepsKeys(s.routes, Via(t, u, x), LinkCost(t, u, x), es, |es|);
    var after := ApplyVector(s.routes, Via(t, u, x), LinkCost(t, u, x), es, |es|);
    forall key ensures Ageing(t, rs, u, Entry(after, key), heard + [x]) {
      VectorAges(t, rs, u, x, s.routes, heard, key);
    }
  }

  lemma {:induction false} HearingAges(t: Topology, n: Network, u: nat, order: seq<nat>, k: nat)
    requires WellConfigured(t) && Stale(t, n) && AllAlive(t, n) && u < |t| && k <= |order| && ValidOrder(t, u, order)
    ensures Underway(t, n.routers, u, HearFrom(t, n.routers, Flight(t, n), u, order, k), order[..k])
  {
    assert |n.routers| == |t|;
    hide WellConfigured, Underway, AllAlive, Stale, Receive, VectorFor;
    if k == 0 {
      StartsUnderway(t, n, u);
    } else {
      HearingAges(t, n, u, order, k - 1);
      TakeOneMore(order, k);
      SentByAll(t, n, order[k - 1], u);
      ReceiveAges(t, n.routers, u, order[k - 1], HearFrom(t, n.routers, Flight(t, n), u, order, k - 1), order[..k - 1]);
    }
  }

  lemma SentByAll(t: Topology, n: Network, x: nat, u: nat)
    requires Stale(t, n) && AllAlive(t, n) && Linked(t, x, u)
    ensures VectorFor(t, n.routers, x, u) in Flight(t, n) && Fits(AllKeys(t), n.routers[x].routes)
  {
    AliveAreSentTo(t, n, x, u);
    assert StaleAt(t, n.routers, x);
  }

  lemma StartsUnderway(t: Topology, n: Network, u: nat)
    requires Stale(t, n) && u < |t|
    ensures Underway(t, n.routers, u, n.routers[u], [])
  {
    assert StaleAt(t, n.routers, u);
    forall key ensures Ageing(t, n.routers, u, Entry(n.routers[u].routes, key), []) {
      var e := Entry(n.routers[u].routes, key);
      assert StaleEntry(t, n.routers, u, e);
      if e.cost < INF_COST && e.nextHop != NO_HOP {
        var v: nat :| HopLists(t, n.routers, u, e, v);
        assert v !in [];
      }
    }
  }

  // ----- a round -----

  /** Once everybody has been heard, each finite cost came from the next hop. */
  ghost predicate Renewed(t: Topology, rs: seq<RouterState>, u: nat, e: Route)
    requires |rs| == |t|
  {
    && ConnectedStands(t, u, e)
    && (e.cost < INF_COST ==>
          if e.nextHop == NO_HOP then e.cost == 0 && Attached(t, u, e.key)
          else exists v: nat :: CameFrom(t, rs, u, e, v))
  }

  lemma AllHeard(t: Topology, rs: seq<RouterState>, u: nat, e: Route, order: seq<nat>)
    requires |rs| == |t| && ValidOrder(t, u, order) && Ageing(t, rs, u, e, order)
    ensures Renewed(t, rs, u, e)
  {
    hide Attached;
  }

  /** What a round does to tables that may be stale. */
  lemma RoundRenews(t: Topology, n: Network, orders: seq<seq<nat>>)
    requires WellConfigured(t) && Stale(t, n) && AllAlive(t, n) && ValidOrders(t, orders)
    ensures var m := Round(t, n, orders);
      && Stale(t, m) && AllAlive(t, m)
      && forall u, key | 0 <= u < |t| :: Renewed(t, n.routers, u, Entry(m.routers[u].routes, key))
  {
    var m := Round(t, n, orders);
    RoundIsFold(t, n, orders);
    AllAreHalf(t, n);
    RoundRevives(t, n, orders);
    hide WellConfigured, AllAlive, Stale, Round, HearFrom, ValidOrder, Ageing, Fits, SameLinks, Renewed, KeysOf;
    forall u | 0 <= u < |t| ensures Underway(t, n.routers, u, m.routers[u], orders[u]) {
      HearingAges(t, n, u, orders[u], |orders[u]|);
      assert orders[u][..|orders[u]|] == orders[u];
    }
    forall u, key | 0 <= u < |t| ensures Renewed(t, n.routers, u, Entry(m.routers[u].routes, key)) {
      assert Underway(t, n.routers, u, m.routers[u], orders[u]);
      AllHeard(t, n.routers, u, Entry(m.routers[u].routes, key), orders[u]);
    }
    StaysStale(t, n, m);
  }

  lemma StaysStale(t: Topology, n: Network, m: Network)
    requires |n.routers| == |t| && SameShape(t, m)
    requires forall u | 0 <= u < |t| ::
      Fits(AllKeys(t), m.routers[u].routes) && KeysOf(n.routers[u].routes) <= KeysOf(m.routers[u].routes)
    requires forall u, key | 0 <= u < |t| :: Renewed(t, n.routers, u, Entry(m.routers[u].routes, key))
    ensures Stale(t, m)
  {
    hide Fits, KeysOf, Attached, SameLinks;
    forall u, key | 0 <= u < |t| ensures StaleEntry(t, m.routers, u, Entry(m.routers[u].routes, key)) {
      var e := Entry(m.routers[u].routes, key);
      assert Renewed(t, n.routers, u, e);
      if e.cost < INF_COST && e.nextHop != NO_HOP {
        var v: nat :| CameFrom(t, n.routers, u, e, v);
        assert HopLists(t, m.routers, u, e, v);
      }
    }
  }

  // ----- stale costs grow old -----

  /** A finite cost is one of a real walk, or at least `age`. */
  ghost predicate AgedEntry(t: Topology, u: nat, e: Route, age: nat) {
    e.cost < INF_COST ==> Traced(t, u, e) || e.cost >= age
  }

  ghost predicate Aged(t: Topology, rs: seq<RouterState>, age: nat)
    requires |rs| == |t|
  {
    forall u, key | 0 <= u < |t| :: AgedEntry(t, u, Entry(rs[u].routes, key), age)
  }

  /** A cost that came from a neighbour is one of a walk if the neighbour's was, and else
      dearer than it was. */
  lemma RenewedIsOlder(t: Topology, rs: seq<RouterState>, u: nat, e: Route, age: nat)
    requires WellConfigured(t) && |rs| == |t| && u < |t| && Renewed(t, rs, u, e) && Aged(t, rs, age)
    ensures AgedEntry(t, u, e, age + 1)
  {
    if e.cost < INF_COST && e.nextHop != NO_HOP {
      var v: nat :| CameFrom(t, rs, u, e, v);
      ViaIdentifies(t, u, v, v);
      var f := Entry(rs[v].routes, e.key);
      assert AgedEntry(t, v, f, age);
      if Traced(t, v, f) {
        TracedReaches(t, v, f);
        assert LearnedFrom(t, u, e, v);
      }
    }
  }

  /** After `k` rounds a finite cost is one of a real walk, or at least `k`. */
  lemma {:induction false} RoundsAge(t: Topology, n: Network, schedule: seq<seq<seq<nat>>>)
    requires WellConfigured(t) && Stale(t, n) && AllAlive(t, n) && ValidSchedule(t, schedule)
    ensures var m := RoundsFrom(t, n, schedule);
      Stale(t, m) && Aged(t, m.routers, |schedule|)
  {
    if schedule == [] {
    } else {
      var last := |schedule| - 1;
      RoundsAge(t, n, schedule[..last]);
      var before := RoundsFrom(t, n, schedule[..last]);
      RoundRenews(t, before, schedule[last]);
      var m := Round(t, before, schedule[last]);
      assert RoundsFrom(t, n, schedule) == m;
      hide WellConfigured, Stale, Renewed, AgedEntry, Round, AllAlive;
      forall u, key | 0 <= u < |t| ensures AgedEntry(t, u, Entry(m.routers[u].routes, key), |schedule|) {
        RenewedIsOlder(t, before.routers, u, Entry(m.routers[u].routes, key), last);
      }
    }
  }

  /** INF_COST rounds leave no cost that is not a walk's. */
  lemma StaleCostsDie(t: Topology, n: Network, schedule: seq<seq<seq<nat>>>)
    requires WellConfigured(t) && Stale(t, n) && AllAlive(t, n) && ValidSchedule(t, schedule) && |schedule| >= INF_COST
    ensures forall u | 0 <= u < |t| :: TracedTable(t, u, RoundsFrom(t, n, schedule).routers[u].routes)
  {
    RoundsAge(t, n, schedule);
    var m := RoundsFrom(t, n, schedule);
    hide *;
    forall u | 0 <= u < |t| ensures TracedTable(t, u, m.routers[u].routes) {
      OldAreTraced(t, m, u, |schedule|);
    }
  }

  lemma OldAreTraced(t: Topology, m: Network, u: nat, age: nat)
    requires Stale(t, m) && Aged(t, m.routers, age) && u < |t| && age >= INF_COST
    ensures TracedTable(t, u, m.routers[u].routes)
  {
    hide Fits, Reaches, Attached, Traced;
    assert StaleAt(t, m.routers, u);
    forall key ensures Traced(t, u, Entry(m.routers[u].routes, key)) {
      var e := Entry(m.routers[u].routes, key);
      assert StaleEntry(t, m.routers, u, e) && AgedEntry(t, u, e, age);
      if e.cost == INF_COST {
        UnreachableIsTraced(t, u, e);
      }
    }
  }

  lemma UnreachableIsTraced(t: Topology, u: nat, e: Route)
    requires ConnectedStands(t, u, e) && e.cost == INF_COST
    ensures Traced(t, u, e)
  {
  }

  // ----- and the tables come right -----

  lemma {:induction false} RoundsSplit(t: Topology, n: Network, a: seq<seq<seq<nat>>>, b: seq<seq<seq<nat>>>)
    requires WellConfigured(t) && SameShape(t, n) && AllAlive(t, n) && ValidSchedule(t, a) && ValidSchedule(t, b)
    ensures ValidSchedule(t, a + b) && RoundsFrom(t, n, a + b) == RoundsFrom(t, RoundsFrom(t, n, a), b)
    decreases |b|
  {
    hide WellConfigured, SameShape, AllAlive, ValidOrders, Round;
    if b == [] {
      assert a + b == a;
    } else {
      RoundsSplit(t, n, a, b[..|b| - 1]);
      assert (a + b)[..|a + b| - 1] == a + b[..|b| - 1];
    }
  }

  /** What else is in flight does not matter to a round. */
  lemma {:induction false} HearingIsSame(t: Topology, n: Network, m: Network, u: nat, order: seq<nat>, k: nat)
    requires SameShape(t, n) && AllAlive(t, n) && m.routers == n.routers
    requires u < |t| && k <= |order| && ValidOrder(t, u, order)
    ensures HearFrom(t, n.routers, Flight(t, n), u, order, k) == HearFrom(t, m.routers, Flight(t, m), u, order, k)
  {
    hide Receive, VectorFor, AllAlive, SameShape;
    assert |n.routers| == |t| by { OfSize(t, n); }
    if k == 0 {
    } else {
      HearingIsSame(t, n, m, u, order, k - 1);
      BothSend(t, n, m, order[k - 1], u);
    }
  }

  lemma OfSize(t: Topology, n: Network)
    requires SameShape(t, n)
    ensures |n.routers| == |t|
  {
  }

  lemma BothSend(t: Topology, n: Network, m: Network, x: nat, u: nat)
    requires SameShape(t, n) && AllAlive(t, n) && m.routers == n.routers && Linked(t, x, u)
    ensures var p := VectorFor(t, n.routers, x, u); p in Flight(t, n) && p in Flight(t, m)
  {
    AliveAreSentTo(t, n, x, u);
    AliveAreSentTo(t, m, x, u);
  }

  lemma {:induction false} RoundsAreSame(t: Topology, n: Network, m: Network, schedule: seq<seq<seq<nat>>>)
    requires WellConfigured(t) && SameShape(t, n) && AllAlive(t, n) && m.routers == n.routers
    requires ValidSchedule(t, schedule)
    ensures RoundsFrom(t, n, schedule).routers == RoundsFrom(t, m, schedule).routers
  {
    if schedule == [] {
    } else {
      var last := |schedule| - 1;
      RoundsAreSame(t, n, m, schedule[..last]);
      var a, b, orders := RoundsFrom(t, n, schedule[..last]), RoundsFrom(t, m, schedule[..last]), schedule[last];
      hide WellConfigured, AllAlive, RoundsFrom, Round, HearFrom, SameShape;
      RoundIsFold(t, a, orders);
      RoundIsFold(t, b, orders);
      forall u | 0 <= u < |t| ensures Round(t, a, orders).routers[u] == Round(t, b, orders).routers[u] {
        HearingIsSame(t, a, b, u, orders[u], |orders[u]|);
      }
      OneRoundMore(t, n, schedule);
      OneRoundMore(t, m, schedule);
    }
  }

  lemma OneRoundMore(t: Topology, n: Network, schedule: seq<seq<seq<nat>>>)
    requires WellConfigured(t) && SameShape(t, n) && AllAlive(t, n) && ValidSchedule(t, schedule) && schedule != []
    ensures var last := |schedule| - 1;
      RoundsFrom(t, n, schedule) == Round(t, RoundsFrom(t, n, schedule[..last]), schedule[last])
  {
  }

  /** From any stale tables, INF_COST rounds and as many more as there are routers less
      one bring every cost to the shortest one. */
  lemma StaleTablesComeRight(t: Topology, n: Network, a: seq<seq<seq<nat>>>, b: seq<seq<seq<nat>>>, u: nat, key: Key)
    requires WellConfigured(t) && Stale(t, n) && AllAlive(t, n) && ValidSchedule(t, a) && ValidSchedule(t, b)
    requires |a| >= INF_COST && |b| >= |t| - 1 && u < |t|
    ensures ValidSchedule(t, a + b) && Entry(RoundsFrom(t, n, a + b).routers[u].routes, key).cost == Dist(t, u, key)
    ensures Recoverable(t, Network(RoundsFrom(t, n, a + b).routers, {}))
  {
    StaleCostsDie(t, n, a);
    RoundsSplit(t, n, a, b);
    var m := RoundsFrom(t, n, a);
    var clean := Network(m.routers, {});
    assert Recoverable(t, clean) by {
      TracedIsRecoverable(t, clean);
    }
    hide WellConfigured, Recoverable, Stale, RoundsFrom, AllAlive, Dist;
    NearerIsFew(t, u, key);
    RoundsAreSame(t, m, clean, b);
    NearestFirst(t, clean, b, u, key);
    WithoutPackets(t, RoundsFrom(t, clean, b));
  }

  lemma WithoutPackets(t: Topology, n: Network)
    requires Recoverable(t, n)
    ensures Recoverable(t, Network(n.routers, {}))
  {
  }

  lemma TracedIsRecoverable(t: Topology, n: Network)
    requires SameShape(t, n) && n.inFlight == {} && forall u | 0 <= u < |t| :: TracedTable(t, u, n.routers[u].routes)
    ensures Recoverable(t, n)
  {
    forall u, i | 0 <= u < |t| && 0 <= i < |n.routers[u].routes| && n.routers[u].routes[i].cost < INF_COST
      ensures Reaches(t, u, n.routers[u].routes[i].key, n.routers[u].routes[i].cost)
    {
      var routes := n.routers[u].routes;
      assert TracedTable(t, u, routes);
      IndexOfIs(routes, routes[i].key, i);
      assert Traced(t, u, Entry(routes, routes[i].key));
      TracedReaches(t, u, routes[i]);
    }
  }
}
