/** What one router keeps whatever it is sent: any vectors, from any ports, at
    any times, with static routes allowed in its configuration. */
module RouterInvariant {
  import opened RoutingTable
  import opened RouterNode

  /** What can change a router. */
  datatype LocalEvent = Tick(now: int) | Vectors(from: Port, msg: seq<DvEntry>, now: int)

  function After(s: RouterState, e: LocalEvent): RouterState {
    match e
    case Tick(now) => Timeouts(s, now).state
    case Vectors(from, msg, now) => Receive(s, from, msg, now)
  }

  function AfterAll(s: RouterState, es: seq<LocalEvent>): RouterState {
    if es == [] then s else After(AfterAll(s, es[..|es| - 1]), es[|es| - 1])
  }

  ghost predicate DistinctNeighbors(ns: seq<Neighbor>) {
    && (forall i | 0 <= i < |ns| :: ns[i].ip != NO_HOP)
    && (forall i, j | 0 <= i < j < |ns| :: ns[i].ip != ns[j].ip)
  }

  /** A configured router: connected routes have cost 0 and no next hop, static
      ones cost 1; neighbours start alive. */
  ghost predicate Configured(s: RouterState) {
    && UniqueKeys(s.routes)
    && DistinctNeighbors(s.neighbors)
    && (forall i | 0 <= i < |s.routes| :: s.routes[i].cost == if s.routes[i].nextHop == NO_HOP then 0 else 1)
    && (forall i | 0 <= i < |s.neighbors| :: s.neighbors[i].alive)
  }

  predicate Connected(r: Route) { r.nextHop == NO_HOP && r.cost == 0 }

  /** No next hop means connected or unreachable, and a reachable route never
      goes through a dead neighbour. */
  ghost predicate RouteOk(ns: seq<Neighbor>, r: Route) {
    && (r.nextHop == NO_HOP ==> r.cost == 0 || r.cost == INF_COST)
    && (r.cost < INF_COST ==> forall i | 0 <= i < |ns| && ns[i].ip == r.nextHop :: ns[i].alive)
  }

  ghost predicate Inv(s: RouterState) {
    && UniqueKeys(s.routes)
    && DistinctNeighbors(s.neighbors)
    && forall i | 0 <= i < |s.routes| :: RouteOk(s.neighbors, s.routes[i])
  }

  /** Entries keep their place and key, and connected ones are untouched. */
  ghost predicate KeepsConnected(before: seq<Route>, after: seq<Route>) {
    && |before| <= |after|
    && forall i | 0 <= i < |before| ::
         after[i].key == before[i].key && (Connected(before[i]) ==> after[i] == before[i])
  }

  lemma EntryKeepsInv(s: RouterState, k: nat, e: DvEntry)
    requires Inv(s) && k < |s.neighbors| && s.neighbors[k].alive
    ensures var t := ApplyEntry(s.routes, s.neighbors[k].ip, s.neighbors[k].cost, e);
      Inv(s.(routes := t)) && KeepsConnected(s.routes, t)
  {
    ApplyEntryKeepsKeysUnique(s.routes, s.neighbors[k].ip, s.neighbors[k].cost, e);
    var found := FindOrAdd(s.routes, e.key);
    assert forall i | 0 <= i < |found| :: RouteOk(s.neighbors, found[i]);
  }

  lemma {:induction false} VectorKeepsInv(s: RouterState, k: nat, msg: seq<DvEntry>, n: nat)
    requires Inv(s) && k < |s.neighbors| && s.neighbors[k].alive && n <= |msg|
    ensures var t := ApplyVector(s.routes, s.neighbors[k].ip, s.neighbors[k].cost, msg, n);
      Inv(s.(routes := t)) && KeepsConnected(s.routes, t)
  {
    hide Inv, ApplyEntry, Connected;
    if n == 0 {
    } else {
      VectorKeepsInv(s, k, msg, n - 1);
      var before := ApplyVector(s.routes, s.neighbors[k].ip, s.neighbors[k].cost, msg, n - 1);
      EntryKeepsInv(s.(routes := before), k, msg[n - 1]);
    }
  }

  lemma {:induction false} TimeoutsKeepInv(s: RouterState, n: nat, now: int)
    requires Inv(s) && n <= |s.neighbors|
    ensures var t := TimeoutsOf(s, n, now).state;
      Inv(t) && KeepsConnected(s.routes, t.routes)
  {
    hide TimeoutOf, Inv;
    KeepsItself(s.routes);
    hide KeepsConnected;
    if n == 0 {
    } else {
      TimeoutsKeepInv(s, n - 1, now);
      var b := TimeoutsOf(s, n - 1, now).state;
      OneTimeoutKeepsInv(b, n - 1, now);
      KeepsTwice(s.routes, b.routes, TimeoutOf(b, n - 1, now).state.routes);
    }
  }

  lemma OneTimeoutKeepsInv(b: RouterState, i: nat, now: int)
    requires Inv(b) && i < |b.neighbors|
    ensures var t := TimeoutOf(b, i, now).state;
      Inv(t) && KeepsConnected(b.routes, t.routes)
  {
    var t := TimeoutOf(b, i, now).state;
    forall j | 0 <= j < |t.routes| ensures RouteOk(t.neighbors, t.routes[j]) {
      assert RouteOk(b.neighbors, b.routes[j]);
    }
  }

  lemma KeepsItself(a: seq<Route>)
    ensures KeepsConnected(a, a)
  {
  }

  lemma KeepsTwice(a: seq<Route>, b: seq<Route>, c: seq<Route>)
    requires KeepsConnected(a, b) && KeepsConnected(b, c)
    ensures KeepsConnected(a, c)
  {
  }

  lemma EventKeepsInv(s: RouterState, e: LocalEvent)
    requires Inv(s)
    ensures Inv(After(s, e)) && KeepsConnected(s.routes, After(s, e).routes)
  {
    match e
    case Tick(now) => TimeoutsKeepInv(s, |s.neighbors|, now);
    case Vectors(from, msg, now) =>
      var i := NeighborByPort(s.neighbors, from);
      if i < |s.neighbors| {
        var b := s.(neighbors := s.neighbors[i := s.neighbors[i].(lastHeard := now, alive := true)]);
        forall j | 0 <= j < |b.routes| ensures RouteOk(b.neighbors, b.routes[j]) {
          assert RouteOk(s.neighbors, s.routes[j]);
        }
        VectorKeepsInv(b, i, msg, |msg|);
      }
  }

  /** In every reachable state: one entry per destination, connected routes
      unchanged since configuration, no next hop only on connected or
      unreachable routes, and no reachable route through a dead neighbour. */
  lemma {:induction false} EveryReachableStateOk(s: RouterState, es: seq<LocalEvent>)
    requires Configured(s)
    ensures Inv(AfterAll(s, es)) && KeepsConnected(s.routes, AfterAll(s, es).routes)
  {
    if es == [] {
      forall i | 0 <= i < |s.routes| ensures RouteOk(s.neighbors, s.routes[i]) {}
    } else {
      EveryReachableStateOk(s, es[..|es| - 1]);
      EventKeepsInv(AfterAll(s, es[..|es| - 1]), es[|es| - 1]);
    }
  }

  /** So the "next hop down" report is never made, and a packet is only ever
      sent to a live neighbour that the matched route names. */
  lemma ForwardsOnlyToLiveNeighbors(s: RouterState, es: seq<LocalEvent>, dst: Ip, ttl: nat)
    requires Configured(s)
    ensures var t := AfterAll(s, es); var v := Forward(t, dst, ttl);
      && v != NextHopDown
      && (v.Sent? ==>
            && v.ttl + 1 == ttl
            && (exists k | 0 <= k < |t.neighbors| ::
                  t.neighbors[k].alive && t.neighbors[k].ip == v.via && v.dataPort == DataPort(t.neighbors[k].ctrlPort))
            && (exists j | 0 <= j < |t.routes| ::
                  && Matches(t.routes[j].key, dst)
                  && t.routes[j].nextHop == v.via != NO_HOP && t.routes[j].cost < INF_COST))
  {
    EveryReachableStateOk(s, es);
    var t := AfterAll(s, es);
    var m := Lookup(t.routes, dst);
    LookupInIsFirstGreatest(t.routes, dst, |t.routes|);
    if m.Some? {
      assert RouteOk(t.neighbors, t.routes[m.value]);
    }
  }
}
