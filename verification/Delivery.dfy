/** Packets arrive wherever the costs are right, and so after every kind of recovery. */
module Delivery {
  import opened RoutingTable
  import opened RouterNode
  import opened Walks
  import opened DvNetwork
  import opened DvRounds
  import opened ShortestCosts
  import opened DvTrace
  import opened DvRecovery
  import opened DvSilence
  import opened DvAsync
  import opened DvStale
  import opened DvListed
  import opened DvSurvivors
  import opened Forwarding
  import RouterInvariant

  // ----- right costs are good -----

  ghost predicate AllRight(t: Topology, n: Network)
    requires |n.routers| == |t|
  {
    forall u, key | 0 <= u < |t| :: Right(t, n, u, key)
  }

  lemma RightIsFeasible(t: Topology, n: Network, u: nat, key: Key)
    requires Recoverable(t, n) && |n.routers| == |t| && AllRight(t, n) && u < |t|
    ensures FeasibleAt(t, n.routers, u, key)
  {
    TablesAreTraced(t, n, u, key);
    hide Recoverable, Dist, Reaches, Attached, Entry;
    var e := Entry(n.routers[u].routes, key);
    if e.cost < INF_COST && e.nextHop != NO_HOP {
      var v: nat :| LearnedFrom(t, u, e, v);
      DistIsLeast(t, v, key, e.cost - LinkCost(t, u, v));
      assert Right(t, n, v, key);
      assert CoveredBy(t, n.routers, u, e, v);
    }
  }

  lemma RightIsGood(t: Topology, n: Network)
    requires Recoverable(t, n) && |n.routers| == |t| && AllAlive(t, n) && AllRight(t, n)
    ensures Good(t, n)
  {
    forall u | 0 <= u < |t| ensures Healthy(t, u, n.routers[u]) {
      TablesAreTraced(t, n, u, Key(0, 0));
      TableFits(t, u, n.routers[u].routes);
    }
    forall u, key | 0 <= u < |t| ensures FeasibleAt(t, n.routers, u, key) {
      RightIsFeasible(t, n, u, key);
    }
  }

  lemma FiniteIsReachable(t: Topology, u: nat, key: Key)
    ensures Reachable(t, u, key) <==> Dist(t, u, key) < INF_COST
  {
    if Dist(t, u, key) < INF_COST {
      var w :| WalkTo(t, u, key, w) && WalkCost(t, w) == Dist(t, u, key);
    }
    if Reachable(t, u, key) {
      var w :| WalkTo(t, u, key, w) && WalkCost(t, w) < INF_COST;
      DistIsLeast(t, u, key, WalkCost(t, w));
    }
  }

  /** Where all costs are right, packets are delivered from wherever their network is
      reachable, and never forwarded from anywhere else. */
  lemma DeliversOnceRight(t: Topology, n: Network, u: nat, key: Key, dst: Ip, ttl: nat)
    requires WellConfigured(t) && Recoverable(t, n) && |n.routers| == |t| && AllAlive(t, n) && AllRight(t, n)
    requires DataPortsOk(t) && OnlyMatch(t, key, dst) && u < |t| && ttl >= |t| - 1
    ensures var j := Carry(t, n.routers, u, dst, ttl);
      if Reachable(t, u, key) then Delivered(j) else Dropped(j, dst == t[u].selfIp, ttl)
  {
    assert Right(t, n, u, key);
    RightIsGood(t, n);
    FiniteIsReachable(t, u, key);
    DeliversIfFinite(t, n, u, key, dst, ttl);
  }

  // ----- after recovery -----

  /** After any run, once every link is alive at one end and rounds have gone by. */
  lemma DeliversAfterAnyRun(t: Topology, es: seq<Event>, first: seq<seq<nat>>, schedule: seq<seq<seq<nat>>>,
                            u: nat, key: Key, dst: Ip, ttl: nat)
    requires WellConfigured(t) && ValidOrders(t, first) && ValidSchedule(t, schedule)
    requires |Run(Network(t, {}), es).routers| == |t| && HalfAlive(t, Run(Network(t, {}), es))
    requires DataPortsOk(t) && OnlyMatch(t, key, dst) && u < |t| && ttl >= |t| - 1 && |schedule| >= |t| - 1
    ensures var revived := Round(t, Run(Network(t, {}), es), first);
      && SameShape(t, revived) && AllAlive(t, revived)
      && var j := Carry(t, RoundsFrom(t, revived, schedule).routers, u, dst, ttl);
         if Reachable(t, u, key) then Delivered(j) else Dropped(j, dst == t[u].selfIp, ttl)
  {
    var n := Run(Network(t, {}), es);
    EveryRunIsRecoverable(t, es);
    RecoverableIsSound(t, n);
    RoundIsRecoverable(t, n, first);
    RoundRevives(t, n, first);
    var m := RoundsFrom(t, Round(t, n, first), schedule);
    hide WellConfigured, Run, Round, Recoverable, AllAlive, HalfAlive, RoundsFrom, Dist, Nearer;
    forall x, k | 0 <= x < |t| ensures Right(t, m, x, k) {
      NearerIsFew(t, x, k);
      NearestFirst(t, Round(t, n, first), schedule, x, k);
    }
    DeliversOnceRight(t, m, u, key, dst, ttl);
  }

  lemma RestOfEpoch(n: Network, es: Epochs, k: nat, i: nat)
    requires k < |es| && i <= |es[k]|
    ensures Start(n, es, k + 1) == Run(At(n, es, k, i), es[k][i..])
  {
    var now, before, rest := Start(n, es, k), es[k][..i], es[k][i..];
    assert Start(n, es, k + 1) == Run(now, es[k]) && At(n, es, k, i) == Run(now, before);
    hide *;
    assert es[k] == before + rest;
    RunSplit(now, before, rest);
  }

  lemma NoneTimesOut(t: Topology, n: Network, es: Epochs, k: nat, i: nat)
    requires Fair(t, n, es) && k < |es| && i <= |es[k]|
    ensures NoTimeouts(es[k][i..])
  {
    assert NoTimeouts(es[k]);
    hide Fair;
  }

  lemma HeardNowIsAlive(t: Topology, n: Network, es: Epochs, k: nat, i: nat, u: nat, v: nat)
    requires WellConfigured(t) && Recoverable(t, n) && k < |es| && Linked(t, u, v) && HearsAt(t, n, es, k, i, u, v)
    ensures i < |es[k]| && Sound(t, At(n, es, k, i + 1)) && |At(n, es, k, i + 1).routers| == |t|
    ensures ThinksAlive(t, At(n, es, k, i + 1).routers[u], u, v)
  {
    hide Sound, Recoverable, WellConfigured, Step, ThinksAlive, At, Linked;
    var e := es[k][i];
    AtIsSound(t, n, es, k, i);
    AtIsSound(t, n, es, k, i + 1);
    RecoverableIsSound(t, At(n, es, k, i));
    RecoverableIsSound(t, At(n, es, k, i + 1));
    HearRevives(t, At(n, es, k, i), u, v, e.p, e.now);
    AtNext(n, es, k, i);
  }

  /** Who is heard in an epoch without timeouts is thought alive at its end. */
  lemma HeardIsAlive(t: Topology, n: Network, es: Epochs, k: nat, u: nat, v: nat)
    requires WellConfigured(t) && Recoverable(t, n) && Fair(t, n, es) && k < |es| && Linked(t, u, v)
    ensures |Start(n, es, k + 1).routers| == |t| && ThinksAlive(t, Start(n, es, k + 1).routers[u], u, v)
  {
    assert Hears(t, n, es, k, u, v);
    var i: nat :| HearsAt(t, n, es, k, i, u, v);
    hide Sound, Recoverable, WellConfigured, Fair, HearsAt, ThinksAlive, Start, At, Run;
    HeardNowIsAlive(t, n, es, k, i, u, v);
    RestOfEpoch(n, es, k, i + 1);
    NoneTimesOut(t, n, es, k, i + 1);
    RunForgetsNobody(t, At(n, es, k, i + 1), es[k][i + 1..]);
  }

  /** After a fair run, however its announcements and hearings interleave. */
  lemma DeliversAfterFairRun(t: Topology, n: Network, es: Epochs, u: nat, key: Key, dst: Ip, ttl: nat)
    requires WellConfigured(t) && Recoverable(t, n) && Fair(t, n, es) && |es| >= 2 * |t|
    requires DataPortsOk(t) && OnlyMatch(t, key, dst) && u < |t| && ttl >= |t| - 1
    ensures |Start(n, es, |es|).routers| == |t|
    ensures var j := Carry(t, Start(n, es, |es|).routers, u, dst, ttl);
      if Reachable(t, u, key) then Delivered(j) else Dropped(j, dst == t[u].selfIp, ttl)
  {
    var m, last := Start(n, es, |es|), |es| - 1;
    StartIsSound(t, n, es, |es|);
    AtEnds(n, es, last);
    hide Fair, Recoverable, WellConfigured, Nearer, Run, Start, Dist, ThinksAlive, Reachable;
    forall x: nat, y: nat | Linked(t, x, y) ensures ThinksAlive(t, m.routers[x], x, y) {
      HeardIsAlive(t, n, es, last, x, y);
    }
    forall x, k | 0 <= x < |t| ensures Right(t, m, x, k) {
      NearerIsFew(t, x, k);
      SettlesForGood(t, n, es, x, k);
    }
    DeliversOnceRight(t, m, u, key, dst, ttl);
  }

  // ----- after links are lost -----

  lemma LiveByIp(ns: seq<Neighbor>, ip: Ip)
    requires RouterInvariant.DistinctNeighbors(ns)
    ensures var i, k := NeighborByIp(ns, ip), NeighborByIp(Live(ns), ip);
      && (k < |Live(ns)| <==> i < |ns| && ns[i].alive)
      && (k < |Live(ns)| ==> Live(ns)[k] == ns[i])
  {
    LiveAre(ns);
    var i, k := NeighborByIp(ns, ip), NeighborByIp(Live(ns), ip);
    hide Live;
    if k < |Live(ns)| {
      assert Live(ns)[k] in ns;
      var j :| 0 <= j < |ns| && ns[j] == Live(ns)[k];
      assert j == i;
    }
    assert i < |ns| && ns[i].alive ==> ns[i] in Live(ns);
  }

  /** No reachable route goes through a neighbour thought dead, so packets take the same
      way without those. */
  lemma ForwardsSame(s: RouterState, dst: Ip, ttl: nat)
    requires RouterInvariant.Inv(s)
    ensures Forward(Shrunk(s), dst, ttl) == Forward(s, dst, ttl)
  {
    var m := Lookup(s.routes, dst);
    assert m.Some? ==> m.value < |s.routes|;
    hide Lookup, Live;
    if m.Some? {
      var r := s.routes[m.value];
      assert RouterInvariant.RouteOk(s.neighbors, r);
      LiveByIp(s.neighbors, r.nextHop);
    }
  }

  lemma {:induction false} ListensSame(t: Topology, t': Topology, port: Port, i: nat)
    requires |t| == |t'| && i <= |t| && forall u | 0 <= u < |t| :: t[u].ctrlPort == t'[u].ctrlPort
    ensures ListenerFrom(t, port, i) == ListenerFrom(t', port, i)
    decreases |t| - i
  {
    if i < |t| {
      ListensSame(t, t', port, i + 1);
    }
  }

  lemma {:induction false} CarriesSame(t: Topology, t': Topology, n: Network, u: nat, dst: Ip, ttl: nat)
    requires |t| == |t'| == |n.routers| && u < |t| && HopsAlive(n)
    requires forall x | 0 <= x < |t| :: t[x].ctrlPort == t'[x].ctrlPort
    ensures Carry(t', Seen(n).routers, u, dst, ttl) == Carry(t, n.routers, u, dst, ttl)
    decreases ttl
  {
    assert RouterInvariant.Inv(n.routers[u]);
    ForwardsSame(n.routers[u], dst, ttl);
    hide Forward, RouterInvariant.Inv, Shrunk;
    var v := Forward(n.routers[u], dst, ttl);
    if v.Sent? {
      ListensSame(t, t', v.dataPort, 0);
      var next := ListenerFrom(t, v.dataPort, 0);
      if next < |t| {
        CarriesSame(t, t', n, next, dst, v.ttl);
      }
    }
  }

  lemma {:induction false} RunKeepsHopsAlive(n: Network, es: seq<Event>)
    requires HopsAlive(n)
    ensures HopsAlive(Run(n, es))
  {
    hide HopsAlive, Step;
    if es == [] {
    } else {
      RunKeepsHopsAlive(n, es[..|es| - 1]);
      StepKeepsHopsAlive(Run(n, es[..|es| - 1]), es[|es| - 1]);
    }
  }

  /** Once stale costs are gone, packets are delivered wherever their network is. */
  lemma DeliversAfterStale(t: Topology, n: Network, a: seq<seq<seq<nat>>>, b: seq<seq<seq<nat>>>,
                           u: nat, key: Key, dst: Ip, ttl: nat)
    requires WellConfigured(t) && Stale(t, n) && AllAlive(t, n) && ValidSchedule(t, a) && ValidSchedule(t, b)
    requires |a| >= INF_COST && |b| >= |t| - 1
    requires DataPortsOk(t) && OnlyMatch(t, key, dst) && u < |t| && ttl >= |t| - 1
    ensures ValidSchedule(t, a + b)
    ensures var j := Carry(t, RoundsFrom(t, n, a + b).routers, u, dst, ttl);
      if Reachable(t, u, key) then Delivered(j) else Dropped(j, dst == t[u].selfIp, ttl)
  {
    StaleTablesComeRight(t, n, a, b, u, key);
    var m := Network(RoundsFrom(t, n, a + b).routers, {});
    hide WellConfigured, Stale, Recoverable, RoundsFrom, Dist, ThinksAlive, Reachable;
    forall x, k | 0 <= x < |t| ensures Right(t, m, x, k) {
      StaleTablesComeRight(t, n, a, b, x, k);
    }
    DeliversOnceRight(t, m, u, key, dst, ttl);
  }

  /** After links are lost for good, packets are delivered from wherever their network is
      reachable over the links that are left, and never forwarded from anywhere else. */
  lemma DeliversWithoutTheLost(t: Topology, n: Network, a: seq<seq<seq<nat>>>, b: seq<seq<seq<nat>>>,
                               u: nat, key: Key, dst: Ip, ttl: nat)
    requires WellConfigured(t) && Recoverable(t, n) && Listed(t, n) && HopsAlive(n) && Settled(t, n)
    requires |n.routers| == |t| && ValidSchedule(Survivors(t, n), a) && ValidSchedule(Survivors(t, n), b)
    requires |a| >= INF_COST && |b| >= |t| - 1
    requires DataPortsOk(t) && OnlyMatch(t, key, dst) && u < |t| && ttl >= |t| - 1
    ensures var t' := Survivors(t, n);
      && WellConfigured(t') && SameShape(t', Seen(n)) && AllAlive(t', Seen(n)) && ValidSchedule(t', a + b)
      && var m := Run(n, ScheduleEvents(t', Seen(n), a + b));
         && |m.routers| == |t|
         && var j := Carry(t, m.routers, u, dst, ttl);
            if Reachable(t', u, key) then Delivered(j) else Dropped(j, dst == t[u].selfIp, ttl)
  {
    var t' := Survivors(t, n);
    SettledIsSound(t, n);
    SurvivorsAreConfigured(t, n);
    SurvivorsAreAlive(t, n);
    SurvivorsAreStale(t, n);
    SamePorts(t, n);
    var more := ScheduleEvents(t', Seen(n), a + b);
    RoundsAreRun(t', Seen(n), a + b);
    RunIsSeen(t, n, more);
    RunKeepsHopsAlive(n, more);
    SettledIsSound(t, Run(n, more));
    SizeIs(t, Run(n, more));
    hide *;
    DeliversAfterStale(t', Seen(n), a, b, u, key, dst, ttl);
    CarriesSame(t, t', Run(n, more), u, dst, ttl);
  }

  lemma SamePorts(t: Topology, n: Network)
    requires Sound(t, n) && |n.routers| == |t|
    ensures var t' := Survivors(t, n);
      && |t'| == |t| && (forall x | 0 <= x < |t| :: t[x].ctrlPort == t'[x].ctrlPort)
      && (DataPortsOk(t) ==> DataPortsOk(t'))
  {
  }
}
