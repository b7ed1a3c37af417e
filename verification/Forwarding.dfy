/** Data packets carried from router to router by their tables.  Next-hop chains
    are loop free after any number of rounds, so packets arrive. */
module Forwarding {
  import opened Common
  import opened RoutingTable
  import opened RouterNode
  import opened Walks
  import opened TableVectors
  import opened DvNetwork
  import opened DvRounds

  /** The router that listens for data on this port, or their number. */
  function ListenerFrom(t: Topology, dataPort: Port, i: nat): (k: nat)
    requires i <= |t|
    ensures i <= k <= |t|
    ensures k < |t| ==> DataPort(t[k].ctrlPort) == dataPort
    ensures forall j | i <= j < k :: DataPort(t[j].ctrlPort) != dataPort
    decreases |t| - i
  {
    if i == |t| || DataPort(t[i].ctrlPort) == dataPort then i else ListenerFrom(t, dataPort, i + 1)
  }

  /** The routers a packet is forwarded by, and what the last one reached does. */
  datatype Journey = Journey(forwarders: seq<nat>, end: Verdict)

  /** Carries a packet on from router `u`.  The routers may be in any state. */
  function Carry(t: Topology, rs: seq<RouterState>, u: nat, dst: Ip, ttl: nat): (j: Journey)
    requires u < |t| == |rs|
    ensures |j.forwarders| <= ttl
    ensures j.end.Sent? ==> ListenerFrom(t, j.end.dataPort, 0) == |t|
    decreases ttl
  {
    var v := Forward(rs[u], dst, ttl);
    if !v.Sent? then Journey([], v)
    else
      var next := ListenerFrom(t, v.dataPort, 0);
      if next == |t| then Journey([u], v)
      else
        var rest := Carry(t, rs, next, dst, v.ttl);
        Journey([u] + rest.forwarders, rest.end)
  }

  /** The same while tables change: the packet finds the routers in state `rss[0]`,
      after one hop in state `rss[1]`, and so on, the last state staying. */
  function CarryAmidChanges(t: Topology, rss: seq<seq<RouterState>>, u: nat, dst: Ip, ttl: nat): (j: Journey)
    requires u < |t| && rss != [] && forall i | 0 <= i < |rss| :: |rss[i]| == |t|
    ensures |j.forwarders| <= ttl
    ensures j.end.Sent? ==> ListenerFrom(t, j.end.dataPort, 0) == |t|
    decreases ttl
  {
    var v := Forward(rss[0][u], dst, ttl);
    if !v.Sent? then Journey([], v)
    else
      var next := ListenerFrom(t, v.dataPort, 0);
      if next == |t| then Journey([u], v)
      else
        var rest := CarryAmidChanges(t, if |rss| > 1 then rss[1..] else rss, next, dst, v.ttl);
        Journey([u] + rest.forwarders, rest.end)
  }

  /** Without changes it is the same journey. */
  lemma {:induction false} CarryIsUnchanging(t: Topology, rs: seq<RouterState>, u: nat, dst: Ip, ttl: nat)
    requires u < |t| == |rs|
    ensures CarryAmidChanges(t, [rs], u, dst, ttl) == Carry(t, rs, u, dst, ttl)
    decreases ttl
  {
    var v := Forward(rs[u], dst, ttl);
    if v.Sent? && ListenerFrom(t, v.dataPort, 0) < |t| {
      CarryIsUnchanging(t, rs, ListenerFrom(t, v.dataPort, 0), dst, v.ttl);
    }
  }

  /** The state that a packet finds after `i` hops. */
  function Found(rss: seq<seq<RouterState>>, i: nat): seq<RouterState>
    requires rss != []
  {
    if i < |rss| then rss[i] else rss[|rss| - 1]
  }

  /** `v` decides hop `i` of the journey: the next forwarder is whoever listens where it
      sends, and the journey ends if nobody does or it is not sent on from there. */
  predicate HopIs(t: Topology, rss: seq<seq<RouterState>>, j: Journey, i: nat, dst: Ip, v: Verdict)
    requires rss != [] && i < |j.forwarders| && forall k | 0 <= k < |rss| :: |rss[k]| == |t|
  {
    && v.Sent?
    && var next := ListenerFrom(t, v.dataPort, 0);
    if i + 1 < |j.forwarders| then next == j.forwarders[i + 1]
    else j.end == if next == |t| then v else Forward(Found(rss, i + 1)[next], dst, v.ttl)
  }

  lemma Onward(t: Topology, rss: seq<seq<RouterState>>, u: nat, dst: Ip, ttl: nat)
    requires u < |t| && rss != [] && forall k | 0 <= k < |rss| :: |rss[k]| == |t|
    ensures var j, v := CarryAmidChanges(t, rss, u, dst, ttl), Forward(rss[0][u], dst, ttl);
      && (!v.Sent? ==> j == Journey([], v))
      && (v.Sent? ==>
            && v.ttl == ttl - 1
            && var next := ListenerFrom(t, v.dataPort, 0);
            if next == |t| then j == Journey([u], v)
            else
              var rest := CarryAmidChanges(t, if |rss| > 1 then rss[1..] else rss, next, dst, v.ttl);
              j == Journey([u] + rest.forwarders, rest.end))
  {
    hide ListenerFrom;
  }

  lemma Later(t: Topology, rss: seq<seq<RouterState>>, i: nat)
    requires rss != [] && forall k | 0 <= k < |rss| :: |rss[k]| == |t|
    ensures var later := if |rss| > 1 then rss[1..] else rss;
      && (forall k | 0 <= k < |later| :: |later[k]| == |t|)
      && Found(later, i) == Found(rss, i + 1) && |Found(later, i)| == |t| && Found(rss, 0) == rss[0]
  {
  }

  lemma FirstHopIs(t: Topology, rss: seq<seq<RouterState>>, u: nat, dst: Ip, ttl: nat)
    requires u < |t| && rss != [] && forall k | 0 <= k < |rss| :: |rss[k]| == |t|
    ensures var j, v := CarryAmidChanges(t, rss, u, dst, ttl), Forward(rss[0][u], dst, ttl);
      && (if v.Sent? then j.forwarders != [] && j.forwarders[0] == u && HopIs(t, rss, j, 0, dst, v)
          else j == Journey([], v))
  {
    Onward(t, rss, u, dst, ttl);
    var v := Forward(rss[0][u], dst, ttl);
    if v.Sent? && ListenerFrom(t, v.dataPort, 0) < |t| {
      Later(t, rss, 0);
      Onward(t, if |rss| > 1 then rss[1..] else rss, ListenerFrom(t, v.dataPort, 0), dst, v.ttl);
    }
    hide Forward, ListenerFrom, CarryAmidChanges;
  }

  lemma HopBehind(t: Topology, rss: seq<seq<RouterState>>, u: nat, rest: Journey, i: nat, dst: Ip, v: Verdict)
    requires rss != [] && (forall k | 0 <= k < |rss| :: |rss[k]| == |t|) && 0 < i <= |rest.forwarders|
    requires HopIs(t, if |rss| > 1 then rss[1..] else rss, rest, i - 1, dst, v)
    ensures HopIs(t, rss, Journey([u] + rest.forwarders, rest.end), i, dst, v)
    ensures ([u] + rest.forwarders)[i] == rest.forwarders[i - 1]
  {
    Later(t, rss, i);
    hide Forward, ListenerFrom, Found;
  }

  /** Each hop is decided by the router the packet has got to, in the state it then has, with
      the TTL that is left. */
  lemma {:induction false} EachHopAsFound(t: Topology, rss: seq<seq<RouterState>>, u: nat, dst: Ip, ttl: nat, i: nat)
    requires u < |t| && rss != [] && forall k | 0 <= k < |rss| :: |rss[k]| == |t|
    requires i < |CarryAmidChanges(t, rss, u, dst, ttl).forwarders|
    ensures var j := CarryAmidChanges(t, rss, u, dst, ttl);
      && i < ttl && j.forwarders[i] < |t|
      && HopIs(t, rss, j, i, dst, Forward(Found(rss, i)[j.forwarders[i]], dst, ttl - i))
    decreases ttl
  {
    hide *;
    FirstHopIs(t, rss, u, dst, ttl);
    Later(t, rss, if i > 0 then i - 1 else 0);
    if i > 0 {
      Onward(t, rss, u, dst, ttl);
      var next := ListenerFrom(t, Forward(rss[0][u], dst, ttl).dataPort, 0);
      var later := if |rss| > 1 then rss[1..] else rss;
      var rest := CarryAmidChanges(t, later, next, dst, ttl - 1);
      EachHopAsFound(t, later, next, dst, ttl - 1, i - 1);
      HopBehind(t, rss, u, rest, i, dst, Forward(Found(later, i - 1)[rest.forwarders[i - 1]], dst, ttl - i));
    }
  }

  // ----- next-hop chains -----

  /** The router that `u`'s entry for `key` names as its next hop. */
  ghost function NextHop(t: Topology, rs: seq<RouterState>, u: nat, key: Key): (v: nat)
    requires WellConfigured(t) && |rs| == |t| && u < |t| && FeasibleAt(t, rs, u, key)
    requires 0 < Entry(rs[u].routes, key).cost < INF_COST
    ensures CoveredBy(t, rs, u, Entry(rs[u].routes, key), v)
    ensures Entry(rs[v].routes, key).cost < Entry(rs[u].routes, key).cost
  {
    var v: nat :| CoveredBy(t, rs, u, Entry(rs[u].routes, key), v);
    ViaIdentifies(t, u, v, v);
    v
  }

  /** The routers from `u` along next hops to one attached to `key`. */
  ghost function Chain(t: Topology, n: Network, u: nat, key: Key): (c: seq<nat>)
    requires WellConfigured(t) && Good(t, n) && u < |t| && Entry(n.routers[u].routes, key).cost < INF_COST
    ensures c != [] && c[0] == u
    decreases Entry(n.routers[u].routes, key).cost
  {
    if Entry(n.routers[u].routes, key).cost == 0 then [u]
    else
      assert FeasibleAt(t, n.routers, u, key);
      [u] + Chain(t, n, NextHop(t, n.routers, u, key), key)
  }

  ghost predicate CostsFall(t: Topology, n: Network, key: Key, c: seq<nat>) {
    && |n.routers| == |t| && (forall i | 0 <= i < |c| :: c[i] < |t|)
    && forall i, j | 0 <= i < j < |c| :: Entry(n.routers[c[i]].routes, key).cost >
         Entry(n.routers[c[j]].routes, key).cost
  }

  lemma {:induction false} ChainFalls(t: Topology, n: Network, u: nat, key: Key)
    requires WellConfigured(t) && Good(t, n) && u < |t| && Entry(n.routers[u].routes, key).cost < INF_COST
    ensures CostsFall(t, n, key, Chain(t, n, u, key))
    decreases Entry(n.routers[u].routes, key).cost
  {
    hide Entry, WellConfigured;
    if Entry(n.routers[u].routes, key).cost != 0 {
      assert FeasibleAt(t, n.routers, u, key);
      var v := NextHop(t, n.routers, u, key);
      ChainFalls(t, n, v, key);
      ConsFalls(t, n, key, u, Chain(t, n, v, key));
    }
  }

  lemma ConsFalls(t: Topology, n: Network, key: Key, u: nat, rest: seq<nat>)
    requires CostsFall(t, n, key, rest) && rest != [] && u < |t|
    requires Entry(n.routers[u].routes, key).cost > Entry(n.routers[rest[0]].routes, key).cost
    ensures CostsFall(t, n, key, [u] + rest)
  {
    hide Entry;
    var c := [u] + rest;
    forall i, j | 0 <= i < j < |c|
      ensures Entry(n.routers[c[i]].routes, key).cost > Entry(n.routers[c[j]].routes, key).cost
    {
      assert c[j] == rest[j - 1];
      assert i > 0 ==> c[i] == rest[i - 1];
    }
  }

  /** Next-hop chains never return to a router, so none is longer than the
      network. */
  lemma ChainIsLoopFree(t: Topology, n: Network, u: nat, key: Key)
    requires WellConfigured(t) && Good(t, n) && u < |t| && Entry(n.routers[u].routes, key).cost < INF_COST
    ensures var c := Chain(t, n, u, key);
      (forall i, j | 0 <= i < j < |c| :: c[i] != c[j]) && |c| <= |t|
  {
    ChainFalls(t, n, u, key);
    var c := Chain(t, n, u, key);
    if |c| > |t| {
      var i, j := Pigeonhole(c, |t|);
      assert false;
    }
  }

  // ----- delivery -----

  /** `key` is the only destination in the network that a lookup of `dst` can
      choose, as when prefixes are disjoint. */
  ghost predicate OnlyMatch(t: Topology, key: Key, dst: Ip) {
    && Matches(key, dst) && key.mask != 0
    && forall k | k in AllKeys(t) && Matches(k, dst) && k.mask != 0 :: k == key
  }

  /** Adding the data-port offset gives no router port 0. */
  ghost predicate DataPortsOk(t: Topology) {
    forall u | 0 <= u < |t| :: DataPort(t[u].ctrlPort) != 0
  }

  lemma LookupFinds(keys: set<Key>, routes: seq<Route>, key: Key, dst: Ip)
    requires Fits(keys, routes) && IndexOf(routes, key) < |routes| && Matches(key, dst) && key.mask != 0
    requires forall k | k in keys && Matches(k, dst) && k.mask != 0 :: k == key
    ensures Lookup(routes, dst) == Some(IndexOf(routes, key))
  {
    LookupInIsFirstGreatest(routes, dst, |routes|);
    var best := Lookup(routes, dst);
    assert best.Some? ==> routes[best.value].key in KeysOf(routes);
    if best.Some? {
      IndexOfIs(routes, key, best.value);
    }
  }

  lemma SameIndexByIp(s: RouterState, t0: RouterState, ip: Ip, i: nat)
    requires SameLinks(s, t0) && LinksOk(t0.neighbors) && i < |s.neighbors| && s.neighbors[i].ip == ip
    ensures NeighborByIp(s.neighbors, ip) == i
  {
    FirstIp(s.neighbors, ip, i);
  }

  lemma DataPortIdentifies(a: Port, b: Port)
    requires DataPort(a) == DataPort(b)
    ensures a == b
  {
  }

  lemma ListenerIs(t: Topology, v: nat)
    requires WellConfigured(t) && v < |t|
    ensures ListenerFrom(t, DataPort(t[v].ctrlPort), 0) == v
  {
    hide DataPort;
    var k := ListenerFrom(t, DataPort(t[v].ctrlPort), 0);
    DataPortIdentifies(t[k].ctrlPort, t[v].ctrlPort);
    assert k < v ==> PortsDiffer(t, k, v);
  }

  /** What one router of the network does with a packet for a destination it can
      reach. */
  lemma ForwardsAlongChain(t: Topology, n: Network, u: nat, key: Key, dst: Ip, ttl: nat)
    requires WellConfigured(t) && Good(t, n) && DataPortsOk(t) && OnlyMatch(t, key, dst) && u < |t|
    requires Entry(n.routers[u].routes, key).cost < INF_COST
    ensures FeasibleAt(t, n.routers, u, key)
    ensures var e := Entry(n.routers[u].routes, key); var v := Forward(n.routers[u], dst, ttl);
      if e.cost == 0 then v == DeliverConnected
      else if dst == n.routers[u].selfIp then v == DeliverSelf
      else if ttl == 0 then v == DropTtl
      else v.Sent? && v.ttl == ttl - 1 && ListenerFrom(t, v.dataPort, 0) == NextHop(t, n.routers, u, key)
  {
    var s, e := n.routers[u], Entry(n.routers[u].routes, key);
    assert Healthy(t, u, s);
    assert FeasibleAt(t, n.routers, u, key);
    LookupFinds(AllKeys(t), s.routes, key, dst);
    hide Lookup, Matches, Fits, FeasibleAt, OnlyMatch, NextHop;
    if e.cost != 0 {
      var x := NextHop(t, n.routers, u, key);
      ViaIdentifies(t, u, x, x);
      SameIndexByIp(s, t[u], e.nextHop, LinkTo(t, u, x));
      ListenerIs(t, x);
    }
  }

  lemma CarryIs(t: Topology, rs: seq<RouterState>, u: nat, dst: Ip, ttl: nat)
    requires u < |t| == |rs|
    ensures var v := Forward(rs[u], dst, ttl);
      Carry(t, rs, u, dst, ttl) ==
        if !v.Sent? then Journey([], v)
        else
          var next := ListenerFrom(t, v.dataPort, 0);
          if next == |t| then Journey([u], v)
          else
            var rest := Carry(t, rs, next, dst, v.ttl);
            Journey([u] + rest.forwarders, rest.end)
  {
    hide Forward, ListenerFrom;
  }

  lemma ChainIs(t: Topology, n: Network, u: nat, key: Key)
    requires WellConfigured(t) && Good(t, n) && u < |t| && Entry(n.routers[u].routes, key).cost < INF_COST
    ensures FeasibleAt(t, n.routers, u, key)
    ensures Chain(t, n, u, key) ==
      if Entry(n.routers[u].routes, key).cost == 0 then [u]
      else [u] + Chain(t, n, NextHop(t, n.routers, u, key), key)
    ensures Entry(n.routers[u].routes, key).cost > 0 ==> NextHop(t, n.routers, u, key) < |t|
  {
    hide WellConfigured, NextHop, Entry;
  }

  lemma GoodSize(t: Topology, n: Network)
    requires Good(t, n)
    ensures |n.routers| == |t|
  {
  }

  lemma OneMoreForwarder(u: nat, a: seq<nat>, b: seq<nat>)
    requires a <= b
    ensures [u] + a <= [u] + b && |[u] + a| == |a| + 1 && |[u] + b| == |b| + 1
  {
  }

  /** A packet with enough TTL for the chain is delivered by the routers on it. */
  lemma {:induction false} Arrives(t: Topology, n: Network, u: nat, key: Key, dst: Ip, ttl: nat)
    requires WellConfigured(t) && Good(t, n) && DataPortsOk(t) && OnlyMatch(t, key, dst) && u < |t|
    requires Entry(n.routers[u].routes, key).cost < INF_COST
    requires ttl >= |Chain(t, n, u, key)| - 1
    ensures var j := Carry(t, n.routers, u, dst, ttl);
      && (j.end == DeliverConnected || j.end == DeliverSelf)
      && j.forwarders <= Chain(t, n, u, key)
      && (j.end == DeliverConnected ==> |j.forwarders| == |Chain(t, n, u, key)| - 1)
    decreases Entry(n.routers[u].routes, key).cost
  {
    hide *;
    GoodSize(t, n);
    ForwardsAlongChain(t, n, u, key, dst, ttl);
    ChainIs(t, n, u, key);
    CarryIs(t, n.routers, u, dst, ttl);
    if Forward(n.routers[u], dst, ttl).Sent? {
      var v := NextHop(t, n.routers, u, key);
      Arrives(t, n, v, key, dst, ttl - 1);
      OneMoreForwarder(u, Carry(t, n.routers, v, dst, ttl - 1).forwarders, Chain(t, n, v, key));
    }
  }

  lemma UnreachableIsDropped(t: Topology, n: Network, u: nat, key: Key, dst: Ip, ttl: nat)
    requires WellConfigured(t) && Good(t, n) && OnlyMatch(t, key, dst) && u < |t|
    requires Entry(n.routers[u].routes, key).cost == INF_COST
    ensures Forward(n.routers[u], dst, ttl) ==
      if dst == t[u].selfIp then DeliverSelf else if ttl == 0 then DropTtl else NoMatch
  {
    var s := n.routers[u];
    assert Healthy(t, u, s);
    LookupInIsFirstGreatest(s.routes, dst, |s.routes|);
    var best := Lookup(s.routes, dst);
    if best.Some? {
      assert s.routes[best.value].key in KeysOf(s.routes);
      IndexOfIs(s.routes, key, best.value);
    }
  }

  ghost predicate Reachable(t: Topology, u: nat, key: Key) {
    exists w :: WalkTo(t, u, key, w) && WalkCost(t, w) < INF_COST
  }

  /** Delivered somewhere, or never forwarded at all. */
  predicate Delivered(j: Journey) { j.end == DeliverConnected || j.end == DeliverSelf }

  predicate Dropped(j: Journey, own: bool, ttl: nat) {
    j.forwarders == [] && j.end == if own then DeliverSelf else if ttl == 0 then DropTtl else NoMatch
  }

  /** With TTL at least the number of routers less one, a packet is delivered from
      wherever the cost is finite, and never forwarded from anywhere else. */
  lemma DeliversIfFinite(t: Topology, n: Network, u: nat, key: Key, dst: Ip, ttl: nat)
    requires WellConfigured(t) && Good(t, n) && DataPortsOk(t) && OnlyMatch(t, key, dst) && u < |t| && ttl >= |t| - 1
    ensures |n.routers| == |t|
    ensures var j := Carry(t, n.routers, u, dst, ttl);
      if Entry(n.routers[u].routes, key).cost < INF_COST then Delivered(j) else Dropped(j, dst == t[u].selfIp, ttl)
  {
    if Entry(n.routers[u].routes, key).cost < INF_COST {
      ChainIsLoopFree(t, n, u, key);
      Arrives(t, n, u, key, dst, ttl);
    } else {
      UnreachableIsDropped(t, n, u, key, dst, ttl);
    }
  }

  /** End to end: after enough rounds a packet is delivered from wherever some walk to
      its network is cheaper than INF_COST; from anywhere else it is never forwarded. */
  lemma DeliversWhereverReachable(t: Topology, schedule: seq<seq<seq<nat>>>, u: nat, key: Key, dst: Ip, ttl: nat)
    requires WellConfigured(t) && ValidSchedule(t, schedule) && |schedule| >= |t| - 1
    requires DataPortsOk(t) && OnlyMatch(t, key, dst) && u < |t| && ttl >= |t| - 1
    ensures var j := Carry(t, Rounds(t, schedule).routers, u, dst, ttl);
      if Reachable(t, u, key) then Delivered(j) else Dropped(j, dst == t[u].selfIp, ttl)
  {
    Converges(t, schedule, u, key);
    DeliversIfFinite(t, Rounds(t, schedule), u, key, dst, ttl);
  }
}
