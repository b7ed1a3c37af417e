/** One router: its neighbours and table as a value, what each step of the main
    loop does to that value, and the class that does it in place. */
module RouterNode {
  import opened Common
  import opened RoutingTable

  datatype Neighbor = Neighbor(ip: Ip, ctrlPort: Port, cost: Cost, lastHeard: int, alive: bool)

  datatype RouterState = RouterState(selfIp: Ip, ctrlPort: Port, neighbors: seq<Neighbor>, routes: seq<Route>)

  /** A vector handed to the network, addressed to a control port. */
  datatype Dispatch = Dispatch(port: Port, entries: seq<DvEntry>)

  datatype Outcome = Outcome(state: RouterState, sent: seq<Dispatch>)

  // ----- periodic broadcast and neighbour timeout -----

  /** The vectors sent to the first `n` neighbours that are alive. */
  function BroadcastTo(s: RouterState, n: nat): seq<Dispatch>
    requires n <= |s.neighbors|
  {
    if n == 0 then []
    else
      var nb := s.neighbors[n - 1];
      BroadcastTo(s, n - 1) + if nb.alive then [Dispatch(nb.ctrlPort, Vector(s.routes, nb.ip))] else []
  }

  function Broadcast(s: RouterState): seq<Dispatch> { BroadcastTo(s, |s.neighbors|) }

  /** A neighbour thought alive is among those sent to. */
  lemma {:induction false} BroadcastReaches(s: RouterState, i: nat, n: nat)
    requires i < n <= |s.neighbors| && s.neighbors[i].alive
    ensures Dispatch(s.neighbors[i].ctrlPort, Vector(s.routes, s.neighbors[i].ip)) in BroadcastTo(s, n)
  {
    if i < n - 1 {
      BroadcastReaches(s, i, n - 1);
    }
  }

  /** The timeout check of neighbour `i`. */
  function TimeoutOf(s: RouterState, i: nat, now: int): (o: Outcome)
    requires i < |s.neighbors|
    ensures |o.state.neighbors| == |s.neighbors|
  {
    var nb := s.neighbors[i];
    if nb.alive && now - nb.lastHeard >= DEAD_INTERVAL_SEC then
      var after := s.(neighbors := s.neighbors[i := nb.(alive := false)], routes := Poison(s.routes, nb.ip));
      Outcome(after, if after.routes != s.routes then Broadcast(after) else [])
    else Outcome(s, [])
  }

  /** The timeout checks of the first `n` neighbours. */
  function TimeoutsOf(s: RouterState, n: nat, now: int): (o: Outcome)
    requires n <= |s.neighbors|
    ensures |o.state.neighbors| == |s.neighbors|
  {
    if n == 0 then Outcome(s, [])
    else
      var before := TimeoutsOf(s, n - 1, now);
      var o := TimeoutOf(before.state, n - 1, now);
      Outcome(o.state, before.sent + o.sent)
  }

  function Timeouts(s: RouterState, now: int): (o: Outcome)
    ensures |o.state.neighbors| == |s.neighbors|
  {
    TimeoutsOf(s, |s.neighbors|, now)
  }

  // ----- receiving a vector -----

  /** The first neighbour from `i` on with this control port, or their number. */
  function PortFrom(ns: seq<Neighbor>, port: Port, i: nat): (k: nat)
    requires i <= |ns|
    ensures i <= k <= |ns|
    ensures k < |ns| ==> ns[k].ctrlPort == port
    ensures forall j | i <= j < k :: ns[j].ctrlPort != port
    decreases |ns| - i
  {
    if i == |ns| || ns[i].ctrlPort == port then i else PortFrom(ns, port, i + 1)
  }

  function NeighborByPort(ns: seq<Neighbor>, port: Port): nat { PortFrom(ns, port, 0) }

  function IpFrom(ns: seq<Neighbor>, ip: Ip, i: nat): (k: nat)
    requires i <= |ns|
    ensures i <= k <= |ns|
    ensures k < |ns| ==> ns[k].ip == ip
    ensures forall j | i <= j < k :: ns[j].ip != ip
    decreases |ns| - i
  {
    if i == |ns| || ns[i].ip == ip then i else IpFrom(ns, ip, i + 1)
  }

  function NeighborByIp(ns: seq<Neighbor>, ip: Ip): nat { IpFrom(ns, ip, 0) }

  /** A vector from a known neighbour revives that neighbour and is applied; one
      from anybody else is ignored. */
  function Receive(s: RouterState, from: Port, msg: seq<DvEntry>, now: int): RouterState {
    var i := NeighborByPort(s.neighbors, from);
    if i == |s.neighbors| then s
    else
      var nb := s.neighbors[i];
      s.(neighbors := s.neighbors[i := nb.(lastHeard := now, alive := true)],
         routes := ApplyVector(s.routes, nb.ip, nb.cost, msg, |msg|))
  }

  // ----- forwarding a data packet -----

  datatype Verdict =
    | DeliverConnected
    | DeliverSelf
    | DropTtl
    | NoMatch
    | NextHopDown
    | Sent(dataPort: Port, via: Ip, ttl: nat)

  function DataPort(ctrlPort: Port): Port { (ctrlPort + DATA_PORT_OFFSET) % 65536 }

  function Forward(s: RouterState, dst: Ip, ttl: nat): Verdict {
    var m := Lookup(s.routes, dst);
    if m.Some? && s.routes[m.value].cost == 0 && s.routes[m.value].nextHop == NO_HOP then DeliverConnected
    else if dst == s.selfIp then DeliverSelf
    else if ttl == 0 then DropTtl
    else if m.None? || s.routes[m.value].cost >= INF_COST then NoMatch
    else
      var hop := if s.routes[m.value].nextHop == NO_HOP then dst else s.routes[m.value].nextHop;
      var i := NeighborByIp(s.neighbors, hop);
      if i < |s.neighbors| && !s.neighbors[i].alive then NextHopDown
      else if i == |s.neighbors| || DataPort(s.neighbors[i].ctrlPort) == 0 then NoMatch
      else Sent(DataPort(s.neighbors[i].ctrlPort), hop, ttl - 1)
  }

  // ----- the program's own form -----

  class Router {
    const selfIp: Ip
    const ctrlPort: Port
    var numNeighbors: nat
    const neighbors: array<Neighbor>
    var numRoutes: nat
    const routes: array<Route>

    ghost predicate Valid()
      reads this, neighbors, routes
    {
      && neighbors.Length == MAX_NEIGH && numNeighbors <= MAX_NEIGH
      && routes.Length == MAX_DEST && numRoutes <= MAX_DEST
    }

    ghost function Table(): seq<Route>
      requires Valid()
      reads this, neighbors, routes
    {
      routes[..numRoutes]
    }

    ghost function State(): RouterState
      requires Valid()
      reads this, neighbors, routes
    {
      RouterState(selfIp, ctrlPort, neighbors[..numNeighbors], routes[..numRoutes])
    }

    /** The router as configured. */
    constructor (s: RouterState)
      requires |s.neighbors| <= MAX_NEIGH && |s.routes| <= MAX_DEST
      ensures Valid() && State() == s && fresh(neighbors) && fresh(routes)
    {
      selfIp, ctrlPort := s.selfIp, s.ctrlPort;
      numNeighbors, numRoutes := |s.neighbors|, |s.routes|;
      neighbors := new Neighbor[MAX_NEIGH](i =>
        if 0 <= i < |s.neighbors| then s.neighbors[i] else Neighbor(NO_HOP, 0, 0, 0, false));
      routes := new Route[MAX_DEST](i =>
        if 0 <= i < |s.routes| then s.routes[i] else Route(Key(NO_HOP, NO_HOP), NO_HOP, 0));
    }

    /** The index of `key`'s entry, or `numRoutes` when the table is full. */
    method RtFindOrAdd(key: Key) returns (i: nat)
      requires Valid()
      modifies this`numRoutes, routes
      ensures Valid() && Table() == FindOrAdd(old(Table()), key) && i == IndexOf(Table(), key)
    {
      i := 0;
      while i < numRoutes
        invariant i <= numRoutes
        invariant forall j | 0 <= j < i :: routes[j].key != key
      {
        if routes[i].key == key {
          FirstIndex(Table(), key, i);
          return;
        }
        i := i + 1;
      }
      FirstIndex(Table(), key, i);
      if numRoutes >= MAX_DEST {
        return;
      }
      ghost var before := Table();
      routes[numRoutes] := Route(key, NO_HOP, INF_COST);
      numRoutes := numRoutes + 1;
      assert Table() == before + [Route(key, NO_HOP, INF_COST)];
      FirstIndex(Table(), key, i);
    }

    /** The table's best entry for `dst`, as an index. */
    method RtLookup(dst: Ip) returns (best: Option<nat>)
      requires Valid()
      ensures best == Lookup(Table(), dst)
    {
      best := None;
      var bestMask: Ip := 0;
      var i := 0;
      while i < numRoutes
        invariant i <= numRoutes
        invariant best == LookupIn(Table(), dst, i) && bestMask == BestMask(Table(), best)
      {
        if BitAnd(dst, routes[i].key.mask) == BitAnd(routes[i].key.net, routes[i].key.mask) {
          if routes[i].key.mask > bestMask {
            best, bestMask := Some(i), routes[i].key.mask;
          }
        }
        i := i + 1;
      }
    }

    /** The vector for neighbour `k`. */
    method SendDv(k: nat) returns (d: Dispatch)
      requires Valid() && k < numNeighbors
      ensures d == Dispatch(neighbors[k].ctrlPort, Vector(Table(), neighbors[k].ip))
      ensures |d.entries| == numRoutes && forall i | 0 <= i < numRoutes ::
        && d.entries[i].key == routes[i].key
        && (routes[i].nextHop == neighbors[k].ip != NO_HOP ==> d.entries[i].cost == INF_COST)
        && (routes[i].nextHop == NO_HOP || routes[i].nextHop != neighbors[k].ip ==> d.entries[i].cost == routes[i].cost)
    {
      var entries: seq<DvEntry> := [];
      var i := 0;
      while i < numRoutes
        invariant i <= numRoutes
        invariant |entries| == i
        invariant forall j | 0 <= j < i :: entries[j] == Advertised(routes[j], neighbors[k].ip)
      {
        if |entries| >= MAX_DEST {
          break;
        }
        var cost := routes[i].cost;
        if routes[i].nextHop != NO_HOP && routes[i].nextHop == neighbors[k].ip {
          cost := INF_COST;
        }
        entries := entries + [DvEntry(routes[i].key, cost)];
        i := i + 1;
      }
      d := Dispatch(neighbors[k].ctrlPort, entries);
    }

    method BroadcastDv() returns (sent: seq<Dispatch>)
      requires Valid()
      ensures sent == Broadcast(State())
    {
      sent := [];
      for i := 0 to numNeighbors
        invariant sent == BroadcastTo(State(), i)
      {
        if neighbors[i].alive {
          var d := SendDv(i);
          sent := sent + [d];
        }
      }
    }

    /** Applies a vector heard from neighbour `k`. */
    method DvUpdate(k: nat, msg: seq<DvEntry>) returns (changed: bool)
      requires Valid() && k < numNeighbors
      modifies this`numRoutes, routes
      ensures Valid()
      ensures Table() == ApplyVector(old(Table()), neighbors[k].ip, neighbors[k].cost, msg, |msg|)
      ensures changed <==> VectorChanges(old(Table()), neighbors[k].ip, neighbors[k].cost, msg, |msg|)
    {
      hide ApplyEntry, EntryChanges;
      changed := false;
      var nb := neighbors[k];
      ghost var start := Table();
      for n := 0 to |msg|
        invariant Valid() && Table() == ApplyVector(start, nb.ip, nb.cost, msg, n)
        invariant changed <==> VectorChanges(start, nb.ip, nb.cost, msg, n)
      {
        var entryChanged := ApplyOne(nb, msg[n]);
        changed := changed || entryChanged;
      }
    }

    /** The body of the update loop: one entry. */
    method ApplyOne(nb: Neighbor, e: DvEntry) returns (changed: bool)
      requires Valid()
      modifies this`numRoutes, routes
      ensures Valid() && Table() == ApplyEntry(old(Table()), nb.ip, nb.cost, e)
      ensures changed <==> EntryChanges(old(Table()), nb.ip, nb.cost, e)
    {
      changed := false;
      var i := RtFindOrAdd(e.key);
      ghost var found := Table();
      if e.cost >= INF_COST {
        if i < numRoutes && routes[i].nextHop == nb.ip && routes[i].cost < INF_COST {
          routes[i] := routes[i].(cost := INF_COST);
          changed := true;
        }
      } else if i < numRoutes {
        var newCost := nb.cost + e.cost;
        if newCost > INF_COST {
          newCost := INF_COST;
        }
        if newCost < routes[i].cost || (routes[i].nextHop == nb.ip && newCost != routes[i].cost) {
          routes[i] := routes[i].(cost := newCost, nextHop := nb.ip);
          changed := true;
        }
      }
      if i < |found| {
        assert Table() == found[i := Relax(found[i], nb.ip, nb.cost, e.cost)];
        assert changed <==> Table()[i] != found[i];
      }
    }

    /** The timeout check of the main loop. */
    method CheckTimeouts(now: int) returns (sent: seq<Dispatch>)
      requires Valid()
      modifies neighbors, routes
      ensures Valid() && Outcome(State(), sent) == Timeouts(old(State()), now)
    {
      sent := [];
      ghost var start := State();
      for i := 0 to numNeighbors
        invariant Valid() && numNeighbors == old(numNeighbors) && numRoutes == old(numRoutes)
        invariant Outcome(State(), sent) == TimeoutsOf(start, i, now)
      {
        ghost var before := State();
        var nb := neighbors[i];
        if nb.alive && now - nb.lastHeard >= DEAD_INTERVAL_SEC {
          neighbors[i] := nb.(alive := false);
          var changed := PoisonRoutes(nb.ip);
          assert State() == before.(neighbors := before.neighbors[i := nb.(alive := false)],
                                    routes := Poison(before.routes, nb.ip));
          if changed {
            var d := BroadcastDv();
            sent := sent + d;
          }
        }
      }
    }

    /** The inner loop of the timeout check. */
    method PoisonRoutes(dead: Ip) returns (changed: bool)
      requires Valid()
      modifies routes
      ensures Valid() && Table() == Poison(old(Table()), dead) && (changed <==> Table() != old(Table()))
    {
      changed := false;
      for j := 0 to numRoutes
        invariant forall m | 0 <= m < j :: routes[m] == Poison(old(Table()), dead)[m]
        invariant forall m | j <= m < numRoutes :: routes[m] == old(routes[m])
        invariant changed <==> exists m | 0 <= m < j :: routes[m] != old(routes[m])
      {
        if routes[j].nextHop == dead && routes[j].cost < INF_COST {
          routes[j] := routes[j].(cost := INF_COST);
          changed := true;
        }
      }
      assert Table() == Poison(old(Table()), dead);
      assert forall m | 0 <= m < numRoutes :: Table()[m] == routes[m] && old(Table())[m] == old(routes[m]);
    }

    /** The receive step of the main loop, for a vector from port `from`. */
    method HandleControl(from: Port, msg: seq<DvEntry>, now: int)
      requires Valid()
      modifies this`numRoutes, neighbors, routes
      ensures Valid() && State() == Receive(old(State()), from, msg, now)
    {
      var i := 0;
      while i < numNeighbors && neighbors[i].ctrlPort != from
        invariant i <= numNeighbors
        invariant forall j | 0 <= j < i :: neighbors[j].ctrlPort != from
      {
        i := i + 1;
      }
      FirstPort(State().neighbors, from, i);
      if i < numNeighbors {
        ghost var before := State();
        neighbors[i] := neighbors[i].(lastHeard := now);
        if !neighbors[i].alive {
          neighbors[i] := neighbors[i].(alive := true);
        }
        var _ := DvUpdate(i, msg);
        assert State().neighbors == before.neighbors[i := before.neighbors[i].(lastHeard := now, alive := true)];
      }
    }

    /** Delivers, forwards or drops a data packet. */
    method ForwardData(dst: Ip, ttl: nat) returns (v: Verdict)
      requires Valid()
      ensures v == Forward(State(), dst, ttl)
    {
      var match_ := RtLookup(dst);
      if match_.Some? && routes[match_.value].cost == 0 && routes[match_.value].nextHop == NO_HOP {
        return DeliverConnected;
      }
      if dst == selfIp {
        return DeliverSelf;
      }
      if ttl == 0 {
        return DropTtl;
      }
      var route := RtLookup(dst);
      if route.None? || routes[route.value].cost >= INF_COST {
        return NoMatch;
      }
      var nextHop := routes[route.value].nextHop;
      if nextHop == NO_HOP {
        nextHop := dst;
      }
      var i := 0;
      while i < numNeighbors && neighbors[i].ip != nextHop
        invariant i <= numNeighbors
        invariant forall j | 0 <= j < i :: neighbors[j].ip != nextHop
      {
        i := i + 1;
      }
      FirstIp(State().neighbors, nextHop, i);
      if i < numNeighbors && !neighbors[i].alive {
        return NextHopDown;
      }
      var dataPort: Port := 0;
      if i < numNeighbors {
        dataPort := DataPort(neighbors[i].ctrlPort);
      }
      if dataPort == 0 {
        return NoMatch;
      }
      return Sent(dataPort, nextHop, ttl - 1);
    }
  }

  // ----- what each verdict means -----

  /** Neighbour `i` is the first with this address. */
  ghost predicate FirstWithIp(ns: seq<Neighbor>, ip: Ip, i: nat) {
    i < |ns| && ns[i].ip == ip && forall j | 0 <= j < i :: ns[j].ip != ip
  }

  /** The route looked up is a connected one. */
  ghost predicate IsConnected(s: RouterState, m: Option<nat>) {
    m.Some? && m.value < |s.routes| && s.routes[m.value].cost == 0 && s.routes[m.value].nextHop == NO_HOP
  }

  /** The packet is neither for this router nor for a network attached to it, and may
      still be forwarded. */
  ghost predicate Passes(s: RouterState, dst: Ip, ttl: nat) {
    !IsConnected(s, Lookup(s.routes, dst)) && dst != s.selfIp && ttl > 0
  }

  ghost predicate HasRoute(s: RouterState, m: Option<nat>) {
    m.Some? && m.value < |s.routes| && s.routes[m.value].cost < INF_COST
  }

  /** Where a packet goes whose route is this one. */
  ghost function Hop(s: RouterState, m: Option<nat>, dst: Ip): Ip
    requires HasRoute(s, m)
  {
    if s.routes[m.value].nextHop == NO_HOP then dst else s.routes[m.value].nextHop
  }

  /** Each verdict is given in these circumstances and no others. */
  lemma VerdictIs(s: RouterState, dst: Ip, ttl: nat)
    ensures var v, m, ns := Forward(s, dst, ttl), Lookup(s.routes, dst), s.neighbors;
      && (v == DeliverConnected <==> IsConnected(s, m))
      && (v == DeliverSelf <==> !IsConnected(s, m) && dst == s.selfIp)
      && (v == DropTtl <==> !IsConnected(s, m) && dst != s.selfIp && ttl == 0)
      && (Passes(s, dst, ttl) && !HasRoute(s, m) ==> v == NoMatch)
      && (v == NoMatch ==> Passes(s, dst, ttl))
      && (Passes(s, dst, ttl) && HasRoute(s, m) ==>
            var hop := Hop(s, m, dst);
            && (v == NextHopDown <==> exists i: nat :: FirstWithIp(ns, hop, i) && !ns[i].alive)
            && (v.Sent? <==> exists i: nat :: FirstWithIp(ns, hop, i) && ns[i].alive && DataPort(ns[i].ctrlPort) != 0)
            && forall i: nat | FirstWithIp(ns, hop, i) && v.Sent? ::
                 v == Sent(DataPort(ns[i].ctrlPort), hop, ttl - 1))
      && (v == NextHopDown || v.Sent? ==> Passes(s, dst, ttl) && HasRoute(s, m))
  {
    var m := Lookup(s.routes, dst);
    assert m.Some? ==> m.value < |s.routes|;
    hide Lookup, DataPort;
    if HasRoute(s, m) {
      OnlyOneIsFirst(s.neighbors, Hop(s, m, dst));
    }
  }

  /** A data port is the offset of 1,000 above the control port, modulo the port numbers. */
  lemma DataPortIs(ctrlPort: Port)
    ensures DataPort(ctrlPort) == if ctrlPort + 1000 < 65536 then ctrlPort + 1000 else ctrlPort + 1000 - 65536
  {
  }

  lemma OnlyOneIsFirst(ns: seq<Neighbor>, ip: Ip)
    ensures forall i: nat | FirstWithIp(ns, ip, i) :: i == NeighborByIp(ns, ip)
    ensures NeighborByIp(ns, ip) < |ns| ==> FirstWithIp(ns, ip, NeighborByIp(ns, ip))
  {
    forall i: nat | FirstWithIp(ns, ip, i) ensures i == NeighborByIp(ns, ip) {
      FirstIp(ns, ip, i);
    }
  }

  // ----- a search that stops at its first hit finds the function's index -----

  lemma FirstPort(ns: seq<Neighbor>, port: Port, i: nat)
    requires i <= |ns| && (i < |ns| ==> ns[i].ctrlPort == port)
    requires forall j | 0 <= j < i :: ns[j].ctrlPort != port
    ensures NeighborByPort(ns, port) == i
  {
  }

  lemma FirstIp(ns: seq<Neighbor>, ip: Ip, i: nat)
    requires i <= |ns| && (i < |ns| ==> ns[i].ip == ip)
    requires forall j | 0 <= j < i :: ns[j].ip != ip
    ensures NeighborByIp(ns, ip) == i
  {
  }
}
