/** Convergence without rounds: routers announce and hear in any order whatever, as
    long as nobody is left out for ever and no vector is too old. */
module DvAsync {
  import opened RoutingTable
  import opened RouterNode
  import opened TableVectors
  import opened Walks
  import opened DvNetwork
  import opened DvRounds
  import opened ShortestCosts
  import opened DvTrace
  import opened DvRecovery

  // ----- fair runs -----

  /** A run cut into epochs. */
  type Epochs = seq<seq<Event>>

  /** The network when epoch `k` begins. */
  function Start(n: Network, es: Epochs, k: nat): Network
    requires k <= |es|
  {
    if k == 0 then n else Run(Start(n, es, k - 1), es[k - 1])
  }

  /** The network after the first `i` events of epoch `k`. */
  function At(n: Network, es: Epochs, k: nat, i: nat): Network
    requires k < |es| && i <= |es[k]|
  {
    Run(Start(n, es, k), es[k][..i])
  }

  /** Event `i` of epoch `k` is an announcement of router `v` that sends `p`. */
  ghost predicate Sends(n: Network, es: Epochs, k: nat, i: nat, v: nat, p: Packet) {
    && k < |es| && i < |es[k]| && es[k][i] == Announce(v) && v < |At(n, es, k, i).routers|
    && var s := At(n, es, k, i).routers[v]; p in Packets(s.ctrlPort, Broadcast(s))
  }

  /** The vector was sent in epoch `k`, before its event `i`, or in the one before. */
  ghost predicate Recent(n: Network, es: Epochs, k: nat, i: nat, p: Packet) {
    exists k': nat, i': nat, v: nat :: Sends(n, es, k', i', v, p) && ((k' == k && i' < i) || k' + 1 == k)
  }

  /** In epoch `k` router `u` hears `v`. */
  ghost predicate Hears(t: Topology, n: Network, es: Epochs, k: nat, u: nat, v: nat)
    requires k < |es| && u < |t| && v < |t|
  {
    exists i: nat :: HearsAt(t, n, es, k, i, u, v)
  }

  ghost predicate HearsAt(t: Topology, n: Network, es: Epochs, k: nat, i: nat, u: nat, v: nat)
    requires k < |es| && u < |t| && v < |t|
  {
    && i < |es[k]| && es[k][i].Hear? && es[k][i].u == u
    && es[k][i].p.from == t[v].ctrlPort && es[k][i].p.to == t[u].ctrlPort && es[k][i].p in At(n, es, k, i).inFlight
  }

  /** No timeouts; what is heard is recent; and every router hears each of its
      neighbours at least once an epoch. */
  ghost predicate Fair(t: Topology, n: Network, es: Epochs) {
    && (forall k, i | 0 <= k < |es| && 0 <= i < |es[k]| :: !es[k][i].Check?)
    && (forall k: nat, i: nat | 0 < k < |es| && i < |es[k]| && es[k][i].Hear? :: Recent(n, es, k, i, es[k][i].p))
    && (forall k, u: nat, v: nat | 0 <= k < |es| && Linked(t, u, v) :: Hears(t, n, es, k, u, v))
  }

  // ----- what every point of the run has -----

  lemma {:induction false} StartIsSound(t: Topology, n: Network, es: Epochs, k: nat)
    requires WellConfigured(t) && Recoverable(t, n) && k <= |es|
    ensures Recoverable(t, Start(n, es, k)) && |Start(n, es, k).routers| == |t|
  {
    hide Recoverable, WellConfigured, Run;
    if k == 0 {
      SizeOf(t, n);
    } else {
      StartIsSound(t, n, es, k - 1);
      RunIsRecoverable(t, Start(n, es, k - 1), es[k - 1]);
      SizeOf(t, Start(n, es, k));
    }
  }

  lemma SizeOf(t: Topology, n: Network)
    requires Recoverable(t, n)
    ensures |n.routers| == |t|
  {
  }

  lemma AtIsSound(t: Topology, n: Network, es: Epochs, k: nat, i: nat)
    requires WellConfigured(t) && Recoverable(t, n) && k < |es| && i <= |es[k]|
    ensures Recoverable(t, At(n, es, k, i)) && |At(n, es, k, i).routers| == |t|
  {
    hide Recoverable, WellConfigured, Run;
    StartIsSound(t, n, es, k);
    RunIsRecoverable(t, Start(n, es, k), es[k][..i]);
    SizeOf(t, At(n, es, k, i));
  }

  lemma AtNext(n: Network, es: Epochs, k: nat, i: nat)
    requires k < |es| && i < |es[k]|
    ensures At(n, es, k, i + 1) == Step(At(n, es, k, i), es[k][i])
    ensures At(n, es, k, 0) == Start(n, es, k)
    ensures At(n, es, k, |es[k]|) == Start(n, es, k + 1)
  {
    assert es[k][..i + 1][..i] == es[k][..i];
    assert es[k][..|es[k]|] == es[k];
  }

  lemma AtEnds(n: Network, es: Epochs, k: nat)
    requires k < |es|
    ensures At(n, es, k, 0) == Start(n, es, k) && At(n, es, k, |es[k]|) == Start(n, es, k + 1)
  {
    assert es[k][..|es[k]|] == es[k];
  }

  // ----- one vector -----

  ghost predicate Right(t: Topology, m: Network, u: nat, key: Key)
    requires |m.routers| == |t| && u < |t|
  {
    Entry(m.routers[u].routes, key).cost == Dist(t, u, key)
  }

  /** What is sent to `u` by a router in state `s` is its vector for `u`. */
  lemma {:induction false} SentIs(t: Topology, z: nat, s: RouterState, u: nat, n: nat, d: Dispatch)
    requires WellConfigured(t) && z < |t| && u < |t| && SameLinks(s, t[z]) && n <= |s.neighbors|
    requires d in BroadcastTo(s, n) && d.port == t[u].ctrlPort
    ensures Linked(t, z, u) && d.entries == Vector(s.routes, Via(t, z, u))
  {
    hide WellConfigured;
    var nb := s.neighbors[n - 1];
    if d in BroadcastTo(s, n - 1) {
      SentIs(t, z, s, u, n - 1, d);
    } else {
      OnlyOneHasPort(t, z, u, n - 1);
    }
  }

  lemma OnlyOneHasPort(t: Topology, z: nat, u: nat, i: nat)
    requires WellConfigured(t) && z < |t| && u < |t| && i < |t[z].neighbors|
    requires t[z].neighbors[i].ctrlPort == t[u].ctrlPort
    ensures Linked(t, z, u) && LinkTo(t, z, u) == i
  {
    assert LinksOk(t[z].neighbors);
  }

  /** `u` hears what `z` announced when its table was `routes`. */
  lemma HearOld(t: Topology, m: Network, u: nat, z: nat, routes: seq<Route>, p: Packet, now: int, key: Key)
    requires WellConfigured(t) && Recoverable(t, m) && |m.routers| == |t| && Linked(t, u, z) && Linked(t, z, u)
    requires TracedTable(t, z, routes) && p.from == t[z].ctrlPort && p.entries == Vector(routes, Via(t, z, u))
    ensures var rs := m.routers[z := m.routers[z].(routes := routes)];
      var after := Entry(Receive(m.routers[u], p.from, p.entries, now).routes, key);
      NearerAreRight(t, rs, u, key) && Dist(t, u, key) < INF_COST &&
      (Right(t, m, u, key) || Dist(t, u, key) == LinkCost(t, u, z) + Dist(t, z, key)) ==>
        after.cost == Dist(t, u, key)
  {
    var rs := m.routers[z := m.routers[z].(routes := routes)];
    var s := m.routers[u];
    TablesAreTraced(t, m, u, key);
    hide Recoverable, Traced, TracedTable, NearerAreRight, WellConfigured;
    hide Receive, AfterHearing, Dist, VectorFor, Fits, ApplyVector;
    ReceiveOld(t, rs, u, z, s, p, now);
    TableFits(t, u, s.routes);
    TableFits(t, z, routes);
    AppliedAt(t, rs, u, z, s.routes, key);
    var e := Entry(s.routes, key);
    EntryTraced(t, z, routes, key);
    if NearerAreRight(t, rs, u, key) && Dist(t, u, key) < INF_COST {
      if Dist(t, u, key) == LinkCost(t, u, z) + Dist(t, z, key) {
        BestMakesRight(t, rs, u, z, e);
        assert BestHop(t, rs, u, z, key);
        BestIsFinite(t, rs, u, z, key);
      } else if Right(t, m, u, key) {
        RightStaysRight(t, rs, u, z, e);
      }
    }
  }

  lemma EntryTraced(t: Topology, u: nat, routes: seq<Route>, key: Key)
    requires TracedTable(t, u, routes)
    ensures Traced(t, u, Entry(routes, key))
  {
  }

  lemma ReceiveOld(t: Topology, rs: seq<RouterState>, u: nat, z: nat, s: RouterState, p: Packet, now: int)
    requires |rs| == |t| && Linked(t, u, z) && Linked(t, z, u) && SameLinks(s, t[u])
    requires p.from == t[z].ctrlPort && p.entries == Vector(rs[z].routes, Via(t, z, u))
    ensures p.entries == VectorFor(t, rs, z, u).entries
    ensures Receive(s, p.from, p.entries, now).routes ==
            ApplyVector(s.routes, Via(t, u, z), LinkCost(t, u, z), p.entries, |p.entries|)
  {
    SameIndexByPort(s, t[u], t[z].ctrlPort);
  }

  // ----- one event -----

  ghost predicate RightAt(t: Topology, n: Network, es: Epochs, k: nat, i: nat, u: nat, key: Key)
    requires k < |es| && i <= |es[k]|
  {
    var m := At(n, es, k, i); |m.routers| == |t| && u < |t| && Right(t, m, u, key)
  }

  /** From epoch `k0` on, `u` has the right cost. */
  ghost predicate RightFrom(t: Topology, n: Network, es: Epochs, k0: nat, u: nat, key: Key) {
    forall k: nat, i: nat | k0 <= k < |es| && i <= |es[k]| :: RightAt(t, n, es, k, i, u, key)
  }

  ghost predicate NearerFrom(t: Topology, n: Network, es: Epochs, k0: nat, u: nat, key: Key) {
    forall x | x in Nearer(t, u, key) :: RightFrom(t, n, es, k0, x, key)
  }

  /** Who sent a recent vector to `u`, and when. */
  lemma Sender(t: Topology, n: Network, es: Epochs, k: nat, i: nat, u: nat, p: Packet)
      returns (z: nat, k': nat, i': nat)
    requires WellConfigured(t) && Recoverable(t, n) && k < |es| && i <= |es[k]| && u < |t|
    requires Recent(n, es, k, i, p) && p.to == t[u].ctrlPort
    ensures Linked(t, z, u) && Linked(t, u, z) && p.from == t[z].ctrlPort
    ensures k <= k' + 1 && k' < |es| && i' <= |es[k']| && |At(n, es, k', i').routers| == |t|
    ensures p.entries == Vector(At(n, es, k', i').routers[z].routes, Via(t, z, u))
  {
    k', i', z :| Sends(n, es, k', i', z, p) && ((k' == k && i' < i) || k' + 1 == k);
    AtIsSound(t, n, es, k', i');
    var m := At(n, es, k', i');
    TablesAreTraced(t, m, z, Key(0, 0));
    var s := m.routers[z];
    var d :| d in Broadcast(s) && p == Packet(s.ctrlPort, d.port, d.entries);
    SentIs(t, z, s, u, |s.neighbors|, d);
  }

  lemma SameSender(t: Topology, y: nat, z: nat)
    requires WellConfigured(t) && y < |t| && z < |t| && t[y].ctrlPort == t[z].ctrlPort
    ensures y == z
  {
    assert y < z ==> PortsDiffer(t, y, z);
    assert z < y ==> PortsDiffer(t, z, y);
  }

  /** With all nearer routers right since the epoch before, `u` stays right; and it
      becomes right on hearing its best next hop. */
  lemma EventKeepsRight(t: Topology, n: Network, es: Epochs, k: nat, i: nat, u: nat, y: nat, key: Key)
    requires WellConfigured(t) && Recoverable(t, n) && Fair(t, n, es) && 0 < k < |es| && i < |es[k]|
    requires NearerFrom(t, n, es, k - 1, u, key) && Linked(t, u, y)
    requires Dist(t, u, key) == LinkCost(t, u, y) + Dist(t, y, key) < INF_COST
    requires RightAt(t, n, es, k, i, u, key) || HearsAt(t, n, es, k, i, u, y)
    ensures RightAt(t, n, es, k, i + 1, u, key)
  {
    hide Recoverable, WellConfigured, Right, Recent, Nearer, Dist, NearerFrom, Run;
    var m := At(n, es, k, i);
    AtIsSound(t, n, es, k, i);
    AtIsSound(t, n, es, k, i + 1);
    AtNext(n, es, k, i);
    var e := es[k][i];
    TablesAreTraced(t, m, u, key);
    if e.Hear? && e.u == u && e.p in m.inFlight && e.p.to == t[u].ctrlPort {
      var z, k', i' := Sender(t, n, es, k, i, u, e.p);
      if HearsAt(t, n, es, k, i, u, y) {
        SameSender(t, y, z);
      }
      HearRecent(t, n, es, k, i, k', i', u, z, e.p, e.now, key);
      HeardIs(t, m, u, e.p, e.now, key);
    } else {
      OthersChange(t, m, e, u, key);
    }
  }

  lemma OthersChange(t: Topology, m: Network, e: Event, u: nat, key: Key)
    requires |m.routers| == |t| && u < |t| && !e.Check? && m.routers[u].ctrlPort == t[u].ctrlPort
    requires !(e.Hear? && e.u == u && e.p in m.inFlight && e.p.to == t[u].ctrlPort)
    ensures |Step(m, e).routers| == |t| && Step(m, e).routers[u] == m.routers[u]
    ensures Right(t, Step(m, e), u, key) <==> Right(t, m, u, key)
  {
  }

  lemma HeardIs(t: Topology, m: Network, u: nat, p: Packet, now: int, key: Key)
    requires |m.routers| == |t| && u < |t| && p in m.inFlight && p.to == m.routers[u].ctrlPort
    ensures var after := Step(m, Hear(u, p, now));
      && |after.routers| == |t|
      && (Right(t, after, u, key) <==>
            Entry(Receive(m.routers[u], p.from, p.entries, now).routes, key).cost == Dist(t, u, key))
  {
  }

  /** The vector shows a table that was right if its sender is nearer. */
  lemma HearRecent(t: Topology, n: Network, es: Epochs, k: nat, i: nat, k': nat, i': nat,
                   u: nat, z: nat, p: Packet, now: int, key: Key)
    requires WellConfigured(t) && Recoverable(t, n) && 0 < k < |es| && i <= |es[k]|
    requires k <= k' + 1 && k' < |es| && i' <= |es[k']| && |At(n, es, k', i').routers| == |t|
    requires Linked(t, z, u) && Linked(t, u, z) && p.from == t[z].ctrlPort
    requires p.entries == Vector(At(n, es, k', i').routers[z].routes, Via(t, z, u))
    requires NearerFrom(t, n, es, k - 1, u, key) && Dist(t, u, key) < INF_COST
    ensures var m := At(n, es, k, i);
      && |m.routers| == |t|
      && (Right(t, m, u, key) || Dist(t, u, key) == LinkCost(t, u, z) + Dist(t, z, key) ==>
            Entry(Receive(m.routers[u], p.from, p.entries, now).routes, key).cost == Dist(t, u, key))
  {
    hide Recoverable, WellConfigured, Receive, Dist, Nearer, Run, At, Start;
    AtIsSound(t, n, es, k, i);
    AtIsSound(t, n, es, k', i');
    var m, routes := At(n, es, k, i), At(n, es, k', i').routers[z].routes;
    TablesAreTraced(t, At(n, es, k', i'), z, key);
    HearOld(t, m, u, z, routes, p, now, key);
    var rs := m.routers[z := m.routers[z].(routes := routes)];
    forall x | x in Nearer(t, u, key) ensures x < |t| && Entry(rs[x].routes, key).cost == Dist(t, x, key) {
      NearerIsNearer(t, x, u, key);
      assert RightFrom(t, n, es, k - 1, x, key);
      assert RightAt(t, n, es, k, i, x, key) && RightAt(t, n, es, k', i', x, key);
    }
    ThenRight(t, rs, u, key);
  }

  // ----- epoch after epoch -----

  lemma {:induction false} StaysRight(t: Topology, n: Network, es: Epochs, k: nat, i0: nat, i: nat, u: nat, y: nat,
                                      key: Key)
    requires WellConfigured(t) && Recoverable(t, n) && Fair(t, n, es) && 0 < k < |es| && i0 <= i <= |es[k]|
    requires NearerFrom(t, n, es, k - 1, u, key) && Linked(t, u, y)
    requires Dist(t, u, key) == LinkCost(t, u, y) + Dist(t, y, key) < INF_COST
    requires RightAt(t, n, es, k, i0, u, key)
    ensures RightAt(t, n, es, k, i, u, key)
    decreases i
  {
    hide *;
    if i == i0 {
    } else {
      StaysRight(t, n, es, k, i0, i - 1, u, y, key);
      EventKeepsRight(t, n, es, k, i - 1, u, y, key);
    }
  }

  lemma EpochMakesRight(t: Topology, n: Network, es: Epochs, k: nat, u: nat, y: nat, key: Key)
    requires WellConfigured(t) && Recoverable(t, n) && Fair(t, n, es) && 0 < k < |es|
    requires NearerFrom(t, n, es, k - 1, u, key) && Linked(t, u, y)
    requires Dist(t, u, key) == LinkCost(t, u, y) + Dist(t, y, key) < INF_COST
    ensures RightAt(t, n, es, k, |es[k]|, u, key)
  {
    assert u < |t| && y < |t| && Hears(t, n, es, k, u, y);
    var i: nat :| HearsAt(t, n, es, k, i, u, y);
    assert i < |es[k]|;
    hide *;
    EventKeepsRight(t, n, es, k, i, u, y, key);
    StaysRight(t, n, es, k, i + 1, |es[k]|, u, y, key);
  }

  lemma NearerSince(t: Topology, n: Network, es: Epochs, k0: nat, k: nat, u: nat, key: Key)
    requires NearerFrom(t, n, es, k0, u, key) && k0 <= k
    ensures NearerFrom(t, n, es, k, u, key)
  {
    hide Nearer, RightAt;
    forall x | x in Nearer(t, u, key) ensures RightFrom(t, n, es, k, x, key) {
      assert RightFrom(t, n, es, k0, x, key);
    }
  }

  lemma {:induction false} EpochsKeepRight(t: Topology, n: Network, es: Epochs, k0: nat, k: nat, u: nat, y: nat,
                                           key: Key)
    requires WellConfigured(t) && Recoverable(t, n) && Fair(t, n, es) && 0 < k0 <= k < |es|
    requires NearerFrom(t, n, es, k0 - 1, u, key) && Linked(t, u, y)
    requires Dist(t, u, key) == LinkCost(t, u, y) + Dist(t, y, key) < INF_COST
    ensures RightAt(t, n, es, k, |es[k]|, u, key)
    ensures k > k0 ==> forall i: nat | i <= |es[k]| :: RightAt(t, n, es, k, i, u, key)
    decreases k
  {
    hide RightAt, Fair, NearerFrom, Recoverable, WellConfigured, Dist, Start, At;
    if k == k0 {
      EpochMakesRight(t, n, es, k, u, y, key);
    } else {
      EpochsKeepRight(t, n, es, k0, k - 1, u, y, key);
      NextEpoch(t, n, es, k - 1, u, key);
      NearerSince(t, n, es, k0 - 1, k - 1, u, key);
      forall i: nat | i <= |es[k]| ensures RightAt(t, n, es, k, i, u, key) {
        StaysRight(t, n, es, k, 0, i, u, y, key);
      }
    }
  }

  lemma NextEpoch(t: Topology, n: Network, es: Epochs, k: nat, u: nat, key: Key)
    requires k + 1 < |es| && RightAt(t, n, es, k, |es[k]|, u, key)
    ensures RightAt(t, n, es, k + 1, 0, u, key)
  {
    hide Right;
    AtEnds(n, es, k);
    AtEnds(n, es, k + 1);
  }

  /** Twice as many epochs as there are nearer routers, and two more, and `u` has the
      right cost for good. */
  lemma {:induction false} SettlesForGood(t: Topology, n: Network, es: Epochs, u: nat, key: Key)
    requires WellConfigured(t) && Recoverable(t, n) && Fair(t, n, es) && u < |t|
    ensures RightFrom(t, n, es, 2 * |Nearer(t, u, key)| + 2, u, key)
    ensures 2 * |Nearer(t, u, key)| + 2 <= |es| ==> RightAt(t, n, es, |es| - 1, |es[|es| - 1]|, u, key)
    decreases |Nearer(t, u, key)|
  {
    hide RightAt, Fair, Recoverable, WellConfigured, Dist, Start, At, Nearer, Reaches;
    if Dist(t, u, key) == INF_COST || Attached(t, u, key) {
      forall k: nat, i: nat | k < |es| && i <= |es[k]| ensures RightAt(t, n, es, k, i, u, key) {
        AlwaysRight(t, n, es, k, i, u, key);
      }
    } else {
      var y := FirstHop(t, u, key);
      var r := |Nearer(t, u, key)|;
      forall x | x in Nearer(t, u, key) ensures RightFrom(t, n, es, 2 * r, x, key) {
        NearerIsNearer(t, x, u, key);
        NearerGrows(t, x, u, key);
        SettlesForGood(t, n, es, x, key);
      }
      assert NearerFrom(t, n, es, 2 * r, u, key);
      forall k: nat, i: nat | 2 * r + 2 <= k < |es| && i <= |es[k]| ensures RightAt(t, n, es, k, i, u, key) {
        EpochsKeepRight(t, n, es, 2 * r + 1, k, u, y, key);
      }
      if 2 * r + 2 <= |es| {
        EpochsKeepRight(t, n, es, 2 * r + 1, |es| - 1, u, y, key);
      }
    }
  }

  lemma AlwaysRight(t: Topology, n: Network, es: Epochs, k: nat, i: nat, u: nat, key: Key)
    requires WellConfigured(t) && Recoverable(t, n) && u < |t| && k < |es| && i <= |es[k]|
    requires Dist(t, u, key) == INF_COST || Attached(t, u, key)
    ensures RightAt(t, n, es, k, i, u, key)
  {
    hide Recoverable, WellConfigured, Dist, Start, At, Traced;
    AtIsSound(t, n, es, k, i);
    var e := Entry(At(n, es, k, i).routers[u].routes, key);
    TablesAreTraced(t, At(n, es, k, i), u, key);
    if Dist(t, u, key) == INF_COST {
      UnreachableIsRight(t, u, e);
    } else {
      AttachedIsRight(t, u, e);
    }
  }

  /** Convergence under every fair asynchronous run, from every state a run can reach:
      after twice as many epochs as there are routers each cost is the cheapest walk's,
      or INF_COST if no walk is cheaper. */
  lemma ConvergesAsynchronously(t: Topology, n: Network, es: Epochs, u: nat, key: Key)
    requires WellConfigured(t) && Recoverable(t, n) && Fair(t, n, es) && u < |t| && |es| >= 2 * |t|
    ensures var m := Start(n, es, |es|);
      && |m.routers| == |t|
      && var c := Entry(m.routers[u].routes, key).cost;
         && (forall w | WalkTo(t, u, key, w) :: c <= WalkCost(t, w))
         && (c < INF_COST ==> Reaches(t, u, key, c))
  {
    hide Fair, Recoverable, WellConfigured, Nearer, Run, Start;
    NearerIsFew(t, u, key);
    SettlesForGood(t, n, es, u, key);
    AtEnds(n, es, |es| - 1);
    forall w | WalkTo(t, u, key, w) ensures Dist(t, u, key) <= WalkCost(t, w) {
      DistIsLeast(t, u, key, WalkCost(t, w));
    }
  }
}
