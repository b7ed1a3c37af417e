/** What a timeout pass does, neighbour by neighbour: who is pronounced dead, which routes
    that costs, and who is told. */
module RouterTimeouts {
  import opened RoutingTable
  import opened RouterNode

  // ----- who is pronounced dead -----

  /** The timeouts pronounce dead whoever has been silent for the dead interval, and change
      nothing else about a neighbour. */
  lemma {:induction false} AliveAfterTimeouts(s: RouterState, n: nat, now: int, i: nat)
    requires n <= |s.neighbors| && i < |s.neighbors|
    ensures var before, after := s.neighbors[i], TimeoutsOf(s, n, now).state.neighbors[i];
      && after == before.(alive := after.alive)
      && (after.alive <==> before.alive && (i < n ==> now - before.lastHeard < DEAD_INTERVAL_SEC))
  {
    if n == 0 {
    } else {
      AliveAfterTimeouts(s, n - 1, now, i);
    }
  }

  /** So a neighbour just heard is thought alive until the interval has passed since, dead
      or alive before; whether any other is does not depend on that vector, and one from an
      unknown port changes nothing. */
  lemma HeardLastsExactly(s: RouterState, from: Port, msg: seq<DvEntry>, now: int, later: int)
    ensures var heard, i := Receive(s, from, msg, now), NeighborByPort(s.neighbors, from);
      && |heard.neighbors| == |s.neighbors|
      && (i < |s.neighbors| ==>
            (Timeouts(heard, later).state.neighbors[i].alive <==> later - now < DEAD_INTERVAL_SEC))
      && (forall j | 0 <= j < |s.neighbors| && j != i ::
            Timeouts(heard, later).state.neighbors[j] == Timeouts(s, later).state.neighbors[j])
      && (i == |s.neighbors| ==> heard == s)
  {
    hide TimeoutsOf;
    var heard := Receive(s, from, msg, now);
    forall j | 0 <= j < |s.neighbors|
      ensures var before, after := heard.neighbors[j], Timeouts(heard, later).state.neighbors[j];
        && after == before.(alive := after.alive)
        && (after.alive <==> before.alive && later - before.lastHeard < DEAD_INTERVAL_SEC)
      ensures var before, after := s.neighbors[j], Timeouts(s, later).state.neighbors[j];
        && after == before.(alive := after.alive)
        && (after.alive <==> before.alive && later - before.lastHeard < DEAD_INTERVAL_SEC)
    {
      AliveAfterTimeouts(heard, |s.neighbors|, later, j);
      AliveAfterTimeouts(s, |s.neighbors|, later, j);
    }
  }

  // ----- which routes that costs -----

  /** Neighbour `i` is pronounced dead by a pass at this time. */
  predicate Dies(s: RouterState, i: nat, now: int)
    requires i < |s.neighbors|
  {
    s.neighbors[i].alive && now - s.neighbors[i].lastHeard >= DEAD_INTERVAL_SEC
  }

  /** Route `j` is reachable, and through one of the first `n` neighbours, which dies. */
  ghost predicate LosesRoute(s: RouterState, n: nat, now: int, j: nat)
    requires n <= |s.neighbors| && j < |s.routes|
  {
    exists i: nat :: i < n && Dies(s, i, now) && LeadsTo(s.routes[j], s.neighbors[i].ip)
  }

  /** A neighbour that dies takes the reachable routes through it along, and then, if there
      were any, all neighbours left are sent the table. */
  lemma OneTimeoutIs(s: RouterState, i: nat, now: int)
    requires i < |s.neighbors|
    ensures var o, ip := TimeoutOf(s, i, now), s.neighbors[i].ip;
      && |o.state.routes| == |s.routes|
      && (forall j | 0 <= j < |s.routes| ::
            o.state.routes[j] ==
              if Dies(s, i, now) && LeadsTo(s.routes[j], ip) then s.routes[j].(cost := INF_COST) else s.routes[j])
      && o.sent ==
           if Dies(s, i, now) && exists j :: 0 <= j < |s.routes| && LeadsTo(s.routes[j], ip) then Broadcast(o.state)
           else []
  {
    hide BroadcastTo;
    var after, ip := TimeoutOf(s, i, now).state.routes, s.neighbors[i].ip;
    if Dies(s, i, now) {
      assert forall j | 0 <= j < |s.routes| ::
          after[j] == if LeadsTo(s.routes[j], ip) then s.routes[j].(cost := INF_COST) else s.routes[j];
      assert after != s.routes ==> exists j :: 0 <= j < |s.routes| && after[j] != s.routes[j];
    }
  }

  lemma LosesOneMore(s: RouterState, n: nat, now: int, j: nat)
    requires 0 < n <= |s.neighbors| && j < |s.routes|
    ensures LosesRoute(s, n, now, j) <==>
      LosesRoute(s, n - 1, now, j) || (Dies(s, n - 1, now) && LeadsTo(s.routes[j], s.neighbors[n - 1].ip))
  {
  }

  /** The pass comes to each neighbour as it was before. */
  lemma DiesInPass(s: RouterState, n: nat, now: int)
    requires 0 < n <= |s.neighbors|
    ensures var before := TimeoutsOf(s, n - 1, now).state;
      && |before.neighbors| == |s.neighbors| && before.neighbors[n - 1].ip == s.neighbors[n - 1].ip
      && Dies(before, n - 1, now) == Dies(s, n - 1, now)
  {
    AliveAfterTimeouts(s, n - 1, now, n - 1);
    hide TimeoutsOf;
  }

  lemma OneMore(s: RouterState, n: nat, now: int)
    requires 0 < n <= |s.neighbors|
    ensures var before := TimeoutsOf(s, n - 1, now); var o := TimeoutOf(before.state, n - 1, now);
      TimeoutsOf(s, n, now) == Outcome(o.state, before.sent + o.sent)
  {
    hide TimeoutOf;
  }

  /** A pass makes unreachable exactly the reachable routes through neighbours that die. */
  lemma {:induction false} PassPoisons(s: RouterState, n: nat, now: int, j: nat)
    requires n <= |s.neighbors| && j < |s.routes|
    ensures var after := TimeoutsOf(s, n, now).state.routes;
      && |after| == |s.routes|
      && after[j] == if LosesRoute(s, n, now, j) then s.routes[j].(cost := INF_COST) else s.routes[j]
  {
    if n == 0 {
    } else {
      PassPoisons(s, n - 1, now, j);
      OneMore(s, n, now);
      DiesInPass(s, n, now);
      OneTimeoutIs(TimeoutsOf(s, n - 1, now).state, n - 1, now);
      LosesOneMore(s, n, now, j);
      hide TimeoutOf, TimeoutsOf, LosesRoute, Dies;
    }
  }

  // ----- who is told -----

  /** Some vector for neighbour `k` shows route `j` as unreachable. */
  ghost predicate Told(s: RouterState, sent: seq<Dispatch>, j: nat, k: nat)
    requires j < |s.routes| && k < |s.neighbors|
  {
    exists d :: d in sent && d.port == s.neighbors[k].ctrlPort && |d.entries| == |s.routes|
      && d.entries[j] == DvEntry(s.routes[j].key, INF_COST)
  }

  /** Every neighbour that is still alive after the pass has been told of every route that
      was lost. */
  lemma {:induction false} LossesAreTold(s: RouterState, n: nat, now: int, j: nat, k: nat)
    requires n <= |s.neighbors| && j < |s.routes| && k < |s.neighbors|
    requires LosesRoute(s, n, now, j) && TimeoutsOf(s, n, now).state.neighbors[k].alive
    ensures Told(s, TimeoutsOf(s, n, now).sent, j, k)
  {
    var before := TimeoutsOf(s, n - 1, now);
    var o := TimeoutOf(before.state, n - 1, now);
    AliveAfterTimeouts(s, n - 1, now, k);
    AliveAfterTimeouts(s, n, now, k);
    OneMore(s, n, now);
    LosesOneMore(s, n, now, j);
    if LosesRoute(s, n - 1, now, j) {
      hide *;
      LossesAreTold(s, n - 1, now, j, k);
      ToldFirst(s, before.sent, o.sent, j, k);
    } else {
      PassPoisons(s, n - 1, now, j);
      PassPoisons(s, n, now, j);
      DiesInPass(s, n, now);
      hide *;
      LastIsTold(s, before.state, n - 1, now, j, k);
      ToldLast(s, before.sent, o.sent, j, k);
    }
  }

  lemma LastIsTold(s: RouterState, before: RouterState, i: nat, now: int, j: nat, k: nat)
    requires i < |before.neighbors| && k < |before.neighbors| == |s.neighbors| && j < |before.routes| == |s.routes|
    requires Dies(before, i, now) && LeadsTo(before.routes[j], before.neighbors[i].ip)
    requires before.routes[j] == s.routes[j]
    requires TimeoutOf(before, i, now).state.neighbors[k].alive
    requires TimeoutOf(before, i, now).state.neighbors[k].ctrlPort == s.neighbors[k].ctrlPort
    ensures Told(s, TimeoutOf(before, i, now).sent, j, k)
  {
    var o := TimeoutOf(before, i, now);
    OneTimeoutIs(before, i, now);
    BroadcastReaches(o.state, k, |o.state.neighbors|);
    hide TimeoutOf, BroadcastTo, Dies;
    var d := Dispatch(o.state.neighbors[k].ctrlPort, Vector(o.state.routes, o.state.neighbors[k].ip));
    assert d in o.sent;
  }

  lemma ToldFirst(s: RouterState, a: seq<Dispatch>, b: seq<Dispatch>, j: nat, k: nat)
    requires j < |s.routes| && k < |s.neighbors| && Told(s, a, j, k)
    ensures Told(s, a + b, j, k)
  {
    var d :| d in a && d.port == s.neighbors[k].ctrlPort && |d.entries| == |s.routes|
      && d.entries[j] == DvEntry(s.routes[j].key, INF_COST);
    assert d in a + b;
  }

  lemma ToldLast(s: RouterState, a: seq<Dispatch>, b: seq<Dispatch>, j: nat, k: nat)
    requires j < |s.routes| && k < |s.neighbors| && Told(s, b, j, k)
    ensures Told(s, a + b, j, k)
  {
    var d :| d in b && d.port == s.neighbors[k].ctrlPort && |d.entries| == |s.routes|
      && d.entries[j] == DvEntry(s.routes[j].key, INF_COST);
    assert d in a + b;
  }

  ghost predicate NothingLost(s: RouterState, n: nat, now: int)
    requires n <= |s.neighbors|
  {
    forall j: nat | j < |s.routes| :: !LosesRoute(s, n, now, j)
  }

  /** Without a loss nobody is sent anything. */
  lemma {:induction false} NoLossNothingSent(s: RouterState, n: nat, now: int)
    requires n <= |s.neighbors| && NothingLost(s, n, now)
    ensures TimeoutsOf(s, n, now).sent == []
  {
    if n == 0 {
    } else {
      var before := TimeoutsOf(s, n - 1, now);
      OneMore(s, n, now);
      DiesInPass(s, n, now);
      OneTimeoutIs(before.state, n - 1, now);
      NothingLostBefore(s, n, now);
      hide TimeoutOf, TimeoutsOf, LosesRoute, Dies;
      NoLossNothingSent(s, n - 1, now);
      if TimeoutOf(before.state, n - 1, now).sent != [] {
        var j: nat :| j < |before.state.routes| && LeadsTo(before.state.routes[j], s.neighbors[n - 1].ip);
        TableLength(s, n - 1, now);
        PassPoisons(s, n - 1, now, j);
        LosesOneMore(s, n, now, j);
      }
    }
  }

  lemma {:induction false} TableLength(s: RouterState, n: nat, now: int)
    requires n <= |s.neighbors|
    ensures |TimeoutsOf(s, n, now).state.routes| == |s.routes|
  {
    if n == 0 {
    } else {
      TableLength(s, n - 1, now);
    }
  }

  lemma NothingLostBefore(s: RouterState, n: nat, now: int)
    requires 0 < n <= |s.neighbors| && NothingLost(s, n, now)
    ensures NothingLost(s, n - 1, now)
  {
    var m := n - 1;
    forall j: nat | j < |s.routes| ensures !LosesRoute(s, m, now, j) {
      LosesOneMore(s, n, now, j);
      assert !LosesRoute(s, n, now, j);
    }
  }
}
