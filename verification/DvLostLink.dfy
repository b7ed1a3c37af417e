/** A link that was in use is lost for good, and leaves a stale cost behind.  Three
    routers in a line; the network is attached to the last of them, and the link to it
    goes down after the first router has learned its cost. */
module DvLostLink {
  import opened RoutingTable
  import opened RouterNode
  import opened Walks
  import opened DvNetwork
  import opened DvRounds
  import opened DvRecovery
  import opened DvSilence
  import opened DvSurvivors

  const NET := Key(0x0A00_0000, 0xFF00_0000)

  function ToSecond(alive: bool): Neighbor { Neighbor(2, 102, 1, 0, alive) }

  function First(routes: seq<Route>): RouterState { RouterState(1, 101, [ToSecond(true)], routes) }

  function Second(heard: int, alive: bool, routes: seq<Route>): RouterState {
    RouterState(2, 102, [Neighbor(1, 101, 1, heard, true), Neighbor(3, 103, 1, 0, alive)], routes)
  }

  function Third(alive: bool): RouterState { RouterState(3, 103, [ToSecond(alive)], [Route(NET, NO_HOP, 0)]) }

  function Line(): Topology { [First([]), Second(0, true, []), Third(true)] }

  // ----- what is sent -----

  function FirstToSecond(): Packet { Packet(101, 102, []) }

  function ThirdToSecond(): Packet { Packet(103, 102, [DvEntry(NET, 0)]) }

  function SecondToFirst(cost: Cost): Packet { Packet(102, 101, [DvEntry(NET, cost)]) }

  /** Poisoned reverse. */
  function SecondToThird(): Packet { Packet(102, 103, [DvEntry(NET, INF_COST)]) }

  /** The third announces, the second hears it, announces, and is heard by the first.  Then
      what is on the link between the second and the third is lost, and both time out. */
  function History(): seq<Event> {
    [Announce(0), Announce(2), Hear(1, ThirdToSecond(), 0), Announce(1), Hear(0, SecondToFirst(1), 0),
     Lose(1, ThirdToSecond()), Lose(2, SecondToThird()), Hear(1, FirstToSecond(), 20), Check(1, 20), Check(2, 20)]
  }

  function Learned(): seq<Route> { [Route(NET, 3, 1)] }

  function StaleRoute(): Route { Route(NET, 2, 2) }

  /** The networks one after another. */
  function Networks(): seq<Network> {
    var sent := {FirstToSecond(), ThirdToSecond()};
    var more := sent + {SecondToFirst(1), SecondToThird()};
    var first, second, third := First([StaleRoute()]), Second(0, true, Learned()), Third(true);
    var left := {FirstToSecond(), SecondToFirst(1)};
    var dead := Second(20, false, [Route(NET, 3, INF_COST)]);
    [Network(Line(), {}),
     Network(Line(), {FirstToSecond()}),
     Network(Line(), sent),
     Network([First([]), second, third], sent),
     Network([First([]), second, third], more),
     Network([first, second, third], more),
     Network([first, second, third], more - {ThirdToSecond()}),
     Network([first, second, third], left),
     Network([first, Second(20, true, Learned()), third], left),
     Network([first, dead, third], left + {SecondToFirst(INF_COST)}),
     Network([first, dead, Third(false)], left + {SecondToFirst(INF_COST)})]
  }

  lemma {:induction false} RunPasses(n: Network, es: seq<Event>, ns: seq<Network>)
    requires |ns| == |es| + 1 && ns[0] == n && forall i | 0 <= i < |es| :: ns[i + 1] == Step(ns[i], es[i])
    ensures Run(n, es) == ns[|es|]
  {
    if es == [] {
    } else {
      RunPasses(n, es[..|es| - 1], ns[..|es|]);
    }
  }

  lemma BroadcastOne(s: RouterState)
    requires |s.neighbors| == 1 && s.neighbors[0].alive
    ensures Broadcast(s) == [Dispatch(s.neighbors[0].ctrlPort, Vector(s.routes, s.neighbors[0].ip))]
  {
    assert BroadcastTo(s, 1) == [] + [Dispatch(s.neighbors[0].ctrlPort, Vector(s.routes, s.neighbors[0].ip))];
  }

  lemma BroadcastTwo(s: RouterState)
    requires |s.neighbors| == 2 && s.neighbors[0].alive
    ensures var ds := [Dispatch(s.neighbors[0].ctrlPort, Vector(s.routes, s.neighbors[0].ip))];
      Broadcast(s) ==
        if s.neighbors[1].alive then ds + [Dispatch(s.neighbors[1].ctrlPort, Vector(s.routes, s.neighbors[1].ip))]
        else ds
  {
    assert BroadcastTo(s, 1) == [Dispatch(s.neighbors[0].ctrlPort, Vector(s.routes, s.neighbors[0].ip))];
  }

  lemma FirstSends()
    ensures Packets(101, Broadcast(First([]))) == {FirstToSecond()}
  {
    BroadcastOne(First([]));
    assert Vector([], 2) == [];
  }

  lemma ThirdSends()
    ensures Packets(103, Broadcast(Third(true))) == {ThirdToSecond()}
  {
    BroadcastOne(Third(true));
    assert Vector([Route(NET, NO_HOP, 0)], 2) == [DvEntry(NET, 0)];
  }

  lemma SecondSends()
    ensures Packets(102, Broadcast(Second(0, true, Learned()))) == {SecondToFirst(1), SecondToThird()}
  {
    BroadcastTwo(Second(0, true, Learned()));
    assert Vector(Learned(), 1) == [DvEntry(NET, 1)] && Vector(Learned(), 3) == [DvEntry(NET, INF_COST)];
  }

  lemma SecondSendsPoison()
    ensures Packets(102, Broadcast(Second(20, false, [Route(NET, 3, INF_COST)]))) == {SecondToFirst(INF_COST)}
  {
    BroadcastTwo(Second(20, false, [Route(NET, 3, INF_COST)]));
    assert Vector([Route(NET, 3, INF_COST)], 1) == [DvEntry(NET, INF_COST)];
  }

  lemma Announces()
    ensures forall i | i in {0, 1, 3} :: Networks()[i + 1] == Step(Networks()[i], History()[i])
  {
    FirstSends();
    ThirdSends();
    SecondSends();
    hide Broadcast;
  }

  /** An entry for a network not in the table yet, and one already there. */
  lemma HearsFirst(via: Ip, cost: Cost)
    requires cost < INF_COST - 1
    ensures ApplyVector([], via, 1, [DvEntry(NET, cost)], 1) == [Route(NET, via, cost + 1)]
  {
    assert FindOrAdd([], NET) == [] + [Route(NET, NO_HOP, INF_COST)];
    assert ApplyVector([], via, 1, [DvEntry(NET, cost)], 0) == [];
  }

  lemma Hearings()
    ensures forall i | i in {2, 4, 7} :: Networks()[i + 1] == Step(Networks()[i], History()[i])
  {
    var ns := Networks();
    SecondHears();
    assert Line()[1 := Second(0, true, Learned())] == ns[3].routers;
    assert ns[3] == Step(ns[2], Hear(1, ThirdToSecond(), 0));
    FirstHears();
    assert ns[4].routers[0 := First([StaleRoute()])] == ns[5].routers;
    assert ns[5] == Step(ns[4], Hear(0, SecondToFirst(1), 0));
    SecondHearsFirst();
    assert ns[7].routers[1 := Second(20, true, Learned())] == ns[8].routers;
    assert ns[8] == Step(ns[7], Hear(1, FirstToSecond(), 20));
  }

  lemma SecondHears()
    ensures Receive(Second(0, true, []), 103, ThirdToSecond().entries, 0) == Second(0, true, Learned())
  {
    HearsFirst(3, 0);
    var s := Second(0, true, []);
    assert NeighborByPort(s.neighbors, 103) == 1;
    assert s.neighbors[1 := s.neighbors[1].(lastHeard := 0, alive := true)] == s.neighbors;
  }

  lemma FirstHears()
    ensures Receive(First([]), 102, SecondToFirst(1).entries, 0) == First([StaleRoute()])
  {
    HearsFirst(2, 1);
    assert NeighborByPort(First([]).neighbors, 102) == 0;
  }

  lemma SecondHearsFirst()
    ensures Receive(Second(0, true, Learned()), 101, [], 20) == Second(20, true, Learned())
  {
    var s := Second(0, true, Learned());
    assert NeighborByPort(s.neighbors, 101) == 0;
    assert s.neighbors[0 := s.neighbors[0].(lastHeard := 20, alive := true)] == Second(20, true, Learned()).neighbors;
    assert ApplyVector(Learned(), 1, 1, [], 0) == Learned();
  }

  lemma Losses()
    ensures forall i | i in {5, 6} :: Networks()[i + 1] == Step(Networks()[i], History()[i])
  {
  }

  lemma TimeoutsTwo(s: RouterState, now: int)
    requires |s.neighbors| == 2 && now - s.neighbors[0].lastHeard < DEAD_INTERVAL_SEC
    ensures Timeouts(s, now) == TimeoutOf(s, 1, now)
  {
    assert TimeoutsOf(s, 0, now) == Outcome(s, []);
    assert TimeoutsOf(s, 1, now) == Outcome(s, []);
    assert [] + TimeoutOf(s, 1, now).sent == TimeoutOf(s, 1, now).sent;
  }

  lemma TimeoutsOne(s: RouterState, now: int)
    requires |s.neighbors| == 1
    ensures Timeouts(s, now) == TimeoutOf(s, 0, now)
  {
    assert TimeoutsOf(s, 0, now) == Outcome(s, []);
    assert [] + TimeoutOf(s, 0, now).sent == TimeoutOf(s, 0, now).sent;
  }

  lemma SecondTimesOut()
    ensures var o := Timeouts(Second(20, true, Learned()), 20);
      && o.state == Second(20, false, [Route(NET, 3, INF_COST)])
      && Packets(102, o.sent) == {SecondToFirst(INF_COST)}
  {
    var s, poisoned := Second(20, true, Learned()), [Route(NET, 3, INF_COST)];
    TimeoutsTwo(s, 20);
    assert Poison(Learned(), 3) == poisoned;
    assert s.neighbors[1 := s.neighbors[1].(alive := false)] == Second(20, false, poisoned).neighbors;
    SecondSendsPoison();
  }

  lemma Deaths()
    ensures forall i | i in {8, 9} :: Networks()[i + 1] == Step(Networks()[i], History()[i])
  {
    var ns := Networks();
    SecondTimesOut();
    ThirdTimesOut();
    assert Packets(103, []) == {};
    hide Timeouts, Packets;
    assert ns[8].routers[1 := Second(20, false, [Route(NET, 3, INF_COST)])] == ns[9].routers;
    assert ns[9] == Step(ns[8], Check(1, 20));
    assert ns[9].routers[2 := Third(false)] == ns[10].routers;
    assert ns[10] == Step(ns[9], Check(2, 20));
  }

  lemma ThirdTimesOut()
    ensures Timeouts(Third(true), 20) == Outcome(Third(false), [])
  {
    TimeoutsOne(Third(true), 20);
    assert Poison(Third(true).routes, 2) == Third(true).routes;
    assert Third(true).neighbors[0 := ToSecond(false)] == Third(false).neighbors;
  }

  lemma HistoryIs()
    ensures Run(Network(Line(), {}), History()) == Networks()[10]
  {
    Announces();
    Hearings();
    Losses();
    Deaths();
    var es, ns := History(), Networks();
    assert |es| == 10 && |ns| == 11 && ns[0] == Network(Line(), {});
    hide History, Networks, Step;
    forall i | 0 <= i < |es| ensures ns[i + 1] == Step(ns[i], es[i]) {
      assert i in {0, 1, 3} || i in {2, 4, 7} || i in {5, 6} || i in {8, 9};
    }
    RunPasses(Network(Line(), {}), es, ns);
  }

  // ----- what is left -----

  lemma LineLinks()
    ensures forall u: nat, v: nat :: Linked(Line(), u, v) <==> (u, v) in {(0, 1), (1, 0), (1, 2), (2, 1)}
    ensures LinkTo(Line(), 0, 1) == 0 && LinkTo(Line(), 1, 0) == 0
    ensures LinkTo(Line(), 1, 2) == 1 && LinkTo(Line(), 2, 1) == 0
  {
  }

  lemma LineIsConfigured()
    ensures WellConfigured(Line())
  {
    LineKeys();
    LineLinks();
    hide Linked;
  }

  lemma LineKeys()
    ensures |AllKeys(Line())| <= 1
  {
    forall k | k in AllKeys(Line()) ensures k == NET {
      var u, r :| 0 <= u < 3 && r in Line()[u].routes && r.key == k;
    }
    SubsetIsNoLarger(AllKeys(Line()), {NET});
  }

  /** The last network of the history. */
  function End(): Network { Networks()[10] }

  lemma EndIs()
    ensures var n := End();
      && n.routers == [First([StaleRoute()]), Second(20, false, [Route(NET, 3, INF_COST)]), Third(false)]
      && n.inFlight == {FirstToSecond(), SecondToFirst(1), SecondToFirst(INF_COST)}
  {
  }

  lemma EndLinks()
    ensures |End().routers| == 3 && Linked(Line(), 1, 2) && Linked(Line(), 2, 1) && Silent(Line(), End(), 1, 2)
    ensures Linked(Line(), 0, 1) && Linked(Line(), 1, 0) && Mutual(Line(), End(), 0, 1)
  {
    EndIs();
    LineLinks();
    hide End, NeighborByPort;
  }

  lemma EndIsSettled()
    ensures Settled(Line(), End())
  {
    LineIsConfigured();
    HistoryIs();
    EveryRunIsSound(Line(), History());
    hide Run, History, Networks, Sound, WellConfigured, Silent, Mutual;
    EndLinks();
    LineLinks();
    hide Linked, End, Line;
    forall u: nat, v: nat | Linked(Line(), u, v) && Linked(Line(), v, u)
      ensures |End().routers| == |Line()| && (Silent(Line(), End(), u, v) || Mutual(Line(), End(), u, v))
    {
      BothWays(u, v);
    }
  }

  lemma BothWays(u: nat, v: nat)
    requires |End().routers| == |Line()| && Linked(Line(), u, v) && Linked(Line(), v, u)
    ensures Silent(Line(), End(), u, v) <==> Silent(Line(), End(), v, u)
    ensures Mutual(Line(), End(), u, v) <==> Mutual(Line(), End(), v, u)
  {
    hide End, Line, ThinksAlive;
  }

  /** No walk over the links that are left gets past the second router. */
  lemma {:induction false} WalksStay(w: seq<nat>)
    requires IsWalk(Survivors(Line(), End()), w) && w[0] < 2
    ensures w[|w| - 1] < 2
    decreases |w|
  {
    if |w| > 1 {
      var t' := Survivors(Line(), End());
      TailWalk(t', w);
      EndIsSettled();
      LineIsConfigured();
      LineLinks();
      LinkedIffAlive(Line(), End(), w[0], w[1]);
      hide Survivors, IsWalk, Settled, Sound, WellConfigured;
      WalksStay(w[1..]);
    }
  }

  lemma EndIsTen()
    ensures |Networks()| == 11 && End() == Networks()[10] && |End().routers| == |Line()| == 3
  {
  }

  lemma UsedLink()
    ensures |History()| > 2 && ThirdToSecond() in Run(Network(Line(), {}), History()[..2]).inFlight
    ensures |Line()| == 3 && Between(Line(), ThirdToSecond(), 2, 1)
  {
    Announces();
    var ns, es := Networks(), History();
    assert es[..2] == [Announce(0), Announce(2)] && ns[0] == Network(Line(), {}) && 0 in {0, 1, 3} && 1 in {0, 1, 3};
    assert ns[1] == Step(ns[0], es[0]) && ns[2] == Step(ns[1], es[1]);
    RunOfTwo(ns[0], es[0], es[1]);
  }

  lemma StaleAtEnd()
    ensures |End().routers| == 3 && Entry(End().routers[0].routes, NET).cost == 2
  {
    EndIs();
    hide End;
    FirstIndex([StaleRoute()], NET, 0);
  }

  lemma NothingReaches(c: nat)
    ensures |End().routers| == |Line()| && !Reaches(Survivors(Line(), End()), 0, NET, c)
  {
    EndIsTen();
    hide End;
    var t' := Survivors(Line(), End());
    forall w | WalkTo(t', 0, NET, w) ensures false {
      WalksStay(w);
    }
  }

  /** The link between the second and the third router carried a vector and is silent for
      ever; every other link is alive at both ends; and the first router still has a cost
      for the network, though no walk that is left leads there. */
  lemma UsedLinkLeavesStaleCost()
    ensures WellConfigured(Line())
    ensures var start := Network(Line(), {}); var n := Run(start, History());
      && |n.routers| == |Line()| && Settled(Line(), n)
      && ThirdToSecond() in Run(start, History()[..2]).inFlight && Between(Line(), ThirdToSecond(), 2, 1)
      && Silent(Line(), n, 1, 2)
      && Entry(n.routers[0].routes, NET).cost == 2
      && forall c :: !Reaches(Survivors(Line(), n), 0, NET, c)
  {
    hide *;
    LineIsConfigured();
    HistoryIs();
    EndIsTen();
    EndIsSettled();
    EndLinks();
    UsedLink();
    StaleAtEnd();
    forall c ensures !Reaches(Survivors(Line(), End()), 0, NET, c) {
      NothingReaches(c);
    }
  }

  /** And rounds over the links that are left let it rise until it is unreachable. */
  lemma StaleCostDies(a: seq<seq<seq<nat>>>, b: seq<seq<seq<nat>>>)
    requires |Run(Network(Line(), {}), History()).routers| == |Line()| && |a| >= INF_COST && |b| >= 2
    requires var t' := Survivors(Line(), Run(Network(Line(), {}), History()));
      ValidSchedule(t', a) && ValidSchedule(t', b)
    ensures var n := Run(Network(Line(), {}), History()); var t' := Survivors(Line(), n);
      && WellConfigured(t') && SameShape(t', Seen(n)) && AllAlive(t', Seen(n)) && ValidSchedule(t', a + b)
      && var m := Run(n, ScheduleEvents(t', Seen(n), a + b));
         |m.routers| == 3 && Entry(m.routers[0].routes, NET).cost == INF_COST
  {
    hide *;
    UsedLinkLeavesStaleCost();
    EndIsTen();
    RecoversAfterLosses(Line(), History(), a, b, 0, NET);
  }
}
