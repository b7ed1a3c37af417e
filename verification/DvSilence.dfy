/** Which links can come back: all but those thought dead at both ends with nothing in
    flight between them.  Those stay silent for ever. */
module DvSilence {
  import opened RoutingTable
  import opened RouterNode
  import opened RouterTimeouts
  import opened Walks
  import opened DvNetwork
  import opened DvRounds
  import opened DvRecovery

  /** Neither end of the link thinks the other alive, and nothing is in flight between
      them. */
  ghost predicate Silent(t: Topology, n: Network, u: nat, v: nat)
    requires |n.routers| == |t| && Linked(t, u, v) && Linked(t, v, u)
  {
    && !ThinksAlive(t, n.routers[u], u, v) && !ThinksAlive(t, n.routers[v], v, u)
    && forall p | p in n.inFlight :: !Between(t, p, u, v) && !Between(t, p, v, u)
  }

  predicate Between(t: Topology, p: Packet, v: nat, u: nat)
    requires u < |t| && v < |t|
  {
    p.from == t[v].ctrlPort && p.to == t[u].ctrlPort
  }

  /** Only neighbours thought alive are sent to. */
  lemma {:induction false} DeadAreNotSentTo(t: Topology, u: nat, s: RouterState, v: nat, n: nat)
    requires WellConfigured(t) && Linked(t, u, v) && SameLinks(s, t[u]) && !ThinksAlive(t, s, u, v)
    requires n <= |s.neighbors|
    ensures forall d | d in BroadcastTo(s, n) :: d.port != t[v].ctrlPort
  {
    if n == 0 {
    } else {
      DeadAreNotSentTo(t, u, s, v, n - 1);
      assert LinksOk(t[u].neighbors);
      if s.neighbors[n - 1].ctrlPort == t[v].ctrlPort {
        assert n - 1 == LinkTo(t, u, v);
      }
    }
  }

  lemma {:induction false} TimeoutsReviveNobody(t: Topology, u: nat, s: RouterState, v: nat, n: nat, now: int)
    requires WellConfigured(t) && Linked(t, u, v) && SameLinks(s, t[u]) && !ThinksAlive(t, s, u, v)
    requires n <= |s.neighbors|
    ensures var o := TimeoutsOf(s, n, now);
      && SameLinks(o.state, t[u]) && !ThinksAlive(t, o.state, u, v)
      && forall d | d in o.sent :: d.port != t[v].ctrlPort
  {
    hide WellConfigured;
    if n == 0 {
    } else {
      TimeoutsReviveNobody(t, u, s, v, n - 1, now);
      var before := TimeoutsOf(s, n - 1, now).state;
      var after := TimeoutOf(before, n - 1, now).state;
      DeadAreNotSentTo(t, u, after, v, |after.neighbors|);
    }
  }

  /** Only a vector from `v` revives `v`. */
  lemma OthersReviveNobody(t: Topology, u: nat, s: RouterState, v: nat, p: Packet, now: int)
    requires Linked(t, u, v) && SameLinks(s, t[u]) && !ThinksAlive(t, s, u, v) && p.from != t[v].ctrlPort
    ensures !ThinksAlive(t, Receive(s, p.from, p.entries, now), u, v)
  {
    SameIndexByPort(s, t[u], p.from);
  }

  lemma StepStaysSilent(t: Topology, n: Network, e: Event, u: nat, v: nat)
    requires WellConfigured(t) && Sound(t, n) && Linked(t, u, v) && Linked(t, v, u) && Silent(t, n, u, v)
    ensures |Step(n, e).routers| == |t| && Silent(t, Step(n, e), u, v)
  {
    HalfSilent(t, n, e, u, v);
    HalfSilent(t, n, e, v, u);
  }

  lemma HalfSilent(t: Topology, n: Network, e: Event, u: nat, v: nat)
    requires WellConfigured(t) && Sound(t, n) && Linked(t, u, v) && Linked(t, v, u) && Silent(t, n, u, v)
    ensures var m := Step(n, e);
      && |m.routers| == |t| && !ThinksAlive(t, m.routers[u], u, v)
      && forall p | p in m.inFlight :: !Between(t, p, u, v)
  {
    hide ThinksAlive;
    if e.u == u {
      var s := n.routers[u];
      match e
      case Announce(_) =>
        DeadAreNotSentTo(t, u, s, v, |s.neighbors|);
      case Check(_, now) =>
        TimeoutsReviveNobody(t, u, s, v, |s.neighbors|, now);
      case Hear(_, p, now) =>
        if p in n.inFlight && p.to == s.ctrlPort {
          assert !Between(t, p, v, u);
          OthersReviveNobody(t, u, s, v, p, now);
        }
      case Lose(_, _) =>
    } else if e.u < |t| {
      assert e.u < u ==> PortsDiffer(t, e.u, u);
      assert u < e.u ==> PortsDiffer(t, u, e.u);
    }
  }

  /** Two neighbours that have timed each other out never hear each other again,
      whatever happens later: each only sends to neighbours it thinks alive, and only
      hearing from the other would revive it. */
  lemma {:induction false} NeverHeardAgain(t: Topology, n: Network, es: seq<Event>, u: nat, v: nat)
    requires WellConfigured(t) && Sound(t, n) && Linked(t, u, v) && Linked(t, v, u) && Silent(t, n, u, v)
    ensures Sound(t, Run(n, es)) && |Run(n, es).routers| == |t| && Silent(t, Run(n, es), u, v)
  {
    hide Step, Silent, Sound;
    SizeIs(t, n);
    if es == [] {
    } else {
      NeverHeardAgain(t, n, es[..|es| - 1], u, v);
      SizeIs(t, Run(n, es[..|es| - 1]));
      StepIsSound(t, Run(n, es[..|es| - 1]), es[|es| - 1]);
      SizeIs(t, Run(n, es));
      StepStaysSilent(t, Run(n, es[..|es| - 1]), es[|es| - 1], u, v);
    }
  }

  /** Timeouts before anything has been heard only mark neighbours dead. */
  lemma {:induction false} ColdTimeouts(s: RouterState, n: nat, now: int)
    requires n <= |s.neighbors| && (forall i | 0 <= i < |s.routes| :: s.routes[i].nextHop == NO_HOP)
    requires forall i | 0 <= i < |s.neighbors| :: s.neighbors[i].ip != NO_HOP
    ensures var o := TimeoutsOf(s, n, now);
      && o.sent == [] && o.state == s.(neighbors := o.state.neighbors)
      && (forall i | 0 <= i < |s.neighbors| :: o.state.neighbors[i].ip != NO_HOP)
      && (forall i | 0 <= i < n :: now - s.neighbors[i].lastHeard >= DEAD_INTERVAL_SEC ==> !o.state.neighbors[i].alive)
      && (forall i | n <= i < |s.neighbors| :: o.state.neighbors[i] == s.neighbors[i])
  {
    if n == 0 {
    } else {
      ColdTimeouts(s, n - 1, now);
      var before := TimeoutsOf(s, n - 1, now).state;
      assert Poison(before.routes, before.neighbors[n - 1].ip) == before.routes;
    }
  }

  /** It can come to that: both ends time out before either announces anything. */
  lemma BothTimeOut(t: Topology, u: nat, v: nat, now: int)
    requires WellConfigured(t) && u != v && Linked(t, u, v) && Linked(t, v, u)
    requires now - t[u].neighbors[LinkTo(t, u, v)].lastHeard >= DEAD_INTERVAL_SEC
    requires now - t[v].neighbors[LinkTo(t, v, u)].lastHeard >= DEAD_INTERVAL_SEC
    ensures var n := Run(Network(t, {}), [Check(u, now), Check(v, now)]);
      |n.routers| == |t| && Silent(t, n, u, v)
  {
    hide TimeoutsOf;
    var es := [Check(u, now), Check(v, now)];
    assert es[..1][..0] == [];
    assert LinksOk(t[u].neighbors) && LinksOk(t[v].neighbors);
    ColdTimeouts(t[u], |t[u].neighbors|, now);
    ColdTimeouts(t[v], |t[v].neighbors|, now);
    var start := Network(t, {});
    assert Run(start, es[..1]) == Step(Run(start, []), Check(u, now)) && Run(start, []) == start;
    CheckSendsNothing(start, u, now);
    var once := Run(start, es[..1]);
    CheckSendsNothing(once, v, now);
  }

  lemma CheckForgets(t: Topology, n: Network, u: nat, v: nat, now: int)
    requires Sound(t, n) && Linked(t, u, v) && LinkTo(t, u, v) < |n.routers[u].neighbors|
    requires now - n.routers[u].neighbors[LinkTo(t, u, v)].lastHeard >= DEAD_INTERVAL_SEC
    ensures |Step(n, Check(u, now)).routers| == |t| && !ThinksAlive(t, Step(n, Check(u, now)).routers[u], u, v)
    ensures forall x | 0 <= x < |t| && x != u :: Step(n, Check(u, now)).routers[x] == n.routers[x]
  {
    AliveAfterTimeouts(n.routers[u], |n.routers[u].neighbors|, now, LinkTo(t, u, v));
  }

  /** Any packets on their way to router `u` can be lost. */
  lemma {:induction false} LoseAll(n: Network, u: nat, ps: set<Packet>) returns (es: seq<Event>)
    requires u < |n.routers| && forall p | p in ps :: p.to == n.routers[u].ctrlPort
    ensures Run(n, es) == Network(n.routers, n.inFlight - ps)
    decreases ps
  {
    if ps == {} {
      es := [];
      assert n.inFlight - ps == n.inFlight;
    } else {
      var p :| p in ps;
      var before := LoseAll(n, u, ps - {p});
      es := before + [Lose(u, p)];
      RunOneMore(n, before, Lose(u, p));
      assert n.inFlight - (ps - {p}) - {p} == n.inFlight - ps;
    }
  }

  lemma CheckSendsNothing(n: Network, u: nat, now: int)
    requires u < |n.routers| && Timeouts(n.routers[u], now).sent == []
    ensures Step(n, Check(u, now)) == Network(n.routers[u := Timeouts(n.routers[u], now).state], n.inFlight)
  {
    assert Packets(n.routers[u].ctrlPort, []) == {} && n.inFlight + {} == n.inFlight;
  }

  lemma SizeIs(t: Topology, n: Network)
    requires Sound(t, n)
    ensures |n.routers| == |t|
  {
  }

  lemma BothCheck(t: Topology, n: Network, u: nat, v: nat) returns (es: seq<Event>)
    requires Sound(t, n) && u != v && Linked(t, u, v) && Linked(t, v, u)
    ensures Sound(t, Run(n, es)) && |Run(n, es).routers| == |t|
    ensures !ThinksAlive(t, Run(n, es).routers[u], u, v) && !ThinksAlive(t, Run(n, es).routers[v], v, u)
  {
    var a := n.routers[u].neighbors[LinkTo(t, u, v)].lastHeard;
    var b := n.routers[v].neighbors[LinkTo(t, v, u)].lastHeard;
    var now := (if a < b then b else a) + DEAD_INTERVAL_SEC;
    es := [Check(u, now), Check(v, now)];
    RunOfTwo(n, Check(u, now), Check(v, now));
    CheckForgets(t, n, u, v, now);
    hide ThinksAlive, Step;
    RunIsSound(t, n, es);
    StepIsSound(t, n, Check(u, now));
    CheckForgets(t, Step(n, Check(u, now)), v, u, now);
  }

  /** From any state any link can be lost, whatever it has carried: both ends time out,
      and what is in flight between them is lost. */
  lemma AnyLinkCanBeLost(t: Topology, n: Network, u: nat, v: nat) returns (es: seq<Event>)
    requires Sound(t, n) && u != v && Linked(t, u, v) && Linked(t, v, u)
    ensures |Run(n, es).routers| == |t| && Silent(t, Run(n, es), u, v)
  {
    var checks := BothCheck(t, n, u, v);
    var m := Run(n, checks);
    assert m.routers[u].ctrlPort == t[u].ctrlPort && m.routers[v].ctrlPort == t[v].ctrlPort;
    hide Sound, ThinksAlive, Run;
    var toV := LoseAll(m, v, set p | p in m.inFlight && Between(t, p, u, v));
    var left := Run(m, toV);
    var toU := LoseAll(left, u, set p | p in left.inFlight && Between(t, p, v, u));
    RunSplit(m, toV, toU);
    RunSplit(n, checks, toV + toU);
    es := checks + (toV + toU);
  }

  // ----- all other links can come back -----

  /** Each end thinks the other alive. */
  predicate Mutual(t: Topology, n: Network, u: nat, v: nat)
    requires |n.routers| == |t| && Linked(t, u, v) && Linked(t, v, u)
  {
    ThinksAlive(t, n.routers[u], u, v) && ThinksAlive(t, n.routers[v], v, u)
  }

  /** Without timeouts nobody is forgotten. */
  ghost predicate NobodyForgotten(t: Topology, n: Network, m: Network)
    requires |n.routers| == |t| == |m.routers|
  {
    forall u: nat, v: nat | Linked(t, u, v) && ThinksAlive(t, n.routers[u], u, v) ::
      ThinksAlive(t, m.routers[u], u, v)
  }

  lemma StepForgetsNobody(t: Topology, n: Network, e: Event)
    requires Sound(t, n) && !e.Check?
    ensures |Step(n, e).routers| == |t| && NobodyForgotten(t, n, Step(n, e))
  {
  }

  lemma {:induction false} RunForgetsNobody(t: Topology, n: Network, es: seq<Event>)
    requires Sound(t, n) && NoTimeouts(es)
    ensures Sound(t, Run(n, es)) && |Run(n, es).routers| == |t| == |n.routers| && NobodyForgotten(t, n, Run(n, es))
  {
    hide Step, Sound, ThinksAlive;
    SizeIs(t, n);
    if es == [] {
    } else {
      var before := es[..|es| - 1];
      RunForgetsNobody(t, n, before);
      StepIsSound(t, Run(n, before), es[|es| - 1]);
      StepForgetsNobody(t, Run(n, before), es[|es| - 1]);
    }
  }

  /** Without losses no packet goes away either. */
  ghost predicate NothingLost(t: Topology, n: Network, m: Network)
    requires |n.routers| == |t| == |m.routers|
  {
    n.inFlight <= m.inFlight && NobodyForgotten(t, n, m)
  }

  lemma {:induction false} PacketsStay(n: Network, es: seq<Event>)
    requires NoFailures(es)
    ensures n.inFlight <= Run(n, es).inFlight
  {
    if es == [] {
    } else {
      PacketsStay(n, es[..|es| - 1]);
    }
  }

  lemma RunLosesNothing(t: Topology, n: Network, es: seq<Event>)
    requires Sound(t, n) && NoFailures(es)
    ensures Sound(t, Run(n, es)) && |Run(n, es).routers| == |t| == |n.routers| && NothingLost(t, n, Run(n, es))
  {
    RunForgetsNobody(t, n, es);
    PacketsStay(n, es);
  }

  /** Who is heard is thought alive. */
  lemma HearRevives(t: Topology, n: Network, u: nat, v: nat, p: Packet, now: int)
    requires Sound(t, n) && Linked(t, u, v) && p in n.inFlight && Between(t, p, v, u)
    ensures |Step(n, Hear(u, p, now)).routers| == |t| && ThinksAlive(t, Step(n, Hear(u, p, now)).routers[u], u, v)
  {
    SameIndexByPort(n.routers[u], t[u], p.from);
  }

  /** Who is thought alive is sent a vector. */
  lemma AnnounceReaches(t: Topology, n: Network, v: nat, u: nat) returns (p: Packet)
    requires Sound(t, n) && Linked(t, v, u) && ThinksAlive(t, n.routers[v], v, u)
    ensures p in Packets(n.routers[v].ctrlPort, Broadcast(n.routers[v])) && Between(t, p, v, u)
    ensures p in Step(n, Announce(v)).inFlight
  {
    var s, i := n.routers[v], LinkTo(t, v, u);
    BroadcastReaches(s, i, |s.neighbors|);
    var d := Dispatch(s.neighbors[i].ctrlPort, Vector(s.routes, s.neighbors[i].ip));
    p := Packet(s.ctrlPort, d.port, d.entries);
  }

  /** One end that thinks the other alive is enough: it announces and is heard. */
  lemma FromOne(t: Topology, n: Network, v: nat, u: nat) returns (es: seq<Event>)
    requires Sound(t, n) && Linked(t, u, v) && Linked(t, v, u) && ThinksAlive(t, n.routers[v], v, u)
    ensures NoFailures(es) && |Run(n, es).routers| == |t| && Mutual(t, Run(n, es), u, v)
  {
    hide Step, Sound, ThinksAlive;
    var p := AnnounceReaches(t, n, v, u);
    var once := Step(n, Announce(v));
    es := [Announce(v), Hear(u, p, 0)];
    RunOfTwo(n, Announce(v), Hear(u, p, 0));
    StepIsSound(t, n, Announce(v));
    HearRevives(t, once, u, v, p, 0);
    RunLosesNothing(t, n, es);
  }

  lemma RunOfTwo(n: Network, a: Event, b: Event)
    ensures Run(n, [a, b]) == Step(Step(n, a), b)
  {
    assert [a, b][..1] == [a] && [a][..0] == [];
    assert Run(n, [a]) == Step(Run(n, []), a);
  }

  /** So is a vector in flight to `u`: once it is heard, `u` thinks `v` alive. */
  lemma FromPacket(t: Topology, n: Network, v: nat, u: nat, p: Packet) returns (es: seq<Event>)
    requires Sound(t, n) && Linked(t, u, v) && Linked(t, v, u) && p in n.inFlight && Between(t, p, v, u)
    ensures NoFailures(es) && |Run(n, es).routers| == |t| && Mutual(t, Run(n, es), v, u)
  {
    hide Step, Sound, ThinksAlive;
    var heard := [Hear(u, p, 0)];
    assert heard[..0] == [] && Run(n, heard) == Step(Run(n, []), Hear(u, p, 0));
    HearRevives(t, n, u, v, p, 0);
    StepIsSound(t, n, Hear(u, p, 0));
    var more := FromOne(t, Run(n, heard), u, v);
    RunSplit(n, heard, more);
    es := heard + more;
  }

  /** A link that is not silent can come back, without timeouts. */
  lemma ComesBack(t: Topology, n: Network, u: nat, v: nat) returns (es: seq<Event>)
    requires Sound(t, n) && Linked(t, u, v) && Linked(t, v, u) && !Silent(t, n, u, v)
    ensures NoFailures(es) && |Run(n, es).routers| == |t| && Mutual(t, Run(n, es), u, v)
  {
    hide Sound, ThinksAlive, Between, Run;
    SizeIs(t, n);
    if ThinksAlive(t, n.routers[u], u, v) {
      es := FromOne(t, n, u, v);
    } else if ThinksAlive(t, n.routers[v], v, u) {
      es := FromOne(t, n, v, u);
    } else {
      var p :| p in n.inFlight && (Between(t, p, u, v) || Between(t, p, v, u));
      if Between(t, p, u, v) {
        es := FromPacket(t, n, u, v, p);
      } else {
        es := FromPacket(t, n, v, u, p);
      }
    }
  }

  /** A link can come back if and only if it is not silent. */
  lemma ComesBackExactlyUnlessSilent(t: Topology, n: Network, u: nat, v: nat)
    requires WellConfigured(t) && Sound(t, n) && Linked(t, u, v) && Linked(t, v, u)
    ensures (exists es :: |Run(n, es).routers| == |t| && Mutual(t, Run(n, es), u, v)) <==> !Silent(t, n, u, v)
  {
    hide Sound, WellConfigured, Run;
    SizeIs(t, n);
    if Silent(t, n, u, v) {
      forall es ensures |Run(n, es).routers| == |t| && !Mutual(t, Run(n, es), u, v) {
        NeverHeardAgain(t, n, es, u, v);
      }
    } else {
      var es := ComesBack(t, n, u, v);
    }
  }

  // ----- and with them the whole network -----

  ghost predicate NoneSilent(t: Topology, n: Network)
    requires |n.routers| == |t|
  {
    forall u: nat, v: nat | Linked(t, u, v) && Linked(t, v, u) :: !Silent(t, n, u, v)
  }

  lemma StaysAudible(t: Topology, n: Network, m: Network, u: nat, v: nat)
    requires |n.routers| == |t| == |m.routers| && NothingLost(t, n, m)
    requires Linked(t, u, v) && Linked(t, v, u) && !Silent(t, n, u, v)
    ensures !Silent(t, m, u, v)
  {
  }

  lemma StaysMutual(t: Topology, n: Network, m: Network, u: nat, v: nat)
    requires |n.routers| == |t| == |m.routers| && NobodyForgotten(t, n, m)
    requires Linked(t, u, v) && Linked(t, v, u) && Mutual(t, n, u, v)
    ensures Mutual(t, m, u, v)
  {
  }

  /** One link after another. */
  lemma {:induction false} AllComeBack(t: Topology, n: Network, links: set<(nat, nat)>) returns (es: seq<Event>)
    requires Sound(t, n)
    requires forall l | l in links :: Linked(t, l.0, l.1) && Linked(t, l.1, l.0) && !Silent(t, n, l.0, l.1)
    ensures NoFailures(es) && |Run(n, es).routers| == |t|
    ensures forall l | l in links :: Mutual(t, Run(n, es), l.0, l.1)
    decreases links
  {
    hide Sound, Silent, Mutual, Run, NothingLost;
    if links == {} {
      es := [];
      RunLosesNothing(t, n, es);
    } else {
      var x :| x in links;
      var first := ComesBack(t, n, x.0, x.1);
      RunLosesNothing(t, n, first);
      var m := Run(n, first);
      forall l | l in links ensures !Silent(t, m, l.0, l.1) {
        StaysAudible(t, n, m, l.0, l.1);
      }
      var more := AllComeBack(t, m, links - {x});
      RunLosesNothing(t, m, more);
      StaysMutual(t, m, Run(m, more), x.0, x.1);
      RunSplit(n, first, more);
      es := first + more;
    }
  }

  /** The network can still get to where every link is thought alive at one end at
      least, from where it recovers, if and only if no link is silent. */
  lemma RecoversExactlyUnlessSilent(t: Topology, n: Network)
    requires WellConfigured(t) && Sound(t, n) && |n.routers| == |t|
    ensures (exists es :: |Run(n, es).routers| == |t| && HalfAlive(t, Run(n, es))) <==> NoneSilent(t, n)
  {
    hide WellConfigured, Run, ThinksAlive, Linked, Sound;
    if NoneSilent(t, n) {
      LinksAre(t);
      var es := AllComeBack(t, n, Links(t));
      assert HalfAlive(t, Run(n, es));
    } else {
      var u: nat, v: nat :| Linked(t, u, v) && Linked(t, v, u) && Silent(t, n, u, v);
      forall es | |Run(n, es).routers| == |t| ensures !HalfAlive(t, Run(n, es)) {
        NeverHeardAgain(t, n, es, u, v);
      }
    }
  }

  function Links(t: Topology): set<(nat, nat)> {
    set u: nat, v: nat | u < |t| && v < |t| && Linked(t, u, v) && Linked(t, v, u) :: (u, v)
  }

  lemma LinksAre(t: Topology)
    ensures forall u: nat, v: nat :: (u, v) in Links(t) <==> Linked(t, u, v) && Linked(t, v, u)
  {
  }
}
