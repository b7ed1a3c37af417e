/** Which networks have fair runs: those in which no link is silent.  From any state
    where all neighbours think each other alive there are fair runs of any length. */
module DvFairness {
  import opened RouterNode
  import opened Walks
  import opened DvNetwork
  import opened DvRounds
  import opened DvRecovery
  import opened DvSilence
  import opened DvAsync

  // ----- one epoch, from network m -----

  ghost predicate SentAt(m: Network, e: seq<Event>, i: nat, v: nat, p: Packet) {
    && i < |e| && e[i] == Announce(v) && v < |Run(m, e[..i]).routers|
    && var s := Run(m, e[..i]).routers[v]; p in Packets(s.ctrlPort, Broadcast(s))
  }

  ghost predicate SentBefore(m: Network, e: seq<Event>, i: nat, p: Packet) {
    exists i': nat, v: nat :: i' < i && SentAt(m, e, i', v, p)
  }

  ghost predicate HeardAt(t: Topology, m: Network, e: seq<Event>, i: nat, u: nat, v: nat)
    requires u < |t| && v < |t|
  {
    i < |e| && e[i].Hear? && e[i].u == u && Between(t, e[i].p, v, u) && e[i].p in Run(m, e[..i]).inFlight
  }

  ghost predicate Heard(t: Topology, m: Network, e: seq<Event>, u: nat, v: nat)
    requires u < |t| && v < |t|
  {
    exists i: nat :: HeardAt(t, m, e, i, u, v)
  }

  /** Without timeouts, hearing only what the epoch itself sends. */
  ghost predicate Fresh(m: Network, e: seq<Event>) {
    NoFailures(e) && forall i: nat | i < |e| && e[i].Hear? :: SentBefore(m, e, i, e[i].p)
  }

  lemma LaterStill(t: Topology, m: Network, e: seq<Event>, more: seq<Event>)
    ensures forall i: nat, v: nat, p | SentAt(m, e, i, v, p) :: SentAt(m, e + more, i, v, p)
    ensures forall u: nat, v: nat | u < |t| && v < |t| && Heard(t, m, e, u, v) :: Heard(t, m, e + more, u, v)
  {
    assert forall i | 0 <= i <= |e| :: (e + more)[..i] == e[..i];
    forall u: nat, v: nat | u < |t| && v < |t| && Heard(t, m, e, u, v) ensures Heard(t, m, e + more, u, v) {
      var i: nat :| HeardAt(t, m, e, i, u, v);
      assert HeardAt(t, m, e + more, i, u, v);
    }
  }

  /** `v` announces and `u` hears it. */
  function Exchange(v: nat, u: nat, p: Packet): seq<Event> { [Announce(v), Hear(u, p, 0)] }

  lemma ExchangeIs(t: Topology, m: Network, e: seq<Event>, v: nat, u: nat, p: Packet)
    requires v < |Run(m, e).routers| && u < |t| && v < |t| && Between(t, p, v, u)
    requires var s := Run(m, e).routers[v]; p in Packets(s.ctrlPort, Broadcast(s))
    requires p in Step(Run(m, e), Announce(v)).inFlight
    ensures SentAt(m, e + Exchange(v, u, p), |e|, v, p) && Heard(t, m, e + Exchange(v, u, p), u, v)
  {
    hide Step, Broadcast, Between, Packets;
    var e' := e + Exchange(v, u, p);
    assert e'[..|e|] == e && e'[..|e| + 1] == e + [Announce(v)] && (e + [Announce(v)])[..|e|] == e;
    assert HeardAt(t, m, e', |e| + 1, u, v);
  }

  lemma StaysFresh(t: Topology, m: Network, e: seq<Event>, v: nat, u: nat, p: Packet)
    requires Fresh(m, e) && SentAt(m, e + Exchange(v, u, p), |e|, v, p)
    ensures Fresh(m, e + Exchange(v, u, p))
  {
    var e' := e + Exchange(v, u, p);
    LaterStill(t, m, e, Exchange(v, u, p));
    hide SentAt, Heard;
    forall i: nat | i < |e'| && e'[i].Hear? ensures SentBefore(m, e', i, e'[i].p) {
      if i < |e| {
        var i': nat, w: nat :| i' < i && SentAt(m, e, i', w, e[i].p);
        assert SentAt(m, e', i', w, e'[i].p);
      }
    }
  }

  lemma OneMoreLink(t: Topology, m: Network, e: seq<Event>, u: nat, v: nat) returns (e': seq<Event>)
    requires Sound(t, m) && |m.routers| == |t| && AllAlive(t, m) && Fresh(m, e) && Linked(t, u, v) && Linked(t, v, u)
    ensures Fresh(m, e') && Heard(t, m, e', u, v)
    ensures forall x: nat, y: nat | x < |t| && y < |t| && Heard(t, m, e, x, y) :: Heard(t, m, e', x, y)
  {
    hide Sound, Heard, SentBefore, SentAt, Between, Step, Run, ThinksAlive;
    RunLosesNothing(t, m, e);
    var p := AnnounceReaches(t, Run(m, e), v, u);
    e' := e + Exchange(v, u, p);
    ExchangeIs(t, m, e, v, u, p);
    StaysFresh(t, m, e, v, u, p);
    LaterStill(t, m, e, Exchange(v, u, p));
  }

  /** An epoch in which each of these links is heard over. */
  lemma {:induction false} FairEpoch(t: Topology, m: Network, links: set<(nat, nat)>) returns (e: seq<Event>)
    requires Sound(t, m) && |m.routers| == |t| && AllAlive(t, m)
    requires forall l | l in links :: Linked(t, l.0, l.1) && Linked(t, l.1, l.0)
    ensures Fresh(m, e) && forall l | l in links :: Heard(t, m, e, l.0, l.1)
    decreases links
  {
    hide Sound, AllAlive, Heard, HeardAt, SentBefore;
    if links == {} {
      e := [];
    } else {
      var x :| x in links;
      var before := FairEpoch(t, m, links - {x});
      e := OneMoreLink(t, m, before, x.0, x.1);
    }
  }

  // ----- epoch after epoch -----

  lemma {:induction false} SameStart(n: Network, es: Epochs, e: seq<Event>, k: nat)
    requires k <= |es|
    ensures Start(n, es + [e], k) == Start(n, es, k)
  {
    if k == 0 {
    } else {
      SameStart(n, es, e, k - 1);
    }
  }

  /** One epoch more. */
  lemma FairGoesOn(t: Topology, n: Network, es: Epochs, e: seq<Event>)
    requires Fair(t, n, es) && Fresh(Start(n, es, |es|), e)
    requires forall u: nat, v: nat | Linked(t, u, v) :: Heard(t, Start(n, es, |es|), e, u, v)
    ensures Fair(t, n, es + [e])
  {
    var fs, last := es + [e], |es|;
    forall k: nat | k <= last ensures Start(n, fs, k) == Start(n, es, k) {
      SameStart(n, es, e, k);
    }
    hide Start, Packets, Broadcast, Run, Linked;
    forall k: nat, i: nat | 0 < k < |fs| && i < |fs[k]| && fs[k][i].Hear? ensures Recent(n, fs, k, i, fs[k][i].p) {
      var p := fs[k][i].p;
      if k == last {
        assert SentBefore(Start(n, es, last), e, i, p);
        var i': nat, v: nat :| i' < i && SentAt(Start(n, es, last), e, i', v, p);
        assert Sends(n, fs, k, i', v, p);
      } else {
        var k': nat, i': nat, v: nat :| Sends(n, es, k', i', v, p) && ((k' == k && i' < i) || k' + 1 == k);
        assert Sends(n, fs, k', i', v, p);
      }
    }
    forall k: nat, u: nat, v: nat | k < |fs| && Linked(t, u, v) && u < |t| && v < |t| ensures Hears(t, n, fs, k, u, v) {
      if k == last {
        var i: nat :| HeardAt(t, Start(n, es, last), e, i, u, v);
        assert HearsAt(t, n, fs, k, i, u, v);
      } else {
        assert Hears(t, n, es, k, u, v);
        var i: nat :| HearsAt(t, n, es, k, i, u, v);
        assert HearsAt(t, n, fs, k, i, u, v);
      }
    }
  }

  lemma {:induction false} StaysAlive(t: Topology, n: Network, es: Epochs, k: nat)
    requires Sound(t, n) && |n.routers| == |t| && AllAlive(t, n) && Fair(t, n, es) && k <= |es|
    ensures var m := Start(n, es, k); Sound(t, m) && |m.routers| == |t| && AllAlive(t, m)
  {
    if k == 0 {
    } else {
      StaysAlive(t, n, es, k - 1);
      assert NoTimeouts(es[k - 1]);
      hide Sound, Run;
      RunForgetsNobody(t, Start(n, es, k - 1), es[k - 1]);
    }
  }

  /** While all neighbours think each other alive, fair runs can be as long as one
      likes. */
  lemma {:induction false} FairRun(t: Topology, n: Network, k: nat) returns (es: Epochs)
    requires WellConfigured(t) && Sound(t, n) && |n.routers| == |t| && AllAlive(t, n)
    ensures |es| == k && Fair(t, n, es)
  {
    hide Sound, AllAlive, Fair, Fresh, Heard, WellConfigured, Start;
    if k == 0 {
      es := [];
      NoEpochs(t, n);
    } else {
      var before := FairRun(t, n, k - 1);
      StaysAlive(t, n, before, k - 1);
      LinksAre(t);
      BothEnds(t);
      var e := FairEpoch(t, Start(n, before, k - 1), Links(t));
      forall u: nat, v: nat | Linked(t, u, v) ensures Heard(t, Start(n, before, k - 1), e, u, v) {
        assert (u, v) in Links(t);
      }
      FairGoesOn(t, n, before, e);
      es := before + [e];
    }
  }

  lemma NoEpochs(t: Topology, n: Network)
    ensures Fair(t, n, [])
  {
  }

  lemma BothEnds(t: Topology)
    requires WellConfigured(t)
    ensures forall u: nat, v: nat | Linked(t, u, v) :: Linked(t, v, u)
  {
  }

  /** A silent link has no fair epoch. */
  lemma SilentIsUnfair(t: Topology, n: Network, es: Epochs, u: nat, v: nat)
    requires WellConfigured(t) && Sound(t, n) && Linked(t, u, v) && Linked(t, v, u) && Silent(t, n, u, v) && es != []
    ensures !Fair(t, n, es)
  {
    hide Sound, WellConfigured, Run;
    forall i: nat ensures !HearsAt(t, n, es, 0, i, u, v) {
      if i < |es[0]| {
        NeverHeardAgain(t, n, es[0][..i], u, v);
      }
    }
    assert !Hears(t, n, es, 0, u, v);
  }

  /** The network can get to where fair runs of any length begin, and so to where it
      settles on the shortest costs, if and only if no link is silent. */
  lemma FairRunsExactlyUnlessSilent(t: Topology, n: Network, k: nat)
    requires WellConfigured(t) && Sound(t, n) && |n.routers| == |t| && k > 0
    ensures (exists es, fs: Epochs :: |fs| == k && Fair(t, Run(n, es), fs)) <==> NoneSilent(t, n)
  {
    hide WellConfigured, Run, Linked, Sound, Fair, Silent;
    if NoneSilent(t, n) {
      LinksAre(t);
      BothEnds(t);
      var es := AllComeBack(t, n, Links(t));
      RunLosesNothing(t, n, es);
      assert AllAlive(t, Run(n, es));
      var fs := FairRun(t, Run(n, es), k);
    } else {
      var u: nat, v: nat :| Linked(t, u, v) && Linked(t, v, u) && Silent(t, n, u, v);
      forall es, fs: Epochs | |fs| == k ensures !Fair(t, Run(n, es), fs) {
        NeverHeardAgain(t, n, es, u, v);
        SilentIsUnfair(t, Run(n, es), fs, u, v);
      }
    }
  }
}
