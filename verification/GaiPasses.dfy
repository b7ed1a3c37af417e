/** What the service passes of getaddrinfo do to a list of address entries, as
    functions on the entries' contents. */
module GaiPasses {
  import opened Common

  datatype Family = AF_INET | AF_INET6 | OtherFamily

  const SOCK_STREAM := 1
  const SOCK_DGRAM := 2

  /** An entry: `clone` is the AI_CLONE flag, `host` the address less its port. */
  datatype Info = Info(clone: bool, family: Family, socktype: int, protocol: int, host: seq<int>, port: int)

  predicate HasPort(v: Info) { v.family != OtherFamily }

  /** The entry given a socket type and, in the known families, a port. */
  function WithPort(v: Info, port: int, socktype: int): Info {
    v.(socktype := socktype, port := if HasPort(v) then port else v.port)
  }

  /** What a pass makes of one entry: an AI_CLONE entry already used gets a copy
      beside it, which takes the new socket type. */
  function PassOne(v: Info, port: int, socktype: int): seq<Info> {
    if v.clone && v.socktype != 0 then [v, WithPort(v.(clone := false), port, socktype)]
    else if v.clone || v.socktype == socktype then [WithPort(v, port, socktype)]
    else [v]
  }

  function CountOne(v: Info, socktype: int): nat {
    if (v.clone || v.socktype == socktype) && HasPort(v) then 1 else 0
  }

  /** The list after a pass. */
  function Pass(vs: seq<Info>, port: int, socktype: int): seq<Info> {
    if vs == [] then [] else PassOne(vs[0], port, socktype) + Pass(vs[1..], port, socktype)
  }

  /** The number of ports a pass sets. */
  function Count(vs: seq<Info>, socktype: int): nat {
    if vs == [] then 0 else CountOne(vs[0], socktype) + Count(vs[1..], socktype)
  }

  lemma {:induction false} PassDistributes(a: seq<Info>, b: seq<Info>, port: int, socktype: int)
    ensures Pass(a + b, port, socktype) == Pass(a, port, socktype) + Pass(b, port, socktype)
    ensures Count(a + b, socktype) == Count(a, socktype) + Count(b, socktype)
  {
    if a == [] {
      assert a + b == b;
    } else {
      assert (a + b)[1..] == a[1..] + b;
      PassDistributes(a[1..], b, port, socktype);
    }
  }

  lemma PassEmpty(port: int, socktype: int)
    ensures Pass([], port, socktype) == [] && Count([], socktype) == 0
  {
  }

  lemma PassSingle(v: Info, port: int, socktype: int)
    ensures Pass([v], port, socktype) == PassOne(v, port, socktype)
    ensures Count([v], socktype) == CountOne(v, socktype)
  {
    assert [v][1..] == [];
  }

  lemma PassOneMore(vs: seq<Info>, i: nat, port: int, socktype: int)
    requires i < |vs|
    ensures Pass(vs[..i + 1], port, socktype) == Pass(vs[..i], port, socktype) + PassOne(vs[i], port, socktype)
    ensures Count(vs[..i + 1], socktype) == Count(vs[..i], socktype) + CountOne(vs[i], socktype)
  {
    assert vs[..i + 1] == vs[..i] + [vs[i]];
    PassDistributes(vs[..i], [vs[i]], port, socktype);
    PassSingle(vs[i], port, socktype);
  }

  // ----- the two passes over entries of unspecified socket type -----

  /** As the host search leaves entries when the caller names no socket type. */
  ghost predicate Unused(vs: seq<Info>) {
    forall k | 0 <= k < |vs| :: vs[k].clone && vs[k].socktype == 0 && HasPort(vs[k])
  }

  function TwoPasses(vs: seq<Info>, tcpPort: int, udpPort: int): seq<Info> {
    Pass(Pass(vs, tcpPort, SOCK_STREAM), udpPort, SOCK_DGRAM)
  }

  function TwoCounts(vs: seq<Info>, tcpPort: int): nat {
    Count(vs, SOCK_STREAM) + Count(Pass(vs, tcpPort, SOCK_STREAM), SOCK_DGRAM)
  }

  lemma OneEntry(v: Info, tcpPort: int, udpPort: int)
    requires Unused([v])
    ensures TwoPasses([v], tcpPort, udpPort) ==
      [WithPort(v, tcpPort, SOCK_STREAM), WithPort(v.(clone := false), udpPort, SOCK_DGRAM)]
    ensures TwoCounts([v], tcpPort) == 2
  {
    assert [v][0].clone;
    PassSingle(v, tcpPort, SOCK_STREAM);
    PassSingle(WithPort(v, tcpPort, SOCK_STREAM), udpPort, SOCK_DGRAM);
  }

  /** After both passes over n unused entries there are 2n: each keeps its place
      with the stream port, and right behind it stands its copy with the datagram
      port.  The counts add up to 2n. */
  lemma {:induction false} TwoPassesInterleave(vs: seq<Info>, tcpPort: int, udpPort: int)
    requires Unused(vs)
    ensures var r := TwoPasses(vs, tcpPort, udpPort);
      && |r| == 2 * |vs|
      && (forall k | 0 <= k < |vs| ::
            && r[2 * k] == WithPort(vs[k], tcpPort, SOCK_STREAM)
            && r[2 * k + 1] == WithPort(vs[k].(clone := false), udpPort, SOCK_DGRAM))
    ensures TwoCounts(vs, tcpPort) == 2 * |vs|
  {
    if vs == [] {
    } else {
      var last := |vs| - 1;
      var front, v := vs[..last], vs[last];
      assert vs == front + [v];
      TwoPassesInterleave(front, tcpPort, udpPort);
      OneEntry(v, tcpPort, udpPort);
      PassDistributes(front, [v], tcpPort, SOCK_STREAM);
      PassDistributes(Pass(front, tcpPort, SOCK_STREAM), Pass([v], tcpPort, SOCK_STREAM), udpPort, SOCK_DGRAM);
    }
  }

  /** So every pair of a host and a socket type occurs exactly once, when the
      hosts differ. */
  lemma EveryPairOnce(vs: seq<Info>, tcpPort: int, udpPort: int, k: nat, socktype: int) returns (at: nat)
    requires Unused(vs) && k < |vs| && (socktype == SOCK_STREAM || socktype == SOCK_DGRAM)
    requires forall i, j | 0 <= i < j < |vs| :: vs[i].host != vs[j].host
    ensures var r := TwoPasses(vs, tcpPort, udpPort);
      && at < |r| && r[at].host == vs[k].host && r[at].socktype == socktype
      && r[at].port == (if socktype == SOCK_STREAM then tcpPort else udpPort)
      && forall i | 0 <= i < |r| && r[i].host == vs[k].host && r[i].socktype == socktype :: i == at
  {
    TwoPassesInterleave(vs, tcpPort, udpPort);
    var r := TwoPasses(vs, tcpPort, udpPort);
    at := if socktype == SOCK_STREAM then 2 * k else 2 * k + 1;
    forall i | 0 <= i < |r| && r[i].host == vs[k].host && r[i].socktype == socktype ensures i == at {
      assert i == 2 * (i / 2) || i == 2 * (i / 2) + 1;
      assert r[i].host == vs[i / 2].host;
    }
  }

  // ----- where the entries are found again -----

  /** Where entry `k` stands after a pass. */
  function Place(vs: seq<Info>, port: int, socktype: int, k: nat): nat
    requires k <= |vs|
  {
    |Pass(vs[..k], port, socktype)|
  }

  lemma PlaceInside(vs: seq<Info>, port: int, socktype: int, k: nat)
    requires k < |vs|
    ensures Place(vs, port, socktype, k) < |Pass(vs, port, socktype)|
  {
    PassOneMore(vs, k, port, socktype);
    assert vs == vs[..k + 1] + vs[k + 1..];
    PassDistributes(vs[..k + 1], vs[k + 1..], port, socktype);
  }

  /** Two passes over unused entries take entry `k` to place 2k. */
  lemma EvenPlaces(vs: seq<Info>, tcpPort: int, udpPort: int, k: nat)
    requires Unused(vs) && k < |vs|
    ensures Place(vs, tcpPort, SOCK_STREAM, k) == k <= |Pass(vs, tcpPort, SOCK_STREAM)|
    ensures Place(Pass(vs, tcpPort, SOCK_STREAM), udpPort, SOCK_DGRAM, k) == 2 * k
  {
    var us := Pass(vs, tcpPort, SOCK_STREAM);
    OneEach(vs[..k], tcpPort);
    assert vs == vs[..k] + vs[k..];
    PassDistributes(vs[..k], vs[k..], tcpPort, SOCK_STREAM);
    assert us[..k] == Pass(vs[..k], tcpPort, SOCK_STREAM);
    TwoPassesInterleave(vs[..k], tcpPort, udpPort);
  }

  lemma {:induction false} OneEach(vs: seq<Info>, port: int)
    requires Unused(vs)
    ensures |Pass(vs, port, SOCK_STREAM)| == |vs|
  {
    if vs == [] {
    } else {
      assert vs[0].clone && vs[0].socktype == 0;
      OneEach(vs[1..], port);
    }
  }

  // ----- the service argument -----

  /** A port number, or what the services database says of a name. */
  datatype Service = Number(port: int) | Name(tcp: Option<int>, udp: Option<int>)

  datatype Rc = Success | EAI_NONAME | EAI_SERVICE

  /** The passes one service argument causes, in order. */
  function Passes(serv: Service, socktype: int): seq<(int, int)> {
    match serv
    case Number(port) =>
      if socktype != 0 then [(port, socktype)] else [(port, SOCK_STREAM), (port, SOCK_DGRAM)]
    case Name(tcp, udp) =>
      (if (socktype == 0 || socktype == SOCK_STREAM) && tcp.Some? then [(tcp.value, SOCK_STREAM)] else []) +
      (if (socktype == 0 || socktype == SOCK_DGRAM) && udp.Some? then [(udp.value, SOCK_DGRAM)] else [])
  }

  function After(vs: seq<Info>, ps: seq<(int, int)>): seq<Info>
    decreases |ps|
  {
    if ps == [] then vs else After(Pass(vs, ps[0].0, ps[0].1), ps[1..])
  }

  function Found(vs: seq<Info>, ps: seq<(int, int)>): nat
    decreases |ps|
  {
    if ps == [] then 0 else Count(vs, ps[0].1) + Found(Pass(vs, ps[0].0, ps[0].1), ps[1..])
  }

  function Outcome(found: nat, socktype: int): Rc {
    if found != 0 then Success else if socktype == 0 then EAI_NONAME else EAI_SERVICE
  }

  /** Where entry `k` stands after these passes. */
  function Moved(vs: seq<Info>, ps: seq<(int, int)>, k: nat): nat
    requires k < |vs|
    decreases |ps|
  {
    if ps == [] then k
    else
      PlaceInside(vs, ps[0].0, ps[0].1, k);
      Moved(Pass(vs, ps[0].0, ps[0].1), ps[1..], Place(vs, ps[0].0, ps[0].1, k))
  }

  lemma {:induction false} MovedAppend(vs: seq<Info>, ps: seq<(int, int)>, port: int, socktype: int, k: nat)
    requires k < |vs|
    ensures Moved(vs, ps, k) < |After(vs, ps)|
    ensures Moved(vs, ps + [(port, socktype)], k) == Place(After(vs, ps), port, socktype, Moved(vs, ps, k))
    decreases |ps|
  {
    if ps == [] {
      assert ([] + [(port, socktype)])[1..] == [];
      PlaceInside(vs, port, socktype, k);
    } else {
      assert (ps + [(port, socktype)])[1..] == ps[1..] + [(port, socktype)];
      PlaceInside(vs, ps[0].0, ps[0].1, k);
      MovedAppend(Pass(vs, ps[0].0, ps[0].1), ps[1..], port, socktype, Place(vs, ps[0].0, ps[0].1, k));
    }
  }

  /** Both types are asked for and both have a port. */
  predicate BothTypes(serv: Service, socktype: int) {
    socktype == 0 && (serv.Number? || (serv.tcp.Some? && serv.udp.Some?))
  }

  lemma MovedToEven(vs: seq<Info>, serv: Service, k: nat)
    requires Unused(vs) && BothTypes(serv, 0) && k < |vs|
    ensures Moved(vs, Passes(serv, 0), k) == 2 * k
  {
    var tcpPort := if serv.Number? then serv.port else serv.tcp.value;
    var udpPort := if serv.Number? then serv.port else serv.udp.value;
    assert Passes(serv, 0) == [(tcpPort, SOCK_STREAM)] + [(udpPort, SOCK_DGRAM)];
    EvenPlaces(vs, tcpPort, udpPort, k);
    assert [] + [(tcpPort, SOCK_STREAM)] == [(tcpPort, SOCK_STREAM)];
    MovedAppend(vs, [], tcpPort, SOCK_STREAM, k);
    MovedAppend(vs, [(tcpPort, SOCK_STREAM)], udpPort, SOCK_DGRAM, k);
    AfterOne(vs, tcpPort, SOCK_STREAM);
  }

  lemma AfterNone(vs: seq<Info>)
    ensures After(vs, []) == vs && Found(vs, []) == 0
  {
  }

  lemma AfterOne(vs: seq<Info>, port: int, socktype: int)
    ensures After(vs, [(port, socktype)]) == Pass(vs, port, socktype)
    ensures Found(vs, [(port, socktype)]) == Count(vs, socktype)
    ensures [(port, socktype)] + [] == [(port, socktype)] && [] + [(port, socktype)] == [(port, socktype)]
  {
    assert [(port, socktype)][1..] == [];
  }

  lemma AfterTwo(vs: seq<Info>, port: int, socktype: int, port': int, socktype': int)
    ensures var ps := [(port, socktype), (port', socktype')];
      && After(vs, ps) == Pass(Pass(vs, port, socktype), port', socktype')
      && Found(vs, ps) == Count(vs, socktype) + Count(Pass(vs, port, socktype), socktype')
      && [(port, socktype)] + [(port', socktype')] == ps
  {
    assert [(port, socktype), (port', socktype')][1..] == [(port', socktype')];
    AfterOne(Pass(vs, port, socktype), port', socktype');
  }

  /** One more pass. */
  lemma {:induction false} AfterAppend(vs: seq<Info>, ps: seq<(int, int)>, port: int, socktype: int)
    ensures After(vs, ps + [(port, socktype)]) == Pass(After(vs, ps), port, socktype)
    ensures Found(vs, ps + [(port, socktype)]) == Found(vs, ps) + Count(After(vs, ps), socktype)
    decreases |ps|
  {
    if ps == [] {
      AfterOne(vs, port, socktype);
    } else {
      assert (ps + [(port, socktype)])[1..] == ps[1..] + [(port, socktype)];
      AfterAppend(Pass(vs, ps[0].0, ps[0].1), ps[1..], port, socktype);
    }
  }

  /** A number, or a name known for both protocols, causes exactly the two passes
      when no socket type is given. */
  lemma UnspecifiedTypeMeansTwoPasses(vs: seq<Info>, serv: Service, tcpPort: int, udpPort: int)
    requires serv == Name(Some(tcpPort), Some(udpPort)) || (serv == Number(tcpPort) && tcpPort == udpPort)
    ensures After(vs, Passes(serv, 0)) == TwoPasses(vs, tcpPort, udpPort)
    ensures Found(vs, Passes(serv, 0)) == TwoCounts(vs, tcpPort)
  {
    AfterTwo(vs, tcpPort, SOCK_STREAM, udpPort, SOCK_DGRAM);
  }

  // ----- any number of socket types -----

  /** Passes for different socket types, none of them 0. */
  ghost predicate Distinct(ps: seq<(int, int)>) {
    && (forall i | 0 <= i < |ps| :: ps[i].1 != 0)
    && forall i, j | 0 <= i < j < |ps| :: ps[i].1 != ps[j].1
  }

  /** What these passes make of one unused entry: the entry with the first type, and
      right behind it a copy for each later type, the latest first. */
  function Block(v: Info, ps: seq<(int, int)>): (b: seq<Info>)
    ensures |b| == if ps == [] then 1 else |ps|
    ensures b[0] == if ps == [] then v else WithPort(v, ps[0].0, ps[0].1)
    ensures forall j | 1 <= j < |b| ::
      b[j] == WithPort(v.(clone := false), ps[|ps| - j].0, ps[|ps| - j].1)
  {
    if |ps| == 0 then [v]
    else if |ps| == 1 then [WithPort(v, ps[0].0, ps[0].1)]
    else
      var last := |ps| - 1;
      var before := Block(v, ps[..last]);
      [before[0], WithPort(v.(clone := false), ps[last].0, ps[last].1)] + before[1..]
  }

  function Blocks(vs: seq<Info>, ps: seq<(int, int)>): seq<Info> {
    if vs == [] then [] else Block(vs[0], ps) + Blocks(vs[1..], ps)
  }

  lemma {:induction false} AfterDistributes(a: seq<Info>, b: seq<Info>, ps: seq<(int, int)>)
    ensures After(a + b, ps) == After(a, ps) + After(b, ps)
    ensures Found(a + b, ps) == Found(a, ps) + Found(b, ps)
    decreases |ps|
  {
    if ps == [] {
    } else {
      PassDistributes(a, b, ps[0].0, ps[0].1);
      AfterDistributes(Pass(a, ps[0].0, ps[0].1), Pass(b, ps[0].0, ps[0].1), ps[1..]);
    }
  }

  /** Copies of other types are left alone. */
  lemma {:induction false} OthersPass(vs: seq<Info>, port: int, socktype: int)
    requires forall i | 0 <= i < |vs| :: !vs[i].clone && vs[i].socktype != socktype
    ensures Pass(vs, port, socktype) == vs && Count(vs, socktype) == 0
  {
    if vs == [] {
    } else {
      OthersPass(vs[1..], port, socktype);
      assert PassOne(vs[0], port, socktype) == [vs[0]];
    }
  }

  lemma {:induction false} OneBlock(v: Info, ps: seq<(int, int)>)
    requires v.clone && v.socktype == 0 && HasPort(v) && Distinct(ps)
    ensures After([v], ps) == Block(v, ps) && Found([v], ps) == |ps|
    decreases |ps|
  {
    if ps == [] {
    } else {
      var last := |ps| - 1;
      var (port, socktype) := ps[last];
      var before := Block(v, ps[..last]);
      assert ps == ps[..last] + [(port, socktype)];
      OneBlock(v, ps[..last]);
      AfterAppend([v], ps[..last], port, socktype);
      assert before == [before[0]] + before[1..];
      PassDistributes([before[0]], before[1..], port, socktype);
      PassSingle(before[0], port, socktype);
      forall j | 0 <= j < |before[1..]| ensures !before[1..][j].clone && before[1..][j].socktype != socktype {
        assert before[1..][j] == before[j + 1];
      }
      OthersPass(before[1..], port, socktype);
    }
  }

  /** However many types there are, each unused entry becomes its block, in order; one
      port is set for each entry and type. */
  lemma {:induction false} EveryTypeOnce(vs: seq<Info>, ps: seq<(int, int)>)
    requires Unused(vs) && Distinct(ps)
    ensures After(vs, ps) == Blocks(vs, ps) && Found(vs, ps) == |vs| * |ps|
    ensures ps != [] ==> |After(vs, ps)| == |vs| * |ps|
  {
    if vs == [] {
      AfterEmpty(ps);
    } else {
      assert vs == [vs[0]] + vs[1..] && vs[0].clone && HasPort(vs[0]);
      hide After, Found, Block, Distinct;
      AfterDistributes([vs[0]], vs[1..], ps);
      OneBlock(vs[0], ps);
      EveryTypeOnce(vs[1..], ps);
      OneRowMore(|vs| - 1, |ps|);
    }
  }

  lemma OneRowMore(n: nat, m: nat)
    ensures m + n * m == (n + 1) * m
  {
  }

  lemma {:induction false} AfterEmpty(ps: seq<(int, int)>)
    ensures After([], ps) == [] && Found([], ps) == 0
    decreases |ps|
  {
    if ps == [] {
    } else {
      AfterEmpty(ps[1..]);
    }
  }
}
