/** What the service argument of getaddrinfo does, case by case: which entries get which
    port, and which result is returned. */
module GaiService {
  import opened Common
  import opened GaiPasses

  /** The port the service has for a socket type, if it has one. */
  function PortFor(serv: Service, socktype: int): Option<int> {
    match serv
    case Number(port) => Some(port)
    case Name(tcp, udp) => if socktype == SOCK_STREAM then tcp else if socktype == SOCK_DGRAM then udp else None
  }

  /** The caller wants entries of this type: the one asked for, or either if none is. */
  predicate Wanted(hint: int, socktype: int) {
    if hint == 0 then socktype == SOCK_STREAM || socktype == SOCK_DGRAM else socktype == hint
  }

  predicate Known(v: Info) { v.family == AF_INET || v.family == AF_INET6 }

  /** The entry is to get a port, being wanted, of a known family, and known to the
      service. */
  predicate GetsPort(serv: Service, hint: int, v: Info) {
    Wanted(hint, v.socktype) && PortFor(serv, v.socktype).Some? && Known(v)
  }

  // ----- entries that already have their socket type -----

  ghost predicate Plain(vs: seq<Info>) { forall k | 0 <= k < |vs| :: !vs[k].clone }

  predicate Matches(v: Info, socktype: int) { v.socktype == socktype && Known(v) }

  lemma {:induction false} PassOverPlain(vs: seq<Info>, port: int, socktype: int)
    requires Plain(vs)
    ensures var r := Pass(vs, port, socktype);
      && |r| == |vs| && Plain(r)
      && (forall k | 0 <= k < |vs| :: r[k] == if Matches(vs[k], socktype) then vs[k].(port := port) else vs[k])
      && (Count(vs, socktype) > 0 <==> exists k :: 0 <= k < |vs| && Matches(vs[k], socktype))
  {
    if vs == [] {
    } else {
      PassOverPlain(vs[1..], port, socktype);
      assert !vs[0].clone;
      assert forall k | 1 <= k < |vs| :: vs[k] == vs[1..][k - 1];
    }
  }

  /** The port that passes have for a type. */
  function PortIn(ps: seq<(int, int)>, socktype: int): Option<int> {
    if ps == [] then None else if ps[0].1 == socktype then Some(ps[0].0) else PortIn(ps[1..], socktype)
  }

  lemma {:induction false} NoneLater(ps: seq<(int, int)>, socktype: int)
    requires forall i | 0 <= i < |ps| :: ps[i].1 != socktype
    ensures PortIn(ps, socktype) == None
  {
    if ps == [] {
    } else {
      NoneLater(ps[1..], socktype);
    }
  }

  /** The entry after passes, if it had its socktype. */
  function Given(ps: seq<(int, int)>, v: Info): Info {
    if PortIn(ps, v.socktype).Some? && Known(v) then v.(port := PortIn(ps, v.socktype).value) else v
  }

  lemma GivenInTurn(ps: seq<(int, int)>, v: Info)
    requires Distinct(ps) && ps != []
    ensures var w := if Matches(v, ps[0].1) then v.(port := ps[0].0) else v;
      && w.socktype == v.socktype && Known(w) == Known(v)
      && Given(ps, v) == Given(ps[1..], w)
  {
    if v.socktype == ps[0].1 {
      NoneLater(ps[1..], v.socktype);
    }
  }

  lemma {:induction false} PassesOverPlain(vs: seq<Info>, ps: seq<(int, int)>)
    requires Plain(vs) && Distinct(ps)
    ensures var r := After(vs, ps); |r| == |vs| && forall k | 0 <= k < |vs| :: r[k] == Given(ps, vs[k])
    decreases |ps|
  {
    if ps == [] {
    } else {
      var next := Pass(vs, ps[0].0, ps[0].1);
      PassOverPlain(vs, ps[0].0, ps[0].1);
      assert Distinct(ps[1..]);
      PassesOverPlain(next, ps[1..]);
      hide Given, Distinct;
      forall k | 0 <= k < |vs| ensures After(vs, ps)[k] == Given(ps, vs[k]) {
        GivenInTurn(ps, vs[k]);
      }
    }
  }

  lemma {:induction false} FoundOverPlain(vs: seq<Info>, ps: seq<(int, int)>)
    requires Plain(vs) && Distinct(ps)
    ensures Found(vs, ps) > 0 <==> exists k :: 0 <= k < |vs| && PortIn(ps, vs[k].socktype).Some? && Known(vs[k])
    decreases |ps|
  {
    if ps == [] {
    } else {
      var next := Pass(vs, ps[0].0, ps[0].1);
      PassOverPlain(vs, ps[0].0, ps[0].1);
      assert Distinct(ps[1..]);
      FoundOverPlain(next, ps[1..]);
      hide Distinct;
      assert forall k | 0 <= k < |vs| :: next[k].socktype == vs[k].socktype && Known(next[k]) == Known(vs[k]);
    }
  }

  /** The passes are for the types wanted that the service knows, each once. */
  lemma PassesAre(serv: Service, hint: int)
    ensures var ps := Passes(serv, hint);
      Distinct(ps) && forall st :: PortIn(ps, st) == if Wanted(hint, st) then PortFor(serv, st) else None
  {
    var ps := Passes(serv, hint);
    forall st ensures PortIn(ps, st) == if Wanted(hint, st) then PortFor(serv, st) else None {
      PortInTwo(ps, st);
    }
  }

  lemma PortInTwo(ps: seq<(int, int)>, socktype: int)
    requires |ps| <= 2
    ensures PortIn(ps, socktype) ==
      if |ps| > 0 && ps[0].1 == socktype then Some(ps[0].0)
      else if |ps| > 1 && ps[1].1 == socktype then Some(ps[1].0)
      else None
  {
    if |ps| == 2 {
      assert PortIn(ps[1..], socktype) == if ps[1].1 == socktype then Some(ps[1].0) else PortIn(ps[1..][1..], socktype);
    }
  }

  /** Exactly the entries that are wanted, of a known family, and known to the service get
      its port for their type, and nothing else changes; the call succeeds if and only if
      there is one, and otherwise says what was missing. */
  lemma PlainEntriesGetTheirPort(vs: seq<Info>, serv: Service, hint: int)
    requires Plain(vs)
    ensures var r := After(vs, Passes(serv, hint));
      && |r| == |vs|
      && (forall k | 0 <= k < |vs| ::
            r[k] == if GetsPort(serv, hint, vs[k]) then vs[k].(port := PortFor(serv, vs[k].socktype).value) else vs[k])
      && Outcome(Found(vs, Passes(serv, hint)), hint) ==
           if exists k :: 0 <= k < |vs| && GetsPort(serv, hint, vs[k]) then Success
           else if hint == 0 then EAI_NONAME else EAI_SERVICE
  {
    PassesAre(serv, hint);
    PassesOverPlain(vs, Passes(serv, hint));
    FoundOverPlain(vs, Passes(serv, hint));
    hide Passes, After, Found, Distinct, PortIn, PortFor, Wanted;
  }

  // ----- entries without a socket type yet -----

  function KnownTypes(serv: Service): seq<int> {
    (if PortFor(serv, SOCK_STREAM).Some? then [SOCK_STREAM] else []) +
    if PortFor(serv, SOCK_DGRAM).Some? then [SOCK_DGRAM] else []
  }

  /** Each unused entry becomes one entry for each type the service is known for, with the
      port for that type: the entry itself with the first, a copy behind it with the second.
      If the service is known for none, nothing changes and the name is not found. */
  lemma UnusedEntriesGetEveryType(vs: seq<Info>, serv: Service)
    requires Unused(vs) && vs != []
    ensures var types, r := KnownTypes(serv), After(vs, Passes(serv, 0));
      && Outcome(Found(vs, Passes(serv, 0)), 0) == (if types == [] then EAI_NONAME else Success)
      && (types == [] ==> r == vs)
      && (types != [] ==> |r| == |vs| * |types|)
      && (|types| == 1 ==> forall k | 0 <= k < |vs| ::
            r[k] == WithPort(vs[k], PortFor(serv, types[0]).value, types[0]))
      && (|types| == 2 ==> forall k | 0 <= k < |vs| ::
            && r[2 * k] == WithPort(vs[k], PortFor(serv, SOCK_STREAM).value, SOCK_STREAM)
            && r[2 * k + 1] == WithPort(vs[k].(clone := false), PortFor(serv, SOCK_DGRAM).value, SOCK_DGRAM))
  {
    var types, ps := KnownTypes(serv), Passes(serv, 0);
    PassesAre(serv, 0);
    if types == [] {
      assert ps == [];
    } else if |types| == 1 {
      assert ps == [(PortFor(serv, types[0]).value, types[0])];
      AfterOne(vs, ps[0].0, ps[0].1);
      OnePassOverUnused(vs, ps[0].0, ps[0].1);
    } else {
      var tcp, udp := PortFor(serv, SOCK_STREAM).value, PortFor(serv, SOCK_DGRAM).value;
      UnspecifiedTypeMeansTwoPasses(vs, serv, tcp, udp);
      TwoPassesInterleave(vs, tcp, udp);
    }
  }

  lemma {:induction false} OnePassOverUnused(vs: seq<Info>, port: int, socktype: int)
    requires Unused(vs)
    ensures var r := Pass(vs, port, socktype);
      && |r| == |vs| && (forall k | 0 <= k < |vs| :: r[k] == WithPort(vs[k], port, socktype))
      && Count(vs, socktype) == |vs|
  {
    if vs == [] {
    } else {
      OnePassOverUnused(vs[1..], port, socktype);
      assert vs[0].clone && vs[0].socktype == 0 && Known(vs[0]);
      assert forall k | 1 <= k < |vs| :: vs[k] == vs[1..][k - 1];
    }
  }
}
