/** The passes in place: a linked list of address entries that grows while it is
    walked. */
module GaiList {
  import opened Common
  import opened GaiPasses

  class SockAddr {
    var host: seq<int>
    var port: int

    constructor (host: seq<int>, port: int)
      ensures this.host == host && this.port == port
    {
      this.host, this.port := host, port;
    }
  }

  class AddrInfo {
    var clone: bool
    var family: Family
    var socktype: int
    var protocol: int
    var addr: SockAddr
    var next: AddrInfo?

    constructor (v: Info, next: AddrInfo?)
      ensures fresh(addr) && Value() == v && this.next == next
    {
      clone, family, socktype, protocol := v.clone, v.family, v.socktype, v.protocol;
      addr := new SockAddr(v.host, v.port);
      this.next := next;
    }

    ghost function Value(): Info
      reads this, addr
    {
      Info(clone, family, socktype, protocol, addr.host, addr.port)
    }
  }

  // ----- lists -----

  function Head(l: seq<AddrInfo>): AddrInfo? { if l == [] then null else l[0] }

  /** Entry `i`'s successor in the list. */
  ghost function Successor(l: seq<AddrInfo>, i: nat): AddrInfo?
    requires i < |l|
  {
    if i + 1 < |l| then l[i + 1] else null
  }

  /** The entries are linked in this order, and no two are the same entry or share
      an address. */
  ghost predicate IsList(l: seq<AddrInfo>)
    reads l
  {
    && (forall i {:trigger l[i].next} | 0 <= i < |l| :: l[i].next == Successor(l, i))
    && (forall i, j | 0 <= i < j < |l| :: l[i] != l[j] && l[i].addr != l[j].addr)
  }

  ghost predicate Holds(l: seq<AddrInfo>, vs: seq<Info>)
    reads l, set n | n in l :: n.addr
  {
    |l| == |vs| && forall i | 0 <= i < |l| :: l[i].Value() == vs[i]
  }

  // ----- cloning -----

  /** `ga_clone`: a copy with an address of its own, spliced in after `ai`. */
  method GaClone(ai: AddrInfo) returns (copy: AddrInfo)
    modifies ai`next
    ensures fresh(copy) && fresh(copy.addr) && copy.next == old(ai.next) && ai.next == copy
    ensures copy.Value() == old(ai.Value()).(clone := false)
  {
    copy := new AddrInfo(
      Info(false, ai.family, ai.socktype, ai.protocol, ai.addr.host, ai.addr.port), ai.next);
    ai.next := copy;
  }

  // ----- one pass -----

  /** The body of the walk: treats `ai`, and returns the entry to go on from. */
  method PassEntry(ai: AddrInfo, port: int, socktype: int) returns (last: AddrInfo, count: nat)
    modifies ai, ai.addr
    ensures count == CountOne(old(ai.Value()), socktype)
    ensures ai.addr == old(ai.addr)
    ensures var vs := PassOne(old(ai.Value()), port, socktype);
      if |vs| == 1 then last == ai && ai.next == old(ai.next) && ai.Value() == vs[0]
      else
        && fresh(last) && fresh(last.addr) && ai.next == last && last.next == old(ai.next)
        && ai.Value() == vs[0] && last.Value() == vs[1]
  {
    last, count := ai, 0;
    if ai.clone {
      if ai.socktype != 0 {
        last := GaClone(ai);
      }
    } else if ai.socktype != socktype {
      return;
    }
    last.socktype := socktype;
    if last.family == AF_INET || last.family == AF_INET6 {
      last.addr.port := port;
      count := 1;
    }
  }

  /** `new_` spliced into the list behind entry `at`. */
  ghost function Spliced(l: seq<AddrInfo>, at: nat, new_: AddrInfo): seq<AddrInfo>
    requires at < |l|
  {
    l[..at + 1] + [new_] + l[at + 1..]
  }

  /** Splicing a new entry with an address of its own leaves a list. */
  lemma SplicedIsList(l: seq<AddrInfo>, at: nat, new_: AddrInfo)
    requires at < |l|
    requires forall i {:trigger l[i].next} | 0 <= i < |l| && i != at :: l[i].next == Successor(l, i)
    requires forall i, j | 0 <= i < j < |l| :: l[i] != l[j] && l[i].addr != l[j].addr
    requires forall i | 0 <= i < |l| :: l[i] != new_ && l[i].addr != new_.addr
    requires l[at].next == new_ && new_.next == Successor(l, at)
    ensures IsList(Spliced(l, at, new_))
  {
    var s := Spliced(l, at, new_);
    assert forall i | 0 <= i < |s| :: s[i] == if i <= at then l[i] else if i == at + 1 then new_ else l[i - 1];
  }

  lemma SplicedShape(l: seq<AddrInfo>, at: nat, new_: AddrInfo)
    requires at < |l|
    ensures var s := Spliced(l, at, new_);
      && |s| == |l| + 1 && s[..at + 2] == l[..at] + [l[at], new_] && s[at + 2..] == l[at + 1..] && Head(s) == Head(l)
      && forall n | n in s :: n in l || n == new_
  {
  }

  /** The walk is at `done` in the grown list and at `i` in the original. */
  lemma AtWalk(l': seq<AddrInfo>, done: nat, l: seq<AddrInfo>, i: nat)
    requires done <= |l'| && i <= |l| && l'[done..] == l[i..] && (Head(l'[done..]) != null || done < |l'|)
    ensures done < |l'| && i < |l| && l'[done] == l[i] == Head(l'[done..])
    ensures l'[..done + 1] == l'[..done] + [l'[done]] && l'[done + 1..] == l[i + 1..]
    ensures Successor(l', done) == Head(l'[done + 1..])
  {
    assert l'[done..][0] == l'[done] && l[i..][0] == l[i];
    assert l'[done..][1..] == l'[done + 1..] && l[i..][1..] == l[i + 1..];
  }

  lemma RestAt(l': seq<AddrInfo>, done: nat, l: seq<AddrInfo>, i: nat)
    requires done <= |l'| && i <= |l| && l'[done..] == l[i..]
    ensures forall k | i <= k < |l| :: done + k - i < |l'| && l'[done + k - i] == l[k]
  {
    forall k | i <= k < |l| ensures done + k - i < |l'| && l'[done + k - i] == l[k] {
      assert l[k] == l[i..][k - i] == l'[done..][k - i];
    }
  }

  lemma WalkDone(l': seq<AddrInfo>, done: nat, l: seq<AddrInfo>, i: nat)
    requires done <= |l'| && i <= |l| && l'[done..] == l[i..] && Head(l'[done..]) == null
    ensures i == |l| && l'[..done] == l'
  {
    assert |l'[done..]| == 0 && |l[i..]| == 0;
  }

  /** One step of the walk, at entry `at` of the list with `passed` behind it.  What
      is behind keeps its place, and so does the entry itself. */
  method WalkStep(ai: AddrInfo, port: int, socktype: int, ghost l: seq<AddrInfo>, ghost at: nat,
                  ghost passed: seq<Info>)
      returns (next: AddrInfo?, count: nat, ghost l': seq<AddrInfo>, ghost at': nat)
    requires IsList(l) && at < |l| && ai == l[at] && Holds(l[..at], passed)
    modifies ai, ai.addr
    ensures IsList(l') && Head(l') == Head(l) && at' <= |l'| && l'[at'..] == l[at + 1..] && next == Head(l'[at'..])
    ensures at < at' && l'[..at] == l[..at] && l'[at] == l[at]
    ensures Holds(l'[..at'], passed + PassOne(old(ai.Value()), port, socktype))
    ensures count == CountOne(old(ai.Value()), socktype)
    ensures forall n | n in l' :: (n in l && n.addr == old(n.addr)) || (fresh(n) && fresh(n.addr))
    ensures forall k | at < k < |l| :: l[k].Value() == old(l[k].Value())
  {
    hide Head;
    l', at' := l, at + 1;
    assert l[at..][0] == ai;
    AtWalk(l, at, l, at);
    var last;
    last, count := PassEntry(ai, port, socktype);
    if last != ai {
      SplicedShape(l, at, last);
      SplicedIsList(l, at, last);
      l', at' := Spliced(l, at, last), at + 2;
    }
    next := last.next;
  }

  /** The entries of `l` are in `l'` still, where these passes move them. */
  ghost predicate Kept(l: seq<AddrInfo>, l': seq<AddrInfo>, vs: seq<Info>, ps: seq<(int, int)>)
    requires |l| == |vs|
  {
    forall k | 0 <= k < |l| :: Moved(vs, ps, k) < |l'| && l'[Moved(vs, ps, k)] == l[k]
  }

  /** The first `i` entries of `l` stand in `l'` where the pass has taken them. */
  ghost predicate Placed(l: seq<AddrInfo>, l': seq<AddrInfo>, vs: seq<Info>, port: int, socktype: int, i: nat)
    requires i <= |l| == |vs|
  {
    forall k | 0 <= k < i :: Place(vs, port, socktype, k) < |l'| && l'[Place(vs, port, socktype, k)] == l[k]
  }

  lemma NonePlaced(l: seq<AddrInfo>, vs: seq<Info>, port: int, socktype: int)
    requires |l| == |vs|
    ensures Placed(l, l, vs, port, socktype, 0)
  {
  }

  lemma PlacedNext(l: seq<AddrInfo>, l1: seq<AddrInfo>, l2: seq<AddrInfo>, vs: seq<Info>,
                   port: int, socktype: int, i: nat, at: nat)
    requires i < |l| == |vs| && at == Place(vs, port, socktype, i) && Placed(l, l1, vs, port, socktype, i)
    requires at < |l1| && at < |l2| && l2[..at] == l1[..at] && l2[at] == l[i]
    ensures Placed(l, l2, vs, port, socktype, i + 1)
  {
    hide Pass;
    forall k | 0 <= k < i ensures Place(vs, port, socktype, k) < at && l2[Place(vs, port, socktype, k)] == l[k] {
      assert vs[..i][..k] == vs[..k];
      PlaceInside(vs[..i], port, socktype, k);
      var p := Place(vs, port, socktype, k);
      assert l2[p] == l2[..at][p] == l1[..at][p];
    }
  }

  /** `ga_port`: walks the list, which may grow behind the walk but not ahead of
      it, and returns how many ports it set. */
  method GaPort(aihead: AddrInfo?, port: int, socktype: int, ghost l: seq<AddrInfo>, ghost vs: seq<Info>)
      returns (nfound: nat, ghost l': seq<AddrInfo>)
    requires IsList(l) && Holds(l, vs) && aihead == Head(l)
    modifies l, set n | n in l :: n.addr
    ensures IsList(l') && aihead == Head(l')
    ensures Holds(l', Pass(vs, port, socktype)) && nfound == Count(vs, socktype)
    ensures Kept(l, l', vs, [(port, socktype)])
    ensures forall n | n in l' :: (n in l && n.addr == old(n.addr)) || (fresh(n) && fresh(n.addr))
  {
    hide Pass, Count, PassOne, CountOne, Head, IsList, Placed, Kept, Moved;
    nfound := 0;
    var ai, n := aihead, 0;
    l' := l;
    PassEmpty(port, socktype);
    assert l[0..] == l && l[..0] == [] && vs[..0] == [];
    NonePlaced(l, vs, port, socktype);
    ghost var i, done := 0, 0;
    while ai != null
      invariant 0 <= i <= |l| && 0 <= done <= |l'| && l'[done..] == l[i..]
      invariant ai == Head(l'[done..]) && aihead == Head(l')
      invariant IsList(l')
      invariant Holds(l'[..done], Pass(vs[..i], port, socktype))
      invariant forall k | i <= k < |l| :: l[k].Value() == vs[k]
      invariant nfound == Count(vs[..i], socktype)
      invariant done == Place(vs, port, socktype, i) && Placed(l, l', vs, port, socktype, i)
      invariant forall n | n in l' :: (n in l && n.addr == old(n.addr)) || (fresh(n) && fresh(n.addr))
      decreases |l| - i
    {
      AtWalk(l', done, l, i);
      PassOneMore(vs, i, port, socktype);
      RestAt(l', done, l, i);
      assert ai.Value() == vs[i];
      ghost var before, at := l', done;
      ai, n, l', done := WalkStep(ai, port, socktype, l', done, Pass(vs[..i], port, socktype));
      PlacedNext(l, before, l', vs, port, socktype, i, at);
      nfound := nfound + n;
      i := i + 1;
    }
    WalkDone(l', done, l, i);
    assert vs[..i] == vs;
    AllPlaced(l, l', vs, port, socktype);
  }

  lemma AllPlaced(l: seq<AddrInfo>, l': seq<AddrInfo>, vs: seq<Info>, port: int, socktype: int)
    requires |l| == |vs| && Placed(l, l', vs, port, socktype, |l|)
    ensures Kept(l, l', vs, [(port, socktype)])
  {
    forall k | 0 <= k < |l| ensures Moved(vs, [(port, socktype)], k) == Place(vs, port, socktype, k) {
      MovedOnce(vs, port, socktype, k);
    }
  }

  lemma MovedOnce(vs: seq<Info>, port: int, socktype: int, k: nat)
    requires k < |vs|
    ensures Moved(vs, [(port, socktype)], k) == Place(vs, port, socktype, k)
  {
    assert [] + [(port, socktype)] == [(port, socktype)];
    MovedAppend(vs, [], port, socktype, k);
  }

  /** One more pass over the list that passes `ps` have left. */
  lemma KeptStill(l: seq<AddrInfo>, l1: seq<AddrInfo>, l2: seq<AddrInfo>,
                  vs: seq<Info>, ps: seq<(int, int)>, port: int, socktype: int)
    requires |l| == |vs| && |l1| == |After(vs, ps)| && Kept(l, l1, vs, ps)
    requires Kept(l1, l2, After(vs, ps), [(port, socktype)])
    ensures Kept(l, l2, vs, ps + [(port, socktype)])
  {
    hide Moved, After;
    forall k | 0 <= k < |l|
      ensures Moved(vs, ps + [(port, socktype)], k) < |l2| && l2[Moved(vs, ps + [(port, socktype)], k)] == l[k]
    {
      MovedAppend(vs, ps, port, socktype, k);
      MovedOnce(After(vs, ps), port, socktype, Moved(vs, ps, k));
    }
  }

  lemma OneMorePass(l: seq<AddrInfo>, l1: seq<AddrInfo>, l2: seq<AddrInfo>,
                    vs: seq<Info>, ps: seq<(int, int)>, port: int, socktype: int)
    requires |l| == |vs| && |l1| == |After(vs, ps)| && Kept(l, l1, vs, ps)
    requires Kept(l1, l2, After(vs, ps), [(port, socktype)])
    ensures Kept(l, l2, vs, ps + [(port, socktype)])
    ensures After(vs, ps + [(port, socktype)]) == Pass(After(vs, ps), port, socktype)
    ensures Found(vs, ps + [(port, socktype)]) == Found(vs, ps) + Count(After(vs, ps), socktype)
  {
    KeptStill(l, l1, l2, vs, ps, port, socktype);
    AfterAppend(vs, ps, port, socktype);
  }

  lemma KeptNone(l: seq<AddrInfo>, vs: seq<Info>)
    requires |l| == |vs|
    ensures Kept(l, l, vs, [])
  {
  }

  /** Entries kept at the even places leave the odd ones to others. */
  lemma OthersAtOdd(l: seq<AddrInfo>, l': seq<AddrInfo>, vs: seq<Info>, serv: Service)
    requires |l| == |vs| && Unused(vs) && BothTypes(serv, 0) && Kept(l, l', vs, Passes(serv, 0)) && |l'| == 2 * |l|
    requires IsList(l')
    ensures forall k | 0 <= k < |l| :: l'[2 * k] == l[k] && l'[2 * k + 1] !in l
  {
    hide Passes, Moved;
    forall k | 0 <= k < |l| ensures l'[2 * k] == l[k] {
      MovedToEven(vs, serv, k);
    }
  }

  lemma TwoEach(vs: seq<Info>, serv: Service)
    requires Unused(vs) && BothTypes(serv, 0)
    ensures |After(vs, Passes(serv, 0))| == 2 * |vs| == Found(vs, Passes(serv, 0))
  {
    var tcpPort := if serv.Number? then serv.port else serv.tcp.value;
    var udpPort := if serv.Number? then serv.port else serv.udp.value;
    UnspecifiedTypeMeansTwoPasses(vs, serv, tcpPort, udpPort);
    TwoPassesInterleave(vs, tcpPort, udpPort);
  }

  lemma OriginalThenCopy(l: seq<AddrInfo>, l': seq<AddrInfo>, vs: seq<Info>, serv: Service)
    requires |l| == |vs| && Unused(vs) && BothTypes(serv, 0)
    requires IsList(l') && Holds(l', After(vs, Passes(serv, 0))) && Kept(l, l', vs, Passes(serv, 0))
    ensures |l'| == 2 * |l| == Found(vs, Passes(serv, 0))
    ensures forall k | 0 <= k < |l| :: l'[2 * k] == l[k] && l'[2 * k + 1] !in l
  {
    TwoEach(vs, serv);
    OthersAtOdd(l, l', vs, serv);
  }

  /** The service is a port number. */
  method NumberPasses(aihead: AddrInfo?, hintSocktype: int, port: int, ghost l: seq<AddrInfo>, ghost vs: seq<Info>)
      returns (nfound: nat, ghost l': seq<AddrInfo>)
    requires IsList(l) && Holds(l, vs) && aihead == Head(l)
    modifies l, set n | n in l :: n.addr
    ensures IsList(l') && aihead == Head(l')
    ensures Holds(l', After(vs, Passes(Number(port), hintSocktype)))
    ensures Kept(l, l', vs, Passes(Number(port), hintSocktype))
    ensures nfound == Found(vs, Passes(Number(port), hintSocktype))
    ensures forall n | n in l' :: (n in l && n.addr == old(n.addr)) || (fresh(n) && fresh(n.addr))
  {
    hide Pass, Count, After, Found, Moved, Kept, IsList, Head;
    var n := 0;
    nfound, l' := 0, l;
    ghost var made: seq<(int, int)>, before := [], l;
    AfterNone(vs);
    KeptNone(l, vs);
    if hintSocktype != 0 {
      n, l' := GaPort(aihead, port, hintSocktype, l', After(vs, made));
      OneMorePass(l, before, l', vs, made, port, hintSocktype);
      before, made := l', made + [(port, hintSocktype)];
      nfound := nfound + n;
    } else {
      n, l' := GaPort(aihead, port, SOCK_STREAM, l', After(vs, made));
      OneMorePass(l, before, l', vs, made, port, SOCK_STREAM);
      before, made := l', made + [(port, SOCK_STREAM)];
      nfound := nfound + n;
      n, l' := GaPort(aihead, port, SOCK_DGRAM, l', After(vs, made));
      OneMorePass(l, before, l', vs, made, port, SOCK_DGRAM);
      before, made := l', made + [(port, SOCK_DGRAM)];
      nfound := nfound + n;
    }
    assert made == Passes(Number(port), hintSocktype);
  }

  /** The service is a name, known to either protocol or both. */
  method NamePasses(aihead: AddrInfo?, hintSocktype: int, tcp: Option<int>, udp: Option<int>, ghost l: seq<AddrInfo>,
                    ghost vs: seq<Info>)
      returns (nfound: nat, ghost l': seq<AddrInfo>)
    requires IsList(l) && Holds(l, vs) && aihead == Head(l)
    modifies l, set n | n in l :: n.addr
    ensures IsList(l') && aihead == Head(l')
    ensures Holds(l', After(vs, Passes(Name(tcp, udp), hintSocktype)))
    ensures Kept(l, l', vs, Passes(Name(tcp, udp), hintSocktype))
    ensures nfound == Found(vs, Passes(Name(tcp, udp), hintSocktype))
    ensures forall n | n in l' :: (n in l && n.addr == old(n.addr)) || (fresh(n) && fresh(n.addr))
  {
    hide Pass, Count, After, Found, Moved, Kept, IsList, Head;
    var n := 0;
    nfound, l' := 0, l;
    ghost var made: seq<(int, int)>, before := [], l;
    AfterNone(vs);
    KeptNone(l, vs);
    if hintSocktype == 0 || hintSocktype == SOCK_STREAM {
      if tcp.Some? {
        n, l' := GaPort(aihead, tcp.value, SOCK_STREAM, l', After(vs, made));
        OneMorePass(l, before, l', vs, made, tcp.value, SOCK_STREAM);
        before, made := l', made + [(tcp.value, SOCK_STREAM)];
        nfound := nfound + n;
      }
    }
    if hintSocktype == 0 || hintSocktype == SOCK_DGRAM {
      if udp.Some? {
        n, l' := GaPort(aihead, udp.value, SOCK_DGRAM, l', After(vs, made));
        OneMorePass(l, before, l', vs, made, udp.value, SOCK_DGRAM);
        before, made := l', made + [(udp.value, SOCK_DGRAM)];
        nfound := nfound + n;
      }
    }
    assert made == Passes(Name(tcp, udp), hintSocktype);
  }

  /** `ga_serv`: one pass or two, by what the caller and the services database
      say.  After both over n unused entries the list has 2n: the old ones in order,
      and behind each a new one with an address of its own. */
  method GaServ(aihead: AddrInfo?, hintSocktype: int, serv: Service, ghost l: seq<AddrInfo>, ghost vs: seq<Info>)
      returns (rc: Rc, ghost l': seq<AddrInfo>)
    requires IsList(l) && Holds(l, vs) && aihead == Head(l)
    modifies l, set n | n in l :: n.addr
    ensures IsList(l') && aihead == Head(l')
    ensures Holds(l', After(vs, Passes(serv, hintSocktype))) && Kept(l, l', vs, Passes(serv, hintSocktype))
    ensures rc == Outcome(Found(vs, Passes(serv, hintSocktype)), hintSocktype)
    ensures forall n | n in l' :: (n in l && n.addr == old(n.addr)) || (fresh(n) && fresh(n.addr))
    ensures BothTypes(serv, hintSocktype) && Unused(vs) ==>
      && |l'| == 2 * |l| && rc == (if l == [] then EAI_NONAME else Success)
      && (forall k | 0 <= k < |l| :: l'[2 * k] == l[k] && fresh(l'[2 * k + 1]) && fresh(l'[2 * k + 1].addr))
  {
    hide Pass, Count, After, Found, Moved, Unused, Kept, IsList, Head, Passes;
    var nfound := 0;
    match serv {
      case Number(port) =>
        nfound, l' := NumberPasses(aihead, hintSocktype, port, l, vs);
      case Name(tcp, udp) =>
        nfound, l' := NamePasses(aihead, hintSocktype, tcp, udp, l, vs);
    }
    if nfound == 0 {
      rc := if hintSocktype == 0 then EAI_NONAME else EAI_SERVICE;
    } else {
      rc := Success;
    }
    if BothTypes(serv, hintSocktype) && Unused(vs) {
      OriginalThenCopy(l, l', vs, serv);
    }
  }
}
