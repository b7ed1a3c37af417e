/** The routing table of one distance-vector router: its types, the find-or-add
    search, the Bellman-Ford update, poisoned reverse and longest-prefix match,
    each as a function on the table's contents.  The class in RouterNode.dfy
    computes these functions in place on arrays. */
module RoutingTable {
  import opened Common

  /** An IPv4 address or mask, as its 32-bit value in host order.  The program
      keeps them in network order; only equality and `&` are applied to that
      form, and the one ordering it needs is taken after conversion. */
  type Ip = a: int | 0 <= a < 0x1_0000_0000

  const NO_HOP: Ip := 0
  const INF_COST := 65535
  const MAX_DEST := 128
  const MAX_NEIGH := 16
  const DEAD_INTERVAL_SEC := 15
  const DATA_PORT_OFFSET := 1000

  /** A 16-bit cost. */
  type Cost = c: int | 0 <= c <= INF_COST

  /** A 16-bit port. */
  type Port = p: int | 0 <= p < 65536

  datatype Key = Key(net: Ip, mask: Ip)
  datatype Route = Route(key: Key, nextHop: Ip, cost: Cost)
  datatype DvEntry = DvEntry(key: Key, cost: Cost)

  // ----- find or add -----

  /** The first entry for `key` from `i` on, or the table's length. */
  function IndexFrom(routes: seq<Route>, key: Key, i: nat): (k: nat)
    requires i <= |routes|
    ensures i <= k <= |routes|
    ensures k < |routes| ==> routes[k].key == key
    ensures forall j | i <= j < k :: routes[j].key != key
    decreases |routes| - i
  {
    if i == |routes| || routes[i].key == key then i else IndexFrom(routes, key, i + 1)
  }

  function IndexOf(routes: seq<Route>, key: Key): nat { IndexFrom(routes, key, 0) }

  /** The table after looking up `key`: a missing key is appended as an
      unreachable route unless the table is full. */
  function FindOrAdd(routes: seq<Route>, key: Key): seq<Route> {
    if IndexOf(routes, key) < |routes| || |routes| >= MAX_DEST then routes
    else routes + [Route(key, NO_HOP, INF_COST)]
  }

  ghost predicate UniqueKeys(routes: seq<Route>) {
    forall i, j | 0 <= i < j < |routes| :: routes[i].key != routes[j].key
  }

  /** A search that stops at its first hit finds the function's index. */
  lemma FirstIndex(routes: seq<Route>, key: Key, i: nat)
    requires i <= |routes| && (i < |routes| ==> routes[i].key == key)
    requires forall j | 0 <= j < i :: routes[j].key != key
    ensures IndexOf(routes, key) == i
  {
  }

  lemma IndexOfIs(routes: seq<Route>, key: Key, i: nat)
    requires i < |routes| && routes[i].key == key && UniqueKeys(routes)
    ensures IndexOf(routes, key) == i
  {
  }

  /** A reachable route through `via`. */
  predicate LeadsTo(e: Route, via: Ip) { e.cost < INF_COST && e.nextHop == via }

  // ----- Bellman-Ford update -----

  /** What one advertised cost does to the route it names. */
  function Relax(r: Route, via: Ip, linkCost: Cost, advertised: Cost): Route {
    if advertised >= INF_COST then
      if r.nextHop == via && r.cost < INF_COST then r.(cost := INF_COST) else r
    else
      var newCost := Min(linkCost + advertised, INF_COST);
      if newCost < r.cost || (r.nextHop == via && newCost != r.cost)
      then r.(cost := newCost, nextHop := via)
      else r
  }

  /** The table after one entry of a vector heard from the neighbour `via`. */
  function ApplyEntry(routes: seq<Route>, via: Ip, linkCost: Cost, e: DvEntry): (t: seq<Route>)
    ensures |t| >= |routes|
  {
    var found := FindOrAdd(routes, e.key);
    var i := IndexOf(found, e.key);
    if i == |found| then found else found[i := Relax(found[i], via, linkCost, e.cost)]
  }

  /** The table after the first `n` entries of a vector. */
  function ApplyVector(routes: seq<Route>, via: Ip, linkCost: Cost, es: seq<DvEntry>, n: nat): seq<Route>
    requires n <= |es|
  {
    if n == 0 then routes
    else ApplyEntry(ApplyVector(routes, via, linkCost, es, n - 1), via, linkCost, es[n - 1])
  }

  /** Whether an entry changes a cost or a next hop; adding an unreachable
      route does not count. */
  predicate EntryChanges(routes: seq<Route>, via: Ip, linkCost: Cost, e: DvEntry) {
    ApplyEntry(routes, via, linkCost, e) != FindOrAdd(routes, e.key)
  }

  /** Whether one of the first `n` entries of a vector changes the table its
      predecessors left. */
  predicate VectorChanges(routes: seq<Route>, via: Ip, linkCost: Cost, es: seq<DvEntry>, n: nat)
    requires n <= |es|
  {
    n > 0 && (VectorChanges(routes, via, linkCost, es, n - 1) ||
              EntryChanges(ApplyVector(routes, via, linkCost, es, n - 1), via, linkCost, es[n - 1]))
  }

  // ----- what is advertised, and what a dead neighbour costs -----

  /** Poisoned reverse: routes through the receiver are advertised as unreachable. */
  function Advertised(r: Route, receiver: Ip): DvEntry {
    DvEntry(r.key, if r.nextHop != NO_HOP && r.nextHop == receiver then INF_COST else r.cost)
  }

  function Vector(routes: seq<Route>, receiver: Ip): (es: seq<DvEntry>)
    ensures |es| == |routes|
    ensures forall i | 0 <= i < |es| :: es[i] == Advertised(routes[i], receiver)
  {
    seq(|routes|, i requires 0 <= i < |routes| => Advertised(routes[i], receiver))
  }

  function Poison(routes: seq<Route>, dead: Ip): (t: seq<Route>)
    ensures |t| == |routes|
    ensures forall i | 0 <= i < |t| ::
      t[i] == if routes[i].nextHop == dead then routes[i].(cost := INF_COST) else routes[i]
  {
    seq(|routes|, i requires 0 <= i < |routes| =>
      if routes[i].nextHop == dead then routes[i].(cost := INF_COST) else routes[i])
  }

  // ----- the table as a map from keys to costs and next hops -----

  /** What the table says about `key`; a missing entry is an unreachable route. */
  function Entry(routes: seq<Route>, key: Key): (r: Route)
    ensures r.key == key
  {
    var i := IndexOf(routes, key);
    if i < |routes| then routes[i] else Route(key, NO_HOP, INF_COST)
  }

  lemma IndexOfAppend(routes: seq<Route>, r: Route, key: Key)
    ensures IndexOf(routes + [r], key) ==
      if IndexOf(routes, key) < |routes| then IndexOf(routes, key)
      else if r.key == key then |routes| else |routes| + 1
  {
    var i := IndexOf(routes, key);
    FirstIndex(routes + [r], key, if i < |routes| || r.key == key then i else i + 1);
  }

  lemma IndexOfUpdate(routes: seq<Route>, i: nat, r: Route, key: Key)
    requires i < |routes| && r.key == routes[i].key
    ensures IndexOf(routes[i := r], key) == IndexOf(routes, key)
  {
    FirstIndex(routes[i := r], key, IndexOf(routes, key));
  }

  /** The update acts on each destination separately: an entry relaxes the
      route it names and leaves every other destination as it was. */
  lemma ApplyEntryAt(routes: seq<Route>, via: Ip, linkCost: Cost, e: DvEntry, key: Key)
    ensures Entry(ApplyEntry(routes, via, linkCost, e), key) ==
      if key != e.key || (IndexOf(routes, key) == |routes| && |routes| >= MAX_DEST) then Entry(routes, key)
      else Relax(Entry(routes, key), via, linkCost, e.cost)
  {
    var found := FindOrAdd(routes, e.key);
    if IndexOf(routes, e.key) == |routes| && |routes| < MAX_DEST {
      IndexOfAppend(routes, Route(e.key, NO_HOP, INF_COST), key);
      IndexOfAppend(routes, Route(e.key, NO_HOP, INF_COST), e.key);
    }
    var i := IndexOf(found, e.key);
    if i < |found| {
      IndexOfUpdate(found, i, Relax(found[i], via, linkCost, e.cost), key);
    }
  }

  /** A vector reported as changing nothing leaves every destination's cost and next
      hop as they were. */
  lemma {:induction false} UnchangedMeansSameRoutes(routes: seq<Route>, via: Ip, linkCost: Cost,
                                                    es: seq<DvEntry>, n: nat, key: Key)
    requires n <= |es| && !VectorChanges(routes, via, linkCost, es, n)
    ensures Entry(ApplyVector(routes, via, linkCost, es, n), key) == Entry(routes, key)
  {
    if n == 0 {
    } else {
      UnchangedMeansSameRoutes(routes, via, linkCost, es, n - 1, key);
      var before := ApplyVector(routes, via, linkCost, es, n - 1);
      if IndexOf(before, es[n - 1].key) == |before| {
        IndexOfAppend(before, Route(es[n - 1].key, NO_HOP, INF_COST), key);
      }
    }
  }

  /** No update ever makes two entries for one destination. */
  lemma ApplyEntryKeepsKeysUnique(routes: seq<Route>, via: Ip, linkCost: Cost, e: DvEntry)
    requires UniqueKeys(routes)
    ensures UniqueKeys(ApplyEntry(routes, via, linkCost, e))
  {
    var found := FindOrAdd(routes, e.key);
    assert UniqueKeys(found);
  }

  // ----- longest-prefix match -----

  /** Bitwise and. */
  function BitAnd(a: nat, b: nat): nat {
    if a == 0 || b == 0 then 0
    else (if a % 2 == 1 && b % 2 == 1 then 1 else 0) + 2 * BitAnd(a / 2, b / 2)
  }

  predicate Matches(key: Key, dst: Ip) {
    BitAnd(dst, key.mask) == BitAnd(key.net, key.mask)
  }

  /** The loop of the lookup after `n` entries: the chosen entry, if any. */
  function LookupIn(routes: seq<Route>, dst: Ip, n: nat): (best: Option<nat>)
    requires n <= |routes|
    ensures best.Some? ==> best.value < n
  {
    if n == 0 then None
    else
      var best := LookupIn(routes, dst, n - 1);
      if Matches(routes[n - 1].key, dst) && routes[n - 1].key.mask > BestMask(routes, best)
      then Some(n - 1) else best
  }

  function BestMask(routes: seq<Route>, best: Option<nat>): Ip
    requires best.Some? ==> best.value < |routes|
  {
    if best.Some? then routes[best.value].key.mask else 0
  }

  function Lookup(routes: seq<Route>, dst: Ip): Option<nat> {
    LookupIn(routes, dst, |routes|)
  }

  lemma {:induction false} LookupInIsFirstGreatest(routes: seq<Route>, dst: Ip, n: nat)
    requires n <= |routes|
    ensures var best := LookupIn(routes, dst, n);
      && (best.Some? ==> Matches(routes[best.value].key, dst) && BestMask(routes, best) != 0)
      && (forall j | 0 <= j < n && Matches(routes[j].key, dst) :: routes[j].key.mask <= BestMask(routes, best))
      && (forall j | 0 <= j < n && Matches(routes[j].key, dst) && best.Some? && j < best.value ::
            routes[j].key.mask < BestMask(routes, best))
  {
    if n == 0 {
    } else {
      LookupInIsFirstGreatest(routes, dst, n - 1);
    }
  }

  function Pow2(n: nat): (p: nat)
    ensures p >= 1
  {
    if n == 0 then 1 else 2 * Pow2(n - 1)
  }

  /** `hi` one bits above `lo` zero bits. */
  function Ones(hi: nat, lo: nat): (m: nat)
    ensures m + Pow2(lo) == Pow2(hi + lo)
  {
    if hi == 0 then 0 else if lo > 0 then 2 * Ones(hi, lo - 1) else 2 * Ones(hi - 1, 0) + 1
  }

  /** `a` without its `drop` lowest bits. */
  function Prefix(a: nat, drop: nat): nat {
    if drop == 0 then a else Prefix(a / 2, drop - 1)
  }

  /** The mask is contiguous: its one bits are its top `len` bits. */
  ghost predicate HasPrefixLength(mask: Ip, len: nat) { len <= 32 && mask == Ones(len, 32 - len) }

  lemma {:induction false} Pow2Grows(a: nat, b: nat)
    requires a < b
    ensures Pow2(a) < Pow2(b)
  {
    if a + 1 < b {
      Pow2Grows(a, b - 1);
    }
  }

  /** Comparing contiguous masks as numbers compares their prefix lengths. */
  lemma MaskOrderIsPrefixOrder(a: Ip, b: Ip, lenA: nat, lenB: nat)
    requires HasPrefixLength(a, lenA) && HasPrefixLength(b, lenB)
    ensures a < b <==> lenA < lenB
  {
    if lenA < lenB {
      Pow2Grows(32 - lenB, 32 - lenA);
    } else if lenB < lenA {
      Pow2Grows(32 - lenA, 32 - lenB);
    }
  }

  lemma {:induction false} PrefixOfSmall(a: nat, n: nat)
    requires a < Pow2(n)
    ensures Prefix(a, n) == 0
  {
    if n == 0 {
    } else {
      PrefixOfSmall(a / 2, n - 1);
    }
  }

  lemma {:induction false} MaskedEqualIsSamePrefix(a: nat, b: nat, hi: nat, lo: nat)
    requires Prefix(a, hi + lo) == 0 == Prefix(b, hi + lo)
    ensures BitAnd(a, Ones(hi, lo)) == BitAnd(b, Ones(hi, lo)) <==> Prefix(a, lo) == Prefix(b, lo)
    decreases lo, hi
  {
    if hi == 0 {
    } else {
      var m := Ones(hi, lo);
      var half := if lo > 0 then Ones(hi, lo - 1) else Ones(hi - 1, 0);
      assert m == if lo > 0 then 2 * half else 2 * half + 1;
      MaskBit(a, m);
      MaskBit(b, m);
      hide Ones, BitAnd, Pow2;
      if lo > 0 {
        MaskedEqualIsSamePrefix(a / 2, b / 2, hi, lo - 1);
      } else {
        MaskedEqualIsSamePrefix(a / 2, b / 2, hi - 1, 0);
      }
    }
  }

  /** The lowest bit of a masked number, and the rest. */
  lemma MaskBit(a: nat, m: nat)
    ensures BitAnd(a, m) == (if a % 2 == 1 && m % 2 == 1 then 1 else 0) + 2 * BitAnd(a / 2, m / 2)
  {
    if a == 0 || m == 0 {
      assert BitAnd(a / 2, m / 2) == 0;
    }
  }

  lemma Pow2Of32()
    ensures Pow2(32) == 0x1_0000_0000
  {
    assert Pow2(8) == 256;
    assert Pow2(16) == 256 * Pow2(8);
    assert Pow2(24) == 256 * Pow2(16);
    assert Pow2(32) == 256 * Pow2(24);
  }

  /** An entry with a contiguous mask matches exactly the addresses that share
      its leading `len` bits. */
  lemma MatchesIsSamePrefix(key: Key, dst: Ip, len: nat)
    requires HasPrefixLength(key.mask, len)
    ensures Matches(key, dst) <==> Prefix(dst, 32 - len) == Prefix(key.net, 32 - len)
  {
    Pow2Of32();
    PrefixOfSmall(dst, 32);
    PrefixOfSmall(key.net, 32);
    MaskedEqualIsSamePrefix(dst, key.net, len, 32 - len);
  }

  lemma NoPrefix()
    ensures HasPrefixLength(0, 0)
  {
  }

  /** Longest-prefix match: the lookup fails exactly when nothing with a nonzero
      mask matches; otherwise it picks a matching entry that no matching entry
      beats in prefix length, and none before it equals.  `lens` gives the
      prefix length of each entry. */
  lemma LookupIsLongestPrefix(routes: seq<Route>, dst: Ip, lens: seq<nat>)
    requires |lens| == |routes| && forall j | 0 <= j < |routes| :: HasPrefixLength(routes[j].key.mask, lens[j])
    ensures var best := Lookup(routes, dst);
      && (best.None? <==> forall j | 0 <= j < |routes| && Matches(routes[j].key, dst) :: lens[j] == 0)
      && (best.Some? ==>
            && Matches(routes[best.value].key, dst)
            && forall j | 0 <= j < |routes| && Matches(routes[j].key, dst) ::
                 lens[j] <= lens[best.value] && (j < best.value ==> lens[j] < lens[best.value]))
  {
    var best := Lookup(routes, dst);
    LookupInIsFirstGreatest(routes, dst, |routes|);
    NoPrefix();
    hide HasPrefixLength, Matches, Lookup, LookupIn;
    forall j | 0 <= j < |routes| ensures lens[j] == 0 <==> routes[j].key.mask == 0 {
      MaskOrderIsPrefixOrder(0, routes[j].key.mask, 0, lens[j]);
    }
    if best.Some? {
      var b := best.value;
      forall j | 0 <= j < |routes| && Matches(routes[j].key, dst)
        ensures lens[j] <= lens[b] && (j < b ==> lens[j] < lens[b])
      {
        MaskOrderIsPrefixOrder(routes[j].key.mask, routes[b].key.mask, lens[j], lens[b]);
        MaskOrderIsPrefixOrder(routes[b].key.mask, routes[j].key.mask, lens[b], lens[j]);
      }
    }
  }
}
