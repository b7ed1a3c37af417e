/** A whole vector applied to a whole table, destination by destination, when the
    network has no more destinations than a table can hold. */
module TableVectors {
  import opened RoutingTable
  import opened Walks

  function KeysOf(routes: seq<Route>): set<Key> { set r | r in routes :: r.key }

  /** One entry per destination, all among `keys`, which fit in a table. */
  ghost predicate Fits(keys: set<Key>, routes: seq<Route>) {
    UniqueKeys(routes) && KeysOf(routes) <= keys && |keys| <= MAX_DEST
  }

  lemma {:induction false} KeysAreAsManyAsRoutes(routes: seq<Route>)
    requires UniqueKeys(routes)
    ensures |KeysOf(routes)| == |routes|
  {
    if routes == [] {
    } else {
      var last := |routes| - 1;
      KeysAreAsManyAsRoutes(routes[..last]);
      assert routes == routes[..last] + [routes[last]];
      assert KeysOf(routes) == KeysOf(routes[..last]) + {routes[last].key};
    }
  }

  lemma RoomForMissingKey(keys: set<Key>, routes: seq<Route>, key: Key)
    requires Fits(keys, routes) && key in keys
    ensures IndexOf(routes, key) == |routes| ==> |routes| < MAX_DEST
  {
    if IndexOf(routes, key) == |routes| {
      KeysAreAsManyAsRoutes(routes);
      assert KeysOf(routes) <= keys - {key};
      SubsetIsNoLarger(KeysOf(routes), keys - {key});
    }
  }

  lemma EntryKeepsFit(keys: set<Key>, routes: seq<Route>, via: Ip, w: Cost, e: DvEntry)
    requires Fits(keys, routes) && e.key in keys
    ensures Fits(keys, ApplyEntry(routes, via, w, e))
  {
    ApplyEntryKeepsKeysUnique(routes, via, w, e);
    var found, after := FindOrAdd(routes, e.key), ApplyEntry(routes, via, w, e);
    forall key | key in KeysOf(after) ensures key in keys {
      var i :| 0 <= i < |after| && after[i].key == key;
      assert i < |routes| ==> routes[i].key in KeysOf(routes);
    }
  }

  lemma {:induction false} EntriesKeepFit(keys: set<Key>, routes: seq<Route>, via: Ip, w: Cost, es: seq<DvEntry>,
                                          n: nat)
    requires Fits(keys, routes) && n <= |es| && forall i | 0 <= i < n :: es[i].key in keys
    ensures Fits(keys, ApplyVector(routes, via, w, es, n))
  {
    hide Fits, ApplyEntry;
    if n == 0 {
    } else {
      EntriesKeepFit(keys, routes, via, w, es, n - 1);
      EntryKeepsFit(keys, ApplyVector(routes, via, w, es, n - 1), via, w, es[n - 1]);
    }
  }

  lemma VectorKeepsFit(keys: set<Key>, routes: seq<Route>, via: Ip, w: Cost, from: seq<Route>, receiver: Ip, n: nat)
    requires Fits(keys, routes) && Fits(keys, from) && n <= |from|
    ensures Fits(keys, ApplyVector(routes, via, w, Vector(from, receiver), n))
  {
    forall i | 0 <= i < n ensures Vector(from, receiver)[i].key in keys {
      assert from[i].key in KeysOf(from);
    }
    EntriesKeepFit(keys, routes, via, w, Vector(from, receiver), n);
  }

  lemma FittingEntryAt(keys: set<Key>, routes: seq<Route>, via: Ip, w: Cost, e: DvEntry, key: Key)
    requires Fits(keys, routes) && e.key in keys
    ensures Entry(ApplyEntry(routes, via, w, e), key) ==
      if key == e.key then Relax(Entry(routes, key), via, w, e.cost) else Entry(routes, key)
  {
    RoomForMissingKey(keys, routes, e.key);
    ApplyEntryAt(routes, via, w, e, key);
  }

  /** Applying a vector relaxes each destination it mentions exactly once. */
  lemma {:induction false} VectorAt(keys: set<Key>, routes: seq<Route>, via: Ip, w: Cost,
                                    from: seq<Route>, receiver: Ip, n: nat, key: Key)
    requires Fits(keys, routes) && Fits(keys, from) && n <= |from|
    ensures var i := IndexOf(from, key);
      Entry(ApplyVector(routes, via, w, Vector(from, receiver), n), key) ==
        if i < n then Relax(Entry(routes, key), via, w, Advertised(from[i], receiver).cost) else Entry(routes, key)
  {
    hide Relax, ApplyEntry;
    if n == 0 {
    } else {
      VectorAt(keys, routes, via, w, from, receiver, n - 1, key);
      VectorKeepsFit(keys, routes, via, w, from, receiver, n - 1);
      var e := Advertised(from[n - 1], receiver);
      assert from[n - 1].key in KeysOf(from);
      var before := ApplyVector(routes, via, w, Vector(from, receiver), n - 1);
      FittingEntryAt(keys, before, via, w, e, key);
      var i := IndexOf(from, key);
      if e.key == key {
        IndexOfIs(from, key, n - 1);
        assert Entry(before, key) == Entry(routes, key);
      } else {
        assert i != n - 1;
        assert Entry(ApplyEntry(before, via, w, e), key) == Entry(before, key);
      }
    }
  }
}
