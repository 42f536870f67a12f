/** prefetchData (index.js lines 203-271): best-effort hydration of a route's
    `sharedData` from the content-addressed shared-data cache. */
module SharedData {
  import opened Types
  import RouteInfoCache

  /** The hashes of the props listed in `keys` that are not cached: the tasks of
      those props suspend at a fetch. */
  function MissingIn(keys: seq<PropName>, hashOf: map<PropName, Hash>, cached: map<Hash, Data>): (m: set<Hash>)
    ensures forall h | h in m :: h !in cached
  {
    set k | k in keys && k in hashOf && hashOf[k] !in cached :: hashOf[k]
  }

  /** The outcome the pooled request for `h` settles to: the pending one when a
      request for `h` is inflight already, otherwise a new one's (lines 241-251). */
  function Shared(inflight: map<Hash, Option<Data>>, net: DataNet, h: Hash): Option<Data>
  {
    if h in inflight then inflight[h] else net.pooled(h)
  }

  /** The outcome the task of prop `k`, whose hash is `h`, awaits: with priority
      its own direct request's (lines 231-238), otherwise the shared pooled one. */
  function Awaited(inflight: map<Hash, Option<Data>>, priority: bool, net: DataNet, k: PropName, h: Hash): Option<Data>
  {
    if priority then net.direct(k) else Shared(inflight, net, h)
  }

  /** The requests the per-prop tasks issue, in `Object.keys` order (lines 227-250):
      none for a cached hash; one per prop for a priority call; otherwise one per
      hash, unless a request for it is already pending. */
  function DataRequests(keys: seq<PropName>, hashOf: map<PropName, Hash>, cached: map<Hash, Data>,
                        pending: set<Hash>, priority: bool): (rs: seq<Request>)
    requires forall k | k in keys :: k in hashOf
    ensures forall i | 0 <= i < |rs| ::
      rs[i].SharedDataRequest? && rs[i].hash in MissingIn(keys, hashOf, cached) && rs[i].pooled == !priority
    decreases |keys|
  {
    if keys == [] then []
    else
      var init := keys[..|keys| - 1];
      var h := hashOf[keys[|keys| - 1]];
      var rs := DataRequests(init, hashOf, cached, pending, priority);
      assert forall k | k in init :: k in keys;
      rs +
      if h in cached then []
      else if priority then [SharedDataRequest(h, false)]
      else if h in pending || h in MissingIn(init, hashOf, cached) then []
      else [SharedDataRequest(h, true)]
  }

  /** The props' values and the shared-data cache as tasks settle. */
  datatype Settlement = Settlement(sharedData: map<PropName, Option<Data>>, cache: map<Hash, Data>)

  /** Lines 251-268 for the task of prop `k`, whose hash `h` was not in `cached`
      when the tasks began unless the task fetched nothing: a fetch that returned
      `a == Some(d)` caches `d`, then the prop takes what the cache now holds for
      `h` (None when the hash is missing). */
  function SettleOne(s: Settlement, k: PropName, h: Hash, cached: map<Hash, Data>, a: Option<Data>): Settlement
  {
    var cache := if h !in cached && a.Some? then s.cache[h := a.value] else s.cache;
    Settlement(s.sharedData[k := if h in cache then Some(cache[h]) else None], cache)
  }

  /** The tasks of the first `n` props of `keys` settling one after the other,
      in key order. */
  function Settle(keys: seq<PropName>, n: nat, hashOf: map<PropName, Hash>, cached: map<Hash, Data>,
                  inflight: map<Hash, Option<Data>>, priority: bool, net: DataNet): Settlement
    requires n <= |keys| && forall k | k in keys :: k in hashOf
  {
    if n == 0 then Settlement(map[], cached)
    else
      var k := keys[n - 1];
      SettleOne(Settle(keys, n - 1, hashOf, cached, inflight, priority, net), k, hashOf[k], cached,
                Awaited(inflight, priority, net, k, hashOf[k]))
  }

  /** The result of hydrating one route info. */
  datatype Hydration = Hydration(
    sharedData: map<PropName, Option<Data>>,
    sharedDataByHash: map<Hash, Data>,
    inflightPropHashes: map<Hash, Option<Data>>,
    issued: seq<Request>)

  /** Lines 218-270 once every task has settled: the props' values and the cache
      as `Settle` leaves them, the requests of `DataRequests`, and without
      priority no inflight entry left for a hash that was fetched, whether the
      fetch succeeded or not. */
  function Hydrate(t: HashesByProp, cached: map<Hash, Data>, inflight: map<Hash, Option<Data>>,
                   priority: bool, net: DataNet): (hyd: Hydration)
    ensures hyd.sharedData.Keys == t.hashOf.Keys
    ensures forall h | h in cached :: h in hyd.sharedDataByHash && hyd.sharedDataByHash[h] == cached[h]
    ensures |hyd.issued| <= |t.keys|
  {
    var s := Settle(t.keys, |t.keys|, t.hashOf, cached, inflight, priority, net);
    SettledTasks(t.keys, t.hashOf, cached, inflight, priority, net);
    RequestsAtMostOnePerProp(t.keys, t.hashOf, cached, inflight.Keys, priority);
    Hydration(
      s.sharedData,
      s.cache,
      if priority then inflight else inflight - MissingIn(t.keys, t.hashOf, cached),
      DataRequests(t.keys, t.hashOf, cached, inflight.Keys, priority))
  }

  /** Lines 212-270 for the route info stored under `key`: nothing happens if it
      is already hydrated; otherwise it is hydrated in place. */
  function HydrateRoute(c: Cache, key: Path, priority: bool, net: DataNet): (c': Cache)
    requires key in c.routes.routeInfoByPath
    ensures c.routes.routeInfoByPath[key].sharedData.Some? ==> c' == c
    ensures c'.routes.routeInfoByPath.Keys == c.routes.routeInfoByPath.Keys
    ensures c'.routes.routeInfoByPath[key].sharedData.Some?
    ensures forall q | q in c.routes.routeInfoByPath && q != key ::
      c'.routes.routeInfoByPath[q] == c.routes.routeInfoByPath[q]
    ensures c'.routes.routeInfoByPath[key] ==
      c.routes.routeInfoByPath[key].(sharedData := c'.routes.routeInfoByPath[key].sharedData)
    ensures forall h | h in c.sharedDataByHash ::
      h in c'.sharedDataByHash && c'.sharedDataByHash[h] == c.sharedDataByHash[h]
    // Only the route table, the shared-data tables and the request log change.
    ensures c' == c.(routes := c.routes.(routeInfoByPath := c'.routes.routeInfoByPath),
                     sharedDataByHash := c'.sharedDataByHash, inflightPropHashes := c'.inflightPropHashes,
                     requests := c'.requests)
  {
    var info := c.routes.routeInfoByPath[key];
    if info.sharedData.Some? then c
    else
      var hyd := Hydrate(info.sharedHashesByProp, c.sharedDataByHash, c.inflightPropHashes, priority, net);
      c.(routes := c.routes.(routeInfoByPath := c.routes.routeInfoByPath[key := info.(sharedData := Some(hyd.sharedData))]),
         sharedDataByHash := hyd.sharedDataByHash,
         inflightPropHashes := hyd.inflightPropHashes,
         requests := c.requests + hyd.issued)
  }

  /** prefetchData(raw, { priority }): look the route up, then hydrate it. */
  function PrefetchData(env: Env, c: Cache, raw: Path, priority: bool,
                        routeNet: Path -> Fetch, hashNet: DataNet): (c': Cache)
    requires Sound(env)
    ensures var r := RouteInfoCache.GetRouteInfo(env, c.routes, raw, priority, routeNet);
      && c'.routes.routeErrorByPath == r.tables.routeErrorByPath
      && c'.routes.routeInfoByPath.Keys == r.tables.routeInfoByPath.Keys
      && (r.found.None? ==> c' == c.(routes := r.tables, requests := c.requests + r.issued))
      && (r.found.Some? ==> c'.routes.routeInfoByPath[r.found.value].sharedData.Some?)
    ensures c'.templates == c.templates && c'.templatesByPath == c.templatesByPath
    ensures c'.templateErrorByPath == c.templateErrorByPath && c'.poolStopped == c.poolStopped
    ensures c.requests <= c'.requests
  {
    var r := RouteInfoCache.GetRouteInfo(env, c.routes, raw, priority, routeNet);
    var c1 := c.(routes := r.tables, requests := c.requests + r.issued);
    if r.found.None? then c1 else HydrateRoute(c1, r.found.value, priority, hashNet)
  }

  /** One prop more in the prefix of `keys` adds its hash to the missing set when
      that hash is not cached. */
  lemma MissingInSnoc(keys: seq<PropName>, i: nat, hashOf: map<PropName, Hash>, cached: map<Hash, Data>)
    requires i < |keys| && keys[i] in hashOf
    ensures MissingIn(keys[..i + 1], hashOf, cached) ==
      MissingIn(keys[..i], hashOf, cached) + (if hashOf[keys[i]] in cached then {} else {hashOf[keys[i]]})
  {
    assert keys[..i + 1] == keys[..i] + [keys[i]];
  }

  /** One prop more in the prefix of `keys` appends at most its own request. */
  lemma DataRequestsSnoc(keys: seq<PropName>, hashOf: map<PropName, Hash>, cached: map<Hash, Data>,
                         pending: set<Hash>, priority: bool)
    requires keys != [] && forall k | k in keys :: k in hashOf
    ensures var init := keys[..|keys| - 1];
      var h := hashOf[keys[|keys| - 1]];
      (forall k | k in init :: k in hashOf) &&
      DataRequests(keys, hashOf, cached, pending, priority) ==
        DataRequests(init, hashOf, cached, pending, priority) +
        if h in cached then []
        else if priority then [SharedDataRequest(h, false)]
        else if h in pending || h in MissingIn(init, hashOf, cached) then []
        else [SharedDataRequest(h, true)]
  {
    assert forall k | k in keys[..|keys| - 1] :: k in keys;
  }

  /** The hashes named by a list of requests. */
  function RequestedHashes(rs: seq<Request>): set<Hash>
    requires forall i | 0 <= i < |rs| :: rs[i].SharedDataRequest?
  {
    set r | r in rs :: r.hash
  }

  /** Lines 240-250: without priority, the hash requests are deduplicated: no hash
      is requested twice, and exactly the missing hashes without a pending request
      are requested, each through the pool. */
  lemma {:induction false} NonPriorityRequestsOncePerHash(keys: seq<PropName>, hashOf: map<PropName, Hash>,
                                                          cached: map<Hash, Data>, pending: set<Hash>)
    requires forall k | k in keys :: k in hashOf
    ensures var rs := DataRequests(keys, hashOf, cached, pending, false);
      && (forall i | 0 <= i < |rs| :: rs[i].SharedDataRequest? && rs[i].pooled)
      && (forall i, j | 0 <= i < j < |rs| :: rs[i].hash != rs[j].hash)
      && RequestedHashes(rs) == MissingIn(keys, hashOf, cached) - pending
    decreases |keys|
  {
    if keys != [] {
      var n := |keys| - 1;
      var init := keys[..n];
      DataRequestsSnoc(keys, hashOf, cached, pending, false);
      NonPriorityRequestsOncePerHash(init, hashOf, cached, pending);
      MissingInSnoc(keys, n, hashOf, cached);
      assert keys[..n + 1] == keys;
      var h := hashOf[keys[n]];
      var rs0 := DataRequests(init, hashOf, cached, pending, false);
      var before := MissingIn(init, hashOf, cached) - pending;
      var after := MissingIn(keys, hashOf, cached) - pending;
      if h in cached || h in pending || h in before {
        assert after == before;
      } else {
        assert after == before + {h};
        AppendNewHash(rs0, h);
      }
    }
  }

  /** Hence a non-priority hydration issues exactly as many requests as there are
      missing hashes without a pending request. */
  lemma NonPriorityRequestCount(keys: seq<PropName>, hashOf: map<PropName, Hash>,
                                cached: map<Hash, Data>, pending: set<Hash>)
    requires forall k | k in keys :: k in hashOf
    ensures |DataRequests(keys, hashOf, cached, pending, false)| == |MissingIn(keys, hashOf, cached) - pending|
  {
    NonPriorityRequestsOncePerHash(keys, hashOf, cached, pending);
    DistinctRequestsCount(DataRequests(keys, hashOf, cached, pending, false));
  }

  /** A list of requests for pairwise distinct hashes is as long as its set of hashes. */
  lemma {:induction false} DistinctRequestsCount(rs: seq<Request>)
    requires forall i | 0 <= i < |rs| :: rs[i].SharedDataRequest?
    requires forall i, j | 0 <= i < j < |rs| :: rs[i].hash != rs[j].hash
    ensures |rs| == |RequestedHashes(rs)|
  {
    if rs != [] {
      var init := rs[..|rs| - 1];
      var last := rs[|rs| - 1];
      assert rs == init + [last];
      DistinctRequestsCount(init);
      forall r | r in init ensures r.hash != last.hash {
        var i :| 0 <= i < |init| && init[i] == r;
      }
      assert RequestedHashes(rs) == RequestedHashes(init) + {last.hash};
    }
  }

  /** Appending a request for a hash not yet requested keeps the hashes distinct
      and adds exactly that hash. */
  lemma AppendNewHash(rs: seq<Request>, h: Hash)
    requires forall i | 0 <= i < |rs| :: rs[i].SharedDataRequest? && rs[i].pooled
    requires forall i, j | 0 <= i < j < |rs| :: rs[i].hash != rs[j].hash
    requires h !in RequestedHashes(rs)
    ensures var rs' := rs + [SharedDataRequest(h, true)];
      && (forall i, j | 0 <= i < j < |rs'| :: rs'[i].hash != rs'[j].hash)
      && RequestedHashes(rs') == RequestedHashes(rs) + {h}
  {
    var rs' := rs + [SharedDataRequest(h, true)];
    forall i | 0 <= i < |rs| ensures rs[i].hash != h {
      assert rs[i] in rs;
    }
  }

  /** The props of `keys` whose hash is not cached. */
  function UncachedProps(keys: seq<PropName>, hashOf: map<PropName, Hash>, cached: map<Hash, Data>): set<PropName>
  {
    set k | k in keys && k in hashOf && hashOf[k] !in cached
  }

  /** Lines 231-238: a priority call bypasses the inflight table and the pool, so
      it issues one direct request per prop whose hash is not cached, even when
      several props share a hash. */
  lemma {:induction false} PriorityRequestsOncePerProp(keys: seq<PropName>, hashOf: map<PropName, Hash>,
                                                       cached: map<Hash, Data>, pending: set<Hash>)
    requires forall k | k in keys :: k in hashOf
    requires forall i, j | 0 <= i < j < |keys| :: keys[i] != keys[j]
    ensures var rs := DataRequests(keys, hashOf, cached, pending, true);
      && (forall i | 0 <= i < |rs| :: rs[i].SharedDataRequest? && !rs[i].pooled)
      && |rs| == |UncachedProps(keys, hashOf, cached)|
    decreases |keys|
  {
    if keys != [] {
      var n := |keys| - 1;
      var init := keys[..n];
      var k := keys[n];
      DataRequestsSnoc(keys, hashOf, cached, pending, true);
      PriorityRequestsOncePerProp(init, hashOf, cached, pending);
      assert k !in init by {
        forall i | 0 <= i < n ensures init[i] != k { assert keys[i] != keys[n]; }
      }
      if hashOf[k] in cached {
        assert UncachedProps(keys, hashOf, cached) == UncachedProps(init, hashOf, cached);
      } else {
        assert UncachedProps(keys, hashOf, cached) == UncachedProps(init, hashOf, cached) + {k};
      }
    }
  }

  /** Each prop's task issues at most one request. */
  lemma {:induction false} RequestsAtMostOnePerProp(keys: seq<PropName>, hashOf: map<PropName, Hash>,
                                                    cached: map<Hash, Data>, pending: set<Hash>, priority: bool)
    requires forall k | k in keys :: k in hashOf
    ensures |DataRequests(keys, hashOf, cached, pending, priority)| <= |keys|
    decreases |keys|
  {
    if keys != [] {
      DataRequestsSnoc(keys, hashOf, cached, pending, priority);
      RequestsAtMostOnePerProp(keys[..|keys| - 1], hashOf, cached, pending, priority);
    }
  }

  /** What `SettledTasks` states of a settlement `s` of props whose missing
      hashes are `missing`. */
  ghost predicate SettledFacts(s: Settlement, hashOf: map<PropName, Hash>, cached: map<Hash, Data>, missing: set<Hash>,
                               inflight: map<Hash, Option<Data>>, priority: bool, net: DataNet)
  {
    && (forall k | k in s.sharedData :: k in hashOf)
    && (forall h | h in cached :: h in s.cache && s.cache[h] == cached[h])
    && (forall h | h in s.cache && h !in cached :: h in missing)
    && (forall k | k in s.sharedData && hashOf[k] in cached :: s.sharedData[k] == Some(cached[hashOf[k]]))
    && (forall k | k in s.sharedData && hashOf[k] !in cached && Awaited(inflight, priority, net, k, hashOf[k]).Some? ::
          s.sharedData[k] == Awaited(inflight, priority, net, k, hashOf[k]))
    && (forall k | k in s.sharedData && s.sharedData[k].None? ::
          hashOf[k] !in cached && Awaited(inflight, priority, net, k, hashOf[k]).None?)
  }

  /** One task more settled keeps `SettledFacts`. */
  lemma SettleOneKeepsFacts(s: Settlement, k: PropName, hashOf: map<PropName, Hash>, cached: map<Hash, Data>,
                            missing: set<Hash>, inflight: map<Hash, Option<Data>>, priority: bool, net: DataNet)
    requires k in hashOf && SettledFacts(s, hashOf, cached, missing, inflight, priority, net)
    ensures var h := hashOf[k];
      SettledFacts(SettleOne(s, k, h, cached, Awaited(inflight, priority, net, k, h)), hashOf, cached,
                   missing + (if h in cached then {} else {h}), inflight, priority, net)
  {
    var h := hashOf[k];
    var a := Awaited(inflight, priority, net, k, h);
    var s' := SettleOne(s, k, h, cached, a);
    var missing' := missing + (if h in cached then {} else {h});
    var v := if h in s'.cache then Some(s'.cache[h]) else None;
    assert s'.sharedData == s.sharedData[k := v];
    if h !in cached && a.Some? {
      assert s'.cache == s.cache[h := a.value];
      assert v == a;
    } else {
      assert s'.cache == s.cache;
      assert h in cached ==> v == Some(cached[h]);
      assert v.None? ==> h !in cached && a.None?;
    }
    assert forall h' | h' in cached :: h' in s'.cache && s'.cache[h'] == cached[h'];
    assert forall h' | h' in s'.cache && h' !in cached :: h' in missing';
    forall k' | k' in s'.sharedData
      ensures k' in hashOf
      ensures hashOf[k'] in cached ==> s'.sharedData[k'] == Some(cached[hashOf[k']])
      ensures hashOf[k'] !in cached && Awaited(inflight, priority, net, k', hashOf[k']).Some? ==>
        s'.sharedData[k'] == Awaited(inflight, priority, net, k', hashOf[k'])
      ensures s'.sharedData[k'].None? ==> hashOf[k'] !in cached && Awaited(inflight, priority, net, k', hashOf[k']).None?
    {
      if k' != k {
        assert s'.sharedData[k'] == s.sharedData[k'];
      }
    }
  }

  /** Lines 251-268, whatever the outcomes: every prop of `keys` gets a value;
      cached hashes keep their data and their props reuse it; only hashes that
      were missing are added to the cache; a prop whose own fetch succeeded
      holds what it fetched; a prop left with None had a missing hash and its
      own fetch failed. */
  lemma SettledTasks(keys: seq<PropName>, hashOf: map<PropName, Hash>, cached: map<Hash, Data>,
                      inflight: map<Hash, Option<Data>>, priority: bool, net: DataNet)
    requires forall k | k in keys :: k in hashOf
    ensures var s := Settle(keys, |keys|, hashOf, cached, inflight, priority, net);
      && (forall k :: k in s.sharedData <==> k in keys)
      && (forall h | h in cached :: h in s.cache && s.cache[h] == cached[h])
      && (forall h | h in s.cache && h !in cached :: h in MissingIn(keys, hashOf, cached))
      && (forall k | k in s.sharedData && hashOf[k] in cached :: s.sharedData[k] == Some(cached[hashOf[k]]))
      && (forall k | k in s.sharedData && hashOf[k] !in cached && Awaited(inflight, priority, net, k, hashOf[k]).Some? ::
            s.sharedData[k] == Awaited(inflight, priority, net, k, hashOf[k]))
      && (forall k | k in s.sharedData && s.sharedData[k].None? ::
            hashOf[k] !in cached && Awaited(inflight, priority, net, k, hashOf[k]).None?)
  {
    SettleCoversKeys(keys, |keys|, hashOf, cached, inflight, priority, net);
    SettledFactsHold(keys, |keys|, hashOf, cached, inflight, priority, net);
    assert keys[..|keys|] == keys;
  }

  /** After the tasks of the first `n` props have settled, exactly those props have a value. */
  lemma {:induction false} SettleCoversKeys(keys: seq<PropName>, n: nat, hashOf: map<PropName, Hash>, cached: map<Hash, Data>,
                                            inflight: map<Hash, Option<Data>>, priority: bool, net: DataNet)
    requires n <= |keys| && forall k | k in keys :: k in hashOf
    ensures forall k :: k in Settle(keys, n, hashOf, cached, inflight, priority, net).sharedData <==> k in keys[..n]
  {
    if n > 0 {
      SettleCoversKeys(keys, n - 1, hashOf, cached, inflight, priority, net);
      assert keys[..n] == keys[..n - 1] + [keys[n - 1]];
    }
  }

  /** `SettledFacts` holds once the tasks of the first `n` props have settled. */
  lemma {:induction false} SettledFactsHold(keys: seq<PropName>, n: nat, hashOf: map<PropName, Hash>, cached: map<Hash, Data>,
                                            inflight: map<Hash, Option<Data>>, priority: bool, net: DataNet)
    requires n <= |keys| && forall k | k in keys :: k in hashOf
    ensures SettledFacts(Settle(keys, n, hashOf, cached, inflight, priority, net), hashOf, cached,
                         MissingIn(keys[..n], hashOf, cached), inflight, priority, net)
  {
    if n > 0 {
      SettledFactsHold(keys, n - 1, hashOf, cached, inflight, priority, net);
      SettleOneKeepsFacts(Settle(keys, n - 1, hashOf, cached, inflight, priority, net), keys[n - 1], hashOf, cached,
                          MissingIn(keys[..n - 1], hashOf, cached), inflight, priority, net);
      MissingInSnoc(keys, n - 1, hashOf, cached);
    }
  }

  /** What `PooledSettle` states of a settlement `s` without priority, of props
      whose missing hashes are `missing`. */
  ghost predicate PooledFacts(s: Settlement, hashOf: map<PropName, Hash>, cached: map<Hash, Data>, missing: set<Hash>,
                              inflight: map<Hash, Option<Data>>, net: DataNet)
  {
    && (forall h :: h in s.cache <==> h in cached || (h in missing && Shared(inflight, net, h).Some?))
    && (forall h | h in s.cache && h !in cached :: s.cache[h] == Shared(inflight, net, h).value)
    && (forall k | k in s.sharedData :: k in hashOf && (hashOf[k] in cached || hashOf[k] in missing))
    && (forall k | k in s.sharedData ::
          s.sharedData[k] == if hashOf[k] in s.cache then Some(s.cache[hashOf[k]]) else None)
  }

  /** One task more settled without priority keeps `PooledFacts`. */
  lemma PooledOneKeepsFacts(s: Settlement, k: PropName, hashOf: map<PropName, Hash>, cached: map<Hash, Data>,
                            missing: set<Hash>, inflight: map<Hash, Option<Data>>, net: DataNet)
    requires k in hashOf && PooledFacts(s, hashOf, cached, missing, inflight, net)
    ensures var h := hashOf[k];
      PooledFacts(SettleOne(s, k, h, cached, Awaited(inflight, false, net, k, h)), hashOf, cached,
                  missing + (if h in cached then {} else {h}), inflight, net)
  {
    var h := hashOf[k];
    var a := Awaited(inflight, false, net, k, h);
    var s' := SettleOne(s, k, h, cached, a);
    var missing' := missing + (if h in cached then {} else {h});
    assert a == Shared(inflight, net, h);
    if h !in cached && a.Some? {
      assert s'.cache == s.cache[h := a.value];
      assert h in s.cache ==> s.cache[h] == a.value;
    } else {
      assert s'.cache == s.cache;
    }
    assert forall h' :: h' in s'.cache <==> h' in cached || (h' in missing' && Shared(inflight, net, h').Some?);
    forall k' | k' in s'.sharedData
      ensures k' in hashOf && (hashOf[k'] in cached || hashOf[k'] in missing')
      ensures s'.sharedData[k'] == if hashOf[k'] in s'.cache then Some(s'.cache[hashOf[k']]) else None
    {
      if k' != k {
        assert s'.sharedData[k'] == s.sharedData[k'];
      }
    }
  }

  /** The cache without priority, once the tasks of the props in `keys` have
      settled: the cached data plus, for each missing hash, what its one shared
      request returned when it succeeded; and every prop shows what the cache
      holds for its hash. */
  lemma PooledSettle(keys: seq<PropName>, hashOf: map<PropName, Hash>, cached: map<Hash, Data>,
                      inflight: map<Hash, Option<Data>>, net: DataNet)
    requires forall k | k in keys :: k in hashOf
    ensures var s := Settle(keys, |keys|, hashOf, cached, inflight, false, net);
      && (forall k :: k in s.sharedData <==> k in keys)
      && (forall h :: h in s.cache <==> h in cached || (h in MissingIn(keys, hashOf, cached) && Shared(inflight, net, h).Some?))
      && (forall h | h in s.cache && h !in cached :: s.cache[h] == Shared(inflight, net, h).value)
      && (forall k | k in s.sharedData ::
            s.sharedData[k] == if hashOf[k] in s.cache then Some(s.cache[hashOf[k]]) else None)
  {
    SettleCoversKeys(keys, |keys|, hashOf, cached, inflight, false, net);
    PooledFactsHold(keys, |keys|, hashOf, cached, inflight, net);
    assert keys[..|keys|] == keys;
  }

  /** `PooledFacts` holds once the tasks of the first `n` props have settled. */
  lemma {:induction false} PooledFactsHold(keys: seq<PropName>, n: nat, hashOf: map<PropName, Hash>, cached: map<Hash, Data>,
                                           inflight: map<Hash, Option<Data>>, net: DataNet)
    requires n <= |keys| && forall k | k in keys :: k in hashOf
    ensures PooledFacts(Settle(keys, n, hashOf, cached, inflight, false, net), hashOf, cached,
                        MissingIn(keys[..n], hashOf, cached), inflight, net)
  {
    if n > 0 {
      PooledFactsHold(keys, n - 1, hashOf, cached, inflight, net);
      PooledOneKeepsFacts(Settle(keys, n - 1, hashOf, cached, inflight, false, net), keys[n - 1], hashOf, cached,
                          MissingIn(keys[..n - 1], hashOf, cached), inflight, net);
      MissingInSnoc(keys, n - 1, hashOf, cached);
    }
  }

  /** Lines 226-268: after hydration `sharedData` has exactly the props of
      `sharedHashesByProp`; cached data is kept and reused; only the hashes of
      props that were missing are added; a prop whose own fetch succeeded holds
      its data, and a prop holding None had a missing hash and its own fetch
      failed. */
  lemma HydrationCoversEveryProp(t: HashesByProp, cached: map<Hash, Data>, inflight: map<Hash, Option<Data>>,
                                 priority: bool, net: DataNet)
    ensures var hyd := Hydrate(t, cached, inflight, priority, net);
      && hyd.sharedData.Keys == t.hashOf.Keys
      && (forall h | h in cached :: h in hyd.sharedDataByHash && hyd.sharedDataByHash[h] == cached[h])
      && (forall h | h in hyd.sharedDataByHash && h !in cached :: h in MissingIn(t.keys, t.hashOf, cached))
      && (forall k | k in t.hashOf && t.hashOf[k] in cached :: hyd.sharedData[k] == Some(cached[t.hashOf[k]]))
      && (forall k | k in t.hashOf && t.hashOf[k] !in cached && Awaited(inflight, priority, net, k, t.hashOf[k]).Some? ::
            hyd.sharedData[k] == Awaited(inflight, priority, net, k, t.hashOf[k]))
      && (forall k | k in t.hashOf && hyd.sharedData[k].None? ::
            t.hashOf[k] !in cached && Awaited(inflight, priority, net, k, t.hashOf[k]).None?)
  {
    SettledTasks(t.keys, t.hashOf, cached, inflight, priority, net);
  }

  /** Lines 240-264, without priority: the props sharing a hash share one
      request, so the cache ends up holding the cached data plus what each
      missing hash's one request returned when it succeeded, and no inflight
      entry is left for any hash that was fetched. */
  lemma PooledHydration(t: HashesByProp, cached: map<Hash, Data>, inflight: map<Hash, Option<Data>>, net: DataNet)
    ensures var hyd := Hydrate(t, cached, inflight, false, net);
      var missing := MissingIn(t.keys, t.hashOf, cached);
      && (forall h :: h in hyd.sharedDataByHash <==> h in cached || (h in missing && Shared(inflight, net, h).Some?))
      && (forall h | h in hyd.sharedDataByHash && h !in cached :: hyd.sharedDataByHash[h] == Shared(inflight, net, h).value)
      && (forall h | h in missing :: h !in hyd.inflightPropHashes)
  {
    PooledSettle(t.keys, t.hashOf, cached, inflight, net);
  }

  /** Line 268, without priority: each prop shows what the cache ends up holding
      for its hash (None exactly when its hash's request failed), so props of
      one hash agree. */
  lemma PooledPropsShowTheCache(t: HashesByProp, cached: map<Hash, Data>, inflight: map<Hash, Option<Data>>, net: DataNet)
    ensures var hyd := Hydrate(t, cached, inflight, false, net);
      && (forall k | k in t.hashOf ::
            hyd.sharedData[k] == if t.hashOf[k] in hyd.sharedDataByHash then Some(hyd.sharedDataByHash[t.hashOf[k]]) else None)
      && (forall k, k' | k in t.hashOf && k' in t.hashOf && t.hashOf[k] == t.hashOf[k'] :: hyd.sharedData[k] == hyd.sharedData[k'])
  {
    PooledSettle(t.keys, t.hashOf, cached, inflight, net);
  }

  /** Lines 231-238 and 268, with priority: two props sharing an uncached hash
      each await their own request. When the first fails and the second
      succeeds, the first prop is left without data although the cache now
      holds the hash. */
  lemma PriorityPropsSettleSeparately(t: HashesByProp, net: DataNet)
    requires t.keys == ["a", "b"] && t.hashOf == map["a" := "h", "b" := "h"]
    requires net.direct("a") == None && net.direct("b") == Some("D")
    ensures var hyd := Hydrate(t, map[], map[], true, net);
      hyd.sharedData == map["a" := None, "b" := Some("D")] && hyd.sharedDataByHash == map["h" := "D"]
      && |hyd.issued| == 2
  {
    assert t.keys[..1] == ["a"] && ["a"][..0] == [];
    assert Settle(t.keys, 0, t.hashOf, map[], map[], true, net) == Settlement(map[], map[]);
    var first := Settle(t.keys, 1, t.hashOf, map[], map[], true, net);
    assert first == SettleOne(Settlement(map[], map[]), "a", "h", map[], None);
    assert first == Settlement(map["a" := None], map[]);
    assert Settle(t.keys, 2, t.hashOf, map[], map[], true, net) ==
      SettleOne(first, "b", "h", map[], Some("D"));
    var none: map<Hash, Option<Data>> := map[];
    assert DataRequests(["a"], t.hashOf, map[], none.Keys, true) == [SharedDataRequest("h", false)];
    assert |DataRequests(t.keys, t.hashOf, map[], none.Keys, true)| == 2;
  }

  /** Lines 212-216: a second hydration of the same route does nothing, even for
      props whose first fetch failed: they are not retried. */
  lemma HydrationIsNotRetried(c: Cache, key: Path, priority: bool, net: DataNet,
                              priority': bool, net': DataNet)
    requires key in c.routes.routeInfoByPath
    ensures var c' := HydrateRoute(c, key, priority, net);
      HydrateRoute(c', key, priority', net') == c'
  {
  }

  /** Hydration keeps the cache consistent when it starts with no pending hash request
      and either bypasses the table (priority) or empties it again. */
  lemma HydrateRouteKeepsConsistent(c: Cache, key: Path, priority: bool, net: DataNet)
    requires Consistent(c) && key in c.routes.routeInfoByPath
    ensures Consistent(HydrateRoute(c, key, priority, net))
  {
  }

  /** prefetchData keeps the cache consistent. */
  lemma PrefetchDataKeepsConsistent(env: Env, c: Cache, raw: Path, priority: bool,
                                    routeNet: Path -> Fetch, hashNet: DataNet)
    requires Sound(env) && Consistent(c)
    ensures Consistent(PrefetchData(env, c, raw, priority, routeNet, hashNet))
  {
    RouteInfoCache.GetRouteInfoKeepsConsistent(env, c.routes, raw, priority, routeNet);
    var r := RouteInfoCache.GetRouteInfo(env, c.routes, raw, priority, routeNet);
    var c1 := c.(routes := r.tables, requests := c.requests + r.issued);
    if r.found.Some? {
      HydrateRouteKeepsConsistent(c1, r.found.value, priority, hashNet);
    }
  }
}
