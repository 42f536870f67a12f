/** The module-level state of index.js as one object: the eight tables, the
    request pool's gate, the log of issued requests and the number of times the
    two global callbacks ran. Every operation updates the tables in place and is
    proved to leave exactly the state its specification function describes. */
module CacheManager {
  import opened Types
  import RouteInfoCache
  import SharedData
  import TemplatePrefetch
  import Orchestrator

  /** reloadRouteData(): the five route-data tables emptied, the templates kept,
      the reload callback run once. */
  function Reloaded(c: Cache): (c': Cache)
    // Whatever was pending before, nothing is pending afterwards.
    ensures Consistent(c')
    ensures c'.templates == c.templates && c'.templatesByPath == c.templatesByPath
  {
    c.(routes := RouteTables(map[], {}, map[]), sharedDataByHash := map[], inflightPropHashes := map[],
       reloads := c.reloads + 1)
  }

  /** Lines 104-119: after a reload the cache is consistent, the template tables
      and the request log are as before, and every prefetchable path is fetched
      again on its next lookup, which issues a request for it. */
  lemma ReloadForgetsEveryRoute(env: Env, c: Cache, raw: Path, priority: bool, net: Path -> Fetch)
    requires Sound(env)
    ensures var c' := Reloaded(c);
      && Consistent(c')
      && c'.routes.routeInfoByPath == map[] && c'.routes.routeErrorByPath == {}
      && c'.routes.inflightRouteInfo == map[] && c'.sharedDataByHash == map[] && c'.inflightPropHashes == map[]
      && c'.templates == c.templates && c'.templatesByPath == c.templatesByPath
      && c'.templateErrorByPath == c.templateErrorByPath && c'.requests == c.requests
      && c'.reloads == c.reloads + 1
      && (env.prefetchable(env.routePath(raw)) ==>
            RouteInfoCache.Fetches(env, c'.routes, env.routePath(raw))
            && RouteInfoCache.GetRouteInfo(env, c'.routes, raw, priority, net).issued != [])
  {
    var p := env.routePath(raw);
    if env.prefetchable(p) {
      var r := RouteInfoCache.GetRouteInfo(env, Reloaded(c).routes, raw, priority, net);
      assert r.issued[0] == RouteInfoRequest(p, !env.development && !priority);
    }
  }

  /** The hash table of the pending requests after the synchronous start of the
      tasks of the props in `keys`, without priority: one entry per hash that was
      pending or is missing, holding the outcome of its one pooled request. */
  ghost function Begun(inflight: map<Hash, Option<Data>>, keys: seq<PropName>, hashOf: map<PropName, Hash>,
                       cached: map<Hash, Data>, net: DataNet): map<Hash, Option<Data>>
  {
    map h | h in inflight.Keys + SharedData.MissingIn(keys, hashOf, cached) :: SharedData.Shared(inflight, net, h)
  }

  lemma BegunSnoc(inflight: map<Hash, Option<Data>>, keys: seq<PropName>, i: nat, hashOf: map<PropName, Hash>,
                  cached: map<Hash, Data>, net: DataNet)
    requires i < |keys| && keys[i] in hashOf
    ensures var h := hashOf[keys[i]];
      Begun(inflight, keys[..i + 1], hashOf, cached, net) ==
        if h in cached then Begun(inflight, keys[..i], hashOf, cached, net)
        else Begun(inflight, keys[..i], hashOf, cached, net)[h := SharedData.Shared(inflight, net, h)]
  {
    SharedData.MissingInSnoc(keys, i, hashOf, cached);
  }

  /** Before any task has settled. */
  lemma SettleNone(t: HashesByProp, cached: map<Hash, Data>, inflight: map<Hash, Option<Data>>,
                   priority: bool, net: DataNet)
    ensures Begun(inflight, t.keys, t.hashOf, cached, net) - SharedData.MissingIn(t.keys[..0], t.hashOf, cached) ==
      Begun(inflight, t.keys, t.hashOf, cached, net)
  {
    assert t.keys[..0] == [];
    assert SharedData.MissingIn(t.keys[..0], t.hashOf, cached) == {};
  }

  lemma UpdateSame<K, V>(m: map<K, V>, k: K)
    requires k in m
    ensures m[k := m[k]] == m
  {
  }

  /** One task more in the synchronous start: its request, if any, and the
      pending table it leaves. */
  lemma BeginStep(inflight: map<Hash, Option<Data>>, keys: seq<PropName>, i: nat, hashOf: map<PropName, Hash>,
                  cached: map<Hash, Data>, priority: bool, net: DataNet)
    requires i < |keys| && forall k | k in keys :: k in hashOf
    ensures forall k | k in keys[..i] :: k in hashOf
    ensures forall k | k in keys[..i + 1] :: k in hashOf
    ensures var h := hashOf[keys[i]];
      var pending := Begun(inflight, keys[..i], hashOf, cached, net);
      && SharedData.DataRequests(keys[..i + 1], hashOf, cached, inflight.Keys, priority) ==
           SharedData.DataRequests(keys[..i], hashOf, cached, inflight.Keys, priority) +
           (if h in cached then []
            else if priority then [SharedDataRequest(h, false)]
            else if h in pending then []
            else [SharedDataRequest(h, true)])
      && Begun(inflight, keys[..i + 1], hashOf, cached, net) ==
           (if h in cached || h in pending then pending else pending[h := net.pooled(h)])
      && (h !in cached && h in pending ==> pending[h] == SharedData.Shared(inflight, net, h))
      && (h !in cached && h !in pending ==> SharedData.Shared(inflight, net, h) == net.pooled(h))
  {
    assert forall k | k in keys[..i] :: k in keys;
    assert forall k | k in keys[..i + 1] :: k in keys;
    assert keys[..i + 1][..i] == keys[..i];
    SharedData.DataRequestsSnoc(keys[..i + 1], hashOf, cached, inflight.Keys, priority);
    BegunSnoc(inflight, keys, i, hashOf, cached, net);
  }

  /** What the tasks of the first `i` props await, for those whose hash is not cached. */
  ghost predicate AwaitsFor(awaited: map<PropName, Option<Data>>, keys: seq<PropName>, i: nat,
                            hashOf: map<PropName, Hash>, cached: map<Hash, Data>,
                            inflight: map<Hash, Option<Data>>, priority: bool, net: DataNet)
    requires i <= |keys| && forall k | k in keys :: k in hashOf
  {
    forall j | 0 <= j < i && hashOf[keys[j]] !in cached ::
      keys[j] in awaited && awaited[keys[j]] == SharedData.Awaited(inflight, priority, net, keys[j], hashOf[keys[j]])
  }

  lemma AwaitsForStep(awaited: map<PropName, Option<Data>>, keys: seq<PropName>, i: nat,
                      hashOf: map<PropName, Hash>, cached: map<Hash, Data>,
                      inflight: map<Hash, Option<Data>>, priority: bool, net: DataNet)
    requires i < |keys| && forall k | k in keys :: k in hashOf
    requires AwaitsFor(awaited, keys, i, hashOf, cached, inflight, priority, net)
    ensures var k := keys[i];
      var h := hashOf[k];
      AwaitsFor(if h in cached then awaited else awaited[k := SharedData.Awaited(inflight, priority, net, k, h)],
                keys, i + 1, hashOf, cached, inflight, priority, net)
  {
  }

  /** One task more settled: the missing hashes and the pending table. */
  lemma SettleStep(keys: seq<PropName>, i: nat, hashOf: map<PropName, Hash>, cached: map<Hash, Data>,
                   inflight: map<Hash, Option<Data>>, net: DataNet)
    requires i < |keys| && forall k | k in keys :: k in hashOf
    ensures var h := hashOf[keys[i]];
      && SharedData.MissingIn(keys[..i + 1], hashOf, cached) ==
           SharedData.MissingIn(keys[..i], hashOf, cached) + (if h in cached then {} else {h})
      && Begun(inflight, keys, hashOf, cached, net) - SharedData.MissingIn(keys[..i + 1], hashOf, cached) ==
           (Begun(inflight, keys, hashOf, cached, net) - SharedData.MissingIn(keys[..i], hashOf, cached)) -
           (if h in cached then {} else {h})
  {
    SharedData.MissingInSnoc(keys, i, hashOf, cached);
  }

  /** A lookup whose fetch failed: the path is marked errored and the not-found
      page is looked up once, unless it is cached or errored already. */
  lemma FailedLookup(env: Env, t: RouteTables, raw: Path, priority: bool, net: Path -> Fetch)
    requires Sound(env) && RouteInfoCache.Fetches(env, t, env.routePath(raw))
    requires RouteInfoCache.Issue(env, t, env.routePath(raw), priority, net).2.NetworkError?
    ensures var p := env.routePath(raw);
      var (t1, issued, _) := RouteInfoCache.Issue(env, t, p, priority, net);
      var t2 := t1.(routeErrorByPath := t1.routeErrorByPath + {p});
      RouteInfoCache.GetRouteInfo(env, t, raw, priority, net) ==
        if NotFoundKey !in t2.routeInfoByPath && NotFoundKey !in t2.routeErrorByPath then
          var fallback := RouteInfoCache.GetRouteInfo(env, t2, NotFoundKey, priority, net);
          fallback.(issued := issued + fallback.issued)
        else RouteInfoCache.Lookup(t2, issued, None)
  {
  }

  /** A lookup whose fetch settled with a payload. */
  lemma SettledLookup(env: Env, t: RouteTables, raw: Path, priority: bool, net: Path -> Fetch)
    requires Sound(env) && RouteInfoCache.Fetches(env, t, env.routePath(raw))
    requires RouteInfoCache.Issue(env, t, env.routePath(raw), priority, net).2.Response?
    ensures var p := env.routePath(raw);
      var (t1, issued, outcome) := RouteInfoCache.Issue(env, t, p, priority, net);
      var t2 := if priority then t1 else t1.(inflightRouteInfo := t1.inflightRouteInfo - {p});
      RouteInfoCache.GetRouteInfo(env, t, raw, priority, net) ==
        match RouteInfoCache.ValidatePayload(outcome.payload)
        case Valid(info) => RouteInfoCache.Lookup(t2.(routeInfoByPath := t2.routeInfoByPath[p := info]), issued, Some(p))
        case Invalid => RouteInfoCache.Lookup(t2.(routeErrorByPath := t2.routeErrorByPath + {p}), issued, None)
  {
  }

  lemma AppendAssoc<T>(a: seq<T>, b: seq<T>, c: seq<T>)
    ensures (a + b) + c == a + (b + c)
  {
  }

  lemma UpdateTwice<K, V>(m: map<K, V>, k: K, v: V, v': V)
    ensures m[k := v][k := v'] == m[k := v']
  {
  }

  /** Once every task has settled, the deletions of line 263 leave exactly the
      entries that were pending before the tasks began. */
  lemma BegunThenSettled(inflight: map<Hash, Option<Data>>, keys: seq<PropName>, hashOf: map<PropName, Hash>,
                         cached: map<Hash, Data>, net: DataNet)
    ensures var missing := SharedData.MissingIn(keys, hashOf, cached);
      Begun(inflight, keys, hashOf, cached, net) - missing == inflight - missing
  {
  }

  /** What the tasks leave once all have settled is what `Hydrate` describes:
      the props' values and the shared-data cache, ... */
  lemma HydratedSettlement(t: HashesByProp, cached: map<Hash, Data>, inflight: map<Hash, Option<Data>>,
                           priority: bool, net: DataNet)
    ensures var hyd := SharedData.Hydrate(t, cached, inflight, priority, net);
      var s := SharedData.Settle(t.keys, |t.keys|, t.hashOf, cached, inflight, priority, net);
      hyd.sharedData == s.sharedData && hyd.sharedDataByHash == s.cache
  {
  }

  /** ... and the pending table. */
  lemma HydratedPending(t: HashesByProp, cached: map<Hash, Data>, inflight: map<Hash, Option<Data>>,
                        priority: bool, net: DataNet)
    ensures SharedData.Hydrate(t, cached, inflight, priority, net).inflightPropHashes ==
      if priority then inflight
      else Begun(inflight, t.keys, t.hashOf, cached, net) - SharedData.MissingIn(t.keys, t.hashOf, cached)
  {
    BegunThenSettled(inflight, t.keys, t.hashOf, cached, net);
  }

  /** `HydrateRoute` on a route info that is not hydrated yet. */
  lemma HydrateRouteUnhydrated(c: Cache, key: Path, priority: bool, net: DataNet)
    requires key in c.routes.routeInfoByPath && c.routes.routeInfoByPath[key].sharedData.None?
    ensures var info := c.routes.routeInfoByPath[key];
      var hyd := SharedData.Hydrate(info.sharedHashesByProp, c.sharedDataByHash, c.inflightPropHashes, priority, net);
      SharedData.HydrateRoute(c, key, priority, net) ==
        c.(routes := c.routes.(routeInfoByPath := c.routes.routeInfoByPath[key := info.(sharedData := Some(hyd.sharedData))]),
           sharedDataByHash := hyd.sharedDataByHash,
           inflightPropHashes := hyd.inflightPropHashes,
           requests := c.requests + hyd.issued)
  {
  }

  /** Lines 113-115: `delete part[key]` for every key of one table. */
  method DeleteEveryKey<K, V>(part: map<K, V>) returns (emptied: map<K, V>)
    ensures emptied == map[]
  {
    emptied := part;
    var keys := part.Keys;
    while keys != {}
      invariant emptied.Keys == keys
      decreases keys
    {
      var k :| k in keys;
      emptied := emptied - {k};
      keys := keys - {k};
    }
  }

  /** The same for a table of error markers. */
  method DeleteEveryMember<K>(part: set<K>) returns (emptied: set<K>)
    ensures emptied == {}
  {
    emptied := part;
    while emptied != {}
      decreases emptied
    {
      var k :| k in emptied;
      emptied := emptied - {k};
    }
  }

  class RouteDataCache {
    const env: Env
    var routeInfoByPath: map<Path, RouteInfo>
    var routeErrorByPath: set<Path>
    var sharedDataByHash: map<Hash, Data>
    var inflightRouteInfo: map<Path, Fetch>
    var inflightPropHashes: map<Hash, Option<Data>>
    var templates: map<TemplateId, Template>
    var templatesByPath: map<Path, Option<Template>>
    var templateErrorByPath: set<Path>
    var poolStopped: bool
    var requests: seq<Request>
    var reloads: nat
    var templateUpdates: nat

    /** The fields as one value. */
    function State(): Cache
      reads this
    {
      Cache(Routes(), sharedDataByHash,
            inflightPropHashes, templates, templatesByPath, templateErrorByPath, poolStopped,
            requests, reloads, templateUpdates)
    }

    /** The three tables of route lookups as one value. */
    function Routes(): RouteTables
      reads this
    {
      RouteTables(routeInfoByPath, routeErrorByPath, inflightRouteInfo)
    }

    /** The object's invariant: the path utilities are sound and the tables consistent. */
    predicate Valid()
      reads this
    {
      Sound(env) && Consistent(State())
    }

    /** The tables as index.js creates them at load time: all empty, the pool running. */
    constructor(env: Env)
      requires Sound(env)
      ensures this.env == env && State() == EmptyCache && Valid()
    {
      this.env := env;
      routeInfoByPath := map[];
      routeErrorByPath := {};
      sharedDataByHash := map[];
      inflightRouteInfo := map[];
      inflightPropHashes := map[];
      templates := map[];
      templatesByPath := map[];
      templateErrorByPath := {};
      poolStopped := false;
      requests := [];
      reloads := 0;
      templateUpdates := 0;
    }

    /** getRouteInfo(raw, { priority }); returns the key of the route info it
        returns. */
    method GetRouteInfo(raw: Path, priority: bool, net: Path -> Fetch) returns (found: Option<Path>)
      requires Valid()
      modifies this`routeInfoByPath, this`routeErrorByPath, this`inflightRouteInfo, this`requests
      decreases if env.routePath(raw) == NotFoundKey then 0 else 1, 2
      ensures var r := RouteInfoCache.GetRouteInfo(env, old(Routes()), raw, priority, net);
        && Routes() == r.tables
        && requests == old(requests) + r.issued && found == r.found
      ensures Valid()
    {
      var p := env.routePath(raw);
      if !env.prefetchable(p) {
        return None;
      }
      if p in routeInfoByPath {
        return Some(p);
      }
      if p in routeErrorByPath {
        return None;
      }
      found := FetchRouteInfo(raw, priority, net);
    }

    /** Lines 141-200: the lookup of a path that passed the three guards: its
        request, then the failure fallback or the validation of the response. */
    method FetchRouteInfo(raw: Path, priority: bool, net: Path -> Fetch) returns (found: Option<Path>)
      requires Valid() && RouteInfoCache.Fetches(env, Routes(), env.routePath(raw))
      modifies this`routeInfoByPath, this`routeErrorByPath, this`inflightRouteInfo, this`requests
      decreases if env.routePath(raw) == NotFoundKey then 0 else 1, 1
      ensures var r := RouteInfoCache.GetRouteInfo(env, old(Routes()), raw, priority, net);
        && Routes() == r.tables
        && requests == old(requests) + r.issued && found == r.found
      ensures Valid()
    {
      var p := env.routePath(raw);
      ghost var t0 := Routes();
      var outcome := IssueRequest(p, priority, net);
      match outcome {
        case NetworkError =>
          found := FallBack(raw, priority, net, t0, old(requests));
        case Response(payload) =>
          SettledLookup(env, t0, raw, priority, net);
          found := StoreResponse(p, priority, payload);
          RouteInfoCache.GetRouteInfoKeepsConsistent(env, t0, raw, priority, net);
      }
    }

    /** Lines 179-188: after the request for `raw`, issued on the tables `t0`
        with the request log `log0`, failed: the path is marked errored and,
        unless '404' is cached or errored, the lookup falls back to '404'. */
    method FallBack(raw: Path, priority: bool, net: Path -> Fetch, ghost t0: RouteTables, ghost log0: seq<Request>)
      returns (found: Option<Path>)
      requires Sound(env) && RoutesConsistent(t0) && inflightPropHashes == map[]
      requires RouteInfoCache.Fetches(env, t0, env.routePath(raw))
      requires var (t1, issued, outcome) := RouteInfoCache.Issue(env, t0, env.routePath(raw), priority, net);
        outcome.NetworkError? && Routes() == t1 && requests == log0 + issued
      modifies this`routeInfoByPath, this`routeErrorByPath, this`inflightRouteInfo, this`requests
      decreases if env.routePath(raw) == NotFoundKey then 0 else 1, 0
      ensures var r := RouteInfoCache.GetRouteInfo(env, t0, raw, priority, net);
        && Routes() == r.tables
        && requests == log0 + r.issued && found == r.found
      ensures Valid()
    {
      var p := env.routePath(raw);
      ghost var issued := RouteInfoCache.Issue(env, t0, p, priority, net).1;
      FailedLookup(env, t0, raw, priority, net);
      RouteInfoCache.GetRouteInfoKeepsConsistent(env, t0, raw, priority, net);
      routeErrorByPath := routeErrorByPath + {p};
      if NotFoundKey !in routeInfoByPath && NotFoundKey !in routeErrorByPath {
        ghost var t2 := Routes();
        found := GetRouteInfo(NotFoundKey, priority, net);
        AppendAssoc(log0, issued, RouteInfoCache.GetRouteInfo(env, t2, NotFoundKey, priority, net).issued);
      } else {
        found := None;
      }
    }

    /** Lines 141-178: the request for a path that missed the cache; returns the
        outcome the call awaits. */
    method IssueRequest(p: Path, priority: bool, net: Path -> Fetch) returns (outcome: Fetch)
      modifies this`inflightRouteInfo, this`requests
      ensures var (t1, issued, awaited) := RouteInfoCache.Issue(env, old(Routes()), p, priority, net);
        && inflightRouteInfo == t1.inflightRouteInfo && requests == old(requests) + issued && outcome == awaited
    {
      if env.development || !priority {
        if p in inflightRouteInfo {
          outcome := inflightRouteInfo[p];
        } else {
          inflightRouteInfo := inflightRouteInfo[p := net(p)];
          requests := requests + [RouteInfoRequest(p, !env.development)];
          outcome := net(p);
        }
      } else {
        requests := requests + [RouteInfoRequest(p, false)];
        outcome := net(p);
      }
    }

    /** Lines 190-200: a settled response drops the inflight entry (not for
        priority), then is cached or marks the path errored. */
    method StoreResponse(p: Path, priority: bool, payload: Payload) returns (found: Option<Path>)
      modifies this`inflightRouteInfo, this`routeInfoByPath, this`routeErrorByPath
      ensures inflightRouteInfo == if priority then old(inflightRouteInfo) else old(inflightRouteInfo) - {p}
      ensures match RouteInfoCache.ValidatePayload(payload)
        case Valid(info) =>
          routeInfoByPath == old(routeInfoByPath)[p := info] && routeErrorByPath == old(routeErrorByPath)
          && found == Some(p)
        case Invalid =>
          routeInfoByPath == old(routeInfoByPath) && routeErrorByPath == old(routeErrorByPath) + {p}
          && found == None
    {
      if !priority {
        inflightRouteInfo := inflightRouteInfo - {p};
      }
      match RouteInfoCache.ValidatePayload(payload) {
        case Valid(info) =>
          routeInfoByPath := routeInfoByPath[p := info];
          found := Some(p);
        case Invalid =>
          routeErrorByPath := routeErrorByPath + {p};
          found := None;
      }
    }

    /** Lines 218-270 for the route info stored under `key`: unless it is already
        hydrated, its `sharedData` is set to an empty object, every prop's task
        starts (in key order, up to its first await), then every task settles. */
    method HydrateSharedData(key: Path, priority: bool, net: DataNet)
      requires key in routeInfoByPath
      modifies this
      ensures State() == SharedData.HydrateRoute(old(State()), key, priority, net)
    {
      var info := routeInfoByPath[key];
      if info.sharedData.Some? {
        return;
      }
      ghost var c0 := State();
      HydrateProps(key, info, priority, net);
      HydrateRouteUnhydrated(c0, key, priority, net);
    }

    /** The hydration itself, for a route info `info` stored under `key` and not
        hydrated yet: what the four tables it touches become. */
    method HydrateProps(key: Path, info: RouteInfo, priority: bool, net: DataNet)
      requires key in routeInfoByPath && routeInfoByPath[key] == info
      modifies this`routeInfoByPath, this`sharedDataByHash, this`inflightPropHashes, this`requests
      ensures var hyd := SharedData.Hydrate(info.sharedHashesByProp, old(sharedDataByHash), old(inflightPropHashes), priority, net);
        && routeInfoByPath == old(routeInfoByPath)[key := info.(sharedData := Some(hyd.sharedData))]
        && sharedDataByHash == hyd.sharedDataByHash
        && inflightPropHashes == hyd.inflightPropHashes
        && requests == old(requests) + hyd.issued
    {
      var t := info.sharedHashesByProp;
      var cached := sharedDataByHash;
      var inflight := inflightPropHashes;
      ghost var routes0 := routeInfoByPath;
      ghost var hyd := SharedData.Hydrate(t, cached, inflight, priority, net);
      routeInfoByPath := routeInfoByPath[key := info.(sharedData := Some(map[]))];
      var awaited := BeginTasks(t, cached, priority, net);
      SettleTasks(key, info, t, cached, inflight, awaited, priority, net);
      HydratedSettlement(t, cached, inflight, priority, net);
      assert routeInfoByPath == routes0[key := info.(sharedData := Some(hyd.sharedData))] by {
        UpdateTwice(routes0, key, info.(sharedData := Some(map[])), info.(sharedData := Some(hyd.sharedData)));
      }
      assert inflightPropHashes == hyd.inflightPropHashes by {
        HydratedPending(t, cached, inflight, priority, net);
      }
    }

    /** The state after the synchronous start of the tasks of the first `i` props:
        their requests issued, the pending table extended, what each awaits recorded. */
    ghost predicate Started(t: HashesByProp, cached: map<Hash, Data>, inflight: map<Hash, Option<Data>>,
                            requests0: seq<Request>, priority: bool, net: DataNet,
                            i: nat, awaited: map<PropName, Option<Data>>)
      reads this
    {
      && i <= |t.keys|
      && (forall k | k in t.keys[..i] :: k in t.hashOf)
      && requests == requests0 + SharedData.DataRequests(t.keys[..i], t.hashOf, cached, inflight.Keys, priority)
      && inflightPropHashes == (if priority then inflight else Begun(inflight, t.keys[..i], t.hashOf, cached, net))
      && AwaitsFor(awaited, t.keys, i, t.hashOf, cached, inflight, priority, net)
    }

    /** Lines 223-250: the synchronous start of every prop's task, in key order: a
        task for an uncached hash issues its request (a priority one always, any
        other unless a request for the hash is pending, which it then shares).
        Returns what each such task awaits. */
    method BeginTasks(t: HashesByProp, cached: map<Hash, Data>, priority: bool, net: DataNet)
        returns (awaited: map<PropName, Option<Data>>)
      modifies this`requests, this`inflightPropHashes
      ensures requests == old(requests) + SharedData.DataRequests(t.keys, t.hashOf, cached, old(inflightPropHashes).Keys, priority)
      ensures inflightPropHashes ==
        if priority then old(inflightPropHashes) else Begun(old(inflightPropHashes), t.keys, t.hashOf, cached, net)
      ensures forall k | k in t.keys && t.hashOf[k] !in cached ::
        k in awaited && awaited[k] == SharedData.Awaited(old(inflightPropHashes), priority, net, k, t.hashOf[k])
      ensures AwaitsFor(awaited, t.keys, |t.keys|, t.hashOf, cached, old(inflightPropHashes), priority, net)
    {
      ghost var inflight := inflightPropHashes;
      ghost var requests0 := requests;
      awaited := map[];
      var i := 0;
      while i < |t.keys|
        invariant Started(t, cached, inflight, requests0, priority, net, i, awaited)
        modifies this`requests, this`inflightPropHashes
      {
        awaited := BeginTask(t, cached, inflight, requests0, priority, net, i, awaited);
        i := i + 1;
      }
      assert t.keys[..i] == t.keys;
      forall k | k in t.keys && t.hashOf[k] !in cached
        ensures k in awaited && awaited[k] == SharedData.Awaited(inflight, priority, net, k, t.hashOf[k])
      {
        var j :| 0 <= j < |t.keys| && t.keys[j] == k;
        assert t.hashOf[t.keys[j]] !in cached;
      }
    }

    /** Lines 224-250 for the prop `t.keys[i]`. */
    method BeginTask(t: HashesByProp, cached: map<Hash, Data>, ghost inflight: map<Hash, Option<Data>>,
                     ghost requests0: seq<Request>, priority: bool, net: DataNet,
                     i: nat, awaited: map<PropName, Option<Data>>) returns (awaited': map<PropName, Option<Data>>)
      requires i < |t.keys| && Started(t, cached, inflight, requests0, priority, net, i, awaited)
      modifies this`requests, this`inflightPropHashes
      ensures Started(t, cached, inflight, requests0, priority, net, i + 1, awaited')
    {
      var k := t.keys[i];
      var h := t.hashOf[k];
      var a := BeginHash(t, cached, inflight, requests0, priority, net, i);
      awaited' := if h in cached then awaited else awaited[k := a];
      AwaitsForStep(awaited, t.keys, i, t.hashOf, cached, inflight, priority, net);
    }

    /** Lines 223-250 for the hash of the prop `t.keys[i]`: the request its task
        issues, if any, and the pending table it leaves. Returns what the task
        awaits when the hash is not cached. */
    method BeginHash(t: HashesByProp, cached: map<Hash, Data>, ghost inflight: map<Hash, Option<Data>>,
                     ghost requests0: seq<Request>, priority: bool, net: DataNet, i: nat)
        returns (a: Option<Data>)
      requires i < |t.keys|
      requires requests == requests0 + SharedData.DataRequests(t.keys[..i], t.hashOf, cached, inflight.Keys, priority)
      requires inflightPropHashes == if priority then inflight else Begun(inflight, t.keys[..i], t.hashOf, cached, net)
      modifies this`requests, this`inflightPropHashes
      ensures requests == requests0 + SharedData.DataRequests(t.keys[..i + 1], t.hashOf, cached, inflight.Keys, priority)
      ensures inflightPropHashes == if priority then inflight else Begun(inflight, t.keys[..i + 1], t.hashOf, cached, net)
      ensures t.hashOf[t.keys[i]] !in cached ==> a == SharedData.Awaited(inflight, priority, net, t.keys[i], t.hashOf[t.keys[i]])
    {
      var h := t.hashOf[t.keys[i]];
      ghost var issued := SharedData.DataRequests(t.keys[..i], t.hashOf, cached, inflight.Keys, priority);
      a := None;
      if h in cached {
        BeginStep(inflight, t.keys, i, t.hashOf, cached, priority, net);
        assert issued + [] == issued;
      } else if priority {
        BeginStep(inflight, t.keys, i, t.hashOf, cached, priority, net);
        AppendAssoc(requests0, issued, [SharedDataRequest(h, false)]);
        requests := requests + [SharedDataRequest(h, false)];
        a := net.direct(t.keys[i]);
      } else if h !in inflightPropHashes {
        BeginStep(inflight, t.keys, i, t.hashOf, cached, priority, net);
        AppendAssoc(requests0, issued, [SharedDataRequest(h, true)]);
        inflightPropHashes := inflightPropHashes[h := net.pooled(h)];
        requests := requests + [SharedDataRequest(h, true)];
        a := net.pooled(h);
      } else {
        BeginStep(inflight, t.keys, i, t.hashOf, cached, priority, net);
        assert issued + [] == issued;
        a := inflightPropHashes[h];
      }
    }

    /** The state once the tasks of the first `i` props have settled. */
    ghost predicate SettledUpTo(key: Path, info: RouteInfo, t: HashesByProp, cached: map<Hash, Data>,
                                inflight: map<Hash, Option<Data>>, priority: bool, net: DataNet,
                                routes0: map<Path, RouteInfo>, i: nat, sd: map<PropName, Option<Data>>)
      reads this`sharedDataByHash, this`inflightPropHashes, this`routeInfoByPath
    {
      && i <= |t.keys|
      && sd == SharedData.Settle(t.keys, i, t.hashOf, cached, inflight, priority, net).sharedData
      && sharedDataByHash == SharedData.Settle(t.keys, i, t.hashOf, cached, inflight, priority, net).cache
      && inflightPropHashes == (if priority then inflight
                                else Begun(inflight, t.keys, t.hashOf, cached, net) - SharedData.MissingIn(t.keys[..i], t.hashOf, cached))
      && routeInfoByPath == routes0[key := info.(sharedData := Some(sd))]
    }

    /** Lines 251-268: every task settles, in key order: a successful fetch is
        cached, a non-priority task deletes its hash's inflight entry whatever the
        outcome, and the prop takes what the cache holds for its hash. */
    method SettleTasks(key: Path, info: RouteInfo, t: HashesByProp, cached: map<Hash, Data>,
                       inflight: map<Hash, Option<Data>>, awaited: map<PropName, Option<Data>>,
                       priority: bool, net: DataNet)
      requires key in routeInfoByPath && routeInfoByPath[key] == info.(sharedData := Some(map[]))
      requires sharedDataByHash == cached
      requires inflightPropHashes == if priority then inflight else Begun(inflight, t.keys, t.hashOf, cached, net)
      requires AwaitsFor(awaited, t.keys, |t.keys|, t.hashOf, cached, inflight, priority, net)
      modifies this`sharedDataByHash, this`inflightPropHashes, this`routeInfoByPath
      ensures var s := SharedData.Settle(t.keys, |t.keys|, t.hashOf, cached, inflight, priority, net);
        && sharedDataByHash == s.cache
        && routeInfoByPath == old(routeInfoByPath)[key := info.(sharedData := Some(s.sharedData))]
      ensures inflightPropHashes ==
        if priority then inflight else Begun(inflight, t.keys, t.hashOf, cached, net) - SharedData.MissingIn(t.keys, t.hashOf, cached)
    {
      ghost var routes0 := routeInfoByPath;
      var sd: map<PropName, Option<Data>> := map[];
      SettleNone(t, cached, inflight, priority, net);
      UpdateSame(routes0, key);
      var i := 0;
      while i < |t.keys|
        invariant SettledUpTo(key, info, t, cached, inflight, priority, net, routes0, i, sd)
        modifies this`sharedDataByHash, this`inflightPropHashes, this`routeInfoByPath
      {
        sd := SettleTask(key, info, t, cached, inflight, awaited, priority, net, routes0, i, sd);
        i := i + 1;
      }
      assert t.keys[..i] == t.keys;
    }

    /** Lines 251-261 and 268 for the prop `t.keys[i]`. */
    method SettleTask(key: Path, info: RouteInfo, t: HashesByProp, cached: map<Hash, Data>,
                      inflight: map<Hash, Option<Data>>, awaited: map<PropName, Option<Data>>,
                      priority: bool, net: DataNet, ghost routes0: map<Path, RouteInfo>,
                      i: nat, sd: map<PropName, Option<Data>>) returns (sd': map<PropName, Option<Data>>)
      requires i < |t.keys| && SettledUpTo(key, info, t, cached, inflight, priority, net, routes0, i, sd)
      requires AwaitsFor(awaited, t.keys, |t.keys|, t.hashOf, cached, inflight, priority, net)
      modifies this`sharedDataByHash, this`inflightPropHashes, this`routeInfoByPath
      ensures SettledUpTo(key, info, t, cached, inflight, priority, net, routes0, i + 1, sd')
    {
      ghost var routes := routeInfoByPath;
      var k := t.keys[i];
      var h := t.hashOf[k];
      var value := SettleHash(t, cached, inflight, awaited, priority, net, i);
      ReleaseHash(t, cached, inflight, priority, net, i);
      sd' := sd[k := value];
      var settledInfo := info.(sharedData := Some(sd'));
      assert routes[key := settledInfo] == routes0[key := settledInfo] by {
        UpdateTwice(routes0, key, info.(sharedData := Some(sd)), settledInfo);
      }
      routeInfoByPath := routeInfoByPath[key := settledInfo];
    }

    /** Lines 252-261 and 268 for the prop `t.keys[i]`: when its hash was missing
        and its fetch succeeded the data is cached; the prop's value is what the
        cache then holds for its hash. */
    method SettleHash(t: HashesByProp, cached: map<Hash, Data>, inflight: map<Hash, Option<Data>>,
                      awaited: map<PropName, Option<Data>>, priority: bool, net: DataNet, i: nat)
      returns (value: Option<Data>)
      requires i < |t.keys|
      requires sharedDataByHash == SharedData.Settle(t.keys, i, t.hashOf, cached, inflight, priority, net).cache
      requires AwaitsFor(awaited, t.keys, |t.keys|, t.hashOf, cached, inflight, priority, net)
      modifies this`sharedDataByHash
      ensures var s := SharedData.Settle(t.keys, i + 1, t.hashOf, cached, inflight, priority, net);
        && sharedDataByHash == s.cache
        && s.sharedData == SharedData.Settle(t.keys, i, t.hashOf, cached, inflight, priority, net).sharedData[t.keys[i] := value]
    {
      var k := t.keys[i];
      var h := t.hashOf[k];
      if h !in cached {
        var outcome := awaited[k];
        if outcome.Some? {
          sharedDataByHash := sharedDataByHash[h := outcome.value];
        }
      }
      value := if h in sharedDataByHash then Some(sharedDataByHash[h]) else None;
    }

    /** Lines 262-264 for the prop `t.keys[i]`: a non-priority task whose hash was
        missing deletes the hash's inflight entry, whatever its fetch returned. */
    method ReleaseHash(t: HashesByProp, cached: map<Hash, Data>, inflight: map<Hash, Option<Data>>,
                       priority: bool, net: DataNet, i: nat)
      requires i < |t.keys|
      requires inflightPropHashes == if priority then inflight
        else Begun(inflight, t.keys, t.hashOf, cached, net) - SharedData.MissingIn(t.keys[..i], t.hashOf, cached)
      modifies this`inflightPropHashes
      ensures inflightPropHashes == if priority then inflight
        else Begun(inflight, t.keys, t.hashOf, cached, net) - SharedData.MissingIn(t.keys[..i + 1], t.hashOf, cached)
    {
      var h := t.hashOf[t.keys[i]];
      SettleStep(t.keys, i, t.hashOf, cached, inflight, net);
      if h !in cached && !priority {
        inflightPropHashes := inflightPropHashes - {h};
      } else {
        assert inflightPropHashes - {} == inflightPropHashes;
      }
    }

    /** prefetchData(raw, { priority }): the route lookup, then the hydration of
        the shared data of the route info it found. */
    method PrefetchData(raw: Path, priority: bool, routeNet: Path -> Fetch, hashNet: DataNet)
      requires Valid()
      modifies this
      ensures State() == SharedData.PrefetchData(env, old(State()), raw, priority, routeNet, hashNet)
      ensures Valid()
    {
      ghost var c0 := State();
      var found := GetRouteInfo(raw, priority, routeNet);
      if found.Some? {
        HydrateSharedData(found.value, priority, hashNet);
      }
      SharedData.PrefetchDataKeepsConsistent(env, c0, raw, priority, routeNet, hashNet);
    }

    /** prefetchTemplate(raw, { priority }): the lookup of the normalised path,
        the binding of the found route's template, then its preload. */
    method PrefetchTemplate(raw: Path, priority: bool, routeNet: Path -> Fetch, preloadOk: bool)
      returns (result: Settled<Option<Template>>)
      requires Valid()
      modifies this`routeInfoByPath, this`routeErrorByPath, this`inflightRouteInfo, this`requests,
        this`templatesByPath, this`templateErrorByPath
      ensures var res := TemplatePrefetch.PrefetchTemplate(env, old(State()), raw, priority, routeNet, preloadOk);
        State() == res.0 && result == res.1
      ensures Valid()
    {
      ghost var c0 := State();
      var path := env.routePath(raw);
      var found := LookUpAndBind(path, priority, routeNet);
      result := Preload(path, found, priority, preloadOk);
      TemplatePrefetch.PrefetchTemplateKeepsConsistent(env, c0, raw, priority, routeNet, preloadOk);
    }

    /** Lines 275-283: the lookup, then the binding of the found route's template
        under the path its route info names; returns the key of that route info. */
    method LookUpAndBind(path: Path, priority: bool, routeNet: Path -> Fetch) returns (found: Option<Path>)
      requires Valid()
      modifies this`routeInfoByPath, this`routeErrorByPath, this`inflightRouteInfo, this`requests,
        this`templatesByPath
      ensures var res := TemplatePrefetch.LookUpAndBind(env, old(State()), path, priority, routeNet);
        State() == res.0 && found == res.1
    {
      found := GetRouteInfo(path, priority, routeNet);
      if found.Some? {
        var info := routeInfoByPath[found.value];
        RegisterTemplateForPath(info.path, info.template);
      }
    }

    /** Lines 285-306: the template bound to `path` is preloaded unless the found
        route info has it loaded already; `preloadOk` is how `preload()` settles. */
    method Preload(path: Path, found: Option<Path>, priority: bool, preloadOk: bool)
      returns (result: Settled<Option<Template>>)
      requires found.Some? ==> found.value in routeInfoByPath
      modifies this`routeInfoByPath, this`templateErrorByPath, this`requests
      ensures var res := TemplatePrefetch.Preload(old(State()), path, found, priority, preloadOk);
        State() == res.0 && result == res.1
    {
      var bound := if path in templatesByPath then templatesByPath[path] else None;
      if bound.None? {
        templateErrorByPath := templateErrorByPath + {path};
        return Resolved(None);
      }
      if found.None? {
        return Resolved(None);
      }
      var info := routeInfoByPath[found.value];
      if !info.templateLoaded && bound.value.hasPreload {
        requests := requests + [PreloadRequest(bound.value.id, !priority)];
        if !preloadOk {
          return Rejected;
        }
        routeInfoByPath := routeInfoByPath[found.value := info.(templateLoaded := true)];
      }
      result := Resolved(bound);
    }

    /** prefetch(raw, { type, priority }): a priority call stops the pool, runs
        the selected prefetches on the normalised path and starts the pool again
        however they settle. */
    method Prefetch(raw: Path, kind: Orchestrator.PrefetchType, priority: bool, routeNet: Path -> Fetch,
                    hashNet: DataNet, preloadOk: bool) returns (outcome: Orchestrator.Outcome)
      requires Valid()
      modifies this
      ensures var res := Orchestrator.Prefetch(env, old(State()), raw, kind, priority, routeNet, hashNet, preloadOk);
        State() == res.0 && outcome == res.1
      ensures Valid()
    {
      var path := env.routePath(raw);
      if priority {
        poolStopped := true;
      }
      outcome := Orchestrator.Done;
      match kind {
        case DataOnly =>
          PrefetchData(path, priority, routeNet, hashNet);
        case TemplateOnly =>
          var settled := PrefetchTemplate(path, priority, routeNet, preloadOk);
          if settled.Rejected? {
            outcome := Orchestrator.Failed;
          }
        case DataAndTemplate =>
          PrefetchData(path, priority, routeNet, hashNet);
          var settled := PrefetchTemplate(path, priority, routeNet, preloadOk);
          if settled.Rejected? {
            outcome := Orchestrator.Failed;
          }
      }
      if priority {
        poolStopped := false;
      }
    }

    /** registerTemplateForPath(raw, id). */
    method RegisterTemplateForPath(raw: Path, id: Option<TemplateId>)
      requires Valid()
      modifies this`templatesByPath
      ensures State() == TemplatePrefetch.BindTemplate(env, old(State()), raw, id)
      ensures Valid()
    {
      templatesByPath := templatesByPath[env.routePath(raw) := TemplatePrefetch.TemplateFor(templates, id)];
    }

    /** registerTemplates(tmps, notFoundKey): the registry is replaced by `tmps`
        and the not-found page rebound. */
    method RegisterTemplates(tmps: map<TemplateId, Template>, notFoundKey: TemplateId)
      requires Valid()
      modifies this`templates, this`templatesByPath, this`templateUpdates
      ensures State() == TemplatePrefetch.RegisterTemplates(old(State()), tmps, notFoundKey)
      ensures Valid()
    {
      ReplaceRegistry(tmps);
      templatesByPath := templatesByPath[NotFoundKey := TemplatePrefetch.TemplateFor(templates, Some(notFoundKey))];
      templateUpdates := templateUpdates + 1;
    }

    /** Lines 34-39: the registry is emptied key by key, then refilled from `tmps`
        key by key. */
    method ReplaceRegistry(tmps: map<TemplateId, Template>)
      modifies this`templates
      ensures templates == tmps
    {
      var stale := templates.Keys;
      while stale != {}
        invariant templates.Keys == stale
        modifies this`templates
        decreases stale
      {
        var id :| id in stale;
        templates := templates - {id};
        stale := stale - {id};
      }
      var toCopy := tmps.Keys;
      while toCopy != {}
        invariant toCopy <= tmps.Keys
        invariant templates == map id | id in tmps.Keys - toCopy :: tmps[id]
        modifies this`templates
        decreases toCopy
      {
        var id :| id in toCopy;
        templates := templates[id := tmps[id]];
        toCopy := toCopy - {id};
      }
    }

    /** reloadRouteData(): each of the five route-data tables is emptied key by key. */
    method ReloadRouteData()
      modifies this`routeInfoByPath, this`sharedDataByHash, this`routeErrorByPath, this`inflightRouteInfo,
        this`inflightPropHashes, this`reloads
      requires Valid()
      ensures State() == Reloaded(old(State()))
      ensures Valid()
    {
      var routes := DeleteEveryKey(routeInfoByPath);
      var data := DeleteEveryKey(sharedDataByHash);
      var errors := DeleteEveryMember(routeErrorByPath);
      var inflight := DeleteEveryKey(inflightRouteInfo);
      var pending := DeleteEveryKey(inflightPropHashes);
      routeInfoByPath, sharedDataByHash, routeErrorByPath := routes, data, errors;
      inflightRouteInfo, inflightPropHashes := inflight, pending;
      reloads := reloads + 1;
      assert Routes() == RouteTables(map[], {}, map[]);
    }
  }
}
