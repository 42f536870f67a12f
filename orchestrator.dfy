/** prefetch (index.js lines 309-335): the entry point that normalises the path,
    runs the data and/or template prefetch and brackets priority work with the
    request pool's stop and start. */
module Orchestrator {
  import opened Types
  import RouteInfoCache
  import SharedData
  import TemplatePrefetch

  /** `options.type`: 'data', 'template', or anything else (both). */
  datatype PrefetchType = DataOnly | TemplateOnly | DataAndTemplate

  /** How the promise returned by prefetch settles. */
  datatype Outcome = Done | Failed

  /** Lines 320-329: the selected prefetches on the normalised path. The two
      kinds, which the source starts together under `Promise.all`, run here one
      after the other, data first; prefetchData never rejects, a template whose
      preload rejects does. */
  function Dispatch(env: Env, c: Cache, path: Path, kind: PrefetchType, priority: bool,
                    routeNet: Path -> Fetch, hashNet: DataNet, preloadOk: bool): (res: (Cache, Outcome))
    requires Sound(env)
    ensures res.0.poolStopped == c.poolStopped && res.0.templates == c.templates
    ensures c.requests <= res.0.requests
    ensures res.1.Failed? ==> kind != DataOnly && !preloadOk
  {
    match kind
    case DataOnly => (SharedData.PrefetchData(env, c, path, priority, routeNet, hashNet), Done)
    case TemplateOnly =>
      var (c1, s) := TemplatePrefetch.PrefetchTemplate(env, c, path, priority, routeNet, preloadOk);
      (c1, if s.Rejected? then Failed else Done)
    case DataAndTemplate =>
      var c1 := SharedData.PrefetchData(env, c, path, priority, routeNet, hashNet);
      var (c2, s) := TemplatePrefetch.PrefetchTemplate(env, c1, path, priority, routeNet, preloadOk);
      (c2, if s.Rejected? then Failed else Done)
  }

  /** prefetch(raw, { type, priority }) as written: the pool is stopped before
      priority work and started again only after the awaited work resolved; when
      it rejects, the start at line 333 is skipped and the pool stays stopped. */
  function PrefetchAsWritten(env: Env, c: Cache, raw: Path, kind: PrefetchType, priority: bool,
                             routeNet: Path -> Fetch, hashNet: DataNet, preloadOk: bool): (res: (Cache, Outcome))
    requires Sound(env)
    ensures priority && res.1.Failed? ==> res.0.poolStopped
  {
    var c0 := if priority then c.(poolStopped := true) else c;
    var (c1, o) := Dispatch(env, c0, env.routePath(raw), kind, priority, routeNet, hashNet, preloadOk);
    if o.Failed? then (c1, Failed)
    else if priority then (c1.(poolStopped := false), Done)
    else (c1, Done)
  }

  /** prefetch(raw, { type, priority }) with the start in a `finally`: a priority
      call restarts the pool however its work settles. */
  function Prefetch(env: Env, c: Cache, raw: Path, kind: PrefetchType, priority: bool,
                    routeNet: Path -> Fetch, hashNet: DataNet, preloadOk: bool): (res: (Cache, Outcome))
    requires Sound(env)
    ensures priority ==> !res.0.poolStopped
    ensures !priority ==> res.0.poolStopped == c.poolStopped
  {
    var c0 := if priority then c.(poolStopped := true) else c;
    var (c1, o) := Dispatch(env, c0, env.routePath(raw), kind, priority, routeNet, hashNet, preloadOk);
    (if priority then c1.(poolStopped := false) else c1, o)
  }

  /** The only input on which the two versions differ is a priority call whose
      work rejects, and then only in the pool's gate. */
  lemma AsWrittenDiffersOnlyInTheGate(env: Env, c: Cache, raw: Path, kind: PrefetchType, priority: bool,
                                      routeNet: Path -> Fetch, hashNet: DataNet, preloadOk: bool)
    requires Sound(env)
    ensures var w := PrefetchAsWritten(env, c, raw, kind, priority, routeNet, hashNet, preloadOk);
      var f := Prefetch(env, c, raw, kind, priority, routeNet, hashNet, preloadOk);
      && w.1 == f.1
      && w.0 == f.0.(poolStopped := w.0.poolStopped)
      && (w.0.poolStopped != f.0.poolStopped <==> priority && f.1.Failed?)
  {
  }

  /** The input that shows it: a priority template prefetch of a valid route whose
      template's preload rejects leaves the pool stopped as written, so every later
      non-priority request waits in a pool that never runs; the corrected version
      restarts it. */
  lemma PoolLeftStoppedAsWritten()
    ensures var env := Env(false, p => p, p => true);
      var info := RouteInfo("/a", Some("t"), PropTable([], map[]), None, false);
      var routeNet: Path -> Fetch := p => Response(Record(info));
      var hashNet := DataNet(h => None, k => None);
      var c := EmptyCache.(templates := map["t" := Template("t", true)]);
      && Sound(env)
      && PrefetchAsWritten(env, c, "/a", TemplateOnly, true, routeNet, hashNet, false) .0.poolStopped
      && !Prefetch(env, c, "/a", TemplateOnly, true, routeNet, hashNet, false).0.poolStopped
      && Prefetch(env, c, "/a", TemplateOnly, true, routeNet, hashNet, false).1 == Failed
  {
    var env := Env(false, p => p, p => true);
    var info := RouteInfo("/a", Some("t"), PropTable([], map[]), None, false);
    var routeNet: Path -> Fetch := p => Response(Record(info));
    var c := EmptyCache.(templates := map["t" := Template("t", true)]);
    var c0 := c.(poolStopped := true);
    var r := RouteInfoCache.GetRouteInfo(env, c0.routes, "/a", true, routeNet);
    assert r.found == Some("/a") && r.tables.routeInfoByPath["/a"] == info;
    var (c2, found) := TemplatePrefetch.LookUpAndBind(env, c0, "/a", true, routeNet);
    assert TemplatePrefetch.BoundTemplate(c2, "/a") == Some(Template("t", true));
    assert TemplatePrefetch.PrefetchTemplate(env, c0, "/a", true, routeNet, false).1 == Rejected;
  }

  /** Whether a request went through the pool as the source routes it: priority
      requests never do; a non-priority route-info request does only in published
      mode; other non-priority requests always do. */
  predicate PooledAsRouted(env: Env, r: Request, priority: bool) {
    r.pooled == (!priority && (r.RouteInfoRequest? ==> !env.development))
  }

  /** The requests appended to `rs` to make `rs'` are all routed as the source routes them. */
  predicate NewRequestsRouted(env: Env, rs: seq<Request>, rs': seq<Request>, priority: bool) {
    |rs| <= |rs'| && forall i | |rs| <= i < |rs'| :: PooledAsRouted(env, rs'[i], priority)
  }

  lemma AppendRouted(env: Env, rs: seq<Request>, more: seq<Request>, priority: bool)
    requires forall i | 0 <= i < |more| :: PooledAsRouted(env, more[i], priority)
    ensures NewRequestsRouted(env, rs, rs + more, priority)
  {
    forall i | |rs| <= i < |rs + more| ensures PooledAsRouted(env, (rs + more)[i], priority) {
      assert (rs + more)[i] == more[i - |rs|];
    }
  }

  lemma RoutedTransitive(env: Env, rs: seq<Request>, rs': seq<Request>, rs'': seq<Request>, priority: bool)
    requires NewRequestsRouted(env, rs, rs', priority) && NewRequestsRouted(env, rs', rs'', priority)
    requires rs' <= rs''
    ensures NewRequestsRouted(env, rs, rs'', priority)
  {
    forall i | |rs| <= i < |rs''| ensures PooledAsRouted(env, rs''[i], priority) {
      if i < |rs'| {
        assert rs''[i] == rs'[i];
      }
    }
  }

  /** Lines 141-178: a lookup's requests are routed as the source routes them. */
  lemma LookupRequestsRouted(env: Env, c: Cache, path: Path, priority: bool, routeNet: Path -> Fetch)
    requires Sound(env)
    ensures var r := RouteInfoCache.GetRouteInfo(env, c.routes, path, priority, routeNet);
      NewRequestsRouted(env, c.requests, c.requests + r.issued, priority)
  {
    var r := RouteInfoCache.GetRouteInfo(env, c.routes, path, priority, routeNet);
    AppendRouted(env, c.requests, r.issued, priority);
  }

  /** The requests of prefetchData: the lookup's, then the hydration's, if any. */
  lemma PrefetchDataRequests(env: Env, c: Cache, path: Path, priority: bool,
                             routeNet: Path -> Fetch, hashNet: DataNet)
    requires Sound(env)
    ensures var r := RouteInfoCache.GetRouteInfo(env, c.routes, path, priority, routeNet);
      var rs := SharedData.PrefetchData(env, c, path, priority, routeNet, hashNet).requests;
      && c.requests + r.issued <= rs
      && forall i | |c.requests + r.issued| <= i < |rs| :: rs[i].SharedDataRequest? && rs[i].pooled == !priority
  {
    var r := RouteInfoCache.GetRouteInfo(env, c.routes, path, priority, routeNet);
    var c1 := c.(routes := r.tables, requests := c.requests + r.issued);
    if r.found.Some? {
      HydrationRequests(c1, r.found.value, priority, hashNet);
    }
  }

  /** The requests of a hydration: its data requests, after those already issued. */
  lemma HydrationRequests(c: Cache, key: Path, priority: bool, net: DataNet)
    requires key in c.routes.routeInfoByPath
    ensures var rs := SharedData.HydrateRoute(c, key, priority, net).requests;
      && c.requests <= rs
      && forall i | |c.requests| <= i < |rs| :: rs[i].SharedDataRequest? && rs[i].pooled == !priority
  {
    var info := c.routes.routeInfoByPath[key];
    if info.sharedData.None? {
      var t := info.sharedHashesByProp;
      var more := SharedData.DataRequests(t.keys, t.hashOf, c.sharedDataByHash, c.inflightPropHashes.Keys, priority);
      assert SharedData.HydrateRoute(c, key, priority, net).requests == c.requests + more;
    }
  }

  /** Lines 141-164, 231-250: every request prefetchData issues bypasses the pool
      when the call is priority and goes through it otherwise (route info only in
      published mode). */
  lemma PrefetchDataRoutesRequests(env: Env, c: Cache, path: Path, priority: bool,
                                   routeNet: Path -> Fetch, hashNet: DataNet)
    requires Sound(env)
    ensures NewRequestsRouted(env, c.requests, SharedData.PrefetchData(env, c, path, priority, routeNet, hashNet).requests, priority)
  {
    var r := RouteInfoCache.GetRouteInfo(env, c.routes, path, priority, routeNet);
    PrefetchDataRequests(env, c, path, priority, routeNet, hashNet);
    var rs := SharedData.PrefetchData(env, c, path, priority, routeNet, hashNet).requests;
    LookupRequestsRouted(env, c, path, priority, routeNet);
    RoutedTransitive(env, c.requests, c.requests + r.issued, rs, priority);
  }

  /** The requests of prefetchTemplate: the lookup's, then at most one preload. */
  lemma PrefetchTemplateRequests(env: Env, c: Cache, path: Path, priority: bool,
                                 routeNet: Path -> Fetch, preloadOk: bool)
    requires Sound(env)
    ensures var r := RouteInfoCache.GetRouteInfo(env, c.routes, env.routePath(path), priority, routeNet);
      var rs := TemplatePrefetch.PrefetchTemplate(env, c, path, priority, routeNet, preloadOk).0.requests;
      && c.requests + r.issued <= rs && |rs| <= |c.requests + r.issued| + 1
      && forall i | |c.requests + r.issued| <= i < |rs| :: rs[i].PreloadRequest? && rs[i].pooled == !priority
  {
  }

  /** Lines 141-164, 298-303: the same for prefetchTemplate, whose preload goes
      through the pool exactly when the call is not priority. */
  lemma PrefetchTemplateRoutesRequests(env: Env, c: Cache, path: Path, priority: bool,
                                       routeNet: Path -> Fetch, preloadOk: bool)
    requires Sound(env)
    ensures NewRequestsRouted(env, c.requests, TemplatePrefetch.PrefetchTemplate(env, c, path, priority, routeNet, preloadOk).0.requests, priority)
  {
    var p := env.routePath(path);
    var r := RouteInfoCache.GetRouteInfo(env, c.routes, p, priority, routeNet);
    PrefetchTemplateRequests(env, c, path, priority, routeNet, preloadOk);
    LookupRequestsRouted(env, c, p, priority, routeNet);
    RoutedTransitive(env, c.requests, c.requests + r.issued,
                     TemplatePrefetch.PrefetchTemplate(env, c, path, priority, routeNet, preloadOk).0.requests, priority);
  }

  /** Lines 231-250, 299-303, and the inflight rule of lines 166-177: a priority
      prefetch issues every one of its requests directly, outside the pool it has
      stopped; a non-priority one queues them all in the pool (route info only in
      published mode). */
  lemma PrefetchRoutesRequests(env: Env, c: Cache, raw: Path, kind: PrefetchType, priority: bool,
                               routeNet: Path -> Fetch, hashNet: DataNet, preloadOk: bool)
    requires Sound(env)
    ensures NewRequestsRouted(env, c.requests, Prefetch(env, c, raw, kind, priority, routeNet, hashNet, preloadOk).0.requests, priority)
  {
    var c0 := if priority then c.(poolStopped := true) else c;
    var path := env.routePath(raw);
    match kind
    case DataOnly =>
      PrefetchDataRoutesRequests(env, c0, path, priority, routeNet, hashNet);
    case TemplateOnly =>
      PrefetchTemplateRoutesRequests(env, c0, path, priority, routeNet, preloadOk);
    case DataAndTemplate =>
      var c1 := SharedData.PrefetchData(env, c0, path, priority, routeNet, hashNet);
      PrefetchDataRoutesRequests(env, c0, path, priority, routeNet, hashNet);
      PrefetchTemplateRoutesRequests(env, c1, path, priority, routeNet, preloadOk);
      RoutedTransitive(env, c0.requests, c1.requests,
                       TemplatePrefetch.PrefetchTemplate(env, c1, path, priority, routeNet, preloadOk).0.requests, priority);
  }

  /** Every prefetch keeps the cache consistent. */
  lemma PrefetchKeepsConsistent(env: Env, c: Cache, raw: Path, kind: PrefetchType, priority: bool,
                                routeNet: Path -> Fetch, hashNet: DataNet, preloadOk: bool)
    requires Sound(env) && Consistent(c)
    ensures Consistent(Prefetch(env, c, raw, kind, priority, routeNet, hashNet, preloadOk).0)
  {
    var c0 := if priority then c.(poolStopped := true) else c;
    var path := env.routePath(raw);
    match kind
    case DataOnly =>
      SharedData.PrefetchDataKeepsConsistent(env, c0, path, priority, routeNet, hashNet);
    case TemplateOnly =>
      TemplatePrefetch.PrefetchTemplateKeepsConsistent(env, c0, path, priority, routeNet, preloadOk);
    case DataAndTemplate =>
      var c1 := SharedData.PrefetchData(env, c0, path, priority, routeNet, hashNet);
      SharedData.PrefetchDataKeepsConsistent(env, c0, path, priority, routeNet, hashNet);
      TemplatePrefetch.PrefetchTemplateKeepsConsistent(env, c1, path, priority, routeNet, preloadOk);
  }
}
