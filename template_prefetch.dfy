/** prefetchTemplate and registerTemplateForPath (index.js lines 43-46, 273-307):
    binding templates to paths, error markers for paths without a template, and
    the one-time preload of a route's template. */
module TemplatePrefetch {
  import opened Types
  import RouteInfoCache

  /** `templates[id]`; an absent id finds nothing. */
  function TemplateFor(templates: map<TemplateId, Template>, id: Option<TemplateId>): (t: Option<Template>)
    ensures t.Some? <==> id.Some? && id.value in templates
    ensures t.Some? ==> t.value == templates[id.value]
  {
    if id.Some? && id.value in templates then Some(templates[id.value]) else None
  }

  /** registerTemplateForPath(raw, id): binds the normalised path to `templates[id]`. */
  function BindTemplate(env: Env, c: Cache, raw: Path, id: Option<TemplateId>): (c': Cache)
    // The path gets an entry even when no template is registered under `id`
    // (JavaScript stores undefined), so its binding is defined from then on.
    ensures c'.templatesByPath.Keys == c.templatesByPath.Keys + {env.routePath(raw)}
    ensures c'.templates == c.templates && c'.routes == c.routes && c'.templateErrorByPath == c.templateErrorByPath
  {
    c.(templatesByPath := c.templatesByPath[env.routePath(raw) := TemplateFor(c.templates, id)])
  }

  /** Lines 43-46: registerTemplateForPath rewrites the one binding of the
      normalised path, to the registered template of that id or to nothing, and
      nothing else. */
  lemma BindChangesOneEntry(env: Env, c: Cache, raw: Path, id: Option<TemplateId>)
    ensures var c' := BindTemplate(env, c, raw, id);
      && BoundTemplate(c', env.routePath(raw)) == TemplateFor(c.templates, id)
      && (forall q | q != env.routePath(raw) :: BoundTemplate(c', q) == BoundTemplate(c, q))
      && c' == c.(templatesByPath := c'.templatesByPath)
  {
  }

  /** registerTemplates(tmps, notFoundKey): the registry becomes `tmps` and the
      not-found page is bound to `tmps[notFoundKey]`; the update callback runs. */
  function RegisterTemplates(c: Cache, tmps: map<TemplateId, Template>, notFoundKey: TemplateId): (c': Cache)
    // The not-found page is bound from then on, to undefined when `tmps` lacks the key.
    ensures c'.templatesByPath.Keys == c.templatesByPath.Keys + {NotFoundKey}
    ensures c'.routes == c.routes && c'.sharedDataByHash == c.sharedDataByHash && c'.requests == c.requests
  {
    c.(templates := tmps,
       templatesByPath := c.templatesByPath[NotFoundKey := TemplateFor(tmps, Some(notFoundKey))],
       templateUpdates := c.templateUpdates + 1)
  }

  /** Lines 33-42: after registerTemplates no previously registered template
      survives unless `tmps` has it; the not-found page is served by
      `tmps[notFoundKey]`; every other binding, and every route table, is kept;
      registering the same templates twice leaves the same tables. */
  lemma RegisterTemplatesReplaces(c: Cache, tmps: map<TemplateId, Template>, notFoundKey: TemplateId)
    ensures var c' := RegisterTemplates(c, tmps, notFoundKey);
      && (forall id | id in c.templates && id !in tmps :: id !in c'.templates)
      && (forall id | id in tmps :: id in c'.templates && c'.templates[id] == tmps[id])
      && c'.templates == tmps
      && BoundTemplate(c', NotFoundKey) == (if notFoundKey in tmps then Some(tmps[notFoundKey]) else None)
      && (forall q | q != NotFoundKey :: BoundTemplate(c', q) == BoundTemplate(c, q))
      && c'.routes == c.routes && c'.templateErrorByPath == c.templateErrorByPath
      && c'.templateUpdates == c.templateUpdates + 1
      && RegisterTemplates(c', tmps, notFoundKey) == c'.(templateUpdates := c'.templateUpdates + 1)
  {
  }

  /** `templatesByPath[path]`, where a missing entry reads as undefined. */
  function BoundTemplate(c: Cache, path: Path): Option<Template>
  {
    if path in c.templatesByPath then c.templatesByPath[path] else None
  }

  /** The state after the lookup and the binding of lines 275-283. */
  function LookUpAndBind(env: Env, c: Cache, path: Path, priority: bool, routeNet: Path -> Fetch): (res: (Cache, Option<Path>))
    requires Sound(env)
    ensures var r := RouteInfoCache.GetRouteInfo(env, c.routes, path, priority, routeNet);
      res.0.requests == c.requests + r.issued && res.0.routes == r.tables && res.1 == r.found
    // Lines 279-283: the found route's template is bound under the path the route info names.
    ensures res.1.Some? ==>
      var info := res.0.routes.routeInfoByPath[res.1.value];
      && env.routePath(info.path) in res.0.templatesByPath
      && res.0.templatesByPath[env.routePath(info.path)] == TemplateFor(c.templates, info.template)
    ensures res.0.templates == c.templates
  {
    var r := RouteInfoCache.GetRouteInfo(env, c.routes, path, priority, routeNet);
    var c1 := c.(routes := r.tables, requests := c.requests + r.issued);
    if r.found.Some? then
      var info := c1.routes.routeInfoByPath[r.found.value];
      (BindTemplate(env, c1, info.path, info.template), r.found)
    else (c1, None)
  }

  /** Lines 285-306, after the lookup and the binding: a path with no template
      bound is marked errored; a found route whose template has a preload and is
      not loaded yet preloads it; `preloadOk` is how that `preload()` settles. */
  function Preload(c: Cache, path: Path, found: Option<Path>, priority: bool, preloadOk: bool)
    : (res: (Cache, Settled<Option<Template>>))
    requires found.Some? ==> found.value in c.routes.routeInfoByPath
    ensures c.requests <= res.0.requests && |res.0.requests| <= |c.requests| + 1
    ensures forall i | |c.requests| <= i < |res.0.requests| ::
      res.0.requests[i].PreloadRequest? && res.0.requests[i].pooled == !priority
    ensures res.1.Rejected? ==> !preloadOk
    // Only the route info table, the error markers and the request log change.
    ensures res.0 == c.(routes := c.routes.(routeInfoByPath := res.0.routes.routeInfoByPath),
                        templateErrorByPath := res.0.templateErrorByPath, requests := res.0.requests)
  {
    var bound := BoundTemplate(c, path);
    if bound.None? then
      (c.(templateErrorByPath := c.templateErrorByPath + {path}), Resolved(None))
    else if found.None? then
      (c, Resolved(None))
    else
      var key := found.value;
      var info := c.routes.routeInfoByPath[key];
      if !info.templateLoaded && bound.value.hasPreload then
        var c3 := c.(requests := c.requests + [PreloadRequest(bound.value.id, !priority)]);
        if preloadOk then
          (c3.(routes := c3.routes.(routeInfoByPath := c3.routes.routeInfoByPath[key := info.(templateLoaded := true)])),
           Resolved(bound))
        else
          (c3, Rejected)
      else
        (c, Resolved(bound))
  }

  /** prefetchTemplate(raw, { priority }). */
  function PrefetchTemplate(env: Env, c: Cache, raw: Path, priority: bool, routeNet: Path -> Fetch,
                            preloadOk: bool): (res: (Cache, Settled<Option<Template>>))
    requires Sound(env)
    ensures var rs := LookUpAndBind(env, c, env.routePath(raw), priority, routeNet).0.requests;
      && rs <= res.0.requests && |res.0.requests| <= |rs| + 1
      && forall i | |rs| <= i < |res.0.requests| :: res.0.requests[i].PreloadRequest? && res.0.requests[i].pooled == !priority
    ensures c.requests <= res.0.requests
    ensures res.0.templates == c.templates && res.0.poolStopped == c.poolStopped
    ensures res.0.sharedDataByHash == c.sharedDataByHash && res.0.inflightPropHashes == c.inflightPropHashes
    ensures res.1.Rejected? ==> !preloadOk
  {
    var path := env.routePath(raw);
    var (c2, found) := LookUpAndBind(env, c, path, priority, routeNet);
    Preload(c2, path, found, priority, preloadOk)
  }

  /** Lines 279-291: when route info is found its template is bound to the path the
      route info names; when no template is bound to the requested path the path is
      marked and nothing is returned; without route info nothing is preloaded. */
  lemma PrefetchTemplateBindsAndMarks(env: Env, c: Cache, raw: Path, priority: bool, routeNet: Path -> Fetch,
                                      preloadOk: bool)
    requires Sound(env)
    ensures var path := env.routePath(raw);
      var r := RouteInfoCache.GetRouteInfo(env, c.routes, path, priority, routeNet);
      var res := PrefetchTemplate(env, c, raw, priority, routeNet, preloadOk);
      && (r.found.Some? ==>
            var info := r.tables.routeInfoByPath[r.found.value];
            res.0.templatesByPath == c.templatesByPath[env.routePath(info.path) := TemplateFor(c.templates, info.template)])
      && (r.found.None? ==> res.0.templatesByPath == c.templatesByPath)
      && (BoundTemplate(res.0, path).None? ==> path in res.0.templateErrorByPath && res.1 == Resolved(None))
      && (r.found.None? ==> res.1 == Resolved(None) && res.0.requests == c.requests + r.issued)
      && res.0.templateErrorByPath <= c.templateErrorByPath + {path}
  {
  }

  /** The preloads issued by a run of requests. */
  function Preloads(rs: seq<Request>): nat
  {
    if rs == [] then 0 else Preloads(rs[..|rs| - 1]) + if rs[|rs| - 1].PreloadRequest? then 1 else 0
  }

  /** Lines 298-305: a template is preloaded at most once per prefetch, only when
      route info was found, a template is bound, the route info's template is not
      loaded yet and the template has a preload; a preload that succeeds marks the
      route info loaded; one that fails rejects the call. */
  lemma PreloadOnlyWhenNotLoaded(env: Env, c: Cache, raw: Path, priority: bool, routeNet: Path -> Fetch,
                                 preloadOk: bool)
    requires Sound(env)
    ensures var path := env.routePath(raw);
      var (c2, found) := LookUpAndBind(env, c, path, priority, routeNet);
      var res := PrefetchTemplate(env, c, raw, priority, routeNet, preloadOk);
      var preloads := Preloads(res.0.requests[|c2.requests|..]);
      && c2.requests <= res.0.requests
      && preloads <= 1
      && (preloads == 1 <==>
            found.Some? && BoundTemplate(c2, path).Some? && BoundTemplate(c2, path).value.hasPreload
            && !c2.routes.routeInfoByPath[found.value].templateLoaded)
      && (res.1.Rejected? <==> preloads == 1 && !preloadOk)
      && (preloads == 1 && preloadOk ==> res.0.routes.routeInfoByPath[found.value].templateLoaded)
  {
    var path := env.routePath(raw);
    var (c2, found) := LookUpAndBind(env, c, path, priority, routeNet);
    PreloadOnce(c2, path, found, priority, preloadOk);
  }

  /** `PreloadOnlyWhenNotLoaded` for the steps after the binding. */
  lemma PreloadOnce(c: Cache, path: Path, found: Option<Path>, priority: bool, preloadOk: bool)
    requires found.Some? ==> found.value in c.routes.routeInfoByPath
    ensures var res := Preload(c, path, found, priority, preloadOk);
      var preloads := Preloads(res.0.requests[|c.requests|..]);
      && preloads <= 1
      && (preloads == 1 <==>
            found.Some? && BoundTemplate(c, path).Some? && BoundTemplate(c, path).value.hasPreload
            && !c.routes.routeInfoByPath[found.value].templateLoaded)
      && (res.1.Rejected? <==> preloads == 1 && !preloadOk)
      && (preloads == 1 && preloadOk ==> res.0.routes.routeInfoByPath[found.value].templateLoaded)
  {
    var res := Preload(c, path, found, priority, preloadOk);
    var bound := BoundTemplate(c, path);
    if bound.Some? && found.Some? && !c.routes.routeInfoByPath[found.value].templateLoaded && bound.value.hasPreload {
      assert res.0.requests[|c.requests|..] == [PreloadRequest(bound.value.id, !priority)];
      assert Preloads([PreloadRequest(bound.value.id, !priority)]) == 1;
    } else {
      assert res.0.requests[|c.requests|..] == [];
    }
  }

  /** Lines 285-306: a prefetch that resolves leaves the binding, the registry
      and the route tables as the lookup left them, except that the found route
      info's template may now be marked loaded, and is when it had a preload. */
  lemma ResolvedPrefetchAfterBinding(env: Env, c: Cache, raw: Path, priority: bool, routeNet: Path -> Fetch,
                                     preloadOk: bool)
    requires Sound(env)
    requires PrefetchTemplate(env, c, raw, priority, routeNet, preloadOk).1.Resolved?
    ensures var path := env.routePath(raw);
      var (c2, found) := LookUpAndBind(env, c, path, priority, routeNet);
      var c' := PrefetchTemplate(env, c, raw, priority, routeNet, preloadOk).0;
      && c'.templatesByPath == c2.templatesByPath && c'.templates == c2.templates
      && c'.routes.routeErrorByPath == c2.routes.routeErrorByPath
      && c'.routes.routeInfoByPath.Keys == c2.routes.routeInfoByPath.Keys
      && (found.Some? ==>
            var info := c2.routes.routeInfoByPath[found.value];
            var info' := c'.routes.routeInfoByPath[found.value];
            && info' == info.(templateLoaded := info'.templateLoaded)
            && (BoundTemplate(c2, path).Some? && BoundTemplate(c2, path).value.hasPreload ==> info'.templateLoaded))
      && (forall q | q in c2.routes.routeInfoByPath && (found.None? || q != found.value) ::
            c'.routes.routeInfoByPath[q] == c2.routes.routeInfoByPath[q])
  {
    var path := env.routePath(raw);
    var (c2, found) := LookUpAndBind(env, c, path, priority, routeNet);
    ResolvedPreload(c2, path, found, priority, preloadOk);
  }

  /** `ResolvedPrefetchAfterBinding` for the steps after the binding. */
  lemma ResolvedPreload(c: Cache, path: Path, found: Option<Path>, priority: bool, preloadOk: bool)
    requires found.Some? ==> found.value in c.routes.routeInfoByPath
    requires Preload(c, path, found, priority, preloadOk).1.Resolved?
    ensures var c' := Preload(c, path, found, priority, preloadOk).0;
      && c'.routes.routeInfoByPath.Keys == c.routes.routeInfoByPath.Keys
      && (found.Some? ==>
            var info := c.routes.routeInfoByPath[found.value];
            var info' := c'.routes.routeInfoByPath[found.value];
            && info' == info.(templateLoaded := info'.templateLoaded)
            && (BoundTemplate(c, path).Some? && BoundTemplate(c, path).value.hasPreload ==> info'.templateLoaded))
      && (forall q | q in c.routes.routeInfoByPath && (found.None? || q != found.value) ::
            c'.routes.routeInfoByPath[q] == c.routes.routeInfoByPath[q])
  {
  }

  /** After a prefetch of a path, the path's own lookup is settled: looking it up
      again issues nothing and finds the route the prefetch found, or nothing. */
  lemma RelookupFindsTheSameRoute(env: Env, c: Cache, raw: Path, priority: bool, routeNet: Path -> Fetch,
                                  preloadOk: bool, priority': bool, routeNet': Path -> Fetch)
    requires Sound(env)
    requires PrefetchTemplate(env, c, raw, priority, routeNet, preloadOk).1.Resolved?
    ensures var path := env.routePath(raw);
      var c' := PrefetchTemplate(env, c, raw, priority, routeNet, preloadOk).0;
      var r2 := RouteInfoCache.GetRouteInfo(env, c'.routes, path, priority', routeNet');
      && r2.tables == c'.routes && r2.issued == []
      && (r2.found.Some? ==> r2.found == LookUpAndBind(env, c, path, priority, routeNet).1)
  {
    var path := env.routePath(raw);
    var c' := PrefetchTemplate(env, c, raw, priority, routeNet, preloadOk).0;
    ResolvedPrefetchAfterBinding(env, c, raw, priority, routeNet, preloadOk);
    RouteInfoCache.SettledLookupIsRead(env, c.routes, path, priority, routeNet, c'.routes, priority', routeNet');
  }

  /** Looking up a settled path whose route's template is already bound leaves
      the cache as it was: the lookup is a read and the binding rewrites an entry
      with the value it holds. */
  lemma RebindIsNoOp(env: Env, c: Cache, path: Path, priority: bool, routeNet: Path -> Fetch)
    requires Sound(env)
    requires var r := RouteInfoCache.GetRouteInfo(env, c.routes, path, priority, routeNet);
      && r.tables == c.routes && r.issued == []
      && (r.found.Some? ==>
            var info := c.routes.routeInfoByPath[r.found.value];
            && env.routePath(info.path) in c.templatesByPath
            && c.templatesByPath[env.routePath(info.path)] == TemplateFor(c.templates, info.template))
    ensures LookUpAndBind(env, c, path, priority, routeNet).0 == c
  {
    var r := RouteInfoCache.GetRouteInfo(env, c.routes, path, priority, routeNet);
    assert c.(routes := r.tables, requests := c.requests + r.issued) == c;
  }

  /** Lines 298-304: once a prefetch of a path has resolved, prefetching the same
      path again issues no request at all, so in particular the template's preload
      runs at most once for the route. */
  lemma SecondPrefetchIssuesNothing(env: Env, c: Cache, raw: Path, priority: bool,
                                    routeNet: Path -> Fetch, preloadOk: bool,
                                    priority': bool, routeNet': Path -> Fetch, preloadOk': bool)
    requires Sound(env)
    requires PrefetchTemplate(env, c, raw, priority, routeNet, preloadOk).1.Resolved?
    ensures var c' := PrefetchTemplate(env, c, raw, priority, routeNet, preloadOk).0;
      PrefetchTemplate(env, c', raw, priority', routeNet', preloadOk').0.requests == c'.requests
  {
    var path := env.routePath(raw);
    var (c2, found) := LookUpAndBind(env, c, path, priority, routeNet);
    var c' := PrefetchTemplate(env, c, raw, priority, routeNet, preloadOk).0;
    ResolvedPrefetchAfterBinding(env, c, raw, priority, routeNet, preloadOk);
    RelookupFindsTheSameRoute(env, c, raw, priority, routeNet, preloadOk, priority', routeNet');
    var r2 := RouteInfoCache.GetRouteInfo(env, c'.routes, path, priority', routeNet');
    if r2.found.Some? {
      assert c'.routes.routeInfoByPath[found.value].path == c2.routes.routeInfoByPath[found.value].path;
    }
    RebindIsNoOp(env, c', path, priority', routeNet');
  }

  /** prefetchTemplate keeps the cache consistent. */
  lemma PrefetchTemplateKeepsConsistent(env: Env, c: Cache, raw: Path, priority: bool, routeNet: Path -> Fetch,
                                        preloadOk: bool)
    requires Sound(env) && Consistent(c)
    ensures Consistent(PrefetchTemplate(env, c, raw, priority, routeNet, preloadOk).0)
  {
    var path := env.routePath(raw);
    RouteInfoCache.GetRouteInfoKeepsConsistent(env, c.routes, path, priority, routeNet);
    var (c2, found) := LookUpAndBind(env, c, path, priority, routeNet);
    assert Consistent(c2);
    PreloadKeepsConsistent(c2, path, found, priority, preloadOk);
  }

  lemma PreloadKeepsConsistent(c: Cache, path: Path, found: Option<Path>, priority: bool, preloadOk: bool)
    requires found.Some? ==> found.value in c.routes.routeInfoByPath
    requires Consistent(c)
    ensures Consistent(Preload(c, path, found, priority, preloadOk).0)
  {
  }
}
