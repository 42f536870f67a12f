# react-static browser route-data cache, modelled in Dafny

This project models the client-side cache engine of react-static,
`packages/react-static/src/browser/index.js`. The browser calls it to learn
which routes exist, which shared data a route needs and which template renders
it. The state is the module's eight tables:

- `routeInfoByPath`, `routeErrorByPath` and `inflightRouteInfo`, for route-info lookups;
- `sharedDataByHash` and `inflightPropHashes`, for the content-addressed shared-data files;
- `templates`, `templatesByPath` and `templateErrorByPath`, for the template registry and its bindings.

The model also holds the request pool's stopped/started gate, a log of every
request issued (route info, shared data, template preload, and whether it went
through the pool), and counters for the two global callbacks (`global.reloadAll`
and `templateUpdated.cb`).

The project has two layers:

- Pure specification functions over a `Cache` value:
  - `RouteInfoCache` for `getRouteInfo`;
  - `SharedData` for `prefetchData`;
  - `TemplatePrefetch` for `prefetchTemplate`, `registerTemplates` and `registerTemplateForPath`;
  - `Orchestrator` for `prefetch`.

  Lemmas about these functions state what the source promises.
- The class `CacheManager.RouteDataCache`. It holds the same tables as mutable
  fields and implements every operation imperatively: guards, in-place map
  updates, and the key-by-key loops of `reloadRouteData`, `registerTemplates`
  and the per-prop tasks of `prefetchData`. Each method is proved to leave
  exactly the state its specification function describes. The public ones
  (`GetRouteInfo`, `PrefetchData`, `PrefetchTemplate`, `Prefetch`,
  `RegisterTemplateForPath`, `RegisterTemplates`, `ReloadRouteData`) also
  require and keep the object's invariant `Valid()`: every pending route-info
  request belongs to a settled path, every cached route has a `path`, and no
  hash request is pending between operations.

The network is a parameter:

- a route-info fetch is a caller-supplied function from path to `NetworkError`
  or `Response(payload)`; a payload is a non-object, `null`, or a record;
- shared-data fetches are a `DataNet`: the pooled request of a hash, shared by
  every non-priority task of that hash, settles by hash; the direct request of
  a priority task settles by the prop that issued it, so two priority props of
  one hash can see different outcomes. Each is `Some(data)` or `None` (failed);
- a template's `preload()` is a boolean saying whether it resolves.

`getRoutePath` and `isPrefetchableRoute` are uninterpreted functions of the
environment `Env`, together with the development/published mode flag. The only
assumption about them is that `getRoutePath('404') == '404'`. It makes the key
that the 404 fallback tests (line 184) the key its nested lookup caches and
errors under, so the fallback nests at most once (`FailedFetchFallsBackOnce`).

An asynchronous operation is modelled as the sequence of its synchronous steps.
For `prefetchData`, every per-prop task first runs up to its first `await`, in
`Object.keys` order, and then every task settles in the same order. This is the
order in which `Promise.all` over already-settled fetches runs them. Two props
with the same uncached hash therefore share one pooled request, as in the
source, while with priority each issues its own request.

## Model

| member | source | states |
|---|---|---|
| RouteInfoCache.Issue | packages/react-static/src/browser/index.js:141-178 | at most one request, for the path itself, and none exactly when the call shares an existing inflight entry; a sharing call records the awaited outcome under the path, a direct one leaves every table alone |
| RouteInfoCache.IssueDeduplicates | packages/react-static/src/browser/index.js:141-178 | two sharing begins for one path issue one request between them (none when an entry already existed) and await the same outcome, leaving the tables as the first left them; a direct begin always issues its own request and awaits its own outcome |
| RouteInfoCache.ValidatePayloadAsWritten | packages/react-static/src/browser/index.js:193 | the check as written throws exactly on a `null` body and otherwise agrees with the intended check |
| RouteInfoCache.NullPayloadThrows | packages/react-static/src/browser/index.js:193 | a `null` body throws as written, while the corrected check marks the path errored |
| RouteInfoCache.GetRouteInfo | packages/react-static/src/browser/index.js:121-201 | the three early exits issue nothing and change nothing; what is returned is cached and is the path's own route or the 404 page; a prefetchable path is cached or errored afterwards; at most two requests, pooled only for published non-priority calls; cached routes and error markers are never dropped; a published-mode priority call leaves the inflight table alone |
| RouteInfoCache.LookupTouchesOnlyItsKeys | packages/react-static/src/browser/index.js:141-200 | a lookup changes the route cache and the inflight table only at the normalised path and at '404', and marks only those two paths |
| RouteInfoCache.LookupKeepsOtherRoutes | packages/react-static/src/browser/index.js:179-200 | the route cache agrees with the old one outside the path and '404', through the fallback recursion |
| RouteInfoCache.LookupKeepsOtherInflight | packages/react-static/src/browser/index.js:144-191 | the inflight table agrees with the old one outside the path and '404' |
| RouteInfoCache.LookupMarksOnlyItsKeys | packages/react-static/src/browser/index.js:179-200 | the only new error markers are the path and '404' |
| RouteInfoCache.FailedFetchFallsBackOnce | packages/react-static/src/browser/index.js:179-188 | a failed fetch marks the path errored; the answer is nothing or the 404 page, fetched only when '404' was neither cached nor errored (else exactly one request and nothing returned); afterwards '404' is settled, so the recursion is one level deep |
| RouteInfoCache.ResponseIsValidatedAndCached | packages/react-static/src/browser/index.js:190-200 | one request; a valid payload is stored under the normalised path and its key returned, an invalid one marks the path errored and is not stored |
| RouteInfoCache.InflightEntryLifecycle | packages/react-static/src/browser/index.js:144-192 | an entry is created only when none exists; a non-priority response removes it again; a failure leaves it, holding the failure; a development-mode priority call leaves its entry |
| RouteInfoCache.SettledLookupIsRead | packages/react-static/src/browser/index.js:125-137 | on tables that cache and mark the same paths, a second lookup issues nothing, changes nothing and finds the same route or nothing, whatever its priority and network |
| RouteInfoCache.GetRouteInfoKeepsConsistent | packages/react-static/src/browser/index.js:141-200 | every lookup keeps each inflight entry on a cached or errored path and each cached route with a path |
| SharedData.DataRequests | packages/react-static/src/browser/index.js:226-250 | every request of the tasks is a shared-data request for a missing hash, pooled exactly when the call is not priority |
| SharedData.Hydrate | packages/react-static/src/browser/index.js:218-270 | `sharedData` gets exactly the props of `sharedHashesByProp`, cached data is kept, and each prop's task issues at most one request |
| SharedData.HydrateRoute | packages/react-static/src/browser/index.js:212-270 | an already hydrated route is left alone; otherwise only that route's `sharedData` becomes present, other routes and cached hashes are kept, and only the route table, the two hash tables and the request log change |
| SharedData.PrefetchData | packages/react-static/src/browser/index.js:203-271 | without route info only the lookup's effects remain; with it the found route is hydrated; the template tables and the pool gate are untouched and the request log only grows |
| SharedData.MissingInSnoc | packages/react-static/src/browser/index.js:227 | one more prop adds its hash to the missing set exactly when it is not cached |
| SharedData.NonPriorityRequestsOncePerHash | packages/react-static/src/browser/index.js:240-250 | without priority, requests are pooled, name distinct hashes, and name exactly the missing hashes that were not already pending |
| SharedData.NonPriorityRequestCount | packages/react-static/src/browser/index.js:240-250 | without priority, the number of requests is the number of missing, not pending hashes |
| SharedData.RequestsAtMostOnePerProp | packages/react-static/src/browser/index.js:223-250 | the tasks issue no more requests than there are props |
| SharedData.PriorityRequestsOncePerProp | packages/react-static/src/browser/index.js:231-239 | with priority, every prop whose hash is not cached issues its own direct request, even when hashes repeat |
| SharedData.SettledTasks | packages/react-static/src/browser/index.js:251-268 | settling the tasks in key order gives every prop a value; cached hashes keep their data and their props reuse it; only missing hashes are added to the cache; a prop whose own awaited fetch succeeded holds that data; a prop left undefined had a missing hash whose awaited fetch failed |
| SharedData.HydrationCoversEveryProp | packages/react-static/src/browser/index.js:218-270 | the same for the whole hydration: `sharedData` has exactly the keys of `sharedHashesByProp`, with the facts above for each prop and hash, for any priority and any outcomes |
| SharedData.PooledHydration | packages/react-static/src/browser/index.js:240-264 | without priority, the hash cache ends as the cached data plus, for each missing hash, what its one shared request returned when it succeeded; no inflight entry is left for a fetched hash |
| SharedData.PooledPropsShowTheCache | packages/react-static/src/browser/index.js:251-268 | without priority, each prop holds what the cache ends up holding for its hash, so props of one hash agree |
| SharedData.PriorityPropsSettleSeparately | packages/react-static/src/browser/index.js:231-268 | with priority, two props of one uncached hash issue two requests; when the first fails and the second succeeds, the first prop is left undefined while the cache holds the second's data |
| SharedData.HydrationIsNotRetried | packages/react-static/src/browser/index.js:214-216 | hydrating a route a second time, with any priority and network, changes nothing |
| SharedData.HydrateRouteKeepsConsistent | packages/react-static/src/browser/index.js:218-270 | hydration leaves no hash request pending |
| SharedData.PrefetchDataKeepsConsistent | packages/react-static/src/browser/index.js:203-271 | prefetchData keeps the cache consistent |
| TemplatePrefetch.BindTemplate | packages/react-static/src/browser/index.js:43-46 | the normalised path gets a binding, even to no template, and the registry, the route tables and the template error markers are kept |
| TemplatePrefetch.RegisterTemplates | packages/react-static/src/browser/index.js:33-42 | '404' is bound from then on, and the route and hash tables and the request log are kept |
| TemplatePrefetch.BindChangesOneEntry | packages/react-static/src/browser/index.js:43-46 | registerTemplateForPath binds the normalised path to `templates[id]` and changes no other binding and no other table |
| TemplatePrefetch.RegisterTemplatesReplaces | packages/react-static/src/browser/index.js:33-42 | afterwards `templates` holds exactly the entries of `tmps`, '404' is bound to `tmps[notFoundKey]`, other bindings and the route tables are kept, the callback runs once, and a repeat changes only the callback count |
| TemplatePrefetch.LookUpAndBind | packages/react-static/src/browser/index.js:273-283 | the lookup's tables and requests, and for a found route its template bound under the path its route info names |
| TemplatePrefetch.Preload | packages/react-static/src/browser/index.js:285-306 | at most one request, a preload pooled exactly when not priority; only a failing preload rejects (with line 193 corrected, see Findings); only the route table, the template error markers and the request log change |
| TemplatePrefetch.PrefetchTemplate | packages/react-static/src/browser/index.js:273-307 | after the lookup's requests at most one preload; the registry, the pool gate and the hash tables are untouched; only a failing preload rejects (with line 193 corrected) |
| TemplatePrefetch.PrefetchTemplateBindsAndMarks | packages/react-static/src/browser/index.js:279-291 | a found route's template is bound under its route info's path, and no binding changes without one; a path with no template bound is marked errored and resolves to nothing; without route info nothing is preloaded; only the requested path can be marked |
| TemplatePrefetch.PreloadOnlyWhenNotLoaded | packages/react-static/src/browser/index.js:293-305 | at most one preload, issued exactly when route info was found, a template with a preload is bound and the template is not loaded yet; the call rejects exactly when that preload fails; a successful preload marks the route loaded |
| TemplatePrefetch.PreloadOnce | packages/react-static/src/browser/index.js:285-306 | the same, for the steps after the binding |
| TemplatePrefetch.ResolvedPrefetchAfterBinding | packages/react-static/src/browser/index.js:285-306 | a resolved prefetch keeps the lookup's bindings, registry and markers; it can change only the found route's `templateLoaded`, and sets it when the template has a preload |
| TemplatePrefetch.ResolvedPreload | packages/react-static/src/browser/index.js:285-306 | the same, for the steps after the binding |
| TemplatePrefetch.RelookupFindsTheSameRoute | packages/react-static/src/browser/index.js:273-283 | after a resolved prefetch, looking the path up again issues nothing, changes nothing and finds the same route or nothing |
| TemplatePrefetch.RebindIsNoOp | packages/react-static/src/browser/index.js:275-283 | a lookup that only reads, followed by a binding to the value already bound, leaves the cache as it was |
| TemplatePrefetch.SecondPrefetchIssuesNothing | packages/react-static/src/browser/index.js:293-305 | once a prefetch of a path resolved, a second one issues no request, so the preload runs at most once per route |
| TemplatePrefetch.PrefetchTemplateKeepsConsistent | packages/react-static/src/browser/index.js:273-307 | prefetchTemplate keeps the cache consistent |
| TemplatePrefetch.PreloadKeepsConsistent | packages/react-static/src/browser/index.js:285-306 | so do the steps after the binding |
| Orchestrator.Dispatch | packages/react-static/src/browser/index.js:320-329 | the pool gate and the registry are untouched, the request log only grows, and only a template prefetch whose preload fails rejects (with line 193 corrected) |
| Orchestrator.PrefetchAsWritten | packages/react-static/src/browser/index.js:309-335 | as written at lines 316-334, a priority call whose work rejects leaves the pool stopped; its lookups use the corrected line 193 |
| Orchestrator.Prefetch | packages/react-static/src/browser/index.js:309-335 | a priority call leaves the pool started however its work settles; any other call leaves the gate alone |
| Orchestrator.AsWrittenDiffersOnlyInTheGate | packages/react-static/src/browser/index.js:316-334 | the as-written and corrected versions give the same outcome and state except for the gate, which differs exactly on a priority call that rejects |
| Orchestrator.PoolLeftStoppedAsWritten | packages/react-static/src/browser/index.js:316-334 | a concrete priority template prefetch whose preload fails leaves the pool stopped as written and started when corrected |
| Orchestrator.LookupRequestsRouted | packages/react-static/src/browser/index.js:141-178 | a lookup's requests bypass the pool for priority calls and in development mode, and go through it otherwise |
| Orchestrator.PrefetchDataRequests | packages/react-static/src/browser/index.js:203-270 | prefetchData issues the lookup's requests, then only shared-data requests pooled exactly when not priority |
| Orchestrator.HydrationRequests | packages/react-static/src/browser/index.js:218-270 | hydration appends only shared-data requests pooled exactly when not priority |
| Orchestrator.PrefetchDataRoutesRequests | packages/react-static/src/browser/index.js:231-250 | every request of prefetchData is routed as the source routes it |
| Orchestrator.PrefetchTemplateRequests | packages/react-static/src/browser/index.js:273-306 | prefetchTemplate issues the lookup's requests, then at most one preload, pooled exactly when not priority |
| Orchestrator.PrefetchTemplateRoutesRequests | packages/react-static/src/browser/index.js:298-303 | every request of prefetchTemplate is routed as the source routes it |
| Orchestrator.PrefetchRoutesRequests | packages/react-static/src/browser/index.js:309-335 | a priority prefetch issues every request outside the pool it stopped; any other queues them in the pool (route info only in published mode) |
| Orchestrator.PrefetchKeepsConsistent | packages/react-static/src/browser/index.js:309-335 | every prefetch keeps the cache consistent |
| CacheManager.Reloaded | packages/react-static/src/browser/index.js:104-119 | a reload leaves the cache consistent, whatever was pending, and keeps the template registry and bindings |
| CacheManager.ReloadForgetsEveryRoute | packages/react-static/src/browser/index.js:104-119 | after a reload the five route-data tables are empty, the template tables and request log are kept, the callback ran once, and every prefetchable path is fetched again on its next lookup |
| CacheManager.DeleteEveryKey | packages/react-static/src/browser/index.js:113-115 | deleting every key of a table one at a time leaves it empty |
| CacheManager.DeleteEveryMember | packages/react-static/src/browser/index.js:113-115 | the same for the error-marker table |
| CacheManager.RouteDataCache.constructor | packages/react-static/src/browser/index.js:12-31 | the tables start empty and the pool running; the invariant holds |
| CacheManager.RouteDataCache.GetRouteInfo | packages/react-static/src/browser/index.js:121-201 | the three guards, then the fetch, leave exactly the route tables, requests and result of `RouteInfoCache.GetRouteInfo`; the invariant is kept |
| CacheManager.RouteDataCache.FetchRouteInfo | packages/react-static/src/browser/index.js:141-200 | the request, then the failure fallback or the response's validation, as in `RouteInfoCache.GetRouteInfo`; the invariant is kept |
| CacheManager.RouteDataCache.FallBack | packages/react-static/src/browser/index.js:179-188 | after a failed request the path is marked errored and '404' looked up unless it is cached or errored, leaving the tables, requests and result of `RouteInfoCache.GetRouteInfo`; the invariant holds for the nested lookup and afterwards |
| CacheManager.RouteDataCache.IssueRequest | packages/react-static/src/browser/index.js:141-178 | the inflight table, requests and awaited outcome of `RouteInfoCache.Issue` |
| CacheManager.RouteDataCache.StoreResponse | packages/react-static/src/browser/index.js:190-200 | a non-priority call deletes the inflight entry; a valid payload is stored and its key returned, an invalid one marks the path |
| CacheManager.RouteDataCache.HydrateSharedData | packages/react-static/src/browser/index.js:212-270 | the state `SharedData.HydrateRoute` describes |
| CacheManager.RouteDataCache.HydrateProps | packages/react-static/src/browser/index.js:218-270 | the route's `sharedData`, the two hash tables and the request log become those of `SharedData.Hydrate` |
| CacheManager.RouteDataCache.BeginTasks | packages/react-static/src/browser/index.js:223-250 | starting every task issues `SharedData.DataRequests`, leaves the pending table `Begun` and records what each uncached prop awaits: its own direct request with priority, else its hash's shared one (`AwaitsFor`) |
| CacheManager.RouteDataCache.BeginTask | packages/react-static/src/browser/index.js:224-250 | one more task started |
| CacheManager.RouteDataCache.BeginHash | packages/react-static/src/browser/index.js:227-250 | one prop's request, pending entry and awaited outcome |
| CacheManager.RouteDataCache.SettleTasks | packages/react-static/src/browser/index.js:251-268 | settling every task in key order leaves the cache and `sharedData` of `SharedData.Settle` and removes the non-priority pending entries |
| CacheManager.RouteDataCache.SettleTask | packages/react-static/src/browser/index.js:251-268 | one more task settled |
| CacheManager.RouteDataCache.SettleHash | packages/react-static/src/browser/index.js:252-268 | one hash's fetch cached and pending entry removed; returns the prop's value |
| CacheManager.RouteDataCache.PrefetchData | packages/react-static/src/browser/index.js:203-271 | the state `SharedData.PrefetchData` describes; the invariant is kept |
| CacheManager.RouteDataCache.PrefetchTemplate | packages/react-static/src/browser/index.js:273-307 | the state and result `TemplatePrefetch.PrefetchTemplate` describes; the invariant is kept |
| CacheManager.RouteDataCache.LookUpAndBind | packages/react-static/src/browser/index.js:275-283 | the state and found key of `TemplatePrefetch.LookUpAndBind` |
| CacheManager.RouteDataCache.Preload | packages/react-static/src/browser/index.js:285-306 | the state and result of `TemplatePrefetch.Preload` |
| CacheManager.RouteDataCache.Prefetch | packages/react-static/src/browser/index.js:309-335 | the state and outcome of the corrected `Orchestrator.Prefetch`; the invariant is kept |
| CacheManager.RouteDataCache.RegisterTemplateForPath | packages/react-static/src/browser/index.js:43-46 | the state `TemplatePrefetch.BindTemplate` describes; the invariant is kept |
| CacheManager.RouteDataCache.RegisterTemplates | packages/react-static/src/browser/index.js:33-42 | the state `TemplatePrefetch.RegisterTemplates` describes; the invariant is kept |
| CacheManager.RouteDataCache.ReplaceRegistry | packages/react-static/src/browser/index.js:34-39 | emptying the registry key by key and refilling it from `tmps` leaves exactly `tmps` |
| CacheManager.RouteDataCache.ReloadRouteData | packages/react-static/src/browser/index.js:104-119 | the state `CacheManager.Reloaded` describes; the invariant is kept |

## Left out

- The development-mode socket.io hot-reload channel and its `getMessagePort` request (lines 52-83): network I/O and an event listener. Its effect, `reloadRouteData`, is modelled.
- `startPreloader` (lines 85-102): DOM scanning, `onVisible` and interval timers.
- `getCurrentRoutePath` (lines 337-342): it reads `window.location`.
- The axios calls and the URLs built from environment variables (lines 142-164, 232-249). Fetches are caller-supplied outcomes; a request is logged by path or hash only.
- `createPool`, `getRoutePath`, `pathJoin` and `isPrefetchableRoute` from `./utils` are not part of this model. The two path functions are uninterpreted, and the pool is only a stopped/started flag plus the `pooled` mark on each request. Concurrency limits and queue order are not modelled.
- Interleavings of concurrent calls. Each operation runs to completion before the next starts, so two overlapping `getRouteInfo` calls sharing one inflight entry are not modelled. Nor is a reload that runs while a fetch is pending.
- Logging through `console.log` and `console.error`.
- `plugins` and `registerPlugins` (lines 22-26): they are unrelated to the cache.
- Values are identified by the key they are stored under. `getRouteInfo` returns the key of the route info it returns, and in-place updates of `routeInfo.sharedData` and `routeInfo.templateLoaded` are updates of that map entry. Aliasing between two keys that hold the same object is not modelled.
- `routeErrorByPath` and `templateErrorByPath` are sets: an entry is always `true` in the source.
- SharedData.Hydrate: a shared-data file whose decoded value is falsy (`0`, `""`, `null`) is cached and counts as present. The source's `!sharedDataByHash[hash]` would treat it as missing and fetch it again.
- RouteInfoCache.ValidatePayload: a record's `path` is a string, so "truthy" means non-empty. A non-string `path` is not modelled.
- A `template` id of `undefined` used as the key `"undefined"` is modelled as no id.
- Orchestrator.Dispatch: with both kinds, `Promise.all` (lines 325-328) starts `prefetchData` and `prefetchTemplate` together, and the model runs the data prefetch to completion first. So it misses what the source does when both lookups miss the cache at once. In published mode a priority prefetch of an uncached path then issues two route-info requests, since a priority lookup shares no inflight entry (`RouteInfoCache.IssueDeduplicates`). The later response replaces `routeInfoByPath[path]` (line 198) and loses the other object's `sharedData` (lines 219, 268) or `templateLoaded` (line 304).
- Orchestrator.PrefetchAsWritten: it is as written for the pool gate only and uses the corrected check of line 193. As written, a `null` route-info body throws after the inflight delete at line 191, so the path stays neither cached nor errored and is refetched on every lookup. Every kind of prefetch then rejects, and with priority the pool stays stopped even for `type: 'data'`.
- SharedData.SettledTasks: tasks settle in key order. With priority, two props of one hash can fail and succeed in either order, and the final `sharedData` depends on that order; other orders are not modelled.
- A `getRoutePath` that does not map '404' to itself is not modelled. The fallback would then still end, one level deeper, once the normalised '404' is errored (lines 135-137).
- The tables are plain objects, so a path such as `constructor` or `toString` finds an inherited function in `routeInfoByPath` before any fetch (lines 130-132), and `prefetchData` then throws at `Object.keys(undefined)` (line 223). The model's tables have no inherited keys, so such a path is looked up like any other.
- A route-info record with a `path` but without `sharedHashesByProp` passes line 193, and `prefetchData` then sets `sharedData = {}` (line 219) and throws at line 223. `RouteInfo` always carries a props table, so such a record is not expressible.

Where the code and the design notes differ, the model follows the code:

- In development mode a priority `getRouteInfo` shares and creates inflight entries (line 144), and only non-priority calls delete them (line 190). The entry of a development-mode priority call is therefore never removed.
- On a failed fetch, `getRouteInfo` returns (lines 179-188) before the deletion at line 191. The inflight entry stays in place, holding the failure. The path is marked errored, so it is never awaited again.

## Findings

| source | as written | input that shows it | evidently intended | confidence | as-written member | corrected member |
|---|---|---|---|---|---|---|
| packages/react-static/src/browser/index.js:193 | `typeof routeInfo !== 'object' \|\| !routeInfo.path` lets `null` through the first test, because `typeof null` is `'object'`; then `null.path` throws a TypeError outside the try block | a route-info response whose JSON body is `null` | a body that is not a route info marks the path errored and the call resolves to nothing | not executed | RouteInfoCache.NullPayloadThrows | RouteInfoCache.ResponseIsValidatedAndCached |
| packages/react-static/src/browser/index.js:316-334 | `requestPool.start()` runs only after the awaited prefetch resolved; when it rejects, the pool stays stopped | a priority `prefetch` of type `template` for a route whose template's `preload()` rejects | a priority prefetch restarts the pool however its work settles | not executed | Orchestrator.PoolLeftStoppedAsWritten | Orchestrator.Prefetch |
