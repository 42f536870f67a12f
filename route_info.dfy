/** getRouteInfo (index.js lines 121-201): the route-info cache, its error
    markers, the inflight table keyed by path and the single 404 fallback. */
module RouteInfoCache {
  import opened Types

  datatype Validation = Valid(info: RouteInfo) | Invalid

  /** A settled response is kept only if it is an object with a truthy `path`;
      anything else marks the path errored. */
  function ValidatePayload(payload: Payload): (v: Validation)
    ensures v.Valid? <==> payload.Record? && payload.info.path != ""
    ensures v.Valid? ==> v.info == payload.info
  {
    match payload
    case Record(info) => if info.path == "" then Invalid else Valid(info)
    case _ => Invalid
  }

  datatype CheckedAsWritten = Accepted(info: RouteInfo) | Refused | ThrowsTypeError

  /** The check of line 193 as written: `typeof null` is "object", so a JSON
      `null` body passes the first test and `null.path` throws a TypeError
      outside the try block, rejecting getRouteInfo instead of marking the path. */
  function ValidatePayloadAsWritten(payload: Payload): (v: CheckedAsWritten)
    ensures v.ThrowsTypeError? <==> payload.Null?
    ensures !payload.Null? ==> (v.Accepted? <==> ValidatePayload(payload).Valid?)
  {
    match payload
    case NonObject => Refused
    case Null => ThrowsTypeError
    case Record(info) => if info.path == "" then Refused else Accepted(info)
  }

  /** The input that shows the difference: a route-info response whose body is `null`. */
  lemma NullPayloadThrows()
    ensures ValidatePayloadAsWritten(Null) == ThrowsTypeError
    ensures ValidatePayload(Null) == Invalid
  {
  }

  /** What a lookup leaves behind: the route tables, the requests it issued in
      order, and the key of the route info it returns (the object the source
      returns is `routeInfoByPath[key]`). */
  datatype Lookup = Lookup(tables: RouteTables, issued: seq<Request>, found: Option<Path>)

  /** Lines 141-178: the request issued for a path that missed the cache, and the
      outcome the caller awaits. Deduplicated calls await an existing inflight
      entry, or create one; published-mode priority calls fetch directly. */
  function Issue(env: Env, t: RouteTables, p: Path, priority: bool, net: Path -> Fetch): (res: (RouteTables, seq<Request>, Fetch))
    // At most one request, and none exactly when an inflight request is shared.
    ensures |res.1| <= 1
    ensures res.1 == [] <==> Deduplicated(env, priority) && p in t.inflightRouteInfo
    ensures res.1 != [] ==> res.1[0].RouteInfoRequest? && res.1[0].path == p && res.2 == net(p)
    // A shared call leaves the awaited request in the table; nothing but that table changes.
    ensures Deduplicated(env, priority) ==>
      p in res.0.inflightRouteInfo && res.0.inflightRouteInfo[p] == res.2
      && res.0.inflightRouteInfo == t.inflightRouteInfo[p := res.2]
    ensures !Deduplicated(env, priority) ==> res.0 == t
    ensures res.0 == t.(inflightRouteInfo := res.0.inflightRouteInfo)
  {
    if Deduplicated(env, priority) then
      if p in t.inflightRouteInfo then (t, [], t.inflightRouteInfo[p])
      else
        (t.(inflightRouteInfo := t.inflightRouteInfo[p := net(p)]),
         [RouteInfoRequest(p, !env.development)], net(p))
    else
      (t, [RouteInfoRequest(p, false)], net(p))
  }

  /** Lines 144-149 and 172-176: while a request for a path is pending, a second
      deduplicated call for it issues nothing and awaits the same outcome, so
      both see one response; only a published-mode priority call fetches again. */
  lemma IssueDeduplicates(env: Env, t: RouteTables, p: Path, priority: bool, priority': bool,
                          net: Path -> Fetch, net': Path -> Fetch)
    ensures var (t1, issued1, outcome1) := Issue(env, t, p, priority, net);
      var (t2, issued2, outcome2) := Issue(env, t1, p, priority', net');
      && (Deduplicated(env, priority) && Deduplicated(env, priority') ==>
            issued2 == [] && outcome2 == outcome1 && t2 == t1
            && |issued1 + issued2| == (if p in t.inflightRouteInfo then 0 else 1))
      && (!Deduplicated(env, priority') ==> issued2 == [RouteInfoRequest(p, false)] && outcome2 == net'(p))
  {
  }

  /** getRouteInfo(raw, { priority }). */
  function GetRouteInfo(env: Env, t: RouteTables, raw: Path, priority: bool, net: Path -> Fetch): (r: Lookup)
    requires Sound(env)
    decreases if env.routePath(raw) == NotFoundKey then 0 else 1
    // The three early exits issue no request and change nothing.
    ensures var p := env.routePath(raw);
      && (!env.prefetchable(p) ==> r == Lookup(t, [], None))
      && (env.prefetchable(p) && p in t.routeInfoByPath ==> r == Lookup(t, [], Some(p)))
      && (env.prefetchable(p) && p !in t.routeInfoByPath && p in t.routeErrorByPath ==> r == Lookup(t, [], None))
    // What is returned is a cached route: the path's own or the not-found page.
    ensures r.found.Some? ==> r.found.value in r.tables.routeInfoByPath
    ensures r.found.Some? ==> r.found.value == env.routePath(raw) || r.found.value == NotFoundKey
    ensures forall q | q in r.tables.routeInfoByPath && q !in t.routeInfoByPath :: r.found == Some(q)
    // A prefetchable path is settled afterwards: cached or errored, never fetched again.
    ensures var p := env.routePath(raw);
      env.prefetchable(p) ==> p in r.tables.routeInfoByPath || p in r.tables.routeErrorByPath
    // At most two requests, the path's own and one 404 fallback, pooled only when not priority.
    ensures |r.issued| <= 2
    ensures forall i | 0 <= i < |r.issued| ::
      r.issued[i].RouteInfoRequest? && r.issued[i].pooled == (!env.development && !priority)
    // Cached routes and error markers are never dropped.
    ensures t.routeErrorByPath <= r.tables.routeErrorByPath
    ensures forall q | q in t.routeInfoByPath ::
      q in r.tables.routeInfoByPath && r.tables.routeInfoByPath[q] == t.routeInfoByPath[q]
    // A published-mode priority call never touches the inflight table.
    ensures !Deduplicated(env, priority) ==> r.tables.inflightRouteInfo == t.inflightRouteInfo
  {
    var p := env.routePath(raw);
    if !env.prefetchable(p) then Lookup(t, [], None)
    else if p in t.routeInfoByPath then Lookup(t, [], Some(p))
    else if p in t.routeErrorByPath then Lookup(t, [], None)
    else
      var (t1, issued, outcome) := Issue(env, t, p, priority, net);
      match outcome
      case NetworkError =>
        var t2 := t1.(routeErrorByPath := t1.routeErrorByPath + {p});
        if NotFoundKey !in t2.routeInfoByPath && NotFoundKey !in t2.routeErrorByPath then
          var fallback := GetRouteInfo(env, t2, NotFoundKey, priority, net);
          fallback.(issued := issued + fallback.issued)
        else
          Lookup(t2, issued, None)
      case Response(payload) =>
        var t2 := if priority then t1 else t1.(inflightRouteInfo := t1.inflightRouteInfo - {p});
        match ValidatePayload(payload)
        case Valid(info) => Lookup(t2.(routeInfoByPath := t2.routeInfoByPath[p := info]), issued, Some(p))
        case Invalid => Lookup(t2.(routeErrorByPath := t2.routeErrorByPath + {p}), issued, None)
  }

  /** A path that passes the three guards and so is fetched. */
  predicate Fetches(env: Env, t: RouteTables, p: Path) {
    env.prefetchable(p) && p !in t.routeInfoByPath && p !in t.routeErrorByPath
  }

  /** `m'` agrees with `m` on every key outside `keys`. */
  predicate AgreeOutside<V(==)>(m: map<Path, V>, m': map<Path, V>, keys: set<Path>) {
    forall k | k in m.Keys + m'.Keys && k !in keys :: k in m && k in m' && m[k] == m'[k]
  }

  /** A lookup changes the tables only at the normalised path and at the not-found key. */
  lemma LookupTouchesOnlyItsKeys(env: Env, t: RouteTables, raw: Path, priority: bool, net: Path -> Fetch)
    requires Sound(env)
    ensures var r := GetRouteInfo(env, t, raw, priority, net);
      var keys := {env.routePath(raw), NotFoundKey};
      && AgreeOutside(t.routeInfoByPath, r.tables.routeInfoByPath, keys)
      && AgreeOutside(t.inflightRouteInfo, r.tables.inflightRouteInfo, keys)
      && r.tables.routeErrorByPath <= t.routeErrorByPath + keys
  {
    LookupKeepsOtherRoutes(env, t, raw, priority, net);
    LookupKeepsOtherInflight(env, t, raw, priority, net);
    LookupMarksOnlyItsKeys(env, t, raw, priority, net);
  }

  lemma {:induction false} LookupKeepsOtherRoutes(env: Env, t: RouteTables, raw: Path, priority: bool, net: Path -> Fetch)
    requires Sound(env)
    ensures AgreeOutside(t.routeInfoByPath, GetRouteInfo(env, t, raw, priority, net).tables.routeInfoByPath,
                         {env.routePath(raw), NotFoundKey})
    decreases if env.routePath(raw) == NotFoundKey then 0 else 1
  {
    var p := env.routePath(raw);
    if Fetches(env, t, p) {
      var (t1, issued, outcome) := Issue(env, t, p, priority, net);
      if outcome.NetworkError? {
        var t2 := t1.(routeErrorByPath := t1.routeErrorByPath + {p});
        if NotFoundKey !in t2.routeInfoByPath && NotFoundKey !in t2.routeErrorByPath {
          LookupKeepsOtherRoutes(env, t2, NotFoundKey, priority, net);
          AgreeThrough(t.routeInfoByPath, t2.routeInfoByPath,
                       GetRouteInfo(env, t2, NotFoundKey, priority, net).tables.routeInfoByPath, {NotFoundKey}, {p, NotFoundKey});
        }
      }
    }
  }

  lemma {:induction false} LookupKeepsOtherInflight(env: Env, t: RouteTables, raw: Path, priority: bool, net: Path -> Fetch)
    requires Sound(env)
    ensures AgreeOutside(t.inflightRouteInfo, GetRouteInfo(env, t, raw, priority, net).tables.inflightRouteInfo,
                         {env.routePath(raw), NotFoundKey})
    decreases if env.routePath(raw) == NotFoundKey then 0 else 1
  {
    var p := env.routePath(raw);
    if Fetches(env, t, p) {
      var (t1, issued, outcome) := Issue(env, t, p, priority, net);
      if outcome.NetworkError? {
        var t2 := t1.(routeErrorByPath := t1.routeErrorByPath + {p});
        if NotFoundKey !in t2.routeInfoByPath && NotFoundKey !in t2.routeErrorByPath {
          LookupKeepsOtherInflight(env, t2, NotFoundKey, priority, net);
          assert AgreeOutside(t.inflightRouteInfo, t2.inflightRouteInfo, {p, NotFoundKey});
          AgreeThrough(t.inflightRouteInfo, t2.inflightRouteInfo,
                       GetRouteInfo(env, t2, NotFoundKey, priority, net).tables.inflightRouteInfo, {NotFoundKey}, {p, NotFoundKey});
        }
      }
    }
  }

  lemma {:induction false} LookupMarksOnlyItsKeys(env: Env, t: RouteTables, raw: Path, priority: bool, net: Path -> Fetch)
    requires Sound(env)
    ensures GetRouteInfo(env, t, raw, priority, net).tables.routeErrorByPath <= t.routeErrorByPath + {env.routePath(raw), NotFoundKey}
    decreases if env.routePath(raw) == NotFoundKey then 0 else 1
  {
    var p := env.routePath(raw);
    if Fetches(env, t, p) {
      var (t1, issued, outcome) := Issue(env, t, p, priority, net);
      if outcome.NetworkError? {
        var t2 := t1.(routeErrorByPath := t1.routeErrorByPath + {p});
        if NotFoundKey !in t2.routeInfoByPath && NotFoundKey !in t2.routeErrorByPath {
          LookupMarksOnlyItsKeys(env, t2, NotFoundKey, priority, net);
        }
      }
    }
  }

  /** Agreement outside `keys` after agreement outside `keys` and then outside a
      part of it. */
  lemma AgreeThrough<V>(m: map<Path, V>, m': map<Path, V>, m'': map<Path, V>, part: set<Path>, keys: set<Path>)
    requires part <= keys
    requires AgreeOutside(m, m', keys) && AgreeOutside(m', m'', part)
    ensures AgreeOutside(m, m'', keys)
  {
  }

  /** Lines 179-188: a failed fetch marks the path errored; the answer is then
      either nothing or the not-found page, fetched only if it was neither cached
      nor errored, and afterwards the not-found page is settled, so no second
      fallback can follow. */
  lemma {:induction false} FailedFetchFallsBackOnce(env: Env, t: RouteTables, raw: Path, priority: bool, net: Path -> Fetch)
    requires Sound(env) && RoutesConsistent(t)
    requires Fetches(env, t, env.routePath(raw)) && net(env.routePath(raw)) == NetworkError
    ensures var p := env.routePath(raw);
      var r := GetRouteInfo(env, t, raw, priority, net);
      && p in r.tables.routeErrorByPath && p !in r.tables.routeInfoByPath
      && (r.found.Some? ==> r.found == Some(NotFoundKey) && p != NotFoundKey)
      && (NotFoundKey in t.routeInfoByPath || NotFoundKey in t.routeErrorByPath ==>
            r.found == None && |r.issued| == 1)
      && (NotFoundKey in r.tables.routeInfoByPath || NotFoundKey in r.tables.routeErrorByPath
          || !env.prefetchable(NotFoundKey))
  {
    var p := env.routePath(raw);
    assert p !in t.inflightRouteInfo;
    var (t1, issued, outcome) := Issue(env, t, p, priority, net);
    var t2 := t1.(routeErrorByPath := t1.routeErrorByPath + {p});
    if NotFoundKey !in t2.routeInfoByPath && NotFoundKey !in t2.routeErrorByPath {
      assert p != NotFoundKey;
      LookupKeepsOtherRoutes(env, t2, NotFoundKey, priority, net);
    }
  }

  /** Lines 190-200: a response is validated; a valid route info is stored under
      the normalised path and returned, an invalid one marks the path errored and
      is not stored. Exactly one request is issued either way. */
  lemma ResponseIsValidatedAndCached(env: Env, t: RouteTables, raw: Path, priority: bool, net: Path -> Fetch)
    requires Sound(env) && RoutesConsistent(t)
    requires Fetches(env, t, env.routePath(raw)) && net(env.routePath(raw)).Response?
    ensures var p := env.routePath(raw);
      var r := GetRouteInfo(env, t, raw, priority, net);
      && |r.issued| == 1
      && match ValidatePayload(net(p).payload)
         case Valid(info) =>
           r.found == Some(p) && r.tables.routeInfoByPath == t.routeInfoByPath[p := info]
           && r.tables.routeErrorByPath == t.routeErrorByPath
         case Invalid =>
           r.found == None && r.tables.routeInfoByPath == t.routeInfoByPath
           && r.tables.routeErrorByPath == t.routeErrorByPath + {p}
  {
    assert env.routePath(raw) !in t.inflightRouteInfo;
  }

  /** Lines 144-149, 166-177, 190-192: the inflight entry of a fetched path is created
      only because none existed; a non-priority call that gets a response deletes it
      again; a failed fetch returns before the deletion and leaves the entry, holding
      the failure, in place; a development-mode priority call leaves its entry too. */
  lemma InflightEntryLifecycle(env: Env, t: RouteTables, raw: Path, priority: bool, net: Path -> Fetch)
    requires Sound(env) && RoutesConsistent(t)
    requires Fetches(env, t, env.routePath(raw))
    ensures var p := env.routePath(raw);
      var r := GetRouteInfo(env, t, raw, priority, net);
      && p !in t.inflightRouteInfo
      && (!priority && net(p).Response? ==> r.tables.inflightRouteInfo == t.inflightRouteInfo)
      && (Deduplicated(env, priority) && net(p).NetworkError? ==>
            p in r.tables.inflightRouteInfo && r.tables.inflightRouteInfo[p] == NetworkError)
      && (priority && env.development && net(p).Response? ==>
            r.tables.inflightRouteInfo == t.inflightRouteInfo[p := net(p)])
  {
    var p := env.routePath(raw);
    assert p !in t.inflightRouteInfo;
    if Deduplicated(env, priority) && net(p).NetworkError? {
      var (t1, issued, outcome) := Issue(env, t, p, priority, net);
      var t2 := t1.(routeErrorByPath := t1.routeErrorByPath + {p});
      if NotFoundKey !in t2.routeInfoByPath && NotFoundKey !in t2.routeErrorByPath {
        assert p != NotFoundKey;
        LookupKeepsOtherInflight(env, t2, NotFoundKey, priority, net);
      }
    }
  }

  /** After a lookup the path is settled: on any tables that cache and mark the
      same paths, a second lookup of it, whatever its priority and whatever the
      network would say, issues nothing, changes nothing, and returns the route
      the first one returned or nothing. */
  lemma SettledLookupIsRead(env: Env, t: RouteTables, raw: Path, priority: bool, net: Path -> Fetch,
                            t': RouteTables, priority': bool, net': Path -> Fetch)
    requires Sound(env)
    requires t'.routeInfoByPath.Keys == GetRouteInfo(env, t, raw, priority, net).tables.routeInfoByPath.Keys
    requires t'.routeErrorByPath == GetRouteInfo(env, t, raw, priority, net).tables.routeErrorByPath
    ensures var r' := GetRouteInfo(env, t', raw, priority', net');
      && r'.tables == t' && r'.issued == []
      && (r'.found.Some? ==> r'.found == GetRouteInfo(env, t, raw, priority, net).found)
  {
    var p := env.routePath(raw);
    var r := GetRouteInfo(env, t, raw, priority, net);
    if env.prefetchable(p) && p in t'.routeInfoByPath {
      assert p in r.tables.routeInfoByPath;
    }
  }

  /** Every lookup keeps the route tables consistent. */
  lemma {:induction false} GetRouteInfoKeepsConsistent(env: Env, t: RouteTables, raw: Path, priority: bool, net: Path -> Fetch)
    requires Sound(env) && RoutesConsistent(t)
    ensures RoutesConsistent(GetRouteInfo(env, t, raw, priority, net).tables)
    decreases if env.routePath(raw) == NotFoundKey then 0 else 1
  {
    var p := env.routePath(raw);
    if Fetches(env, t, p) {
      var (t1, issued, outcome) := Issue(env, t, p, priority, net);
      if outcome.NetworkError? {
        var t2 := t1.(routeErrorByPath := t1.routeErrorByPath + {p});
        assert RoutesConsistent(t2);
        if NotFoundKey !in t2.routeInfoByPath && NotFoundKey !in t2.routeErrorByPath {
          GetRouteInfoKeepsConsistent(env, t2, NotFoundKey, priority, net);
        }
      }
    }
  }
}
