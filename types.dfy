/** Values held by the browser-side route-data cache of react-static
    (packages/react-static/src/browser/index.js). */
module Types {

  datatype Option<+T> = None | Some(value: T)

  /** A route path, after or before normalisation. */
  type Path = string
  /** The content hash naming a shared-data file. */
  type Hash = string
  type PropName = string
  type TemplateId = string
  /** The decoded body of one shared-data file. */
  type Data = string

  /** The reserved route key of the not-found page. */
  const NotFoundKey: Path := "404"

  /** A JavaScript object from prop names to content hashes: its entries and the
      order in which `Object.keys` enumerates them. */
  datatype PropTable = PropTable(keys: seq<PropName>, hashOf: map<PropName, Hash>)

  /** `keys` lists every key of `hashOf` exactly once. */
  predicate Enumerates(t: PropTable) {
    && (forall k | k in t.keys :: k in t.hashOf)
    && (forall k | k in t.hashOf :: k in t.keys)
    && (forall i, j | 0 <= i < j < |t.keys| :: t.keys[i] != t.keys[j])
  }

  type HashesByProp = t: PropTable | Enumerates(t) witness PropTable([], map[])

  /** The per-route metadata. `sharedData == None` means "not hydrated yet";
      a prop whose file failed to load holds `None` (JavaScript's undefined). */
  datatype RouteInfo = RouteInfo(
    path: Path,
    template: Option<TemplateId>,
    sharedHashesByProp: HashesByProp,
    sharedData: Option<map<PropName, Option<Data>>>,
    templateLoaded: bool)

  /** What a successful route-info response decodes to: a non-object (string,
      number, boolean), JSON `null`, or an object (an object without a `path`,
      or an array, is a record whose `path` is empty). */
  datatype Payload = NonObject | Null | Record(info: RouteInfo)

  /** How one route-info request settles. */
  datatype Fetch = NetworkError | Response(payload: Payload)

  /** How the shared-data requests of one hydration settle: a pooled request,
      shared by every task of its hash, by that hash; a priority task's own
      direct request by the prop that issued it. */
  datatype DataNet = DataNet(pooled: Hash -> Option<Data>, direct: PropName -> Option<Data>)

  /** A registered template component; only its optional `preload` matters here. */
  datatype Template = Template(id: TemplateId, hasPreload: bool)

  /** A network request issued by the cache, and whether it went through the request pool. */
  datatype Request =
    | RouteInfoRequest(path: Path, pooled: bool)
    | SharedDataRequest(hash: Hash, pooled: bool)
    | PreloadRequest(template: TemplateId, pooled: bool)

  /** A pending operation's outcome as the caller observes it: preload failures propagate. */
  datatype Settled<+T> = Resolved(value: T) | Rejected

  /** The execution mode and the path utilities the cache consumes but does not define. */
  datatype Env = Env(development: bool, routePath: Path -> Path, prefetchable: Path -> bool)

  /** The path normaliser leaves the not-found key alone, so the key getRouteInfo's
      404 fallback tests is the key its nested lookup caches under and errors; the
      fallback then nests at most once. */
  predicate Sound(env: Env) {
    env.routePath(NotFoundKey) == NotFoundKey
  }

  /** Non-priority calls share the inflight table; in development mode priority ones do too. */
  predicate Deduplicated(env: Env, priority: bool) {
    env.development || !priority
  }

  /** The tables getRouteInfo works on: cached route info, error markers and
      the pending route-info requests keyed by path. */
  datatype RouteTables = RouteTables(
    routeInfoByPath: map<Path, RouteInfo>,
    routeErrorByPath: set<Path>,
    inflightRouteInfo: map<Path, Fetch>)

  /** All module-level state of the cache: the eight tables, the pool's gate, the
      log of issued requests and the number of times each global callback ran. */
  datatype Cache = Cache(
    routes: RouteTables,
    sharedDataByHash: map<Hash, Data>,
    inflightPropHashes: map<Hash, Option<Data>>,
    templates: map<TemplateId, Template>,
    templatesByPath: map<Path, Option<Template>>,
    templateErrorByPath: set<Path>,
    poolStopped: bool,
    requests: seq<Request>,
    reloads: nat,
    templateUpdates: nat)

  const EmptyCache: Cache :=
    Cache(RouteTables(map[], {}, map[]), map[], map[], map[], map[], {}, false, [], 0, 0)

  /** What holds between operations on the route tables: every route-info request
      left in the inflight table belongs to a path that is cached or errored (so it
      is never awaited again), and every cached route has a path. */
  predicate RoutesConsistent(t: RouteTables) {
    && t.inflightRouteInfo.Keys <= t.routeInfoByPath.Keys + t.routeErrorByPath
    && (forall p | p in t.routeInfoByPath :: t.routeInfoByPath[p].path != "")
  }

  /** What holds between operations: the route tables are consistent and no hash
      request is pending. */
  predicate Consistent(c: Cache) {
    RoutesConsistent(c.routes) && c.inflightPropHashes == map[]
  }
}
