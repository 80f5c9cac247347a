/** The values that requests, upstreams and the cache exchange. */
module Model {
  import opened Options

  type Byte = bv8

  function Min(a: nat, b: nat): nat {
    if a < b then a else b
  }

  const U64_MAX: nat := 0xFFFF_FFFF_FFFF_FFFF

  /** `CachedResourceKey`: the host key of the cache, not of its upstream, and the path. */
  datatype Key = Key(host: nat, path: string)

  datatype Content = Content(contentType: Option<string>, body: seq<Byte>)

  /** What an upstream answers; failures while the body is written to disk count as `Failed`. */
  datatype Answer = Found(content: Content) | NotFound | Failed(error: string)

  datatype MaxAge = CacheForever | CacheFor(duration: nat) | CacheNever

  datatype Rule = Enabled(maxAge: MaxAge) | Disabled

  /** One call of `Cache::get`: the cache it goes to, the path, and the rule the path matches. */
  datatype Request = Request(host: nat, path: string, route: nat, rule: Rule, now: int)

  function KeyOf(r: Request): Key {
    Key(r.host, r.path)
  }

  function Size(c: Content): nat {
    |c.body|
  }

  /** When a resource fetched for this request expires, if ever. */
  function Expiry(r: Request): Option<int> {
    match r.rule
    case Enabled(CacheFor(duration)) => Some(r.now + duration)
    case _ => None
  }

  predicate IsExpired(expiresAt: Option<int>, now: int) {
    expiresAt.Some? && expiresAt.value <= now
  }

  /** Counters kept for each route of each cache, and for each host key. */
  datatype RouteMetrics = RouteMetrics(
    requests: nat, unrouted: nat, never: nat, hits: nat, hitBytes: nat,
    misses: nat, missBytes: nat, errors: nat, notFound: nat)

  datatype HostMetrics = HostMetrics(evictions: nat, evictedBytes: nat, files: int, bytes: int)

  const NO_ROUTE_METRICS := RouteMetrics(0, 0, 0, 0, 0, 0, 0, 0, 0)
  const NO_HOST_METRICS := HostMetrics(0, 0, 0, 0)

  /** The single class each finished lookup is counted under. */
  datatype Class = Unrouted | Never | Hit(bytes: nat) | Miss(bytes: nat) | Error | Missing

  function Classified(m: RouteMetrics, c: Class): RouteMetrics {
    match c
    case Unrouted => m.(unrouted := m.unrouted + 1)
    case Never => m.(never := m.never + 1)
    case Hit(bytes) => m.(hits := m.hits + 1, hitBytes := m.hitBytes + bytes)
    case Miss(bytes) => m.(misses := m.misses + 1, missBytes := m.missBytes + bytes)
    case Error => m.(errors := m.errors + 1)
    case Missing => m.(notFound := m.notFound + 1)
  }

  // ----- For statements -----
  // The operations above and the models do not use what follows: it says again,
  // straight from the requests and their rules, what the theorems speak of.

  /** The two ask the same host key for the same path. */
  ghost predicate SameKey(a: Request, b: Request) {
    a.host == b.host && a.path == b.path
  }

  /** The rule sends requests to the map. */
  ghost predicate Looks(rule: Rule) {
    rule.Enabled? && !rule.maxAge.CacheNever?
  }

  /** What a request with this rule created is not too old at a time. */
  ghost predicate WithinAge(creator: Request, now: int) {
    && creator.rule.Enabled?
    && match creator.rule.maxAge
       case CacheForever => true
       case CacheFor(duration) => now < creator.now + duration
       case CacheNever => false
  }

  /** For a resource, being within its age and not having expired are the same. */
  lemma ExpiresWithAge(creator: Request, now: int)
    requires Looks(creator.rule)
    ensures WithinAge(creator, now) <==> !IsExpired(Expiry(creator), now)
  {
  }
}
