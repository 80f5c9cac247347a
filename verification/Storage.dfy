/**
 * `CacheStorage` and `Cache` as objects that requests use one after another.
 * The map shares a cell with the request that fills it for as long as it has
 * not popped it; without overlap no third party refers to it.
 */
module Storage {
  import opened Options
  import opened Model
  import opened Recency
  import opened Pool
  import opened Sequential

  class CacheStorage {
    const limits: Limits
    const pool: AtomicU64
    var entries: seq<Slot>

    ghost predicate Valid()
      reads this, pool
    {
      && 1 <= limits.maxFiles && limits.capacity <= U64_MAX
      && pool.rivals == [] && AtRest(limits, State())
    }

    ghost function State(): Store
      reads this, pool
    {
      Store(pool.value, entries)
    }

    constructor (limits: Limits)
      requires 1 <= limits.maxFiles && limits.capacity <= U64_MAX
      ensures Valid() && this.limits == limits && fresh(pool)
      ensures State() == Run(limits, [])
    {
      this.limits := limits;
      this.pool := new AtomicU64(limits.capacity, []);
      this.entries := [];
    }

    /** The last reference to a cell is dropped, and its resource with it. */
    method DropCell(v: Option<Cached>)
      requires pool.rivals == [] && pool.value + Held(v) <= U64_MAX
      modifies pool
      ensures pool.rivals == [] && pool.value == old(pool.value) + Held(v)
    {
      if v.Some? {
        var reservation := new Reservation(pool, v.value.reserved);
        var panicked, _, _ := reservation.ReturnToPool();
        assert !panicked;
      }
    }

    /** `reserve` when no other task interferes. */
    method Take(size: nat) returns (reserved: Option<nat>)
      requires pool.rivals == []
      modifies pool
      ensures pool.rivals == [] && reserved == if size <= old(pool.value) then Some(size) else None
      ensures pool.value == if size <= old(pool.value) then old(pool.value) - size else old(pool.value)
    {
      var taken, _, _ := pool.Reserve(size);
      return taken;
    }

    /** `reserve_up_to` when no other task interferes. */
    method TakeUpTo(size: nat) returns (reserved: nat)
      requires pool.rivals == []
      modifies pool
      ensures pool.rivals == [] && reserved == Min(size, old(pool.value)) && pool.value == old(pool.value) - reserved
    {
      var taken, _, _ := pool.ReserveUpTo(size);
      return taken;
    }

    /** `get_or_insert_mut_ref`, and the replacement of an expired cell. */
    method LookUp(key: Key, now: int) returns (cell: Option<Cached>)
      requires Valid()
      modifies this, pool
      ensures Valid() && State() == LookedUp(limits, old(State()), key, now)
      ensures cell == entries[|entries| - 1].value
    {
      LookedUpAtRest(limits, State(), key, now);
      var found := Find(entries, key);
      match found {
        case Some(i) =>
          var v := entries[i].value;
          HeldSplit(entries, i);
          if CellExpired(v, now) {
            entries := Promote(entries, i, None);
            DropCell(v);
            cell := None;
          } else {
            entries := Promote(entries, i, v);
            cell := v;
          }
        case None =>
          if |entries| < limits.maxFiles {
            entries := Insert(entries, limits.maxFiles, Entry(key, None));
          } else {
            var oldest := entries[0].value;
            HeldSplit(entries, 0);
            entries := Insert(entries, limits.maxFiles, Entry(key, None));
            DropCell(oldest);
          }
          cell := None;
      }
    }

    /**
     * Reserves space for a fetched body, popping entries until it fits: the
     * shortest prefix that frees enough is popped, least recently used first,
     * and no entry behind it changes.
     */
    method CreateCachedResource(id: nat, content: Content, expiresAt: Option<int>) returns (resource: Cached)
      requires Valid()
      modifies this, pool
      ensures pool.rivals == []
      ensures var k := Pops(old(pool.value), old(entries), Size(content));
        var freed := old(pool.value) + HeldIn(old(entries)[..k]);
        && entries == old(entries)[k..]
        && resource == Cached(id, content, expiresAt, Min(Size(content), freed))
        && pool.value == freed - resource.reserved
    {
      var size := Size(content);
      ghost var st0, popped := State(), 0;
      var granted := 0;
      NonePopped(st0, size);
      while true
        invariant pool.rivals == [] && Popped(st0, State(), popped, size)
        decreases |entries|
      {
        var reserved := Take(size);
        if reserved.Some? {
          granted := reserved.value;
          break;
        }
        if entries == [] {
          granted := TakeUpTo(size);
          break;
        }
        OneMorePopped(limits, st0, State(), popped, size);
        var evicted := entries[0].value;
        entries := entries[1..];
        DropCell(evicted);
        popped := popped + 1;
      }
      ShortestPopped(st0, Store(pool.value + granted, entries), popped, size);
      resource := Cached(id, content, expiresAt, granted);
    }

    /**
     * Creates a resource and puts it into the request's cell, the most recent
     * one. If that cell was popped, it goes when the request ends.
     */
    method FillCell(id: nat, content: Content, expiresAt: Option<int>)
      requires Valid() && Waiting(limits, State())
      modifies this, pool
      ensures Valid() && State() == Fill(old(State()), id, content, expiresAt)
    {
      FillAtRest(limits, State(), id, content, expiresAt);
      FreedBounded(limits, State(), Pops(pool.value, entries, Size(content)));
      var resource := CreateCachedResource(id, content, expiresAt);
      var n := |entries|;
      if n > 0 {
        entries := entries[n - 1 := Entry(entries[n - 1].key, Some(resource))];
      } else {
        DropCell(Some(resource));
      }
    }
  }

  /** The store after the first k entries were popped and destroyed, all of which the size needs. */
  ghost predicate Popped(st0: Store, st: Store, k: nat, size: nat) {
    && k <= |st0.entries| && st.entries == st0.entries[k..] && st.available == st0.available + HeldIn(st0.entries[..k])
    && Pops(st0.available, st0.entries, size) == k + Pops(st.available, st.entries, size)
  }

  lemma NonePopped(st: Store, size: nat)
    ensures Popped(st, st, 0, size)
  {
    assert st.entries[..0] == [] && st.entries[0..] == st.entries;
  }

  /** The loop stops exactly at the shortest prefix. */
  lemma ShortestPopped(st0: Store, st: Store, k: nat, size: nat)
    requires Popped(st0, st, k, size) && (size <= st.available || st.entries == [])
    ensures k == Pops(st0.available, st0.entries, size)
  {
  }

  lemma OneMorePopped(limits: Limits, st0: Store, st: Store, k: nat, size: nat)
    requires AtRest(limits, st0) && Popped(st0, st, k, size) && st.available < size && st.entries != []
    ensures Popped(st0, Store(st.available + Held(st.entries[0].value), st.entries[1..]), k + 1, size)
    ensures st.available + Held(st.entries[0].value) <= limits.capacity
  {
    var es := st0.entries;
    assert es[..k + 1] == es[..k] + [es[k]];
    HeldAppend(es[..k], [es[k]]);
    HeldOne(es[k]);
    FreedBounded(limits, st0, k + 1);
  }

  lemma FreedBounded(limits: Limits, st: Store, k: nat)
    requires AtRest(limits, st) && k <= |st.entries|
    ensures st.available + HeldIn(st.entries[..k]) <= limits.capacity
  {
    FreedTotal(limits, st, k);
  }

  /** A cache in front of one upstream, with its host key, its rules, and the counters of its routes. */
  class Cache {
    const storage: CacheStorage
    const host: nat
    const rules: string -> Rule
    const routes: string -> nat
    var metrics: seq<RouteMetrics>

    ghost predicate Valid()
      reads this, storage, storage.pool
    {
      storage.Valid() && forall path :: routes(path) < |metrics|
    }

    constructor (storage: CacheStorage, host: nat, rules: string -> Rule, routes: string -> nat, count: nat)
      requires storage.Valid() && forall path :: routes(path) < count
      ensures Valid() && this.storage == storage && this.host == host && this.rules == rules && this.routes == routes
      ensures metrics == seq(count, i => NO_ROUTE_METRICS)
    {
      this.storage := storage;
      this.host := host;
      this.rules := rules;
      this.routes := routes;
      this.metrics := seq(count, i => NO_ROUTE_METRICS);
    }

    /** The request that a call makes. */
    ghost function RequestOf(path: string, now: int): Request {
      Request(host, path, routes(path), rules(path), now)
    }

    /** Count a request under its class, for its route. */
    method Count(route: nat, kind: Class)
      requires route < |metrics|
      modifies this`metrics
      ensures metrics == old(metrics)[route := Classified(old(metrics[route]), kind)]
    {
      metrics := metrics[route := Classified(metrics[route], kind)];
    }

    /**
     * One call, with the identifier it draws, what upstream answers if it is
     * asked, and whether the handle of the cached file can be cloned. It changes
     * the store and replies exactly as `Serve` says, and counts the request and
     * its class for its route and nothing else.
     */
    method Get(path: string, now: int, id: nat, world: World) returns (reply: Reply)
      requires Valid()
      modifies this`metrics, storage, storage.pool
      ensures Valid()
      ensures (storage.State(), reply) == Serve(storage.limits, old(storage.State()), RequestOf(path, now), id, world)
      ensures var route := routes(path);
        metrics == old(metrics)[route := Counted(old(metrics[route]), rules(path), reply)]
    {
      ServeAtRest(storage.limits, storage.State(), RequestOf(path, now), id, world);
      var rule, route := rules(path), routes(path);
      metrics := metrics[route := metrics[route].(requests := metrics[route].requests + 1)];
      if rule.Disabled? {
        Count(route, Unrouted);
        return NoBody;
      }
      if rule.maxAge.CacheNever? {
        Count(route, Never);
        match world.answer {
          case Found(content) => return Body(content, ANever, id, true);
          case NotFound => return NoBody;
          case Failed(error) => return Failure(error);
        }
      }
      var expiresAt := if rule.maxAge.CacheFor? then Some(now + rule.maxAge.duration) else None;

      reply := Obtain(path, now, id, world, expiresAt);
      match reply {
        case Failure(_) => Count(route, Error);
        case NoBody => Count(route, Missing);
        case Body(content, outcome, _, _) =>
          Count(route, if outcome.AMiss? then Miss(Size(content)) else Hit(Size(content)));
      }
    }

    /** The lookup, and the fetch if the cell is empty. */
    method Obtain(path: string, now: int, id: nat, world: World, expiresAt: Option<int>) returns (reply: Reply)
      requires Valid() && Cacheable(rules(path)) && expiresAt == Expiry(RequestOf(path, now))
      modifies storage, storage.pool
      ensures Valid()
      ensures (storage.State(), reply) == Serve(storage.limits, old(storage.State()), RequestOf(path, now), id, world)
      ensures reply.Body? ==> reply.outcome.AHit? || reply.outcome.AMiss?
    {
      ServeAtRest(storage.limits, storage.State(), RequestOf(path, now), id, world);
      var cell := storage.LookUp(Key(host, path), now);
      if cell.Some? {
        return Body(cell.value.content, AHit, cell.value.id, world.cloned);
      }
      match world.answer {
        case NotFound => return NoBody;
        case Failed(error) => return Failure(error);
        case Found(content) =>
          storage.FillCell(id, content, expiresAt);
          return Body(content, AMiss, id, world.cloned);
      }
    }
  }
}
