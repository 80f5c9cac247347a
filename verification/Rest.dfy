/**
 * From any rest. A state in which no request is in flight, however requests
 * overlapped, failed or were cancelled before it, is a store at rest; so what
 * the sequential cache does to such a store, a lone request does to the machine.
 */
module Rest {
  import opened Options
  import opened Model
  import opened Recency
  import opened Sums
  import opened Machine
  import opened Capacity
  import opened Accounting
  import opened Refinement
  import Q = Sequential
  import Residency

  /** The slots of the first n entries hold what is reserved for these entries. */
  lemma {:induction false} HeldIsReserved(cfg: Config, s: State, n: nat)
    requires Balanced(cfg, s) && n <= |s.lru|
    ensures Q.HeldIn(Slots(s)[..n]) == SumOf(s.lru[..n], EntryOf(s, Reservation()))
  {
    if n > 0 {
      HeldIsReserved(cfg, s, n - 1);
      var last := Slots(s)[n - 1];
      assert Slots(s)[..n] == Slots(s)[..n - 1] + [last];
      Q.HeldAppend(Slots(s)[..n - 1], [last]);
      Q.HeldOne(last);
      assert s.lru[..n][..n - 1] == s.lru[..n - 1];
    }
  }

  /** A state at rest is a store at rest, whatever led to it. */
  lemma QuiescentAtRest(cfg: Config, tr: Trace, s: State)
    requires Reaches(cfg, tr, s) && Quiescent(s)
    ensures Q.AtRest(LimitsOf(cfg), StoreOf(s))
  {
    BalancedAlways(cfg, tr);
    NoLeak(cfg, tr, s);
    RetainedIsReserved(cfg, s);
    HeldIsReserved(cfg, s, |s.lru|);
    assert s.lru[..|s.lru|] == s.lru && Slots(s)[..|s.lru|] == Slots(s);
    forall i | 0 <= i < |s.lru| ensures Q.FullyHeld(Slots(s)[i].value) {
      EntryReserved(cfg, s, i);
    }
  }

  // ----- Lone requests -----

  /** From rest, request t ran to its end while no other moved. */
  ghost predicate RanFromRest(cfg: Config, tr0: Trace, s0: State, tr: Trace, s: State, t: nat, world: Q.World) {
    && Reaches(cfg, tr0, s0) && Quiescent(s0) && t < |cfg.requests| && s0.tasks[t].pc.Idle?
    && Reaches(cfg, tr, s) && Undisturbed(tr, tr0, t, world) && s.tasks[t].pc.Done?
  }

  /** The store of a state once a request has looked up its key. */
  ghost function AfterLookup(cfg: Config, s: State, t: nat): Q.Store
    requires 1 <= cfg.maxFiles && t < |cfg.requests|
  {
    Q.LookedUp(LimitsOf(cfg), StoreOf(s), KeyOf(cfg.requests[t]), cfg.requests[t].now)
  }

  lemma MissMeansFilled(cfg: Config, tr0: Trace, s0: State, tr: Trace, s: State, t: nat, world: Q.World)
    requires RanFromRest(cfg, tr0, s0, tr, s, t, world) && s.tasks[t].tally.Some?
    ensures
      var st1 := AfterLookup(cfg, s0, t);
      s.tasks[t].tally.value.Miss? <==>
        Q.Cacheable(cfg.requests[t].rule) && st1.entries[|st1.entries| - 1].value.None? && world.answer.Found?
    ensures s.tasks[t].tally.value.Miss? ==>
      StoreOf(s) == Q.Fill(AfterLookup(cfg, s0, t), t, world.answer.content, Expiry(cfg.requests[t]))
  {
    LoneRequestServes(cfg, tr0, s0, tr, s, t, world);
    MissFills(LimitsOf(cfg), StoreOf(s0), cfg.requests[t], t, world);
  }

  lemma MissFills(limits: Q.Limits, st: Q.Store, req: Request, id: nat, world: Q.World)
    requires 1 <= limits.maxFiles
    ensures
      var st1 := Q.LookedUp(limits, st, KeyOf(req), req.now);
      var (st', reply) := Q.Serve(limits, st, req, id, world);
      var missed := Q.Cacheable(req.rule) && st1.entries[|st1.entries| - 1].value.None? && world.answer.Found?;
      && (Q.ClassOf(req.rule, reply).Miss? <==> missed)
      && (missed ==> st' == Q.Fill(st1, id, world.answer.content, Expiry(req)))
  {
  }

  lemma LookupWaits(cfg: Config, tr0: Trace, s0: State, t: nat)
    requires Reaches(cfg, tr0, s0) && Quiescent(s0) && t < |cfg.requests|
    ensures Q.AtRest(LimitsOf(cfg), AfterLookup(cfg, s0, t))
  {
    QuiescentAtRest(cfg, tr0, s0);
    Q.LookedUpAtRest(LimitsOf(cfg), StoreOf(s0), KeyOf(cfg.requests[t]), cfg.requests[t].now);
  }

  /**
   * Exact eviction, from any rest: a lone miss whose body fits the capacity pops
   * exactly the shortest prefix of least recently used entries that makes room,
   * and ends as the most recent entry, reserved in full, behind the others.
   */
  lemma LoneMissIsKept(cfg: Config, tr0: Trace, s0: State, tr: Trace, s: State, t: nat, world: Q.World)
    requires RanFromRest(cfg, tr0, s0, tr, s, t, world)
    requires s.tasks[t].tally.Some? && s.tasks[t].tally.value.Miss?
    requires world.answer.Found? && |world.answer.content.body| <= cfg.capacity
    ensures
      var st1, size := AfterLookup(cfg, s0, t), |world.answer.content.body|;
      var n, k := |st1.entries|, Q.Pops(st1.available, st1.entries, size);
      && k < n && size <= st1.available + Q.HeldIn(st1.entries[..k])
      && (forall j :: 0 <= j < k ==> st1.available + Q.HeldIn(st1.entries[..j]) < size)
      && StoreOf(s) == Q.Store(
           st1.available + Q.HeldIn(st1.entries[..k]) - size,
           st1.entries[k..n - 1]
             + [Entry(Key(cfg.requests[t].host, cfg.requests[t].path),
                      Some(Q.Cached(t, world.answer.content, Expiry(cfg.requests[t]), size)))])
  {
    MissMeansFilled(cfg, tr0, s0, tr, s, t, world);
    LookupWaits(cfg, tr0, s0, t);
    FitsExactly(LimitsOf(cfg), AfterLookup(cfg, s0, t), StoreOf(s), KeyOf(cfg.requests[t]), t, world.answer.content,
                Expiry(cfg.requests[t]));
  }

  lemma FitsExactly(limits: Q.Limits, st1: Q.Store, st: Q.Store, key: Key, id: nat, content: Content, expiresAt: Option<int>)
    requires Q.Waiting(limits, st1) && st1.entries[|st1.entries| - 1].key == key
    requires |content.body| <= limits.capacity && st == Q.Fill(st1, id, content, expiresAt)
    ensures
      var size, n := |content.body|, |st1.entries|;
      var k := Q.Pops(st1.available, st1.entries, size);
      && k < n && size <= st1.available + Q.HeldIn(st1.entries[..k])
      && (forall j :: 0 <= j < k ==> st1.available + Q.HeldIn(st1.entries[..j]) < size)
      && st == Q.Store(st1.available + Q.HeldIn(st1.entries[..k]) - size,
                       st1.entries[k..n - 1] + [Entry(key, Some(Q.Cached(id, content, expiresAt, size)))])
  {
    Q.FittingIsKept(limits, st1, id, content, expiresAt);
    Q.PopsShortest(st1.available, st1.entries, |content.body|);
  }

  /**
   * From any rest, a lone miss whose body exceeds the capacity leaves the map
   * empty and the pool full.
   */
  lemma LoneMissPassesThrough(cfg: Config, tr0: Trace, s0: State, tr: Trace, s: State, t: nat, world: Q.World)
    requires RanFromRest(cfg, tr0, s0, tr, s, t, world)
    requires s.tasks[t].tally.Some? && s.tasks[t].tally.value.Miss?
    requires world.answer.Found? && |world.answer.content.body| > cfg.capacity
    ensures s.lru == [] && s.available == cfg.capacity
  {
    MissMeansFilled(cfg, tr0, s0, tr, s, t, world);
    LookupWaits(cfg, tr0, s0, t);
    Q.OversizedPassesThrough(LimitsOf(cfg), AfterLookup(cfg, s0, t), t, world.answer.content, Expiry(cfg.requests[t]));
    assert |Slots(s)| == |s.lru|;
  }

  /** From any rest, a lone request for another key leaves a resident entry in the map under the bounds of residency. */
  lemma LoneRequestKeeps(cfg: Config, tr0: Trace, s0: State, tr: Trace, s: State, t: nat, world: Q.World,
                         key: Key, r: Q.Cached, others: set<Key>, weight: Key -> nat)
    requires RanFromRest(cfg, tr0, s0, tr, s, t, world)
    requires Residency.Weighed(StoreOf(s0), weight) && Residency.Resident(StoreOf(s0), key, r, others)
    requires Looks(cfg.requests[t].rule) ==> Key(cfg.requests[t].host, cfg.requests[t].path) != key
    requires world.answer.Found? ==> |world.answer.content.body| <= weight(Key(cfg.requests[t].host, cfg.requests[t].path))
    requires var used := Residency.WithKey(others, cfg.requests[t]);
      |used| < cfg.maxFiles && |r.content.body| + Residency.SumOver(used, weight) <= cfg.capacity
    ensures Residency.Resident(StoreOf(s), key, r, Residency.WithKey(others, cfg.requests[t]))
  {
    QuiescentAtRest(cfg, tr0, s0);
    LoneRequestServes(cfg, tr0, s0, tr, s, t, world);
    ServingKeeps(LimitsOf(cfg), StoreOf(s0), StoreOf(s), cfg.requests[t], t, world, key, r, others, weight);
  }

  lemma ServingKeeps(limits: Q.Limits, st0: Q.Store, st: Q.Store, req: Request, id: nat, world: Q.World,
                     key: Key, r: Q.Cached, others: set<Key>, weight: Key -> nat)
    requires Q.AtRest(limits, st0) && Residency.Weighed(st0, weight) && Residency.Resident(st0, key, r, others)
    requires Looks(req.rule) ==> Key(req.host, req.path) != key
    requires world.answer.Found? ==> |world.answer.content.body| <= weight(Key(req.host, req.path))
    requires |Residency.WithKey(others, req)| < limits.maxFiles
    requires |r.content.body| + Residency.SumOver(Residency.WithKey(others, req), weight) <= limits.capacity
    requires st == Q.Serve(limits, st0, req, id, world).0
    ensures Residency.Resident(st, key, r, Residency.WithKey(others, req))
  {
    Residency.ServeKeepsResident(limits, st0, req, id, world, key, r, others, weight);
  }

  // ----- Route counters -----

  /** One request that has run adds its class to the readings of its route. */
  lemma ReadingAdds(cfg: Config, s0: State, s: State, t: nat, route: nat, c: Counter)
    requires Tallied(cfg, s0) && Tallied(cfg, s) && t < |cfg.requests| && route < |cfg.routes|
    requires s.tasks == s0.tasks[t := s.tasks[t]] && s0.tasks[t].pc.Idle? && !s.tasks[t].pc.Idle?
    ensures Reading(s.routes[route], c) ==
      Reading(s0.routes[route], c) + (if OnRoute(cfg, t, route) then Weight(s.tasks[t].tally, c) else 0)
    ensures s.routes[route].requests == s0.routes[route].requests + (if OnRoute(cfg, t, route) then 1 else 0)
  {
    assert RouteCounted(cfg, s0, route, c) && RouteCounted(cfg, s, route, c) && TaskCounted(s0, t);
    SumUpdate(s0.tasks, TalliedOn(cfg, route, c), t, s.tasks[t]);
    SumUpdate(s0.tasks, ArrivedOn(cfg, route), t, s.tasks[t]);
  }

  /** The counters of a route, from all their readings. */
  lemma FromReadings(m0: RouteMetrics, m: RouteMetrics, kind: Class)
    requires m.requests == m0.requests + 1
    requires forall c :: Reading(m, c) == Reading(m0, c) + Weight(Some(kind), c)
    ensures m == Classified(m0.(requests := m0.requests + 1), kind)
  {
    assert Reading(m, Unrouteds) == m.unrouted && Reading(m, Nevers) == m.never && Reading(m, Hits) == m.hits;
    assert Reading(m, HitBytes) == m.hitBytes && Reading(m, Misses) == m.misses && Reading(m, MissBytes) == m.missBytes;
    assert Reading(m, Errors) == m.errors && Reading(m, NotFounds) == m.notFound;
  }

  lemma RouteAdds(cfg: Config, s0: State, s: State, t: nat, kind: Class)
    requires Tallied(cfg, s0) && Tallied(cfg, s) && t < |cfg.requests|
    requires s.tasks == s0.tasks[t := s.tasks[t]] && s0.tasks[t].pc.Idle? && !s.tasks[t].pc.Idle?
    requires s.tasks[t].tally == Some(kind)
    ensures cfg.requests[t].route < |cfg.routes|
    ensures var m := s0.routes[cfg.requests[t].route];
      s.routes[cfg.requests[t].route] == Classified(m.(requests := m.requests + 1), kind)
  {
    assert ValidRequest(cfg, cfg.requests[t]);
    var route := cfg.requests[t].route;
    forall c ensures Reading(s.routes[route], c) == Reading(s0.routes[route], c) + Weight(Some(kind), c) {
      ReadingAdds(cfg, s0, s, t, route, c);
    }
    ReadingAdds(cfg, s0, s, t, route, Hits);
    FromReadings(s0.routes[route], s.routes[route], kind);
  }

  lemma RanTallies(cfg: Config, tr0: Trace, s0: State, tr: Trace, s: State, t: nat, world: Q.World)
    requires RanFromRest(cfg, tr0, s0, tr, s, t, world)
    ensures Tallied(cfg, s0) && Tallied(cfg, s) && s.tasks == s0.tasks[t := s.tasks[t]]
  {
    CountedAlways(cfg, tr0);
    CountedAlways(cfg, tr);
    UndisturbedValid(cfg, tr, tr0, t, world);
  }

  /** A lone request changes the counters of its own route as the sequential cache does. */
  lemma LoneRequestCounts(cfg: Config, tr0: Trace, s0: State, tr: Trace, s: State, t: nat, world: Q.World, reply: Q.Reply)
    requires RanFromRest(cfg, tr0, s0, tr, s, t, world)
    requires reply == Q.Serve(LimitsOf(cfg), StoreOf(s0), cfg.requests[t], t, world).1
    ensures cfg.requests[t].route < |cfg.routes|
    ensures s.routes[cfg.requests[t].route] == Q.Counted(s0.routes[cfg.requests[t].route], cfg.requests[t].rule, reply)
  {
    LoneRequestServes(cfg, tr0, s0, tr, s, t, world);
    RanTallies(cfg, tr0, s0, tr, s, t, world);
    RouteAdds(cfg, s0, s, t, Q.ClassOf(cfg.requests[t].rule, reply));
  }
}
