/**
 * The residency guarantee: when requests do not overlap, a filled and unexpired
 * key still hits as long as the other keys requested since then are few enough
 * and small enough.
 */
module Residency {
  import opened Options
  import opened Model
  import opened Recency
  import opened Sequential

  // ----- Weights of sets of keys -----

  ghost function SumOver(keys: set<Key>, weight: Key -> nat): nat {
    if keys == {} then 0 else var k :| k in keys; weight(k) + SumOver(keys - {k}, weight)
  }

  lemma {:induction false} SumOverRemove(keys: set<Key>, weight: Key -> nat, x: Key)
    requires x in keys
    ensures SumOver(keys, weight) == weight(x) + SumOver(keys - {x}, weight)
    decreases |keys|
  {
    var k :| k in keys && SumOver(keys, weight) == weight(k) + SumOver(keys - {k}, weight);
    if k != x {
      SumOverRemove(keys - {k}, weight, x);
      SumOverRemove(keys - {x}, weight, k);
      assert keys - {k} - {x} == keys - {x} - {k};
    }
  }

  lemma {:induction false} SumOverSubset(a: set<Key>, b: set<Key>, weight: Key -> nat)
    requires a <= b
    ensures SumOver(a, weight) <= SumOver(b, weight) && |a| <= |b|
    decreases |b|
  {
    if a != {} {
      var x :| x in a;
      SumOverRemove(a, weight, x);
      SumOverRemove(b, weight, x);
      SumOverSubset(a - {x}, b - {x}, weight);
    }
  }

  ghost predicate Within(es: seq<Slot>, keys: set<Key>, weight: Key -> nat) {
    forall i :: 0 <= i < |es| ==> es[i].key in keys && Held(es[i].value) <= weight(es[i].key)
  }

  /** Entries with distinct keys are no more, and hold no more, than their keys allow. */
  lemma {:induction false} DistinctWithin(es: seq<Slot>, keys: set<Key>, weight: Key -> nat)
    requires DistinctKeys(es) && Within(es, keys, weight)
    ensures |es| <= |keys| && HeldIn(es) <= SumOver(keys, weight)
    decreases |es|
  {
    if es != [] {
      var k := es[0].key;
      SumOverRemove(keys, weight, k);
      DistinctWithin(es[1..], keys - {k}, weight);
    }
  }

  // ----- One request -----

  ghost predicate Weighed(st: Store, weight: Key -> nat) {
    forall i :: 0 <= i < |st.entries| ==> Held(st.entries[i].value) <= weight(st.entries[i].key)
  }

  /** The key keeps its resource at position i, and only other keys from the set were used since. */
  ghost predicate ResidentAt(st: Store, i: nat, key: Key, r: Cached, others: set<Key>) {
    && i < |st.entries| && st.entries[i] == Entry(key, Some(r))
    && forall j :: i < j < |st.entries| ==> st.entries[j].key in others
  }

  ghost predicate Resident(st: Store, key: Key, r: Cached, others: set<Key>) {
    exists i: nat :: ResidentAt(st, i, key, r, others)
  }

  lemma LookupKeepsResident(limits: Limits, st: Store, q: Key, now: int, i: nat, key: Key, r: Cached,
                            others: set<Key>, weight: Key -> nat)
    requires AtRest(limits, st) && Weighed(st, weight) && ResidentAt(st, i, key, r, others)
    requires q != key && |others + {q}| < limits.maxFiles
    ensures Resident(LookedUp(limits, st, q, now), key, r, others + {q})
    ensures Weighed(LookedUp(limits, st, q, now), weight)
  {
    match Find(st.entries, q)
    case Some(j) => FoundKeepsResident(limits, st, q, now, j, i, key, r, others, weight);
    case None => NewKeepsResident(limits, st, q, now, i, key, r, others, weight);
  }

  lemma FoundKeepsResident(limits: Limits, st: Store, q: Key, now: int, j: nat, i: nat, key: Key, r: Cached,
                           others: set<Key>, weight: Key -> nat)
    requires AtRest(limits, st) && Weighed(st, weight) && ResidentAt(st, i, key, r, others)
    requires q != key && Find(st.entries, q) == Some(j)
    ensures Resident(LookedUp(limits, st, q, now), key, r, others + {q})
    ensures Weighed(LookedUp(limits, st, q, now), weight)
  {
    var v := if CellExpired(st.entries[j].value, now) then None else st.entries[j].value;
    var st1 := LookedUp(limits, st, q, now);
    assert st1.entries == Promote(st.entries, j, v);
    PromotedWeighed(st, st1, j, v, weight);
    PromotedResident(st, st1, j, v, i, key, r, others);
  }

  lemma PromotedWeighed(st: Store, st1: Store, j: nat, v: Option<Cached>, weight: Key -> nat)
    requires Weighed(st, weight) && j < |st.entries| && st1.entries == Promote(st.entries, j, v)
    requires Held(v) <= Held(st.entries[j].value)
    ensures Weighed(st1, weight)
  {
    forall m | 0 <= m < |st1.entries| ensures Held(st1.entries[m].value) <= weight(st1.entries[m].key) {
      var before := if m < j then m else if m < |st.entries| - 1 then m + 1 else j;
      assert Held(st.entries[before].value) <= weight(st.entries[before].key);
    }
  }

  lemma PromotedResident(st: Store, st1: Store, j: nat, v: Option<Cached>, i: nat, key: Key, r: Cached, others: set<Key>)
    requires j < |st.entries| && st1.entries == Promote(st.entries, j, v) && ResidentAt(st, i, key, r, others)
    requires st.entries[j].key != key
    ensures Resident(st1, key, r, others + {st.entries[j].key})
  {
    var p := if j < i then i - 1 else i;
    forall m | p < m < |st1.entries| ensures st1.entries[m].key in others + {st.entries[j].key} {
      var before := if m < j then m else if m < |st.entries| - 1 then m + 1 else j;
      assert st1.entries[m].key == st.entries[before].key;
    }
    assert ResidentAt(st1, p, key, r, others + {st.entries[j].key});
  }

  lemma NewKeepsResident(limits: Limits, st: Store, q: Key, now: int, i: nat, key: Key, r: Cached,
                         others: set<Key>, weight: Key -> nat)
    requires AtRest(limits, st) && Weighed(st, weight) && ResidentAt(st, i, key, r, others)
    requires q != key && Find(st.entries, q).None? && |others + {q}| < limits.maxFiles
    ensures Resident(LookedUp(limits, st, q, now), key, r, others + {q})
    ensures Weighed(LookedUp(limits, st, q, now), weight)
  {
    var full := |st.entries| == limits.maxFiles;
    if full { NotOldest(limits, st, q, i, key, r, others, weight); }
    assert ResidentAt(LookedUp(limits, st, q, now), if full then i - 1 else i, key, r, others + {q});
  }

  /** In a full map, the resident entry is not the one that a new key pushes out. */
  lemma NotOldest(limits: Limits, st: Store, q: Key, i: nat, key: Key, r: Cached, others: set<Key>, weight: Key -> nat)
    requires AtRest(limits, st) && Weighed(st, weight) && ResidentAt(st, i, key, r, others)
    requires |others + {q}| < limits.maxFiles && |st.entries| == limits.maxFiles
    requires forall j :: 0 <= j < |st.entries| ==> st.entries[j].key != q
    ensures i > 0
  {
    var later := st.entries[i + 1..];
    DistinctWithin(later, (others + {q}) - {q}, weight);
  }

  lemma FillKeepsResident(limits: Limits, st: Store, id: nat, content: Content, expiresAt: Option<int>,
                          i: nat, key: Key, r: Cached, others: set<Key>, weight: Key -> nat)
    requires Waiting(limits, st) && Weighed(st, weight) && ResidentAt(st, i, key, r, others)
    requires st.entries[|st.entries| - 1].key in others
    requires |content.body| <= weight(st.entries[|st.entries| - 1].key)
    requires |r.content.body| + SumOver(others, weight) <= limits.capacity
    ensures Resident(Fill(st, id, content, expiresAt), key, r, others)
  {
    var n, size := |st.entries|, |content.body|;
    var k := Pops(st.available, st.entries, size);
    RoomBefore(limits, st, size, i, key, r, others, weight);
    PopsAtMost(st.available, st.entries, size, i);
    assert ResidentAt(Fill(st, id, content, expiresAt), i - k, key, r, others);
  }

  /** The entries older than the resident one are enough to make room. */
  lemma RoomBefore(limits: Limits, st: Store, size: nat, i: nat, key: Key, r: Cached, others: set<Key>, weight: Key -> nat)
    requires Waiting(limits, st) && Weighed(st, weight) && ResidentAt(st, i, key, r, others)
    requires st.entries[|st.entries| - 1].key in others
    requires size <= weight(st.entries[|st.entries| - 1].key)
    requires |r.content.body| + SumOver(others, weight) <= limits.capacity
    ensures i < |st.entries| - 1 && size <= st.available + HeldIn(st.entries[..i])
  {
    var n := |st.entries|;
    var q := st.entries[n - 1].key;
    var mid := st.entries[i + 1..n - 1];
    DistinctWithin(mid, others - {q}, weight);
    SumOverRemove(others, weight, q);
    FreedTotal(limits, st, i);
    assert st.entries[i..] == [st.entries[i]] + mid + [st.entries[n - 1]];
    HeldAppend([st.entries[i]] + mid, [st.entries[n - 1]]);
    HeldAppend([st.entries[i]], mid);
    HeldOne(st.entries[i]);
    HeldOne(st.entries[n - 1]);
    assert FullyHeld(st.entries[i].value);
  }

  /** The keys in use once a request has been served. */
  ghost function WithKey(others: set<Key>, req: Request): set<Key> {
    if Looks(req.rule) then others + {Key(req.host, req.path)} else others
  }

  lemma ServeKeepsResident(limits: Limits, st: Store, req: Request, id: nat, world: World,
                           key: Key, r: Cached, others: set<Key>, weight: Key -> nat)
    requires AtRest(limits, st) && Weighed(st, weight) && Resident(st, key, r, others)
    requires Looks(req.rule) ==> Key(req.host, req.path) != key
    requires |WithKey(others, req)| < limits.maxFiles
    requires |r.content.body| + SumOver(WithKey(others, req), weight) <= limits.capacity
    requires var reply := Serve(limits, st, req, id, world).1;
      reply.Body? && reply.outcome.AMiss? ==> |reply.content.body| <= weight(Key(req.host, req.path))
    ensures Resident(Serve(limits, st, req, id, world).0, key, r, WithKey(others, req))
  {
    if Looks(req.rule) {
      var q := KeyOf(req);
      LookedUpAtRest(limits, st, q, req.now);
      var i: nat :| ResidentAt(st, i, key, r, others);
      LookupKeepsResident(limits, st, q, req.now, i, key, r, others, weight);
      AskingKeepsResident(limits, LookedUp(limits, st, q, req.now), req, id, world, key, r, others + {q}, weight);
    }
  }

  /** After the lookup, an empty cell is filled with what upstream finds. */
  lemma AskingKeepsResident(limits: Limits, st1: Store, req: Request, id: nat, world: World,
                            key: Key, r: Cached, used: set<Key>, weight: Key -> nat)
    requires AtRest(limits, st1) && Weighed(st1, weight) && Resident(st1, key, r, used)
    requires st1.entries != [] && st1.entries[|st1.entries| - 1].key in used
    requires |r.content.body| + SumOver(used, weight) <= limits.capacity
    requires st1.entries[|st1.entries| - 1].value.None? && world.answer.Found? ==>
      |world.answer.content.body| <= weight(st1.entries[|st1.entries| - 1].key)
    ensures st1.entries[|st1.entries| - 1].value.None? && world.answer.Found? ==>
      Resident(Fill(st1, id, world.answer.content, Expiry(req)), key, r, used)
  {
    if st1.entries[|st1.entries| - 1].value.None? && world.answer.Found? {
      var i: nat :| ResidentAt(st1, i, key, r, used);
      FillKeepsResident(limits, st1, id, world.answer.content, Expiry(req), i, key, r, used, weight);
    }
  }

  // ----- Runs -----

  /** The other keys that calls i+1 to n-1 used; disabled and uncached routes use none. */
  ghost function KeysSince(calls: seq<Call>, i: nat, n: nat): set<Key>
    requires n <= |calls|
    decreases n
  {
    if n <= i + 1 then {} else WithKey(KeysSince(calls, i, n - 1), calls[n - 1].request)
  }

  /** The largest body fetched for a key by the first n calls. */
  ghost function Largest(limits: Limits, calls: seq<Call>, n: nat, key: Key): nat
    requires 1 <= limits.maxFiles && n <= |calls|
  {
    if n == 0 then 0
    else
      var most := Largest(limits, calls, n - 1, key);
      var reply := ReplyTo(limits, calls, n - 1);
      var req := calls[n - 1].request;
      if Key(req.host, req.path) == key && reply.Body? && reply.outcome.AMiss? && |reply.content.body| > most
      then |reply.content.body| else most
  }

  ghost function LargestSizes(limits: Limits, calls: seq<Call>, n: nat): Key -> nat
    requires 1 <= limits.maxFiles && n <= |calls|
  {
    key => Largest(limits, calls, n, key)
  }

  lemma {:induction false} LargestBounds(limits: Limits, calls: seq<Call>, n: nat, m: nat)
    requires 1 <= limits.maxFiles && m < n <= |calls|
    requires ReplyTo(limits, calls, m).Body? && ReplyTo(limits, calls, m).outcome.AMiss?
    ensures |ReplyTo(limits, calls, m).content.body| <= Largest(limits, calls, n, KeyOf(calls[m].request))
  {
    if m < n - 1 { LargestBounds(limits, calls, n - 1, m); }
  }

  /** No entry holds more than the largest body fetched for its key. */
  lemma RunWeighed(limits: Limits, calls: seq<Call>, m: nat, n: nat)
    requires 1 <= limits.maxFiles && m <= n <= |calls|
    ensures Weighed(Run(limits, calls[..m]), LargestSizes(limits, calls, n))
  {
    var st := Run(limits, calls[..m]);
    RunAtRest(limits, calls[..m]);
    forall i | 0 <= i < |st.entries|
      ensures Held(st.entries[i].value) <= LargestSizes(limits, calls, n)(st.entries[i].key)
    {
      var e := st.entries[i];
      Provenance(limits, calls, m, st, e);
      assert FullyHeld(e.value);
      if e.value.Some? { LargestBounds(limits, calls, n, e.value.value.id); }
    }
  }

  lemma {:induction false} KeysSinceGrow(calls: seq<Call>, i: nat, m: nat, n: nat)
    requires m <= n <= |calls|
    ensures KeysSince(calls, i, m) <= KeysSince(calls, i, n)
    decreases n
  {
    if m < n { KeysSinceGrow(calls, i, m, n - 1); }
  }

  /** The request is served and its key is the most recent entry, filled. */
  lemma ServedIsResident(limits: Limits, calls: seq<Call>, i: nat) returns (r: Cached)
    requires 1 <= limits.maxFiles && i < |calls| && Cacheable(calls[i].request.rule)
    requires ReplyTo(limits, calls, i).Body? && |ReplyTo(limits, calls, i).content.body| <= limits.capacity
    ensures Resident(Run(limits, calls[..i + 1]), KeyOf(calls[i].request), r, {})
    ensures r.content == ReplyTo(limits, calls, i).content && r.id == ReplyTo(limits, calls, i).id
  {
    RunNext(limits, calls, i);
    var st, req := Run(limits, calls[..i]), calls[i].request;
    RunAtRest(limits, calls[..i]);
    LookedUpAtRest(limits, st, KeyOf(req), req.now);
    var st1 := LookedUp(limits, st, KeyOf(req), req.now);
    var last := |st1.entries| - 1;
    if st1.entries[last].value.Some? {
      r := st1.entries[last].value.value;
      assert ResidentAt(st1, last, KeyOf(req), r, {});
    } else {
      var content := calls[i].world.answer.content;
      FittingIsKept(limits, st1, i, content, Expiry(req));
      r := Cached(i, content, Expiry(req), Size(content));
      var st2 := Fill(st1, i, content, Expiry(req));
      assert ResidentAt(st2, |st2.entries| - 1, KeyOf(req), r, {});
    }
  }

  /** What the last n calls together leave room for. */
  ghost predicate Room(limits: Limits, calls: seq<Call>, i: nat, n: nat, r: Cached)
    requires 1 <= limits.maxFiles && n <= |calls|
  {
    && |KeysSince(calls, i, n)| < limits.maxFiles
    && Size(r.content) + SumOver(KeysSince(calls, i, n), LargestSizes(limits, calls, n)) <= limits.capacity
  }

  lemma CallKeepsResident(limits: Limits, calls: seq<Call>, i: nat, j: nat, n: nat, key: Key, r: Cached)
    requires 1 <= limits.maxFiles && i < j < n <= |calls| && Room(limits, calls, i, n, r)
    requires Resident(Run(limits, calls[..j]), key, r, KeysSince(calls, i, j))
    requires Cacheable(calls[j].request.rule) ==> KeyOf(calls[j].request) != key
    ensures Resident(Run(limits, calls[..j + 1]), key, r, KeysSince(calls, i, j + 1))
  {
    var weight := LargestSizes(limits, calls, n);
    RunNext(limits, calls, j);
    RunAtRest(limits, calls[..j]);
    RunWeighed(limits, calls, j, n);
    KeysSinceGrow(calls, i, j + 1, n);
    SumOverSubset(KeysSince(calls, i, j + 1), KeysSince(calls, i, n), weight);
    var reply := ReplyTo(limits, calls, j);
    if reply.Body? && reply.outcome.AMiss? { LargestBounds(limits, calls, n, j); }
    ServeKeepsResident(limits, Run(limits, calls[..j]), calls[j].request, j, calls[j].world, key, r,
                       KeysSince(calls, i, j), weight);
  }

  lemma {:induction false} StaysResident(limits: Limits, calls: seq<Call>, i: nat, m: nat, n: nat, key: Key, r: Cached)
    requires 1 <= limits.maxFiles && i < m <= n <= |calls| && Room(limits, calls, i, n, r)
    requires Resident(Run(limits, calls[..i + 1]), key, r, {})
    requires forall j :: i < j < n && Cacheable(calls[j].request.rule) ==> KeyOf(calls[j].request) != key
    ensures Resident(Run(limits, calls[..m]), key, r, KeysSince(calls, i, m))
    decreases m
  {
    if m > i + 1 {
      StaysResident(limits, calls, i, m - 1, n, key, r);
      CallKeepsResident(limits, calls, i, m - 1, n, key, r);
    }
  }

  /** A resident, unexpired key hits. */
  lemma ResidentHits(limits: Limits, st: Store, req: Request, id: nat, world: World, r: Cached, others: set<Key>)
    requires AtRest(limits, st) && Resident(st, KeyOf(req), r, others) && Cacheable(req.rule)
    requires !IsExpired(r.expiresAt, req.now)
    ensures Serve(limits, st, req, id, world).1 == Body(r.content, AHit, r.id, world.cloned)
  {
    var i: nat :| ResidentAt(st, i, KeyOf(req), r, others);
    var found := Find(st.entries, KeyOf(req));
    assert found.Some?;
    assert found.value == i;
  }

  /**
   * Residency. Call i was served from the cache or into it, and call j asks for
   * the same host and path again, for the first time since, while the resource
   * served is within the maximum age of the call that fetched it. If fewer than
   * `max_cache_files` other keys were used in between, and the resource and the
   * largest bodies ever fetched for those keys fit the capacity together, call j
   * is a hit on the same resource.
   */
  lemma StillHits(limits: Limits, calls: seq<Call>, i: nat, j: nat)
    requires 1 <= limits.maxFiles && i < j < |calls|
    requires Looks(calls[i].request.rule) && Looks(calls[j].request.rule) && SameKey(calls[i].request, calls[j].request)
    requires forall m :: i < m < j && Looks(calls[m].request.rule) ==> !SameKey(calls[m].request, calls[j].request)
    requires ReplyTo(limits, calls, i).Body?
    requires |KeysSince(calls, i, j)| < limits.maxFiles
    requires |ReplyTo(limits, calls, i).content.body|
             + SumOver(KeysSince(calls, i, j), LargestSizes(limits, calls, j)) <= limits.capacity
    requires var c := ReplyTo(limits, calls, i).id; c < |calls| ==> WithinAge(calls[c].request, calls[j].request.now)
    ensures ReplyTo(limits, calls, j) ==
      Body(ReplyTo(limits, calls, i).content, AHit, ReplyTo(limits, calls, i).id, calls[j].world.cloned)
  {
    var key := KeyOf(calls[j].request);
    var r := ServedIsResident(limits, calls, i);
    StaysResident(limits, calls, i, j, j, key, r);
    RunAtRest(limits, calls[..j]);
    var p: nat :| ResidentAt(Run(limits, calls[..j]), p, key, r, KeysSince(calls, i, j));
    Provenance(limits, calls, j, Run(limits, calls[..j]), Run(limits, calls[..j]).entries[p]);
    ExpiresWithAge(calls[r.id].request, calls[j].request.now);
    ResidentHits(limits, Run(limits, calls[..j]), calls[j].request, j, calls[j].world, r, KeysSince(calls, i, j));
  }
}
