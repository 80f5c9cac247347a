/**
 * The cache when requests do not overlap: what one `get` does to the store,
 * and what a sequence of them does. The classes of module `Storage` are proved
 * to compute exactly this.
 */
module Sequential {
  import opened Options
  import opened Model
  import opened Recency

  datatype Limits = Limits(capacity: nat, maxFiles: nat)

  /** A `CachedResource` with the reservation it owns. */
  datatype Cached = Cached(id: nat, content: Content, expiresAt: Option<int>, reserved: nat)

  /** An entry of the map, with an empty or a filled cell. */
  type Slot = Entry<Key, Option<Cached>>

  datatype Store = Store(available: nat, entries: seq<Slot>)

  datatype Outcome = AHit | AMiss | ANever

  /**
   * What a call of `get` comes to. A body was obtained as the outcome says; unless
   * it is sent, the handle of its file could not be cloned, and the caller gets
   * that error instead.
   */
  datatype Reply = NoBody | Failure(error: string) | Body(content: Content, outcome: Outcome, id: nat, sent: bool)

  /** What the world does to a call: how upstream answers if asked, and if a file handle can be cloned. */
  datatype World = World(answer: Answer, cloned: bool)

  function Held(v: Option<Cached>): nat {
    if v.Some? then v.value.reserved else 0
  }

  function HeldIn(es: seq<Slot>): nat {
    if es == [] then 0 else Held(es[0].value) + HeldIn(es[1..])
  }

  predicate CellExpired(v: Option<Cached>, now: int) {
    v.Some? && IsExpired(v.value.expiresAt, now)
  }

  /** The lookup: the key's entry comes last, and what it displaces is destroyed. */
  function LookedUp(limits: Limits, st: Store, key: Key, now: int): (r: Store)
    requires 1 <= limits.maxFiles
    ensures r.entries != [] && r.entries[|r.entries| - 1].key == key
  {
    match Find(st.entries, key)
    case Some(i) =>
      var v := st.entries[i].value;
      if CellExpired(v, now) then Store(st.available + Held(v), Promote(st.entries, i, None))
      else Store(st.available, Promote(st.entries, i, v))
    case None =>
      var es := Insert(st.entries, limits.maxFiles, Entry(key, None));
      if |st.entries| < limits.maxFiles then Store(st.available, es)
      else Store(st.available + Held(st.entries[0].value), es)
  }

  /** How many entries the eviction loop pops. */
  function Pops(available: nat, es: seq<Slot>, size: nat): (k: nat)
    ensures k <= |es|
    decreases es
  {
    if size <= available || es == [] then 0
    else 1 + Pops(available + Held(es[0].value), es[1..], size)
  }

  /**
   * The store after its most recent cell is filled with a new resource. If the
   * cell itself was popped, the resource dies with the request.
   */
  function Fill(st: Store, id: nat, content: Content, expiresAt: Option<int>): Store {
    var size := Size(content);
    var k := Pops(st.available, st.entries, size);
    var freed := st.available + HeldIn(st.entries[..k]);
    var kept := st.entries[k..];
    if kept == [] then Store(freed, [])
    else
      var granted := Min(size, freed);
      var last := |kept| - 1;
      Store(freed - granted, kept[last := Entry(kept[last].key, Some(Cached(id, content, expiresAt, granted)))])
  }

  predicate Cacheable(rule: Rule) {
    rule.Enabled? && !rule.maxAge.CacheNever?
  }

  /** One `get`, with the identifier it draws. */
  function Serve(limits: Limits, st: Store, req: Request, id: nat, world: World): (Store, Reply)
    requires 1 <= limits.maxFiles
  {
    if req.rule.Disabled? then (st, NoBody)
    else if req.rule.maxAge.CacheNever? then
      (st, match world.answer
           case Found(content) => Body(content, ANever, id, true)
           case NotFound => NoBody
           case Failed(error) => Failure(error))
    else
      var st1 := LookedUp(limits, st, KeyOf(req), req.now);
      var v := st1.entries[|st1.entries| - 1].value;
      if v.Some? then (st1, Body(v.value.content, AHit, v.value.id, world.cloned))
      else
        match world.answer
        case Found(content) => (Fill(st1, id, content, Expiry(req)), Body(content, AMiss, id, world.cloned))
        case NotFound => (st1, NoBody)
        case Failed(error) => (st1, Failure(error))
  }

  /** The class that a call with this rule and reply is counted under. */
  function ClassOf(rule: Rule, reply: Reply): Class {
    match reply
    case Body(content, ANever, _, _) => Never
    case Body(content, AHit, _, _) => Hit(Size(content))
    case Body(content, AMiss, _, _) => Miss(Size(content))
    case NoBody => if rule.Disabled? then Unrouted else if rule.maxAge.CacheNever? then Never else Missing
    case Failure(_) => if rule.Enabled? && rule.maxAge.CacheNever? then Never else Error
  }

  /** The counters of its route after a call. */
  function Counted(m: RouteMetrics, rule: Rule, reply: Reply): RouteMetrics {
    Classified(m.(requests := m.requests + 1), ClassOf(rule, reply))
  }

  // ----- The store at rest -----

  /** All bytes are accounted for, each entry is fully reserved, keys are distinct and few enough. */
  ghost predicate AtRest(limits: Limits, st: Store) {
    && 1 <= limits.maxFiles
    && st.available + HeldIn(st.entries) == limits.capacity
    && DistinctKeys(st.entries) && |st.entries| <= limits.maxFiles
    && forall i :: 0 <= i < |st.entries| ==> FullyHeld(st.entries[i].value)
  }

  ghost predicate FullyHeld(v: Option<Cached>) {
    v.Some? ==> v.value.reserved == |v.value.content.body|
  }

  lemma {:induction false} HeldAppend(a: seq<Slot>, b: seq<Slot>)
    ensures HeldIn(a + b) == HeldIn(a) + HeldIn(b)
  {
    if a == [] {
      assert a + b == b;
    } else {
      assert (a + b)[1..] == a[1..] + b;
      HeldAppend(a[1..], b);
    }
  }

  lemma HeldOne(e: Slot)
    ensures HeldIn([e]) == Held(e.value)
  {
    assert [e][1..] == [];
  }

  lemma HeldSplit(es: seq<Slot>, i: nat)
    requires i < |es|
    ensures HeldIn(es) == HeldIn(es[..i]) + Held(es[i].value) + HeldIn(es[i + 1..])
  {
    assert es == es[..i] + es[i..];
    HeldAppend(es[..i], es[i..]);
    assert es[i..][0] == es[i] && es[i..][1..] == es[i + 1..];
  }

  lemma HeldPromote(es: seq<Slot>, i: nat, v: Option<Cached>)
    requires i < |es|
    ensures HeldIn(Promote(es, i, v)) == HeldIn(es) - Held(es[i].value) + Held(v)
  {
    HeldSplit(es, i);
    HeldAppend(es[..i], es[i + 1..]);
    HeldAppend(es[..i] + es[i + 1..], [Entry(es[i].key, v)]);
    HeldOne(Entry(es[i].key, v));
  }

  lemma LookedUpAtRest(limits: Limits, st: Store, key: Key, now: int)
    requires AtRest(limits, st)
    ensures AtRest(limits, LookedUp(limits, st, key, now))
  {
    var es := st.entries;
    match Find(es, key)
    case Some(i) =>
      var v := if CellExpired(es[i].value, now) then None else es[i].value;
      HeldPromote(es, i, v);
      PromoteKeepsDistinct(es, i, v);
    case None =>
      var e := Entry(key, None);
      InsertKeepsDistinct(es, limits.maxFiles, e);
      HeldOne(e);
      if |es| < limits.maxFiles { HeldAppend(es, [e]); } else { HeldAppend(es[1..], [e]); }
  }

  // ----- Eviction -----

  /**
   * The eviction loop pops the shortest prefix of least recently used entries
   * that frees enough, and everything if nothing does.
   */
  lemma {:induction false} PopsShortest(available: nat, es: seq<Slot>, size: nat)
    ensures var k := Pops(available, es, size);
      && (size <= available + HeldIn(es[..k]) || k == |es|)
      && (forall j :: 0 <= j < k ==> available + HeldIn(es[..j]) < size)
    decreases es
  {
    if available < size && es != [] {
      var k := Pops(available, es, size);
      PopsShortest(available + Held(es[0].value), es[1..], size);
      forall j | 0 <= j <= k ensures j > 0 ==> HeldIn(es[..j]) == Held(es[0].value) + HeldIn(es[1..][..j - 1]) {
        if j > 0 { assert es[..j][1..] == es[1..][..j - 1]; }
      }
    }
  }

  /** The loop stops before entry i if the entries before it free enough. */
  lemma PopsAtMost(available: nat, es: seq<Slot>, size: nat, i: nat)
    requires i <= |es| && size <= available + HeldIn(es[..i])
    ensures Pops(available, es, size) <= i
  {
    PopsShortest(available, es, size);
  }

  lemma FreedTotal(limits: Limits, st: Store, k: nat)
    requires AtRest(limits, st) && k <= |st.entries|
    ensures st.available + HeldIn(st.entries[..k]) == limits.capacity - HeldIn(st.entries[k..])
  {
    assert st.entries == st.entries[..k] + st.entries[k..];
    HeldAppend(st.entries[..k], st.entries[k..]);
  }

  /** The empty cell of the request ends the map and holds nothing. */
  ghost predicate Waiting(limits: Limits, st: Store) {
    AtRest(limits, st) && st.entries != [] && st.entries[|st.entries| - 1].value.None?
  }

  lemma LastHoldsNothing(limits: Limits, st: Store)
    requires Waiting(limits, st)
    ensures st.available + HeldIn(st.entries[..|st.entries| - 1]) == limits.capacity
  {
    var n := |st.entries|;
    assert st.entries[n - 1..] == [st.entries[n - 1]];
    HeldOne(st.entries[n - 1]);
    FreedTotal(limits, st, n - 1);
  }

  /**
   * A resource that fits the capacity: after the shortest prefix is popped it
   * is the most recent entry, under the request's key, and reserved in full.
   */
  lemma FittingIsKept(limits: Limits, st: Store, id: nat, content: Content, expiresAt: Option<int>)
    requires Waiting(limits, st) && |content.body| <= limits.capacity
    ensures var size, n := |content.body|, |st.entries|;
      var k := Pops(st.available, st.entries, size);
      var st' := Fill(st, id, content, expiresAt);
      && k < n
      && st'.entries == st.entries[k..n - 1] + [Entry(st.entries[n - 1].key, Some(Cached(id, content, expiresAt, size)))]
      && st'.available == st.available + HeldIn(st.entries[..k]) - size
  {
    var size, n := |content.body|, |st.entries|;
    LastHoldsNothing(limits, st);
    PopsAtMost(st.available, st.entries, size, n - 1);
    PopsShortest(st.available, st.entries, size);
  }

  /**
   * A resource larger than the capacity empties the map, takes the whole
   * capacity, and gives it back with the end of the request.
   */
  lemma OversizedPassesThrough(limits: Limits, st: Store, id: nat, content: Content, expiresAt: Option<int>)
    requires Waiting(limits, st) && |content.body| > limits.capacity
    ensures Pops(st.available, st.entries, |content.body|) == |st.entries|
    ensures Min(|content.body|, st.available + HeldIn(st.entries)) == limits.capacity
    ensures Fill(st, id, content, expiresAt) == Store(limits.capacity, [])
  {
    var k := Pops(st.available, st.entries, |content.body|);
    PopsShortest(st.available, st.entries, |content.body|);
    FreedTotal(limits, st, k);
    assert st.entries[..|st.entries|] == st.entries;
  }

  /** What a fill that fits makes of the bytes held. */
  lemma FittingHolds(limits: Limits, st: Store, id: nat, content: Content, expiresAt: Option<int>)
    requires Waiting(limits, st) && Size(content) <= limits.capacity
    ensures var st' := Fill(st, id, content, expiresAt); st'.available + HeldIn(st'.entries) == limits.capacity
  {
    FittingIsKept(limits, st, id, content, expiresAt);
    var n, size := |st.entries|, Size(content);
    var k := Pops(st.available, st.entries, size);
    FreedTotal(limits, st, k);
    var e := Entry(st.entries[n - 1].key, Some(Cached(id, content, expiresAt, size)));
    assert st.entries[k..] == st.entries[k..n - 1] + [st.entries[n - 1]];
    HeldAppend(st.entries[k..n - 1], [st.entries[n - 1]]);
    HeldAppend(st.entries[k..n - 1], [e]);
    HeldOne(e);
    HeldOne(st.entries[n - 1]);
  }

  lemma FillAtRest(limits: Limits, st: Store, id: nat, content: Content, expiresAt: Option<int>)
    requires Waiting(limits, st)
    ensures AtRest(limits, Fill(st, id, content, expiresAt))
  {
    if Size(content) > limits.capacity {
      OversizedPassesThrough(limits, st, id, content, expiresAt);
    } else {
      FittingHolds(limits, st, id, content, expiresAt);
      FittingInOrder(limits, st, id, content, expiresAt);
    }
  }

  lemma FittingInOrder(limits: Limits, st: Store, id: nat, content: Content, expiresAt: Option<int>)
    requires Waiting(limits, st) && Size(content) <= limits.capacity
    ensures var es := Fill(st, id, content, expiresAt).entries;
      && DistinctKeys(es) && |es| <= limits.maxFiles
      && forall i :: 0 <= i < |es| ==> FullyHeld(es[i].value)
  {
    FittingIsKept(limits, st, id, content, expiresAt);
  }

  /** Every request leaves the store at rest. */
  lemma ServeAtRest(limits: Limits, st: Store, req: Request, id: nat, world: World)
    requires AtRest(limits, st)
    ensures AtRest(limits, Serve(limits, st, req, id, world).0)
  {
    if Cacheable(req.rule) {
      LookedUpAtRest(limits, st, KeyOf(req), req.now);
      var st1 := LookedUp(limits, st, KeyOf(req), req.now);
      if st1.entries[|st1.entries| - 1].value.None? && world.answer.Found? {
        FillAtRest(limits, st1, id, world.answer.content, Expiry(req));
      }
    }
  }

  // ----- Runs -----

  /** A request and what the world does to it. */
  datatype Call = Call(request: Request, world: World)

  /** The store after some calls; each draws its position as its identifier. */
  function Run(limits: Limits, calls: seq<Call>): Store
    requires 1 <= limits.maxFiles
  {
    if calls == [] then Store(limits.capacity, [])
    else
      var n := |calls| - 1;
      Serve(limits, Run(limits, calls[..n]), calls[n].request, n, calls[n].world).0
  }

  function ReplyTo(limits: Limits, calls: seq<Call>, j: nat): Reply
    requires 1 <= limits.maxFiles && j < |calls|
  {
    Serve(limits, Run(limits, calls[..j]), calls[j].request, j, calls[j].world).1
  }

  lemma {:induction false} RunAtRest(limits: Limits, calls: seq<Call>)
    requires 1 <= limits.maxFiles
    ensures AtRest(limits, Run(limits, calls))
  {
    if calls != [] {
      var n := |calls| - 1;
      RunAtRest(limits, calls[..n]);
      ServeAtRest(limits, Run(limits, calls[..n]), calls[n].request, n, calls[n].world);
    }
  }

  lemma RunNext(limits: Limits, calls: seq<Call>, j: nat)
    requires 1 <= limits.maxFiles && j < |calls|
    ensures (Run(limits, calls[..j + 1]), ReplyTo(limits, calls, j))
         == Serve(limits, Run(limits, calls[..j]), calls[j].request, j, calls[j].world)
  {
    assert calls[..j + 1][..j] == calls[..j];
  }

  // ----- Provenance -----

  /** A filled entry comes from an earlier miss on its own key. */
  ghost predicate FromMiss(limits: Limits, calls: seq<Call>, n: nat, e: Slot)
    requires 1 <= limits.maxFiles && n <= |calls|
  {
    e.value.Some? ==>
      && e.value.value.id < n
      && var i := e.value.value.id;
      && e.key.host == calls[i].request.host && e.key.path == calls[i].request.path && Looks(calls[i].request.rule)
      && ReplyTo(limits, calls, i) == Body(e.value.value.content, AMiss, i, calls[i].world.cloned)
      && calls[i].world.answer == Found(e.value.value.content)
      && e.value.value.expiresAt == Expiry(calls[i].request)
  }

  lemma LookedUpEntries(limits: Limits, st: Store, key: Key, now: int, e: Slot)
    requires 1 <= limits.maxFiles && e in LookedUp(limits, st, key, now).entries
    ensures e in st.entries || e == Entry(key, None)
  {
  }

  lemma FillEntries(st: Store, id: nat, content: Content, expiresAt: Option<int>, e: Slot)
    requires st.entries != [] && e in Fill(st, id, content, expiresAt).entries
    ensures e in st.entries
      || (e.key == st.entries[|st.entries| - 1].key && e.value.Some? && e.value.value.id == id
          && e.value.value.content == content && e.value.value.expiresAt == expiresAt)
  {
  }

  lemma {:induction false} Provenance(limits: Limits, calls: seq<Call>, n: nat, st: Store, e: Slot)
    requires 1 <= limits.maxFiles && n <= |calls| && st == Run(limits, calls[..n]) && e in st.entries
    ensures FromMiss(limits, calls, n, e)
  {
    if n > 0 && e.value.Some? {
      var j := n - 1;
      RunNext(limits, calls, j);
      var st0, req := Run(limits, calls[..j]), calls[j].request;
      if Cacheable(req.rule) {
        var st1 := LookedUp(limits, st0, KeyOf(req), req.now);
        if e in st1.entries {
          LookedUpEntries(limits, st0, KeyOf(req), req.now, e);
          Provenance(limits, calls, j, st0, e);
        } else {
          FillEntries(st1, j, calls[j].world.answer.content, Expiry(req), e);
        }
      } else {
        Provenance(limits, calls, j, st0, e);
      }
    }
  }

  /**
   * Sequential freshness and transparency: a hit serves what upstream answered
   * an earlier call for the same key, and less than that call's maximum age ago.
   */
  lemma HitsAreFresh(limits: Limits, calls: seq<Call>, j: nat)
    requires 1 <= limits.maxFiles && j < |calls|
    requires ReplyTo(limits, calls, j).Body? && ReplyTo(limits, calls, j).outcome.AHit?
    ensures var i := ReplyTo(limits, calls, j).id;
      && i < j && calls[i].request.host == calls[j].request.host && calls[i].request.path == calls[j].request.path
      && calls[i].world.answer == Found(ReplyTo(limits, calls, j).content)
      && ReplyTo(limits, calls, i) == Body(ReplyTo(limits, calls, j).content, AMiss, i, calls[i].world.cloned)
      && calls[i].request.rule.Enabled?
      && (calls[i].request.rule.maxAge.CacheFor? ==>
            calls[j].request.now < calls[i].request.now + calls[i].request.rule.maxAge.duration)
  {
    var st, req := Run(limits, calls[..j]), calls[j].request;
    var st1 := LookedUp(limits, st, KeyOf(req), req.now);
    var e := st1.entries[|st1.entries| - 1];
    LookedUpEntries(limits, st, KeyOf(req), req.now, e);
    Provenance(limits, calls, j, st, e);
    assert !CellExpired(e.value, req.now);
  }
}
