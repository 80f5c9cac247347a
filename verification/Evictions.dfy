/**
 * Eviction counters: each resource is counted as evicted at most once, for the
 * host that created it and with its own size, and only after it was a miss.
 */
module Evictions {
  import opened Options
  import opened Model
  import opened Sums
  import opened Machine
  import opened Effects
  import opened Ownership
  import opened Lifecycle
  import opened Capacity
  import opened Transparency
  import opened Accounting

  ghost function EvictedOn(cfg: Config, h: nat): (int, Resource) -> int {
    (i: int, r: Resource) => if r.evicted && OnHost(cfg, i, h) then 1 else 0
  }

  ghost function EvictedBytesOn(cfg: Config, h: nat): (int, Resource) -> int {
    (i: int, r: Resource) => if r.evicted && OnHost(cfg, i, h) then |r.content.body| else 0
  }

  /** An evicted resource is out of the map for good. */
  ghost predicate Out(s: State, r: nat)
    requires r < |s.resources|
  {
    s.resources[r].evicted ==> Settled(s.resources[r].phase) && !Mapped(s.lru, s.resources[r].home)
  }

  /** The entry a request is counting is out of the map and not counted yet. */
  ghost predicate Counting(s: State, t: nat)
    requires t < |s.tasks|
  {
    s.tasks[t].pc.CountEvicted? ==>
      && !Mapped(s.lru, s.tasks[t].pc.victim)
      && forall r :: 0 <= r < |s.resources| && !s.resources[r].phase.NotYet? && s.resources[r].home == s.tasks[t].pc.victim
           ==> !s.resources[r].evicted
  }

  ghost predicate HostEvicted(cfg: Config, s: State, h: nat)
    requires h < |s.hosts|
  {
    && s.hosts[h].evictions == SumOf(s.resources, EvictedOn(cfg, h))
    && s.hosts[h].evictedBytes == SumOf(s.resources, EvictedBytesOn(cfg, h))
  }

  ghost predicate EvictionsCounted(cfg: Config, s: State) {
    && Lives(cfg, s)
    && (forall r :: 0 <= r < |s.resources| ==> Out(s, r))
    && (forall t :: 0 <= t < |s.tasks| ==> Counting(s, t))
    && (forall h :: 0 <= h < |s.hosts| ==> HostEvicted(cfg, s, h))
  }

  lemma EvictionsInit(cfg: Config)
    requires ValidConfig(cfg)
    ensures EvictionsCounted(cfg, Init(cfg))
  {
    LivesInit(cfg);
    var s := Init(cfg);
    forall h | 0 <= h < |s.hosts| ensures HostEvicted(cfg, s, h) {
      SumZero(s.resources, EvictedOn(cfg, h));
      SumZero(s.resources, EvictedBytesOn(cfg, h));
    }
  }

  /** The resource a step counts as evicted, if any. */
  ghost function Evicted(s: State, t: nat, k: Kind): Option<nat>
    requires t < |s.tasks|
  {
    var pc := s.tasks[t].pc;
    if k.Evicting? && pc.CountEvicted? && pc.victim < |s.cells| then s.cells[pc.victim].value else None
  }

  /** Only the counted resource becomes evicted, and it was not before. */
  lemma FlagStep(cfg: Config, s: State, s': State, t: nat, k: Kind, r: nat)
    requires EvictionsCounted(cfg, s) && Effect(cfg, s, s', t, k) && r < |s.resources|
    ensures s'.resources[r].evicted <==> s.resources[r].evicted || Evicted(s, t, k) == Some(r)
    ensures Evicted(s, t, k) == Some(r) ==>
      !s.resources[r].evicted && Settled(s.resources[r].phase) && s.resources[r].home == s.tasks[t].pc.victim
  {
    assert Out(s, r) && Counting(s, t);
    if Lifeless(k) {
      if Evicted(s, t, k).Some? { assert CellLives(s, s.tasks[t].pc.victim); }
    } else {
      SubjectMoves(cfg, s, s', t, k);
      if r != Subject(s, t, k) { OthersStay(cfg, s, s', t, k, r); }
    }
  }

  lemma EvictedNow(cfg: Config, s: State, s': State, t: nat, k: Kind, h: nat)
    requires EvictionsCounted(cfg, s) && Effect(cfg, s, s', t, k) && h < |s.hosts| && Evicted(s, t, k).Some?
    ensures HostEvicted(cfg, s', h)
  {
    assert HostEvicted(cfg, s, h);
    var r := Evicted(s, t, k).value;
    FlagStep(cfg, s, s', t, k, r);
    SumUpdate(s.resources, EvictedOn(cfg, h), r, s'.resources[r]);
    SumUpdate(s.resources, EvictedBytesOn(cfg, h), r, s'.resources[r]);
  }

  lemma UnevictedResource(cfg: Config, s: State, s': State, t: nat, k: Kind, r: nat)
    requires EvictionsCounted(cfg, s) && Effect(cfg, s, s', t, k) && r < |s.resources| && Evicted(s, t, k).None?
    ensures s'.resources[r].evicted == s.resources[r].evicted
    ensures s.resources[r].evicted ==> s'.resources[r].content == s.resources[r].content
  {
    FlagStep(cfg, s, s', t, k, r);
    FixedNext(cfg, s, s', t, k, r);
    assert Out(s, r);
  }

  lemma NoneEvictedNow(cfg: Config, s: State, s': State, t: nat, k: Kind, h: nat)
    requires EvictionsCounted(cfg, s) && Effect(cfg, s, s', t, k) && h < |s.hosts| && Evicted(s, t, k).None?
    ensures SumOf(s'.resources, EvictedOn(cfg, h)) == SumOf(s.resources, EvictedOn(cfg, h))
    ensures SumOf(s'.resources, EvictedBytesOn(cfg, h)) == SumOf(s.resources, EvictedBytesOn(cfg, h))
  {
    forall i | 0 <= i < |s.resources|
      ensures EvictedOn(cfg, h)(i, s.resources[i]) == EvictedOn(cfg, h)(i, s'.resources[i])
      ensures EvictedBytesOn(cfg, h)(i, s.resources[i]) == EvictedBytesOn(cfg, h)(i, s'.resources[i])
    {
      UnevictedResource(cfg, s, s', t, k, i);
    }
    SumsAgree(s.resources, s'.resources, EvictedOn(cfg, h));
    SumsAgree(s.resources, s'.resources, EvictedBytesOn(cfg, h));
  }

  lemma HostEvictedNext(cfg: Config, s: State, s': State, t: nat, k: Kind, h: nat)
    requires EvictionsCounted(cfg, s) && Effect(cfg, s, s', t, k) && h < |s.hosts|
    ensures HostEvicted(cfg, s', h)
  {
    if Evicted(s, t, k).Some? {
      EvictedNow(cfg, s, s', t, k, h);
    } else {
      assert HostEvicted(cfg, s, h);
      NoneEvictedNow(cfg, s, s', t, k, h);
      UnevictedHosts(cfg, s, s', t, k, h);
    }
  }

  lemma SumsAgree(a: seq<Resource>, b: seq<Resource>, f: (int, Resource) -> int)
    requires |a| == |b| && forall i :: 0 <= i < |a| ==> f(i, a[i]) == f(i, b[i])
    ensures SumOf(a, f) == SumOf(b, f)
  {
    SumCompare(a, f, b, f);
    SumCompare(b, f, a, f);
  }

  lemma UnevictedHosts(cfg: Config, s: State, s': State, t: nat, k: Kind, h: nat)
    requires Lives(cfg, s) && Effect(cfg, s, s', t, k) && h < |s.hosts| && Evicted(s, t, k).None?
    ensures s'.hosts[h].evictions == s.hosts[h].evictions && s'.hosts[h].evictedBytes == s.hosts[h].evictedBytes
  {
  }

  lemma OutNext(cfg: Config, s: State, s': State, t: nat, k: Kind, r: nat)
    requires EvictionsCounted(cfg, s) && Effect(cfg, s, s', t, k) && r < |s.resources|
    ensures Out(s', r)
  {
    assert Out(s, r) && Counting(s, t) && ResourceLives(cfg, s, r);
    FlagStep(cfg, s, s', t, k, r);
    FixedNext(cfg, s, s', t, k, r);
    if s'.resources[r].evicted && Mapped(s'.lru, s.resources[r].home) {
      MapGrows(cfg, s, s', t, k, s.resources[r].home);
    }
  }

  lemma CountingNext(cfg: Config, s: State, s': State, t: nat, k: Kind, u: nat)
    requires EvictionsCounted(cfg, s) && Effect(cfg, s, s', t, k) && u < |s.tasks|
    ensures Counting(s', u)
  {
    assert Counting(s, u) && TaskOwns(cfg, s, u) && TaskOwns(cfg, s, t);
    if s'.tasks[u].pc.CountEvicted? {
      if k.Popping? && u == t {
        PoppedOut(cfg, s, s', t);
      } else {
        CountingStays(cfg, s, s', t, k, u);
      }
    }
  }

  lemma PoppedOut(cfg: Config, s: State, s': State, t: nat)
    requires EvictionsCounted(cfg, s) && Effect(cfg, s, s', t, Popping)
    ensures Counting(s', t)
  {
    var v := s.lru[0].value;
    if Mapped(s'.lru, v) {
      var i :| 0 <= i < |s'.lru| && s'.lru[i].value == v;
      DistinctCells(cfg, s, 0, i + 1);
    }
    forall r | 0 <= r < |s'.resources| && s'.resources[r].home == v ensures !s'.resources[r].evicted {
      assert Out(s, r) && Mapped(s.lru, v);
    }
  }

  /** Another request that counts holds the mutex, so this step is not one on the map. */
  lemma CountingStays(cfg: Config, s: State, s': State, t: nat, k: Kind, u: nat)
    requires EvictionsCounted(cfg, s) && Effect(cfg, s, s', t, k) && u < |s.tasks|
    requires s'.tasks[u].pc.CountEvicted? && !(k.Popping? && u == t)
    ensures Counting(s', u)
  {
    CountsAlready(cfg, s, s', t, k, u);
    assert Counting(s, u) && TaskOwns(cfg, s, u) && TaskOwns(cfg, s, t);
    forall r | 0 <= r < |s'.resources| && !s'.resources[r].phase.NotYet? && s'.resources[r].home == s'.tasks[u].pc.victim
      ensures !s'.resources[r].evicted
    {
      FlagStep(cfg, s, s', t, k, r);
      FixedNext(cfg, s, s', t, k, r);
      assert Out(s, r);
    }
  }

  lemma CountsAlready(cfg: Config, s: State, s': State, t: nat, k: Kind, u: nat)
    requires Owned(cfg, s) && Effect(cfg, s, s', t, k) && u < |s.tasks|
    requires s'.tasks[u].pc.CountEvicted? && !(k.Popping? && u == t)
    ensures s.tasks[u].pc.CountEvicted? && s.tasks[u].pc.victim == s'.tasks[u].pc.victim && s'.lru == s.lru
    ensures Evicted(s, t, k).None?
  {
    assert TaskOwns(cfg, s, u) && TaskOwns(cfg, s, t);
  }

  lemma EvictionsNext(cfg: Config, s: State, s': State, t: nat, k: Kind)
    requires EvictionsCounted(cfg, s) && Effect(cfg, s, s', t, k)
    ensures EvictionsCounted(cfg, s')
  {
    LivesNext(cfg, s, s', t, k);
    forall r | 0 <= r < |s'.resources| ensures Out(s', r) { OutNext(cfg, s, s', t, k, r); }
    forall u | 0 <= u < |s'.tasks| ensures Counting(s', u) { CountingNext(cfg, s, s', t, k, u); }
    forall h | 0 <= h < |s'.hosts| ensures HostEvicted(cfg, s', h) { HostEvictedNext(cfg, s, s', t, k, h); }
  }

  lemma {:induction false} EvictionsAlways(cfg: Config, tr: Trace)
    requires Valid(cfg, tr)
    ensures EvictionsCounted(cfg, Final(cfg, tr))
  {
    match tr
    case Start => EvictionsInit(cfg);
    case Then(before, t, a) =>
      EvictionsAlways(cfg, before);
      var k := StepEffect(cfg, Final(cfg, before), t, a);
      EvictionsNext(cfg, Final(cfg, before), Final(cfg, tr), t, k);
  }

  /**
   * No eviction goes uncounted. A request that pops an entry cannot be cancelled
   * before it looks into the entry's cell; if the cell is filled then, its
   * resource is counted, for the first time, for the host that created it and
   * with its own size, and no other counter changes.
   */
  lemma PopIsCounted(cfg: Config, tr: Trace, s: State, t: nat, a: Action, s': State)
    requires Reaches(cfg, tr, s) && CanStep(cfg, s, t, a) && s' == Next(cfg, s, t, a)
    ensures s.tasks[t].pc.Evict? && s.lru != [] ==>
      s'.tasks[t].pc.CountEvicted? && s'.tasks[t].pc.victim == s.lru[0].value && s'.lru == s.lru[1..]
    ensures s.tasks[t].pc.CountEvicted? ==> a.Go?
    ensures s.tasks[t].pc.CountEvicted? && s.cells[s.tasks[t].pc.victim].value.Some? ==>
      var r := s.cells[s.tasks[t].pc.victim].value.value;
      var h := cfg.requests[r].host;
      && r < |s.resources| && !s.resources[r].evicted && s'.resources[r].evicted
      && h < |s.hosts| && s'.hosts == s.hosts[h := s'.hosts[h]]
      && s'.hosts[h].evictions == s.hosts[h].evictions + 1
      && s'.hosts[h].evictedBytes == s.hosts[h].evictedBytes + |s.resources[r].content.body|
  {
    EvictionsAlways(cfg, tr);
    var pc := s.tasks[t].pc;
    if pc.CountEvicted? && s.cells[pc.victim].value.Some? {
      assert Counting(s, t) && CellLives(s, pc.victim);
      assert ValidRequest(cfg, cfg.requests[s.cells[pc.victim].value.value]);
    }
  }

  /** A creator that has filled its cell and not yet been counted as a miss. */
  ghost function Filled(cfg: Config, s: State, h: nat, byBytes: bool): (int, Task) -> int
  {
    (i: int, x: Task) =>
      if OnHost(cfg, i, h) && x.pc.Classify? && x.tally.None? && 0 <= i < |s.resources|
      then if byBytes then |s.resources[i].content.body| else 1
      else 0
  }

  /** An evicted resource was its creator's miss, or is about to be counted as that. */
  lemma EvictedAfterMiss(cfg: Config, s: State, i: nat)
    requires EvictionsCounted(cfg, s) && Told(cfg, s) && Tallied(cfg, s) && i < |s.resources| && s.resources[i].evicted
    ensures var x := s.tasks[i];
      || x.tally == Some(Miss(|s.resources[i].content.body|))
      || (x.pc.Classify? && x.tally.None?)
  {
    assert Out(s, i) && ResourceTold(cfg, s, i) && TaskTold(cfg, s, i) && TaskCounted(s, i);
  }

  /** Each evicted resource is one miss, of the same size and host. */
  lemma EvictedIsMiss(cfg: Config, s: State, i: nat, h: nat)
    requires EvictionsCounted(cfg, s) && Told(cfg, s) && Tallied(cfg, s) && i < |s.resources|
    ensures EvictedOn(cfg, h)(i, s.resources[i]) <= HostTallied(cfg, h, Misses)(i, s.tasks[i]) + Filled(cfg, s, h, false)(i, s.tasks[i])
    ensures EvictedBytesOn(cfg, h)(i, s.resources[i]) <=
      HostTallied(cfg, h, MissBytes)(i, s.tasks[i]) + Filled(cfg, s, h, true)(i, s.tasks[i])
  {
    var x := s.tasks[i];
    var size := |s.resources[i].content.body|;
    var count, bytes := Weight(x.tally, Misses), Weight(x.tally, MissBytes);
    var soon, soonBytes := Filled(cfg, s, h, false)(i, x), Filled(cfg, s, h, true)(i, x);
    assert count >= 0 && bytes >= 0 && soon >= 0 && soonBytes >= 0;
    if s.resources[i].evicted && OnHost(cfg, i, h) {
      EvictedAfterMiss(cfg, s, i);
      if x.tally.Some? {
        assert count == 1 && bytes == size;
      } else {
        assert soon == 1 && soonBytes == size;
      }
    }
  }

  /**
   * Evictions of a host, in number and in bytes, are at most its misses over all
   * routes, plus the resources filled and about to be counted as misses.
   */
  lemma EvictionsAtMostMisses(cfg: Config, tr: Trace, s: State, h: nat)
    requires Reaches(cfg, tr, s) && h < cfg.hosts
    ensures && s.hosts[h].evictions <= SumOf(s.routes, HostReading(cfg, h, Misses)) + SumOf(s.tasks, Filled(cfg, s, h, false))
      && s.hosts[h].evictedBytes <= SumOf(s.routes, HostReading(cfg, h, MissBytes)) + SumOf(s.tasks, Filled(cfg, s, h, true))
  {
    EvictionsAlways(cfg, tr);
    ToldAlways(cfg, tr);
    CountedAlways(cfg, tr);
    assert HostEvicted(cfg, s, h) && HostCounted(cfg, s, h, Misses) && HostCounted(cfg, s, h, MissBytes);
    var count := (i: int, x: Task) => HostTallied(cfg, h, Misses)(i, x) + Filled(cfg, s, h, false)(i, x);
    var bytes := (i: int, x: Task) => HostTallied(cfg, h, MissBytes)(i, x) + Filled(cfg, s, h, true)(i, x);
    forall i | 0 <= i < |s.resources|
      ensures EvictedOn(cfg, h)(i, s.resources[i]) <= count(i, s.tasks[i])
      ensures EvictedBytesOn(cfg, h)(i, s.resources[i]) <= bytes(i, s.tasks[i])
    {
      EvictedIsMiss(cfg, s, i, h);
    }
    SumCompare(s.resources, EvictedOn(cfg, h), s.tasks, count);
    SumCompare(s.resources, EvictedBytesOn(cfg, h), s.tasks, bytes);
    SumPlus(s.tasks, HostTallied(cfg, h, Misses), Filled(cfg, s, h, false), count);
    SumPlus(s.tasks, HostTallied(cfg, h, MissBytes), Filled(cfg, s, h, true), bytes);
  }

  /** At rest, a host has evicted no more than it missed. */
  lemma EvictionsAtRest(cfg: Config, tr: Trace, s: State, h: nat)
    requires Reaches(cfg, tr, s) && h < cfg.hosts && Quiescent(s)
    ensures && s.hosts[h].evictions <= SumOf(s.routes, HostReading(cfg, h, Misses))
      && s.hosts[h].evictedBytes <= SumOf(s.routes, HostReading(cfg, h, MissBytes))
  {
    EvictionsAtMostMisses(cfg, tr, s, h);
    SumZero(s.tasks, Filled(cfg, s, h, false));
    SumZero(s.tasks, Filled(cfg, s, h, true));
  }
}
