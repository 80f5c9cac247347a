/**
 * The disk gauges: at every step each host's gauges are exactly the files its
 * requests have counted and not yet uncounted.
 */
module Gauges {
  import opened Model
  import opened Recency
  import opened Sums
  import opened Machine
  import opened Effects
  import opened Ownership
  import opened Lifecycle
  import opened Capacity
  import opened Transparency

  /** Counted in the gauges: from the creation of the resource until its destructor. */
  ghost predicate Present(p: Phase) {
    p.Counted? || p.Stored? || p.Dying?
  }

  ghost function BytesOn(cfg: Config, h: nat): (int, Resource) -> int {
    (i: int, r: Resource) => if Present(r.phase) && OnHost(cfg, i, h) then |r.content.body| else 0
  }

  ghost function FilesOn(cfg: Config, h: nat): (int, Resource) -> int {
    (i: int, r: Resource) => if Present(r.phase) && OnHost(cfg, i, h) then 1 else 0
  }

  ghost function PresentBytes(): (int, Resource) -> int {
    (i: int, r: Resource) => if Present(r.phase) then |r.content.body| else 0
  }

  ghost function HostBytes(): (int, HostMetrics) -> int {
    (i: int, m: HostMetrics) => m.bytes
  }

  ghost predicate HostGauged(cfg: Config, s: State, h: nat)
    requires h < |s.hosts|
  {
    && s.hosts[h].bytes == SumOf(s.resources, BytesOn(cfg, h))
    && s.hosts[h].files == SumOf(s.resources, FilesOn(cfg, h))
  }

  ghost predicate Gauged(cfg: Config, s: State) {
    && Balanced(cfg, s)
    && (forall h :: 0 <= h < |s.hosts| ==> HostGauged(cfg, s, h))
    && SumOf(s.hosts, HostBytes()) == SumOf(s.resources, PresentBytes())
  }

  lemma GaugedInit(cfg: Config)
    requires ValidConfig(cfg)
    ensures Gauged(cfg, Init(cfg))
  {
    BalancedInit(cfg);
    var s := Init(cfg);
    forall h | 0 <= h < |s.hosts| ensures HostGauged(cfg, s, h) {
      SumZero(s.resources, BytesOn(cfg, h));
      SumZero(s.resources, FilesOn(cfg, h));
    }
    SumZero(s.resources, PresentBytes());
    SumZero(s.hosts, HostBytes());
  }

  /** How the step changes the gauges: +1 for a new file, -1 for a dying one. */
  ghost function Sign(k: Kind): int {
    if k.Filing? then 1 else if k.Uncounting? then -1 else 0
  }

  /** The resource whose record a step may rewrite. */
  ghost function Rewritten(s: State, t: nat, k: Kind): nat
    requires t < |s.tasks|
  {
    if !Lifeless(k) then Subject(s, t, k)
    else
      var pc := s.tasks[t].pc;
      if k.Evicting? && pc.CountEvicted? && pc.victim < |s.cells| && s.cells[pc.victim].value.Some?
      then s.cells[pc.victim].value.value else t
  }

  /** It keeps its content, and its presence on disk changes as the gauges do. */
  ghost predicate Rewrites(s: State, s': State, k: Kind, r: nat) {
    && r < |s.resources| && |s'.resources| == |s.resources|
    && s'.resources == s.resources[r := s'.resources[r]]
    && var x, y := s.resources[r], s'.resources[r];
    && (!k.Granting? ==> y.content == x.content)
    && (k.Granting? ==> !Present(x.phase) && !Present(y.phase))
    && (Present(y.phase) <==> k.Filing? || (Present(x.phase) && !k.Uncounting?))
    && (Present(x.phase) <==> k.Uncounting? || (Present(y.phase) && !k.Filing?))
  }

  lemma RewrittenIdly(cfg: Config, s: State, s': State, t: nat, k: Kind)
    requires Balanced(cfg, s) && Effect(cfg, s, s', t, k) && Lifeless(k)
    ensures Rewrites(s, s', k, Rewritten(s, t, k))
  {
    SamePhases(cfg, s, s', t, k, Rewritten(s, t, k));
  }

  lemma RewrittenLively(cfg: Config, s: State, s': State, t: nat, k: Kind)
    requires Balanced(cfg, s) && Effect(cfg, s, s', t, k) && !Lifeless(k)
    ensures Rewrites(s, s', k, Subject(s, t, k))
  {
    SubjectMoves(cfg, s, s', t, k);
  }

  lemma RewrittenAs(cfg: Config, s: State, s': State, t: nat, k: Kind)
    requires Balanced(cfg, s) && Effect(cfg, s, s', t, k)
    ensures Rewrites(s, s', k, Rewritten(s, t, k))
  {
    if Lifeless(k) { RewrittenIdly(cfg, s, s', t, k); } else { RewrittenLively(cfg, s, s', t, k); }
  }

  lemma HostsChange(cfg: Config, s: State, s': State, t: nat, k: Kind, h: nat)
    requires Balanced(cfg, s) && Effect(cfg, s, s', t, k) && h < |s.hosts|
    ensures Sign(k) == 0 ==> s'.hosts[h].bytes == s.hosts[h].bytes && s'.hosts[h].files == s.hosts[h].files
    ensures Sign(k) != 0 ==>
      var r := Subject(s, t, k);
      var d := if OnHost(cfg, r, h) then Sign(k) else 0;
      && s'.hosts[h].bytes == s.hosts[h].bytes + d * |s.resources[r].content.body|
      && s'.hosts[h].files == s.hosts[h].files + d
  {
  }

  lemma HostGaugedNext(cfg: Config, s: State, s': State, t: nat, k: Kind, h: nat)
    requires Gauged(cfg, s) && Effect(cfg, s, s', t, k) && h < |s.hosts|
    ensures HostGauged(cfg, s', h)
  {
    assert HostGauged(cfg, s, h);
    var r := Rewritten(s, t, k);
    RewrittenAs(cfg, s, s', t, k);
    HostsChange(cfg, s, s', t, k, h);
    SumUpdate(s.resources, BytesOn(cfg, h), r, s'.resources[r]);
    SumUpdate(s.resources, FilesOn(cfg, h), r, s'.resources[r]);
  }

  lemma HostsTotal(cfg: Config, s: State, s': State, t: nat, k: Kind)
    requires Gauged(cfg, s) && Effect(cfg, s, s', t, k)
    ensures Sign(k) == 0 ==> SumOf(s'.hosts, HostBytes()) == SumOf(s.hosts, HostBytes())
    ensures Sign(k) != 0 ==>
      SumOf(s'.hosts, HostBytes()) == SumOf(s.hosts, HostBytes()) + Sign(k) * |s.resources[Subject(s, t, k)].content.body|
  {
    if k.Evicting? {
      var v := s.cells[s.tasks[t].pc.victim].value;
      if v.Some? {
        var h := cfg.requests[v.value].host;
        SumUpdate(s.hosts, HostBytes(), h, s'.hosts[h]);
      }
    } else if Sign(k) != 0 {
      var h := cfg.requests[Subject(s, t, k)].host;
      SumUpdate(s.hosts, HostBytes(), h, s'.hosts[h]);
    }
  }

  lemma TotalNext(cfg: Config, s: State, s': State, t: nat, k: Kind)
    requires Gauged(cfg, s) && Effect(cfg, s, s', t, k)
    ensures SumOf(s'.hosts, HostBytes()) == SumOf(s'.resources, PresentBytes())
  {
    var r := Rewritten(s, t, k);
    RewrittenAs(cfg, s, s', t, k);
    SumUpdate(s.resources, PresentBytes(), r, s'.resources[r]);
    HostsTotal(cfg, s, s', t, k);
  }

  lemma GaugedNext(cfg: Config, s: State, s': State, t: nat, k: Kind)
    requires Gauged(cfg, s) && Effect(cfg, s, s', t, k)
    ensures Gauged(cfg, s')
  {
    BalancedNext(cfg, s, s', t, k);
    forall h | 0 <= h < |s'.hosts| ensures HostGauged(cfg, s', h) {
      HostGaugedNext(cfg, s, s', t, k, h);
    }
    TotalNext(cfg, s, s', t, k);
  }

  lemma {:induction false} GaugedAlways(cfg: Config, tr: Trace)
    requires Valid(cfg, tr)
    ensures Gauged(cfg, Final(cfg, tr))
  {
    match tr
    case Start => GaugedInit(cfg);
    case Then(before, t, a) =>
      GaugedAlways(cfg, before);
      var k := StepEffect(cfg, Final(cfg, before), t, a);
      GaugedNext(cfg, Final(cfg, before), Final(cfg, tr), t, k);
  }

  /** How far the counted resources exceed their reservations. */
  ghost function Overdraft(): (int, Resource) -> int {
    (i: int, r: Resource) => if Present(r.phase) then |r.content.body| - r.reserved else 0
  }

  /** No gauge is ever negative. */
  lemma GaugesNonNegative(cfg: Config, tr: Trace, s: State, h: nat)
    requires Reaches(cfg, tr, s) && h < cfg.hosts
    ensures s.hosts[h].bytes >= 0 && s.hosts[h].files >= 0
  {
    GaugedAlways(cfg, tr);
    assert HostGauged(cfg, s, h);
    var zero := (i: int, r: Resource) => 0;
    SumZero(s.resources, zero);
    SumMonotone(s.resources, zero, BytesOn(cfg, h));
    SumMonotone(s.resources, zero, FilesOn(cfg, h));
  }

  /**
   * At every step, the bytes that all hosts report are at most what is taken
   * from the pool, plus what counted resources were granted short of their size.
   */
  lemma GaugesBounded(cfg: Config, tr: Trace, s: State)
    requires Reaches(cfg, tr, s)
    ensures SumOf(s.hosts, HostBytes()) <= cfg.capacity - s.available + SumOf(s.resources, Overdraft())
  {
    GaugedAlways(cfg, tr);
    forall i | 0 <= i < |s.resources|
      ensures PresentBytes()(i, s.resources[i]) - Overdraft()(i, s.resources[i]) <= Reservation()(i, s.resources[i])
    {
      assert ResourceBytes(s, i);
    }
    var taken := (i: int, r: Resource) => PresentBytes()(i, r) - Overdraft()(i, r);
    SumPlus(s.resources, taken, Overdraft(), PresentBytes());
    SumMonotone(s.resources, taken, Reservation());
  }

  // ----- At rest -----

  /** The file, or the bytes, of an entry of the map under a host key. */
  ghost function EntryOn(s: State, h: nat, bytes: bool): (int, Entry<Key, nat>) -> int {
    (i: int, e: Entry<Key, nat>) =>
      if e.key.host == h && e.value < |s.cells| && s.cells[e.value].value.Some? && s.cells[e.value].value.value < |s.resources|
      then if bytes then |s.resources[s.cells[e.value].value.value].content.body| else 1
      else 0
  }

  /** At rest, only what the map retains is present. */
  lemma OnlyRetained(cfg: Config, s: State, weight: (int, Resource) -> int)
    requires Balanced(cfg, s) && Quiescent(s)
    requires forall i, r: Resource :: !Present(r.phase) ==> weight(i, r) == 0
    ensures SumOf(s.resources, weight) == SumOf(s.lru, EntryOf(s, weight))
  {
    SplitAll(cfg, s, weight);
    forall r | 0 <= r < |s.resources| ensures Others(s, weight, |s.lru|)(r, s.resources[r]) == 0 {
      NothingElse(cfg, s, weight, r);
    }
    SumZero(s.resources, Others(s, weight, |s.lru|));
  }

  /** The host key of an entry is that of the request that made its resource. */
  lemma EntryHost(cfg: Config, s: State, i: nat)
    requires Balanced(cfg, s) && Told(cfg, s) && i < |s.lru|
    ensures var v := s.cells[s.lru[i].value].value;
      v.Some? ==> v.value < |s.resources| && s.resources[v.value].phase.Stored?
                  && cfg.requests[v.value].host == s.lru[i].key.host
  {
    EntryReserved(cfg, s, i);
    var c := s.lru[i].value;
    assert EntryOwned(cfg, s, i) && CellLives(s, c);
    if s.cells[c].value.Some? { assert ResourceTold(cfg, s, s.cells[c].value.value); }
  }

  /** At rest, each host's gauges are the files and bytes of its entries in the map. */
  lemma GaugesAtRest(cfg: Config, tr: Trace, s: State, h: nat)
    requires Reaches(cfg, tr, s) && Quiescent(s) && h < cfg.hosts
    ensures s.hosts[h].files == SumOf(s.lru, EntryOn(s, h, false))
    ensures s.hosts[h].bytes == SumOf(s.lru, EntryOn(s, h, true))
  {
    GaugedAlways(cfg, tr);
    ToldAlways(cfg, tr);
    assert HostGauged(cfg, s, h);
    OnlyRetained(cfg, s, FilesOn(cfg, h));
    OnlyRetained(cfg, s, BytesOn(cfg, h));
    forall i | 0 <= i < |s.lru|
      ensures EntryOf(s, FilesOn(cfg, h))(i, s.lru[i]) == EntryOn(s, h, false)(i, s.lru[i])
      ensures EntryOf(s, BytesOn(cfg, h))(i, s.lru[i]) == EntryOn(s, h, true)(i, s.lru[i])
    {
      EntryHost(cfg, s, i);
    }
    SumSame(s.lru, EntryOf(s, FilesOn(cfg, h)), EntryOn(s, h, false));
    SumSame(s.lru, EntryOf(s, BytesOn(cfg, h)), EntryOn(s, h, true));
  }

  /** At rest, all hosts together report exactly the bytes that the map retains. */
  lemma GaugesTotalAtRest(cfg: Config, tr: Trace, s: State)
    requires Reaches(cfg, tr, s) && Quiescent(s)
    ensures SumOf(s.hosts, HostBytes()) == RetainedBytes(s) == cfg.capacity - s.available
  {
    GaugedAlways(cfg, tr);
    NoLeak(cfg, tr, s);
    OnlyRetained(cfg, s, PresentBytes());
    forall i | 0 <= i < |s.lru| ensures EntryOf(s, PresentBytes())(i, s.lru[i]) == EntryOf(s, Sizes())(i, s.lru[i]) {
      EntryReserved(cfg, s, i);
    }
    SumSame(s.lru, EntryOf(s, PresentBytes()), EntryOf(s, Sizes()));
  }
}
