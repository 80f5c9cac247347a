/**
 * The byte budget. Every byte of the capacity is either available or reserved
 * by exactly one resource, what the map retains is reserved in full, and
 * nothing is lost when the system is at rest.
 */
module Capacity {
  import opened Options
  import opened Model
  import opened Recency
  import opened Sums
  import opened Machine
  import opened Effects
  import opened Ownership
  import opened Lifecycle

  ghost function Reservation(): (int, Resource) -> int {
    (i: int, r: Resource) => r.reserved
  }

  ghost predicate ResourceBytes(s: State, r: nat)
    requires r < |s.resources|
  {
    var x := s.resources[r];
    && x.reserved <= |x.content.body|
    && (x.phase.NotYet? || x.phase.Freed? ==> x.reserved == 0)
    && (!x.phase.NotYet? && Mapped(s.lru, x.home) ==> x.reserved == |x.content.body|)
  }

  ghost predicate TaskBytes(cfg: Config, s: State, t: nat)
    requires WellFormed(cfg, s) && t < |s.tasks|
  {
    var pc := s.tasks[t].pc;
    && (pc.ReserveUpTo? ==> s.lru == [])
    && (SnapOf(pc).Some? ==>
          SnapOf(pc).value + (if pc.Return? then s.resources[pc.resource].reserved else 0) <= cfg.capacity)
  }

  ghost predicate Balanced(cfg: Config, s: State) {
    && Lives(cfg, s)
    && s.available + SumOf(s.resources, Reservation()) == cfg.capacity
    && (forall r :: 0 <= r < |s.resources| ==> ResourceBytes(s, r))
    && (forall t :: 0 <= t < |s.tasks| ==> TaskBytes(cfg, s, t))
  }

  lemma BalancedInit(cfg: Config)
    requires ValidConfig(cfg)
    ensures Balanced(cfg, Init(cfg))
  {
    LivesInit(cfg);
    SumZero(Init(cfg).resources, Reservation());
  }

  // ----- Conservation -----

  lemma SumKept(cfg: Config, s: State, s': State, t: nat, k: Kind)
    requires Balanced(cfg, s) && Effect(cfg, s, s', t, k)
    ensures s'.available + SumOf(s'.resources, Reservation()) == cfg.capacity
  {
    if Lifeless(k) {
      if k.Evicting? && s'.resources != s.resources {
        var r := s.cells[s.tasks[t].pc.victim].value.value;
        SumUpdate(s.resources, Reservation(), r, s'.resources[r]);
      }
    } else {
      var r := Subject(s, t, k);
      SubjectMoves(cfg, s, s', t, k);
      assert s'.resources == s.resources[r := s'.resources[r]];
      SumUpdate(s.resources, Reservation(), r, s'.resources[r]);
      assert ResourceBytes(s, r);
    }
  }

  /** No single reservation exceeds what is not available. */
  lemma ReservationFits(cfg: Config, s: State, r: nat)
    requires Balanced(cfg, s) && r < |s.resources|
    ensures s.available + s.resources[r].reserved <= cfg.capacity
  {
    SumAtLeast(s.resources, Reservation(), r);
  }

  // ----- The map -----

  /** A step adds at most a brand new cell to the map. */
  lemma MapGrows(cfg: Config, s: State, s': State, t: nat, k: Kind, c: nat)
    requires Lives(cfg, s) && Effect(cfg, s, s', t, k)
    requires Mapped(s'.lru, c) && c < |s.cells| && s.cells[c].created
    ensures Mapped(s.lru, c)
  {
    if k.Looking? {
      assert TaskOwns(cfg, s, t);
      match Find(s.lru, KeyOf(cfg.requests[t]))
      case Some(i) => MappedPromote(s.lru, i, s'.lru[|s'.lru| - 1].value, c);
                      assert Mapped(s.lru, s.lru[i].value);
      case None => MappedInsert(s.lru, cfg.maxFiles, Entry(KeyOf(cfg.requests[t]), t), c);
    } else if k.Popping? {
      var i :| 0 <= i < |s'.lru| && s'.lru[i].value == c;
      assert s.lru[i + 1].value == c;
    }
  }

  /** While a request reserves as much as it can, nobody else touches the empty map. */
  lemma EmptyStays(cfg: Config, s: State, s': State, t: nat, k: Kind, u: nat)
    requires Lives(cfg, s) && Effect(cfg, s, s', t, k)
    requires u < |s.tasks| && s.tasks[u].pc.ReserveUpTo? && s.lru == []
    ensures s'.lru == []
  {
    assert TaskOwns(cfg, s, u) && TaskOwns(cfg, s, t);
  }

  // ----- Preservation -----

  lemma LifelessBytes(cfg: Config, s: State, s': State, t: nat, k: Kind, r: nat)
    requires Balanced(cfg, s) && Effect(cfg, s, s', t, k) && Lifeless(k) && r < |s.resources|
    ensures ResourceBytes(s', r)
  {
    assert ResourceBytes(s, r) && ResourceLives(cfg, s, r);
    SamePhases(cfg, s, s', t, k, r);
    var x := s.resources[r];
    if !x.phase.NotYet? && Mapped(s'.lru, x.home) { MapGrows(cfg, s, s', t, k, x.home); }
  }

  lemma SubjectBytes(cfg: Config, s: State, s': State, t: nat, k: Kind)
    requires Balanced(cfg, s) && Effect(cfg, s, s', t, k) && !Lifeless(k)
    ensures ResourceBytes(s', Subject(s, t, k))
  {
    var r := Subject(s, t, k);
    SubjectMoves(cfg, s, s', t, k);
    assert ResourceBytes(s, r) && ResourceLives(cfg, s, r) && TaskBytes(cfg, s, t);
  }

  lemma ResourcesNext(cfg: Config, s: State, s': State, t: nat, k: Kind)
    requires Balanced(cfg, s) && Effect(cfg, s, s', t, k)
    ensures forall r :: 0 <= r < |s'.resources| ==> ResourceBytes(s', r)
  {
    forall r | 0 <= r < |s'.resources| ensures ResourceBytes(s', r) {
      if Lifeless(k) {
        LifelessBytes(cfg, s, s', t, k, r);
      } else if r == Subject(s, t, k) {
        SubjectBytes(cfg, s, s', t, k);
      } else {
        OthersStay(cfg, s, s', t, k, r);
        assert ResourceBytes(s, r);
      }
    }
  }

  /** A request returning a resource sees its reservation unchanged by others. */
  lemma ReturningSame(cfg: Config, s: State, s': State, t: nat, k: Kind, u: nat)
    requires Lives(cfg, s) && Effect(cfg, s, s', t, k)
    requires u < |s.tasks| && u != t && s.tasks[u].pc.Return?
    ensures s'.resources[s.tasks[u].pc.resource].reserved == s.resources[s.tasks[u].pc.resource].reserved
  {
    var r := s.tasks[u].pc.resource;
    assert TaskDestroys(s, u);
    if Lifeless(k) {
      SamePhases(cfg, s, s', t, k, r);
    } else {
      SubjectMoves(cfg, s, s', t, k);
      if r != Subject(s, t, k) { OthersStay(cfg, s, s', t, k, r); }
    }
  }

  lemma TasksNext(cfg: Config, s: State, s': State, t: nat, k: Kind)
    requires Balanced(cfg, s) && Effect(cfg, s, s', t, k)
    ensures forall u :: 0 <= u < |s'.tasks| ==> TaskBytes(cfg, s', u)
  {
    forall u | 0 <= u < |s'.tasks| ensures TaskBytes(cfg, s', u) {
      assert TaskBytes(cfg, s, u);
      if u == t {
        MoverBytes(cfg, s, s', t, k);
      } else {
        if s.tasks[u].pc.ReserveUpTo? { EmptyStays(cfg, s, s', t, k, u); }
        if s.tasks[u].pc.Return? { ReturningSame(cfg, s, s', t, k, u); }
      }
    }
  }

  lemma MoverBytes(cfg: Config, s: State, s': State, t: nat, k: Kind)
    requires Balanced(cfg, s) && Effect(cfg, s, s', t, k)
    ensures TaskBytes(cfg, s', t)
  {
    assert TaskBytes(cfg, s, t);
    var q := s'.tasks[t].pc;
    if q.ReserveUpTo? && s.tasks[t].pc.ReserveUpTo? { EmptyStays(cfg, s, s', t, k, t); }
    if SnapOf(q).Some? {
      SumMonotone(s.resources, (i: int, r: Resource) => 0, Reservation());
      SumZero(s.resources, (i: int, r: Resource) => 0);
      if q.Return? { SnapReturn(cfg, s, s', t, k); }
    }
  }

  lemma SnapReturn(cfg: Config, s: State, s': State, t: nat, k: Kind)
    requires Balanced(cfg, s) && Effect(cfg, s, s', t, k)
    requires s'.tasks[t].pc.Return? && SnapOf(s'.tasks[t].pc).Some?
    ensures SnapOf(s'.tasks[t].pc).value + s'.resources[s'.tasks[t].pc.resource].reserved <= cfg.capacity
  {
    ReservationFits(cfg, s, s'.tasks[t].pc.resource);
  }

  lemma BalancedNext(cfg: Config, s: State, s': State, t: nat, k: Kind)
    requires Balanced(cfg, s) && Effect(cfg, s, s', t, k)
    ensures Balanced(cfg, s')
  {
    LivesNext(cfg, s, s', t, k);
    SumKept(cfg, s, s', t, k);
    ResourcesNext(cfg, s, s', t, k);
    TasksNext(cfg, s, s', t, k);
  }

  lemma {:induction false} BalancedAlways(cfg: Config, tr: Trace)
    requires Valid(cfg, tr)
    ensures Balanced(cfg, Final(cfg, tr))
  {
    match tr
    case Start => BalancedInit(cfg);
    case Then(before, t, a) =>
      BalancedAlways(cfg, before);
      var k := StepEffect(cfg, Final(cfg, before), t, a);
      BalancedNext(cfg, Final(cfg, before), Final(cfg, tr), t, k);
  }

  // ----- What it means -----

  /** A weight of resources, carried over to the entries of the map that keep them. */
  ghost function EntryOf(s: State, weight: (int, Resource) -> int): (int, Entry<Key, nat>) -> int {
    (i: int, e: Entry<Key, nat>) =>
      if e.value < |s.cells| && s.cells[e.value].value.Some? && s.cells[e.value].value.value < |s.resources|
      then weight(s.cells[e.value].value.value, s.resources[s.cells[e.value].value.value]) else 0
  }

  ghost function Sizes(): (int, Resource) -> int {
    (i: int, r: Resource) => |r.content.body|
  }

  ghost function RetainedBytes(s: State): int {
    SumOf(s.lru, EntryOf(s, Sizes()))
  }

  /** The weight of the resources that the first n entries do not retain. */
  ghost function Others(s: State, weight: (int, Resource) -> int, n: nat): (int, Resource) -> int
    requires n <= |s.lru|
  {
    (i: int, r: Resource) => if Settled(r.phase) && Mapped(s.lru[..n], r.home) then 0 else weight(i, r)
  }

  lemma MappedPrefix(lru: seq<Entry<Key, nat>>, n: nat, c: nat)
    requires n < |lru|
    ensures Mapped(lru[..n + 1], c) <==> Mapped(lru[..n], c) || lru[n].value == c
  {
    assert lru[..n + 1][n] == lru[n];
    if Mapped(lru[..n], c) {
      var i :| 0 <= i < n && lru[..n][i].value == c;
      assert lru[..n + 1][i].value == c;
    }
    if Mapped(lru[..n + 1], c) && lru[n].value != c {
      var i :| 0 <= i < n + 1 && lru[..n + 1][i].value == c;
      assert lru[..n][i].value == c;
    }
  }

  /** The map holds each cell once, because it holds each key once. */
  lemma DistinctCells(cfg: Config, s: State, i: nat, j: nat)
    requires Owned(cfg, s) && i < j < |s.lru|
    ensures s.lru[i].value != s.lru[j].value
  {
    assert EntryOwned(cfg, s, i) && EntryOwned(cfg, s, j);
  }

  lemma OneMoreAt(cfg: Config, s: State, weight: (int, Resource) -> int, n: nat, i: nat)
    requires Lives(cfg, s) && n < |s.lru| && i < |s.resources|
    ensures var c, x := s.lru[n].value, s.resources[i];
      Others(s, weight, n)(i, x) == Others(s, weight, n + 1)(i, x) + (if s.cells[c].value == Some(i) then weight(i, x) else 0)
  {
    var c, x := s.lru[n].value, s.resources[i];
    assert CellLives(s, c) && ResourceLives(cfg, s, i);
    MappedPrefix(s.lru, n, x.home);
    if Mapped(s.lru[..n], c) {
      var j :| 0 <= j < n && s.lru[..n][j].value == c;
      DistinctCells(cfg, s, j, n);
    }
  }

  lemma OneMore(cfg: Config, s: State, weight: (int, Resource) -> int, n: nat)
    requires Lives(cfg, s) && n < |s.lru|
    ensures SumOf(s.resources, Others(s, weight, n)) ==
      SumOf(s.resources, Others(s, weight, n + 1)) + EntryOf(s, weight)(n, s.lru[n])
  {
    var v := s.cells[s.lru[n].value].value;
    var one := (i: int, r: Resource) => if v == Some(i) then weight(i, r) else 0;
    assert CellLives(s, s.lru[n].value);
    forall i | 0 <= i < |s.resources|
      ensures Others(s, weight, n)(i, s.resources[i]) == Others(s, weight, n + 1)(i, s.resources[i]) + one(i, s.resources[i])
    {
      OneMoreAt(cfg, s, weight, n, i);
    }
    SumPlus(s.resources, Others(s, weight, n + 1), one, Others(s, weight, n));
    if v.Some? {
      SumSingle(s.resources, one, v.value);
    } else {
      SumZero(s.resources, one);
    }
  }

  /** What the first n entries retain, and everything else, add up to all resources, by any weight. */
  lemma {:induction false} Split(cfg: Config, s: State, weight: (int, Resource) -> int, n: nat)
    requires Lives(cfg, s) && n <= |s.lru|
    ensures SumOf(s.lru[..n], EntryOf(s, weight)) + SumOf(s.resources, Others(s, weight, n)) == SumOf(s.resources, weight)
  {
    if n == 0 {
      SumSame(s.resources, Others(s, weight, 0), weight);
    } else {
      Split(cfg, s, weight, n - 1);
      OneMore(cfg, s, weight, n - 1);
      assert s.lru[..n][..n - 1] == s.lru[..n - 1];
    }
  }

  lemma SplitAll(cfg: Config, s: State, weight: (int, Resource) -> int)
    requires Lives(cfg, s)
    ensures SumOf(s.lru, EntryOf(s, weight)) + SumOf(s.resources, Others(s, weight, |s.lru|)) == SumOf(s.resources, weight)
  {
    Split(cfg, s, weight, |s.lru|);
    assert s.lru[..|s.lru|] == s.lru;
  }

  /** What the map retains is reserved, byte for byte. */
  lemma RetainedIsReserved(cfg: Config, s: State)
    requires Balanced(cfg, s)
    ensures SumOf(s.lru, EntryOf(s, Reservation())) == RetainedBytes(s)
  {
    forall i | 0 <= i < |s.lru| ensures EntryOf(s, Reservation())(i, s.lru[i]) == EntryOf(s, Sizes())(i, s.lru[i]) {
      EntryReserved(cfg, s, i);
    }
    SumSame(s.lru, EntryOf(s, Reservation()), EntryOf(s, Sizes()));
  }

  lemma EntryReserved(cfg: Config, s: State, i: nat)
    requires Balanced(cfg, s) && i < |s.lru|
    ensures var v := s.cells[s.lru[i].value].value;
      v.Some? ==> v.value < |s.resources| && s.resources[v.value].phase == Stored
                  && s.resources[v.value].reserved == |s.resources[v.value].content.body|
  {
    var c := s.lru[i].value;
    assert CellLives(s, c);
    if s.cells[c].value.Some? {
      var r := s.cells[c].value.value;
      assert ResourceLives(cfg, s, r) && ResourceBytes(s, r) && Mapped(s.lru, c);
    }
  }

  /**
   * Every resource that the map keeps is reserved in full. Resources that
   * exceed the capacity live only in cells that the map does not hold.
   */
  lemma FullyReserved(cfg: Config, tr: Trace, s: State, i: nat)
    requires Reaches(cfg, tr, s) && i < |s.lru|
    ensures var v := s.cells[s.lru[i].value].value;
      v.Some? ==> v.value < |s.resources| && s.resources[v.value].phase == Stored
                  && s.resources[v.value].reserved == |s.resources[v.value].content.body|
  {
    BalancedAlways(cfg, tr);
    EntryReserved(cfg, s, i);
  }

  /** The request runs the destructor of a resource. */
  ghost predicate Destroying(pc: Pc, r: nat) {
    (pc.Destroy? || pc.Return?) && pc.resource == r
  }

  /**
   * A resource reserved short of its size is in flight, at every stage of its
   * life: its cell is not in the map, and some request still refers to the cell
   * or is about to give the reservation back.
   */
  lemma ShortIsInFlight(cfg: Config, tr: Trace, s: State, r: nat)
    requires Reaches(cfg, tr, s) && r < |cfg.requests|
    requires var x := s.resources[r]; !x.phase.NotYet? && !x.phase.Freed? && x.reserved < |x.content.body|
    ensures !Mapped(s.lru, s.resources[r].home)
    ensures exists t :: 0 <= t < |s.tasks| && (HoldsRef(s.tasks[t].pc, s.resources[r].home) || Destroying(s.tasks[t].pc, r))
  {
    BalancedAlways(cfg, tr);
    assert ResourceLives(cfg, s, r) && ResourceBytes(s, r);
    var p := s.resources[r].phase;
    if p.Held? || p.Counted? {
      assert HoldsRef(s.tasks[r].pc, s.resources[r].home);
    } else if p.Dying? || p.Returning? {
      assert Destroying(s.tasks[p.task].pc, r);
    }
  }

  /** The resources that the map keeps fit the configured capacity together. */
  lemma RetainedFits(cfg: Config, tr: Trace, s: State)
    requires Reaches(cfg, tr, s)
    ensures 0 <= RetainedBytes(s) <= cfg.capacity - s.available <= cfg.capacity
  {
    BalancedAlways(cfg, tr);
    SplitAll(cfg, s, Reservation());
    RetainedIsReserved(cfg, s);
    var zero := (i: int, r: Resource) => 0;
    SumMonotone(s.resources, zero, Others(s, Reservation(), |s.lru|));
    SumZero(s.resources, zero);
    var none := (i: int, e: Entry<Key, nat>) => 0;
    SumMonotone(s.lru, none, EntryOf(s, Sizes()));
    SumZero(s.lru, none);
  }

  /** Conservation: available bytes and outstanding reservations add up to the capacity. */
  lemma Conservation(cfg: Config, tr: Trace, s: State)
    requires Reaches(cfg, tr, s)
    ensures s.available + SumOf(s.resources, Reservation()) == cfg.capacity
  {
    BalancedAlways(cfg, tr);
  }

  /**
   * The checked addition in `return_to_pool` cannot overflow, even on a value
   * of the atomic that other requests have changed since it was loaded.
   */
  lemma ReturnCannotOverflow(cfg: Config, tr: Trace, s: State, t: nat)
    requires Reaches(cfg, tr, s) && cfg.capacity <= U64_MAX
    requires t < |cfg.requests| && s.tasks[t].pc.Return? && SnapOf(s.tasks[t].pc).Some?
    ensures var pc := s.tasks[t].pc;
      pc.snap.value + s.resources[pc.resource].reserved <= U64_MAX
  {
    BalancedAlways(cfg, tr);
    assert TaskBytes(cfg, s, t);
  }

  /**
   * Nothing leaks: whatever was evicted, expired, replaced, cancelled or failed,
   * at rest all bytes are available except those of the resources in the map.
   */
  lemma NoLeak(cfg: Config, tr: Trace, s: State)
    requires Reaches(cfg, tr, s) && Quiescent(s)
    ensures s.available == cfg.capacity - RetainedBytes(s)
  {
    BalancedAlways(cfg, tr);
    SplitAll(cfg, s, Reservation());
    RetainedIsReserved(cfg, s);
    forall r | 0 <= r < |s.resources| ensures Others(s, Reservation(), |s.lru|)(r, s.resources[r]) == 0 {
      NothingElse(cfg, s, Reservation(), r);
    }
    SumZero(s.resources, Others(s, Reservation(), |s.lru|));
  }

  /** At rest, a resource is in the map or gone. */
  lemma NoneInFlight(cfg: Config, s: State, r: nat)
    requires Balanced(cfg, s) && Quiescent(s) && r < |s.resources|
    ensures var x := s.resources[r];
      || (x.phase.Stored? && Mapped(s.lru, x.home))
      || (x.reserved == 0 && (x.phase.NotYet? || x.phase.Freed?))
  {
    assert ResourceLives(cfg, s, r) && ResourceBytes(s, r);
    assert s.tasks[r].pc.Idle? || s.tasks[r].pc.Done?;
  }

  lemma NothingElse(cfg: Config, s: State, weight: (int, Resource) -> int, r: nat)
    requires Balanced(cfg, s) && Quiescent(s) && r < |s.resources|
    requires var x := s.resources[r]; x.reserved == 0 && (x.phase.NotYet? || x.phase.Freed?) ==> weight(r, x) == 0
    ensures Others(s, weight, |s.lru|)(r, s.resources[r]) == 0
  {
    NoneInFlight(cfg, s, r);
    var x, all := s.resources[r], s.lru[..|s.lru|];
    assert all == s.lru;
    if x.phase.Stored? { assert Settled(x.phase) && Mapped(all, x.home); }
  }
}
