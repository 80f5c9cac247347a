/**
 * Evictions are counted exactly. A lone request raises the eviction counters of
 * each host by its entries among those popped, in number and in bytes, and by
 * nothing else: not by what the map pushes out, nor by what expired.
 */
module Tolls {
  import opened Options
  import opened Model
  import opened Recency
  import opened Machine
  import opened Effects
  import opened Ownership
  import opened Lifecycle
  import opened Capacity
  import opened Transparency
  import opened Evictions
  import opened Refinement
  import opened Rest
  import Q = Sequential

  /** Which counter of which host. */
  datatype Meter = Meter(host: nat, bytes: bool)

  ghost function EvictedOf(s: State, m: Meter): nat
    requires m.host < |s.hosts|
  {
    if m.bytes then s.hosts[m.host].evictedBytes else s.hosts[m.host].evictions
  }

  /** What the eviction of an entry adds to a counter: nothing if its cell is empty. */
  ghost function Worth(e: Q.Slot, m: Meter): nat {
    if e.value.Some? && e.key.host == m.host then (if m.bytes then |e.value.value.content.body| else 1) else 0
  }

  ghost function WorthIn(es: seq<Q.Slot>, m: Meter): nat {
    if es == [] then 0 else Worth(es[0], m) + WorthIn(es[1..], m)
  }

  /** What making room for a size adds. */
  ghost function Toll(st: Q.Store, size: nat, m: Meter): nat {
    WorthIn(st.entries[..Q.Pops(st.available, st.entries, size)], m)
  }

  lemma NoToll(st: Q.Store, size: nat, m: Meter)
    requires size <= st.available || st.entries == []
    ensures Toll(st, size, m) == 0
  {
    assert st.entries[..0] == [];
  }

  lemma TollOfPop(st: Q.Store, st1: Q.Store, size: nat, m: Meter)
    requires st.available < size && st.entries != []
    requires st1 == Q.Store(st.available + Q.Held(st.entries[0].value), st.entries[1..])
    ensures Toll(st, size, m) == Worth(st.entries[0], m) + Toll(st1, size, m)
  {
    var k1, k := Q.Pops(st1.available, st1.entries, size), Q.Pops(st.available, st.entries, size);
    assert k == k1 + 1;
    assert st.entries[..k][1..] == st1.entries[..k1];
  }

  // ----- What a lone request is still to add -----

  ghost function CellToll(st: Q.Store, v: Option<Q.Cached>, world: Q.World, m: Meter): nat {
    if v.None? && world.answer.Found? then Toll(st, Size(world.answer.content), m) else 0
  }

  ghost function AskToll(limits: Q.Limits, st: Q.Store, req: Request, world: Q.World, m: Meter): nat
    requires 1 <= limits.maxFiles
  {
    if Q.Cacheable(req.rule) then
      var st1 := Q.LookedUp(limits, st, KeyOf(req), req.now);
      CellToll(st1, st1.entries[|st1.entries| - 1].value, world, m)
    else 0
  }

  /** The entry that a request has popped and is about to count. */
  ghost function VictimWorth(cfg: Config, s: State, t: nat, m: Meter): nat
    requires t < |s.tasks|
  {
    match s.tasks[t].pc
    case CountEvicted(_, _, victim) =>
      var v := ValueAt(s, victim);
      if v.Some? && OnHost(cfg, v.value.id, m.host) then (if m.bytes then |v.value.content.body| else 1) else 0
    case _ => 0
  }

  ghost function StageToll(cfg: Config, s: State, t: nat, world: Q.World, m: Meter): nat
    requires 1 <= cfg.maxFiles && t < |s.tasks| == |cfg.requests|
  {
    match StageOf(s.tasks[t].pc)
    case Asking => AskToll(LimitsOf(cfg), Settling(s, t), cfg.requests[t], world, m)
    case Choosing(c) => CellToll(Settling(s, t), ValueAt(s, c), world, m)
    case Fetching => CellToll(Settling(s, t), None, world, m)
    case Making(content) => Toll(Settling(s, t), Size(content), m)
    case _ => 0
  }

  /** The counter as it will be once the request has counted everything. */
  ghost function Bill(cfg: Config, s: State, t: nat, world: Q.World, m: Meter): nat
    requires 1 <= cfg.maxFiles && t < |s.tasks| == |cfg.requests| && m.host < |s.hosts|
  {
    EvictedOf(s, m) + VictimWorth(cfg, s, t, m) + StageToll(cfg, s, t, world, m)
  }

  /** A step keeps the bill. */
  ghost predicate SameBill(cfg: Config, s: State, s': State, t: nat, world: Q.World, m: Meter) {
    && WellFormed(cfg, s) && WellFormed(cfg, s') && t < |s.tasks| && m.host < cfg.hosts
    && Bill(cfg, s', t, world, m) == Bill(cfg, s, t, world, m)
  }

  // ----- Steps within a stage -----

  lemma StageTollKept(cfg: Config, s: State, s': State, t: nat, world: Q.World, m: Meter)
    requires WellFormed(cfg, s) && WellFormed(cfg, s') && t < |s.tasks|
    requires SameCourse(s, s', t) && InPlace(s, t)
    ensures StageToll(cfg, s', t, world, m) == StageToll(cfg, s, t, world, m)
  {
    SettlingSame(s, s', t);
  }

  lemma BillKept(cfg: Config, s: State, s': State, t: nat, world: Q.World, m: Meter)
    requires WellFormed(cfg, s) && WellFormed(cfg, s') && t < |s.tasks| && m.host < cfg.hosts
    requires SameCourse(s, s', t) && InPlace(s, t)
    requires EvictedOf(s', m) + VictimWorth(cfg, s', t, m) == EvictedOf(s, m) + VictimWorth(cfg, s, t, m)
    ensures SameBill(cfg, s, s', t, world, m)
  {
    StageTollKept(cfg, s, s', t, world, m);
  }

  lemma GotoBill(cfg: Config, s: State, s': State, t: nat, q: Pc, world: Q.World, m: Meter)
    requires WellFormed(cfg, s) && WellFormed(cfg, s') && t < |s.tasks| && m.host < cfg.hosts && InPlace(s, t)
    requires s' == Goto(s, t, q).(mutex := s'.mutex)
    requires StageOf(q) == StageOf(s.tasks[t].pc) && CellOf(q) == CellOf(s.tasks[t].pc)
    requires !s.tasks[t].pc.CountEvicted? && !q.CountEvicted? && !InDestructor(s.tasks[t].pc) && !InDestructor(q)
    ensures SameBill(cfg, s, s', t, world, m)
  {
    BillKept(cfg, s, s', t, world, m);
  }

  // ----- From stage to stage -----

  lemma ArriveBill(cfg: Config, s: State, t: nat, world: Q.World, m: Meter)
    requires WellFormed(cfg, s) && t < |s.tasks| && m.host < cfg.hosts && s.tasks[t].pc.Idle?
    ensures SameBill(cfg, s, Arrive(cfg, s, t), t, world, m)
  {
    SlotsSame(s, Arrive(cfg, s, t));
  }

  lemma AskTollLooksUp(limits: Q.Limits, st: Q.Store, st1: Q.Store, req: Request, world: Q.World, m: Meter)
    requires 1 <= limits.maxFiles && Q.Cacheable(req.rule)
    requires st1 == Q.LookedUp(limits, st, KeyOf(req), req.now)
    ensures AskToll(limits, st, req, world, m) == CellToll(st1, st1.entries[|st1.entries| - 1].value, world, m)
  {
  }

  /** The bill of a request with its cell, the most recent one. */
  lemma ChoosingBill(cfg: Config, s: State, t: nat, c: nat, st: Q.Store, world: Q.World, m: Meter)
    requires WellFormed(cfg, s) && t < |s.tasks| && m.host < cfg.hosts && Settling(s, t) == st
    requires StageOf(s.tasks[t].pc) == Choosing(c) && s.lru != [] && s.lru[|s.lru| - 1].value == c
    ensures st.entries != []
    ensures Bill(cfg, s, t, world, m) == EvictedOf(s, m) + CellToll(st, st.entries[|st.entries| - 1].value, world, m)
  {
    assert Slots(s)[|s.lru| - 1].value == ValueAt(s, c);
  }

  /** A lookup that leaves the store as the sequential one does leaves the bill to its cell. */
  lemma LookupBill(cfg: Config, s: State, s': State, t: nat, c: nat, world: Q.World, m: Meter)
    requires WellFormed(cfg, s) && WellFormed(cfg, s') && t < |s.tasks| && m.host < cfg.hosts
    requires s.tasks[t].pc.LookupLock? && Q.Cacheable(cfg.requests[t].rule) && s'.hosts == s.hosts
    requires StageOf(s'.tasks[t].pc) == Choosing(c) && s'.lru != [] && s'.lru[|s'.lru| - 1].value == c
    requires var req := cfg.requests[t]; Settling(s', t) == Q.LookedUp(LimitsOf(cfg), StoreOf(s), KeyOf(req), req.now)
    ensures SameBill(cfg, s, s', t, world, m)
  {
    AskTollLooksUp(LimitsOf(cfg), StoreOf(s), Settling(s', t), cfg.requests[t], world, m);
    ChoosingBill(cfg, s', t, c, Settling(s', t), world, m);
  }

  lemma FoundBill(cfg: Config, s: State, t: nat, i: nat, world: Q.World, m: Meter)
    requires Owned(cfg, s) && t < |s.tasks| && m.host < cfg.hosts
    requires s.tasks[t].pc.LookupLock? && Q.Cacheable(cfg.requests[t].rule)
    requires Find(s.lru, KeyOf(cfg.requests[t])) == Some(i)
    ensures SameBill(cfg, s, LookupFound(cfg, s, t, i), t, world, m)
  {
    var c := s.lru[i].value;
    if Stale(cfg, s, t, c) {
      StaleStore(cfg, s, t, i);
      LookupBill(cfg, s, LookupFound(cfg, s, t, i), t, t, world, m);
    } else {
      FreshStore(cfg, s, t, i);
      LookupBill(cfg, s, LookupFound(cfg, s, t, i), t, c, world, m);
    }
  }

  lemma NewBill(cfg: Config, s: State, t: nat, world: Q.World, m: Meter)
    requires Owned(cfg, s) && t < |s.tasks| && m.host < cfg.hosts
    requires s.tasks[t].pc.LookupLock? && Q.Cacheable(cfg.requests[t].rule)
    requires Find(s.lru, KeyOf(cfg.requests[t])).None?
    ensures SameBill(cfg, s, LookupNew(cfg, s, t), t, world, m)
  {
    NewStore(cfg, s, t);
    LookupBill(cfg, s, LookupNew(cfg, s, t), t, t, world, m);
  }

  lemma EnterBill(cfg: Config, s: State, t: nat, world: Q.World, m: Meter)
    requires WellFormed(cfg, s) && t < |s.tasks| && m.host < cfg.hosts && s.tasks[t].pc.AwaitCell?
    requires s.cells[s.tasks[t].pc.cell].value.Some? ==> ValueAt(s, s.tasks[t].pc.cell).Some?
    ensures SameBill(cfg, s, EnterCell(cfg, s, t, s.tasks[t].pc.cell), t, world, m)
  {
    SlotsSame(s, EnterCell(cfg, s, t, s.tasks[t].pc.cell));
  }

  lemma FetchBill(cfg: Config, s: State, t: nat, world: Q.World, m: Meter)
    requires WellFormed(cfg, s) && t < |s.tasks| && m.host < cfg.hosts && s.tasks[t].pc.FetchBody?
    ensures SameBill(cfg, s, FetchAnswered(cfg, s, t, s.tasks[t].pc.cell, world.answer), t, world, m)
  {
    if world.answer.Found? { FetchSettles(cfg, s, t, world.answer); }
  }

  /** Nothing is to be popped for what fits, or from an empty map. */
  lemma GrantBill(cfg: Config, s: State, s': State, t: nat, c: nat, content: Content, amount: nat, world: Q.World, m: Meter)
    requires Grants(cfg, s, s', t, c, content, amount) && m.host < cfg.hosts && s'.hosts == s.hosts
    requires s.tasks[t].pc.Reserve? || s.tasks[t].pc.ReserveUpTo?
    requires s.tasks[t].pc.content == content && (Size(content) <= s.available || s.lru == [])
    ensures SameBill(cfg, s, s', t, world, m)
  {
    NoToll(Settling(s, t), Size(content), m);
  }

  lemma PopBill(cfg: Config, s: State, t: nat, world: Q.World, m: Meter)
    requires Lives(cfg, s) && Told(cfg, s) && t < |s.tasks| && Informed(cfg, s, t) && m.host < cfg.hosts
    requires s.tasks[t].pc.Evict? && s.lru != []
    ensures var pc := s.tasks[t].pc; SameBill(cfg, s, PopOldest(cfg, s, t, pc.cell, pc.content), t, world, m)
  {
    var pc := s.tasks[t].pc;
    var s' := PopOldest(cfg, s, t, pc.cell, pc.content);
    PopStore(cfg, s, t);
    TollOfPop(Settling(s, t), Settling(s', t), Size(pc.content), m);
    PoppedWorth(cfg, s, s', t, m);
  }

  /** The entry popped is worth what the request will count. */
  lemma PoppedWorth(cfg: Config, s: State, s': State, t: nat, m: Meter)
    requires Lives(cfg, s) && Told(cfg, s) && t < |s.tasks| == |s'.tasks| && s.lru != []
    requires s'.cells == s.cells && s'.resources == s.resources
    requires s'.tasks[t].pc.CountEvicted? && s'.tasks[t].pc.victim == s.lru[0].value
    ensures VictimWorth(cfg, s', t, m) == Worth(Slots(s)[0], m)
  {
    var c := s.lru[0].value;
    assert EntryOwned(cfg, s, 0) && CellLives(s, c);
    assert ValueAt(s', c) == ValueAt(s, c);
    if s.cells[c].value.Some? { assert ResourceTold(cfg, s, s.cells[c].value.value); }
  }

  lemma EvictedBill(cfg: Config, s: State, t: nat, world: Q.World, m: Meter)
    requires WellFormed(cfg, s) && t < |s.tasks| && m.host < cfg.hosts && InPlace(s, t)
    requires s.tasks[t].pc.CountEvicted? && !Mapped(s.lru, s.tasks[t].pc.victim)
    ensures var pc := s.tasks[t].pc; SameBill(cfg, s, CountEviction(cfg, s, t, pc.cell, pc.content, pc.victim), t, world, m)
  {
    var pc := s.tasks[t].pc;
    EvictedSame(cfg, s, t);
    BillKept(cfg, s, CountEviction(cfg, s, t, pc.cell, pc.content, pc.victim), t, world, m);
  }

  /** From here on, nothing is popped. */
  ghost predicate Over(pc: Pc) {
    StageOf(pc).Passing? || StageOf(pc).Placing? || StageOf(pc).Giving? || StageOf(pc).Gone?
  }

  lemma OverBill(cfg: Config, s: State, s': State, t: nat, k: Kind, world: Q.World, m: Meter)
    requires Effect(cfg, s, s', t, k) && m.host < cfg.hosts && Over(s.tasks[t].pc) && Over(s'.tasks[t].pc)
    ensures SameBill(cfg, s, s', t, world, m)
  {
    OverCounters(cfg, s, s', t, k, m);
  }

  lemma OverCounters(cfg: Config, s: State, s': State, t: nat, k: Kind, m: Meter)
    requires Effect(cfg, s, s', t, k) && m.host < cfg.hosts && Over(s.tasks[t].pc)
    ensures EvictedOf(s', m) == EvictedOf(s, m)
  {
  }

  // ----- Any step -----

  /** A lone request, with everything known of its state. */
  ghost predicate Known(cfg: Config, s: State, t: nat, a: Action, world: Q.World, m: Meter) {
    && Balanced(cfg, s) && EvictionsCounted(cfg, s) && Told(cfg, s) && Alone(s, t) && m.host < cfg.hosts
    && InPlace(s, t) && Informed(cfg, s, t) && CanStep(cfg, s, t, a) && Allowed(a, world)
  }

  lemma AskBill(cfg: Config, s: State, t: nat, world: Q.World, m: Meter)
    requires Known(cfg, s, t, Go, world, m)
    requires var pc := s.tasks[t].pc; pc.Idle? || pc.LookupLock? || pc.LookupUnlock? || pc.AwaitCell?
    ensures SameBill(cfg, s, Step(cfg, s, t, Go), t, world, m)
  {
    var pc := s.tasks[t].pc;
    if pc.Idle? {
      ArriveBill(cfg, s, t, world, m);
    } else if pc.LookupLock? {
      match Find(s.lru, KeyOf(cfg.requests[t]))
      case Some(i) => FoundBill(cfg, s, t, i, world, m);
      case None => NewBill(cfg, s, t, world, m);
    } else if pc.LookupUnlock? {
      GotoBill(cfg, s, Step(cfg, s, t, Go), t, AwaitCell(pc.cell), world, m);
    } else {
      assert CellLives(s, pc.cell);
      EnterBill(cfg, s, t, world, m);
    }
  }

  lemma ReserveBill(cfg: Config, s: State, t: nat, world: Q.World, m: Meter)
    requires Known(cfg, s, t, Go, world, m) && s.tasks[t].pc.Reserve?
    ensures SameBill(cfg, s, Step(cfg, s, t, Go), t, world, m)
  {
    TryBill(cfg, s, t, world, m);
  }

  lemma TryBill(cfg: Config, s: State, t: nat, world: Q.World, m: Meter)
    requires WellFormed(cfg, s) && t < |s.tasks| && m.host < cfg.hosts && InPlace(s, t) && Informed(cfg, s, t)
    requires s.tasks[t].pc.Reserve?
    ensures var pc := s.tasks[t].pc;
      SameBill(cfg, s, TryReserve(cfg, s, t, pc.cell, pc.content, pc.locked, pc.snap), t, world, m)
  {
    var pc := s.tasks[t].pc;
    var s' := TryReserve(cfg, s, t, pc.cell, pc.content, pc.locked, pc.snap);
    if Size(pc.content) == 0 || (pc.snap.Some? && Size(pc.content) <= pc.snap.value) {
      TakesGrant(cfg, s, t);
      GrantBill(cfg, s, s', t, pc.cell, pc.content, Size(pc.content), world, m);
    } else if pc.snap.None? {
      GotoBill(cfg, s, s', t, Reserve(pc.cell, pc.content, pc.locked, Some(s.available)), world, m);
    } else if pc.locked {
      GotoBill(cfg, s, s', t, Evict(pc.cell, pc.content), world, m);
    } else {
      GotoBill(cfg, s, s', t, EvictLock(pc.cell, pc.content), world, m);
    }
  }

  lemma ReserveUpToBill(cfg: Config, s: State, t: nat, world: Q.World, m: Meter)
    requires Known(cfg, s, t, Go, world, m) && s.tasks[t].pc.ReserveUpTo?
    ensures SameBill(cfg, s, Step(cfg, s, t, Go), t, world, m)
  {
    var pc := s.tasks[t].pc;
    if pc.snap.None? {
      GotoBill(cfg, s, Step(cfg, s, t, Go), t, ReserveUpTo(pc.cell, pc.content, Some(s.available)), world, m);
    } else {
      assert TaskBytes(cfg, s, t);
      TakesMostGrant(cfg, s, t);
      GrantBill(cfg, s, Step(cfg, s, t, Go), t, pc.cell, pc.content, Min(Size(pc.content), s.available), world, m);
    }
  }

  lemma EvictBill(cfg: Config, s: State, t: nat, world: Q.World, m: Meter)
    requires Known(cfg, s, t, Go, world, m)
    requires var pc := s.tasks[t].pc; pc.EvictLock? || pc.Evict? || pc.CountEvicted?
    ensures SameBill(cfg, s, Step(cfg, s, t, Go), t, world, m)
  {
    var pc := s.tasks[t].pc;
    if pc.EvictLock? {
      GotoBill(cfg, s, Step(cfg, s, t, Go), t, Evict(pc.cell, pc.content), world, m);
    } else if pc.CountEvicted? {
      assert Counting(s, t);
      EvictedBill(cfg, s, t, world, m);
    } else if s.lru == [] {
      GotoBill(cfg, s, Step(cfg, s, t, Go), t, ReserveUpTo(pc.cell, pc.content, None), world, m);
    } else {
      PopBill(cfg, s, t, world, m);
    }
  }

  lemma DestroyBill(cfg: Config, s: State, t: nat, world: Q.World, m: Meter)
    requires Known(cfg, s, t, Go, world, m) && InDestructor(s.tasks[t].pc)
    ensures SameBill(cfg, s, Step(cfg, s, t, Go), t, world, m)
  {
    var pc := s.tasks[t].pc;
    if pc.DropRef? {
      LastReference(cfg, s, t);
      DropBill(cfg, s, t, world, m);
    } else if pc.Destroy? {
      UncountBill(cfg, s, t, world, m);
    } else {
      FreedUnseen(cfg, s, t);
      ReturnBill(cfg, s, t, world, m);
    }
  }

  lemma DropBill(cfg: Config, s: State, t: nat, world: Q.World, m: Meter)
    requires WellFormed(cfg, s) && t < |s.tasks| && m.host < cfg.hosts && InPlace(s, t)
    requires s.tasks[t].pc.DropRef? && DropsLast(s, t)
    ensures var pc := s.tasks[t].pc; SameBill(cfg, s, DropCell(cfg, s, t, pc.target, pc.after), t, world, m)
  {
    var pc := s.tasks[t].pc;
    DropSame(cfg, s, t);
    BillKept(cfg, s, DropCell(cfg, s, t, pc.target, pc.after), t, world, m);
  }

  lemma UncountBill(cfg: Config, s: State, t: nat, world: Q.World, m: Meter)
    requires WellFormed(cfg, s) && t < |s.tasks| && m.host < cfg.hosts && InPlace(s, t) && s.tasks[t].pc.Destroy?
    ensures var pc := s.tasks[t].pc; SameBill(cfg, s, Uncount(cfg, s, t, pc.resource, pc.after), t, world, m)
  {
    var pc := s.tasks[t].pc;
    UncountSame(cfg, s, t);
    BillKept(cfg, s, Uncount(cfg, s, t, pc.resource, pc.after), t, world, m);
  }

  lemma ReturnBill(cfg: Config, s: State, t: nat, world: Q.World, m: Meter)
    requires WellFormed(cfg, s) && t < |s.tasks| && m.host < cfg.hosts && InPlace(s, t) && Informed(cfg, s, t)
    requires s.tasks[t].pc.Return? && ReturnsUnseen(s, t)
    ensures var pc := s.tasks[t].pc; SameBill(cfg, s, TryReturn(cfg, s, t, pc.resource, pc.snap, pc.after), t, world, m)
  {
    var pc := s.tasks[t].pc;
    ReturnSame(cfg, s, t);
    BillKept(cfg, s, TryReturn(cfg, s, t, pc.resource, pc.snap, pc.after), t, world, m);
  }

  lemma TickSettles(s: State, s': State, t: nat)
    requires t < |s.tasks| && s' == s.(clock := s'.clock)
    ensures Settling(s', t) == Settling(s, t)
  {
    SlotsSame(s, s');
  }

  /** The clock does not matter to the bill. */
  lemma TickBill(cfg: Config, s: State, s': State, t: nat, world: Q.World, m: Meter)
    requires WellFormed(cfg, s) && t < |s.tasks| && m.host < cfg.hosts && s' == s.(clock := s'.clock)
    ensures SameBill(cfg, s, s', t, world, m)
  {
    TickSettles(s, s', t);
  }

  lemma OverStep(cfg: Config, s: State, t: nat, a: Action, world: Q.World, m: Meter)
    requires Known(cfg, s, t, a, world, m) && Over(s.tasks[t].pc)
    ensures SameBill(cfg, s, Next(cfg, s, t, a), t, world, m)
  {
    var k := StepEffect(cfg, s, t, a);
    StaysOver(cfg, s, t, a);
    OverBill(cfg, s, Next(cfg, s, t, a), t, k, world, m);
  }

  lemma StaysOver(cfg: Config, s: State, t: nat, a: Action)
    requires WellFormed(cfg, s) && CanStep(cfg, s, t, a) && Over(s.tasks[t].pc)
    ensures Over(Next(cfg, s, t, a).tasks[t].pc)
  {
  }

  /** Every step of a lone request keeps the bill. */
  lemma StepBill(cfg: Config, s: State, t: nat, a: Action, world: Q.World, m: Meter)
    requires Known(cfg, s, t, a, world, m)
    ensures SameBill(cfg, s, Next(cfg, s, t, a), t, world, m)
  {
    var pc := s.tasks[t].pc;
    if Over(pc) {
      OverStep(cfg, s, t, a, world, m);
    } else {
      if pc.FetchBody? { FetchBill(cfg, s, t, world, m); }
      else if pc.Idle? || pc.LookupLock? || pc.LookupUnlock? || pc.AwaitCell? { AskBill(cfg, s, t, world, m); }
      else if pc.Reserve? { ReserveBill(cfg, s, t, world, m); }
      else if pc.ReserveUpTo? { ReserveUpToBill(cfg, s, t, world, m); }
      else if InDestructor(pc) { DestroyBill(cfg, s, t, world, m); }
      else { EvictBill(cfg, s, t, world, m); }
      TickBill(cfg, Step(cfg, s, t, a), Next(cfg, s, t, a), t, world, m);
    }
  }

  // ----- Runs -----

  lemma {:induction false} UndisturbedBill(cfg: Config, tr: Trace, tr0: Trace, t: nat, world: Q.World, m: Meter)
    requires Valid(cfg, tr) && Undisturbed(tr, tr0, t, world) && m.host < cfg.hosts
    requires Valid(cfg, tr0) && Quiescent(Final(cfg, tr0)) && t < |cfg.requests| && Final(cfg, tr0).tasks[t].pc.Idle?
    ensures Bill(cfg, Final(cfg, tr), t, world, m) == Bill(cfg, Final(cfg, tr0), t, world, m)
  {
    if tr != tr0 {
      UndisturbedBill(cfg, tr.before, tr0, t, world, m);
      UndisturbedCourse(cfg, tr.before, tr0, t, world);
      RunKeepsBill(cfg, tr, world, m);
    }
  }

  lemma RunKeepsBill(cfg: Config, tr: Trace, world: Q.World, m: Meter)
    requires Valid(cfg, tr) && tr.Then? && Allowed(tr.action, world) && m.host < cfg.hosts
    requires var s := Final(cfg, tr.before); Alone(s, tr.task) && InPlace(s, tr.task) && Informed(cfg, s, tr.task)
    ensures Bill(cfg, Final(cfg, tr), tr.task, world, m) == Bill(cfg, Final(cfg, tr.before), tr.task, world, m)
  {
    BalancedAlways(cfg, tr.before);
    EvictionsAlways(cfg, tr.before);
    ToldAlways(cfg, tr.before);
    StepBill(cfg, Final(cfg, tr.before), tr.task, tr.action, world, m);
  }

  /**
   * Exact counting, from any rest: a lone request raises each eviction counter of
   * each host by exactly its filled entries in the prefix that the request pops,
   * if it is a miss, and by nothing otherwise.
   */
  lemma LoneRequestEvicts(cfg: Config, tr0: Trace, s0: State, tr: Trace, s: State, t: nat, world: Q.World, m: Meter)
    requires RanFromRest(cfg, tr0, s0, tr, s, t, world) && m.host < cfg.hosts
    ensures EvictedOf(s, m) == EvictedOf(s0, m) + AskToll(LimitsOf(cfg), StoreOf(s0), cfg.requests[t], world, m)
  {
    UndisturbedBill(cfg, tr, tr0, t, world, m);
    BillAtStart(cfg, s0, t, world, m);
    BillAtEnd(cfg, s, t, world, m);
  }

  lemma BillAtStart(cfg: Config, s: State, t: nat, world: Q.World, m: Meter)
    requires WellFormed(cfg, s) && t < |s.tasks| && s.tasks[t].pc.Idle? && m.host < cfg.hosts
    ensures Bill(cfg, s, t, world, m) == EvictedOf(s, m) + AskToll(LimitsOf(cfg), StoreOf(s), cfg.requests[t], world, m)
  {
  }

  lemma BillAtEnd(cfg: Config, s: State, t: nat, world: Q.World, m: Meter)
    requires WellFormed(cfg, s) && t < |s.tasks| && s.tasks[t].pc.Done? && m.host < cfg.hosts
    ensures Bill(cfg, s, t, world, m) == EvictedOf(s, m)
  {
  }
}
