/**
 * The two models meet: a request that runs while no other is in flight takes
 * the machine from one state to another exactly as the sequential cache says,
 * however its steps fall. What is proved of sequential runs therefore holds of
 * the machine when requests do not overlap.
 */
module Refinement {
  import opened Options
  import opened Model
  import opened Recency
  import opened Machine
  import opened Effects
  import opened Ownership
  import opened Lifecycle
  import opened Capacity
  import opened Evictions
  import opened Progress
  import Q = Sequential

  // ----- The store of a state -----

  ghost function LimitsOf(cfg: Config): Q.Limits {
    Q.Limits(cfg.capacity, cfg.maxFiles)
  }

  ghost function ValueAt(s: State, c: nat): Option<Q.Cached> {
    if c < |s.cells| && s.cells[c].value.Some? && s.cells[c].value.value < |s.resources| then
      var r := s.cells[c].value.value;
      var x := s.resources[r];
      Some(Q.Cached(r, x.content, x.expiresAt, x.reserved))
    else None
  }

  ghost function Slots(s: State): seq<Q.Slot> {
    seq(|s.lru|, i requires 0 <= i < |s.lru| => Entry(s.lru[i].key, ValueAt(s, s.lru[i].value)))
  }

  ghost function StoreOf(s: State): Q.Store {
    Q.Store(s.available, Slots(s))
  }

  /** What the destructor that a request runs is still to give back. */
  ghost function Owed(s: State, t: nat): nat
    requires t < |s.tasks|
  {
    match s.tasks[t].pc
    case CountEvicted(_, _, victim) => Q.Held(ValueAt(s, victim))
    case DropRef(c, _) => if Mapped(s.lru, c) then 0 else Q.Held(ValueAt(s, c))
    case Destroy(r, _) => if r < |s.resources| then s.resources[r].reserved else 0
    case Return(r, _, _) => if r < |s.resources| then s.resources[r].reserved else 0
    case _ => 0
  }

  ghost function Settling(s: State, t: nat): Q.Store
    requires t < |s.tasks|
  {
    Q.Store(s.available + Owed(s, t), Slots(s))
  }

  // ----- Where a lone request is heading -----

  datatype Stage =
    | Asking | Passing | Choosing(cell: nat) | Fetching | Making(content: Content)
    | Placing(cell: nat) | Giving(cell: nat) | Gone

  ghost function StageAfter(after: After): Stage {
    match after
    case ThenUnlock(c) => Choosing(c)
    case ThenReserve(_, content) => Making(content)
    case ThenDone => Gone
  }

  ghost function StageOf(pc: Pc): Stage {
    match pc
    case Idle => Asking
    case LookupLock => Asking
    case NeverFetch => Passing
    case LookupUnlock(c) => Choosing(c)
    case AwaitCell(c) => Choosing(c)
    case FetchBody(_) => Fetching
    case Reserve(_, content, _, _) => Making(content)
    case EvictLock(_, content) => Making(content)
    case Evict(_, content) => Making(content)
    case CountEvicted(_, content, _) => Making(content)
    case ReserveUpTo(_, content, _) => Making(content)
    case Unlock(c, _) => Placing(c)
    case CountFile(c) => Placing(c)
    case Fill(c) => Placing(c)
    case Classify(c) => Giving(c)
    case Respond(c) => Giving(c)
    case DropRef(_, after) => StageAfter(after)
    case Destroy(_, after) => StageAfter(after)
    case Return(_, _, after) => StageAfter(after)
    case Done => Gone
  }

  /** What a request does with the cell it looked up, by the sequential model. */
  ghost function FromCell(st: Q.Store, req: Request, id: nat, v: Option<Q.Cached>, world: Q.World): (Q.Store, Q.Reply) {
    if v.Some? then (st, Q.Body(v.value.content, Q.AHit, v.value.id, world.cloned)) else FromFetch(st, req, id, world)
  }

  ghost function FromFetch(st: Q.Store, req: Request, id: nat, world: Q.World): (Q.Store, Q.Reply) {
    match world.answer
    case Found(content) => (Q.Fill(st, id, content, Expiry(req)), Q.Body(content, Q.AMiss, id, world.cloned))
    case NotFound => (st, Q.NoBody)
    case Failed(error) => (st, Q.Failure(error))
  }

  /** The new resource takes its place in the last entry, or goes with the request. */
  ghost function Placed(st: Q.Store, v: Q.Cached): Q.Store {
    if st.entries == [] then Q.Store(st.available + v.reserved, [])
    else
      var last := |st.entries| - 1;
      Q.Store(st.available, st.entries[last := Entry(st.entries[last].key, Some(v))])
  }

  /** A request is answered as the reply says, and counted under the reply's class. */
  ghost predicate Replied(x: Task, t: nat, rule: Rule, reply: Q.Reply) {
    && x.tally == Some(Q.ClassOf(rule, reply))
    && match reply
       case NoBody => x.response.Absent?
       case Failure(_) => x.response.Errored?
       case Body(content, outcome, id, sent) =>
         && x.response == (if sent then Served(content) else Errored)
         && (outcome.ANever? || x.served == Some(id))
         && (outcome.AHit? || id == t)
  }

  ghost predicate Heading(cfg: Config, s: State, t: nat, world: Q.World, goal: (Q.Store, Q.Reply))
    requires ValidConfig(cfg) && t < |s.tasks| == |cfg.requests| == |s.resources|
  {
    var req, st := cfg.requests[t], Settling(s, t);
    match StageOf(s.tasks[t].pc)
    case Asking => goal == Q.Serve(LimitsOf(cfg), st, req, t, world)
    case Passing => goal == Q.Serve(LimitsOf(cfg), st, req, t, world)
    case Choosing(c) => goal == FromCell(st, req, t, ValueAt(s, c), world)
    case Fetching => goal == FromFetch(st, req, t, world)
    case Making(content) => goal == (Q.Fill(st, t, content, Expiry(req)), Q.Body(content, Q.AMiss, t, world.cloned))
    case Placing(c) =>
      var x := s.resources[t];
      goal == (Placed(st, Q.Cached(t, x.content, x.expiresAt, x.reserved)), Q.Body(x.content, Q.AMiss, t, world.cloned))
    case Giving(c) =>
      && ValueAt(s, c).Some?
      && var v := ValueAt(s, c).value;
      goal == (if Mapped(s.lru, c) then st else Q.Store(st.available + v.reserved, st.entries),
               Q.Body(v.content, if v.id == t then Q.AMiss else Q.AHit, v.id, world.cloned))
    case Gone => st == goal.0 && Replied(s.tasks[t], t, req.rule, goal.1)
  }

  /** What a lone request knows at some of its steps. */
  ghost predicate Informed(cfg: Config, s: State, t: nat)
    requires t < |s.tasks| == |cfg.requests|
  {
    var pc, req := s.tasks[t].pc, cfg.requests[t];
    && (SnapOf(pc).Some? ==> SnapOf(pc).value == s.available)
    && (pc.LookupLock? || StageOf(pc).Choosing? || StageOf(pc).Fetching? ==> Q.Cacheable(req.rule))
    && (pc.NeverFetch? ==> req.rule == Enabled(CacheNever) && s.tasks[t].tally == Some(Never))
    && (pc.EvictLock? || pc.Evict? ==> s.available < Size(pc.content))
    && (pc.Respond? && ValueAt(s, pc.cell).Some? ==>
          var v := ValueAt(s, pc.cell).value;
          && s.tasks[t].served == Some(v.id)
          && s.tasks[t].tally == Some(if v.id == t then Miss(Size(v.content)) else Hit(Size(v.content))))
  }

  /** Its cell is the most recent entry, unless it has popped the whole map. */
  ghost predicate InPlace(s: State, t: nat)
    requires t < |s.tasks|
  {
    var pc := s.tasks[t].pc;
    CellOf(pc).Some? ==>
      && (s.lru == [] || s.lru[|s.lru| - 1].value == CellOf(pc).value)
      && (StageOf(pc).Choosing? ==> s.lru != [])
  }

  ghost predicate Alone(s: State, t: nat) {
    t < |s.tasks| && forall u :: 0 <= u < |s.tasks| && u != t ==> s.tasks[u].pc.Idle? || s.tasks[u].pc.Done?
  }

  /** A request on its way to a goal. */
  ghost predicate Course(cfg: Config, s: State, t: nat, world: Q.World, goal: (Q.Store, Q.Reply)) {
    WellFormed(cfg, s) && t < |s.tasks| && Heading(cfg, s, t, world, goal) && InPlace(s, t) && Informed(cfg, s, t)
  }

  // ----- Views -----

  /** A cell's value is seen the same before and after. */
  ghost predicate SameView(s: State, s': State, c: nat) {
    ValueAt(s', c) == ValueAt(s, c)
  }

  lemma SlotsSame(s: State, s': State)
    requires s'.lru == s.lru
    requires forall i :: 0 <= i < |s.lru| ==> SameView(s, s', s.lru[i].value)
    ensures Slots(s') == Slots(s)
  {
  }

  /** The resource a request gives back is in no cell of the map. */
  lemma FreedIsOut(cfg: Config, s: State, t: nat, i: nat)
    requires Lives(cfg, s) && t < |s.tasks| && s.tasks[t].pc.Return? && i < |s.lru|
    ensures s.cells[s.lru[i].value].value != Some(s.tasks[t].pc.resource)
  {
    var r := s.tasks[t].pc.resource;
    assert TaskDestroys(s, t) && ResourceLives(cfg, s, r) && CellLives(s, s.lru[i].value);
    assert Mapped(s.lru, s.lru[i].value);
  }

  // ----- Steps -----

  /** What a step within one stage leaves as it is. */
  ghost predicate SameCourse(s: State, s': State, t: nat)
    requires t < |s.tasks| == |s'.tasks| && t < |s.resources| == |s'.resources|
  {
    var x, y := s.tasks[t], s'.tasks[t];
    && s'.lru == s.lru && y == x.(pc := y.pc)
    && StageOf(y.pc) == StageOf(x.pc) && CellOf(y.pc) == CellOf(x.pc)
    && s'.available + Owed(s', t) == s.available + Owed(s, t)
    && (forall i :: 0 <= i < |s.lru| ==> SameView(s, s', s.lru[i].value))
    && (StageOf(x.pc).Giving? ==> SameView(s, s', StageOf(x.pc).cell))
    && (StageOf(x.pc).Placing? ==>
          var r, r' := s.resources[t], s'.resources[t];
          r'.content == r.content && r'.expiresAt == r.expiresAt && r'.reserved == r.reserved)
  }

  lemma SettlingSame(s: State, s': State, t: nat)
    requires t < |s.tasks| == |s'.tasks| && t < |s.resources| == |s'.resources| && SameCourse(s, s', t) && InPlace(s, t)
    ensures Settling(s', t) == Settling(s, t)
    ensures StageOf(s.tasks[t].pc).Choosing? ==> SameView(s, s', StageOf(s.tasks[t].pc).cell)
  {
    SlotsSame(s, s');
    var stage := StageOf(s.tasks[t].pc);
    if stage.Choosing? { ChoosingIsLast(s, t, stage.cell); }
  }

  lemma CourseKept(cfg: Config, s: State, s': State, t: nat, world: Q.World, goal: (Q.Store, Q.Reply))
    requires Course(cfg, s, t, world, goal) && WellFormed(cfg, s') && SameCourse(s, s', t) && Informed(cfg, s', t)
    ensures Course(cfg, s', t, world, goal)
  {
    SettlingSame(s, s', t);
    HeadingKept(cfg, s, s', t, world, goal);
  }

  lemma HeadingKept(cfg: Config, s: State, s': State, t: nat, world: Q.World, goal: (Q.Store, Q.Reply))
    requires ValidConfig(cfg) && t < |s.tasks| == |cfg.requests| == |s.resources| == |s'.tasks| == |s'.resources|
    requires Heading(cfg, s, t, world, goal) && SameCourse(s, s', t)
    requires Settling(s', t) == Settling(s, t)
    requires StageOf(s.tasks[t].pc).Choosing? ==> SameView(s, s', StageOf(s.tasks[t].pc).cell)
    ensures Heading(cfg, s', t, world, goal)
  {
  }

  lemma ChoosingIsLast(s: State, t: nat, c: nat)
    requires t < |s.tasks| && InPlace(s, t) && StageOf(s.tasks[t].pc) == Choosing(c)
    ensures s.lru != [] && s.lru[|s.lru| - 1].value == c
  {
  }

  lemma UnseenSame(s: State, t: nat, mutex: Option<nat>, clock: nat)
    requires t < |s.tasks| && t < |s.resources|
    ensures SameCourse(s, s.(mutex := mutex, clock := clock), t)
  {
  }

  /** The lock and the clock do not matter to a lone request. */
  lemma UnseenHeads(cfg: Config, s: State, t: nat, mutex: Option<nat>, clock: nat, world: Q.World, goal: (Q.Store, Q.Reply))
    requires Course(cfg, s, t, world, goal)
    ensures Course(cfg, s.(mutex := mutex, clock := clock), t, world, goal)
  {
    UnseenSame(s, t, mutex, clock);
    CourseKept(cfg, s, s.(mutex := mutex, clock := clock), t, world, goal);
  }

  lemma ClockHeads(cfg: Config, s: State, s': State, t: nat, world: Q.World, goal: (Q.Store, Q.Reply))
    requires Course(cfg, s, t, world, goal) && s' == s.(clock := s'.clock)
    ensures Course(cfg, s', t, world, goal)
  {
    UnseenHeads(cfg, s, t, s.mutex, s'.clock, world, goal);
  }

  lemma GotoSame(cfg: Config, s: State, t: nat, q: Pc)
    requires WellFormed(cfg, s) && t < |s.tasks|
    requires StageOf(q) == StageOf(s.tasks[t].pc) && CellOf(q) == CellOf(s.tasks[t].pc)
    requires Owed(Goto(s, t, q), t) == Owed(s, t)
    ensures SameCourse(s, Goto(s, t, q), t)
  {
  }

  lemma GotoHeads(cfg: Config, s: State, t: nat, q: Pc, world: Q.World, goal: (Q.Store, Q.Reply))
    requires Course(cfg, s, t, world, goal) && PcInRange(|cfg.requests|, q)
    requires StageOf(q) == StageOf(s.tasks[t].pc) && CellOf(q) == CellOf(s.tasks[t].pc)
    requires Owed(Goto(s, t, q), t) == Owed(s, t) && Informed(cfg, Goto(s, t, q), t)
    ensures Course(cfg, Goto(s, t, q), t, world, goal)
  {
    GotoSame(cfg, s, t, q);
    CourseKept(cfg, s, Goto(s, t, q), t, world, goal);
  }

  lemma ArriveHeads(cfg: Config, s: State, t: nat, world: Q.World, goal: (Q.Store, Q.Reply))
    requires Course(cfg, s, t, world, goal) && s.tasks[t].pc.Idle?
    ensures Course(cfg, Arrive(cfg, s, t), t, world, goal)
  {
    if cfg.requests[t].rule.Disabled? { DisabledHeads(cfg, s, t, world, goal); } else { EnabledHeads(cfg, s, t, world, goal); }
  }

  lemma DisabledHeads(cfg: Config, s: State, t: nat, world: Q.World, goal: (Q.Store, Q.Reply))
    requires Course(cfg, s, t, world, goal) && s.tasks[t].pc.Idle? && cfg.requests[t].rule.Disabled?
    ensures Course(cfg, Arrive(cfg, s, t), t, world, goal)
  {
    SlotsSame(s, Arrive(cfg, s, t));
  }

  lemma EnabledHeads(cfg: Config, s: State, t: nat, world: Q.World, goal: (Q.Store, Q.Reply))
    requires Course(cfg, s, t, world, goal) && s.tasks[t].pc.Idle? && cfg.requests[t].rule.Enabled?
    ensures Course(cfg, Arrive(cfg, s, t), t, world, goal)
  {
    SlotsSame(s, Arrive(cfg, s, t));
  }

  // ----- The lookup -----

  lemma {:induction false} FindSame<V, W>(a: seq<Entry<Key, V>>, b: seq<Entry<Key, W>>, key: Key)
    requires |a| == |b| && forall i :: 0 <= i < |a| ==> a[i].key == b[i].key
    ensures Find(a, key) == Find(b, key)
    decreases |a|
  {
    if a != [] { FindSame(a[..|a| - 1], b[..|b| - 1], key); }
  }

  lemma ServeLooksUp(limits: Q.Limits, st: Q.Store, req: Request, id: nat, world: Q.World)
    requires 1 <= limits.maxFiles && Q.Cacheable(req.rule)
    ensures var st1 := Q.LookedUp(limits, st, KeyOf(req), req.now);
      Q.Serve(limits, st, req, id, world) == FromCell(st1, req, id, st1.entries[|st1.entries| - 1].value, world)
  {
  }

  /** A lookup that leaves the store as the sequential one does is on course. */
  lemma LookupHeads(cfg: Config, s: State, s': State, t: nat, c: nat, world: Q.World, goal: (Q.Store, Q.Reply))
    requires Course(cfg, s, t, world, goal) && s.tasks[t].pc.LookupLock? && WellFormed(cfg, s')
    requires StageOf(s'.tasks[t].pc) == Choosing(c) && CellOf(s'.tasks[t].pc) == Some(c)
    requires SnapOf(s'.tasks[t].pc).None?
    requires s'.lru != [] && s'.lru[|s'.lru| - 1].value == c
    requires var req := cfg.requests[t]; Settling(s', t) == Q.LookedUp(LimitsOf(cfg), StoreOf(s), KeyOf(req), req.now)
    ensures Course(cfg, s', t, world, goal)
  {
    ServeLooksUp(LimitsOf(cfg), StoreOf(s), cfg.requests[t], t, world);
    assert Slots(s')[|s'.lru| - 1].value == ValueAt(s', c);
  }

  /** The request's new cell was in nobody's sight. */
  lemma NewCellUnseen(cfg: Config, s: State, s': State, t: nat)
    requires Owned(cfg, s) && t < |s.tasks| && Early(s.tasks[t].pc)
    requires s'.resources == s.resources && s'.cells == s.cells[t := NO_CELL.(created := true)]
    ensures ValueAt(s', t).None?
    ensures forall i :: 0 <= i < |s.lru| ==> s.lru[i].value != t && SameView(s, s', s.lru[i].value)
  {
    assert TaskOwns(cfg, s, t);
    forall i | 0 <= i < |s.lru| ensures s.lru[i].value != t && SameView(s, s', s.lru[i].value) {
      assert EntryOwned(cfg, s, i);
    }
  }

  lemma MappedPromoted(cfg: Config, s: State, t: nat, i: nat)
    requires Owned(cfg, s) && i < |s.lru| && s.lru[i].value != t
    ensures !Mapped(Promote(s.lru, i, t), s.lru[i].value)
  {
    var c, r := s.lru[i].value, Promote(s.lru, i, t);
    forall j | 0 <= j < |r| ensures r[j].value != c {
      if j < i { DistinctCells(cfg, s, j, i); }
      else if j < |r| - 1 { DistinctCells(cfg, s, i, j + 1); }
    }
  }

  lemma MappedInserted(cfg: Config, s: State, t: nat, key: Key)
    requires Owned(cfg, s) && |s.lru| >= cfg.maxFiles && s.lru[0].value != t
    ensures !Mapped(Insert(s.lru, cfg.maxFiles, Entry(key, t)), s.lru[0].value)
  {
    var r := Insert(s.lru, cfg.maxFiles, Entry(key, t));
    forall j | 0 <= j < |r| ensures r[j].value != s.lru[0].value {
      if j < |r| - 1 { DistinctCells(cfg, s, 0, j + 1); }
    }
  }

  /** The slots after an entry was promoted, or inserted, without anything else changing. */
  lemma SlotsPromoted(s: State, s': State, i: nat, c: nat)
    requires i < |s.lru| && s'.lru == Promote(s.lru, i, c)
    requires forall j :: 0 <= j < |s.lru| && j != i ==> SameView(s, s', s.lru[j].value)
    ensures Slots(s') == Promote(Slots(s), i, ValueAt(s', c))
  {
    forall j | 0 <= j < |s.lru| ensures Slots(s')[j] == Promote(Slots(s), i, ValueAt(s', c))[j] {
      if j < |s.lru| - 1 { assert SameView(s, s', s.lru[if j < i then j else j + 1].value); }
    }
  }

  lemma SlotsInserted(s: State, s': State, limit: nat, e: Entry<Key, nat>)
    requires 1 <= limit && s'.lru == Insert(s.lru, limit, e)
    requires forall j :: 0 <= j < |s.lru| ==> SameView(s, s', s.lru[j].value)
    ensures Slots(s') == Insert(Slots(s), limit, Entry(e.key, ValueAt(s', e.value)))
  {
    forall j | 0 <= j < |s'.lru| ensures Slots(s')[j] == Insert(Slots(s), limit, Entry(e.key, ValueAt(s', e.value)))[j] {
      if j < |s'.lru| - 1 { assert SameView(s, s', s.lru[if |s.lru| < limit then j else j + 1].value); }
    }
  }

  lemma FreshStore(cfg: Config, s: State, t: nat, i: nat)
    requires WellFormed(cfg, s) && t < |s.tasks|
    requires Find(s.lru, KeyOf(cfg.requests[t])) == Some(i) && !Stale(cfg, s, t, s.lru[i].value)
    ensures var req := cfg.requests[t];
      Settling(LookupFound(cfg, s, t, i), t) == Q.LookedUp(LimitsOf(cfg), StoreOf(s), KeyOf(req), req.now)
  {
    FindSame(s.lru, Slots(s), KeyOf(cfg.requests[t]));
    SlotsPromoted(s, LookupFound(cfg, s, t, i), i, s.lru[i].value);
  }

  lemma StaleStore(cfg: Config, s: State, t: nat, i: nat)
    requires Owned(cfg, s) && t < |s.tasks| && s.tasks[t].pc.LookupLock?
    requires Find(s.lru, KeyOf(cfg.requests[t])) == Some(i) && Stale(cfg, s, t, s.lru[i].value)
    ensures var req := cfg.requests[t];
      Settling(LookupFound(cfg, s, t, i), t) == Q.LookedUp(LimitsOf(cfg), StoreOf(s), KeyOf(req), req.now)
  {
    var s' := LookupFound(cfg, s, t, i);
    FindSame(s.lru, Slots(s), KeyOf(cfg.requests[t]));
    NewCellUnseen(cfg, s, s', t);
    MappedPromoted(cfg, s, t, i);
    SlotsPromoted(s, s', i, t);
  }

  lemma NewStore(cfg: Config, s: State, t: nat)
    requires Owned(cfg, s) && t < |s.tasks| && s.tasks[t].pc.LookupLock?
    requires Find(s.lru, KeyOf(cfg.requests[t])).None?
    ensures var req := cfg.requests[t];
      Settling(LookupNew(cfg, s, t), t) == Q.LookedUp(LimitsOf(cfg), StoreOf(s), KeyOf(req), req.now)
  {
    var s', key := LookupNew(cfg, s, t), KeyOf(cfg.requests[t]);
    FindSame(s.lru, Slots(s), key);
    NewCellUnseen(cfg, s, s', t);
    if |s.lru| >= cfg.maxFiles { MappedInserted(cfg, s, t, key); }
    SlotsInserted(s, s', cfg.maxFiles, Entry(key, t));
  }

  lemma FreshHeads(cfg: Config, s: State, t: nat, i: nat, world: Q.World, goal: (Q.Store, Q.Reply))
    requires Course(cfg, s, t, world, goal) && s.tasks[t].pc.LookupLock?
    requires Find(s.lru, KeyOf(cfg.requests[t])) == Some(i) && !Stale(cfg, s, t, s.lru[i].value)
    ensures Course(cfg, LookupFound(cfg, s, t, i), t, world, goal)
  {
    FreshStore(cfg, s, t, i);
    LookupHeads(cfg, s, LookupFound(cfg, s, t, i), t, s.lru[i].value, world, goal);
  }

  lemma StaleHeads(cfg: Config, s: State, t: nat, i: nat, world: Q.World, goal: (Q.Store, Q.Reply))
    requires Owned(cfg, s) && Course(cfg, s, t, world, goal) && s.tasks[t].pc.LookupLock?
    requires Find(s.lru, KeyOf(cfg.requests[t])) == Some(i) && Stale(cfg, s, t, s.lru[i].value)
    ensures Course(cfg, LookupFound(cfg, s, t, i), t, world, goal)
  {
    StaleStore(cfg, s, t, i);
    LookupHeads(cfg, s, LookupFound(cfg, s, t, i), t, t, world, goal);
  }

  lemma FoundHeads(cfg: Config, s: State, t: nat, i: nat, world: Q.World, goal: (Q.Store, Q.Reply))
    requires Owned(cfg, s) && Course(cfg, s, t, world, goal) && s.tasks[t].pc.LookupLock?
    requires Find(s.lru, KeyOf(cfg.requests[t])) == Some(i)
    ensures Course(cfg, LookupFound(cfg, s, t, i), t, world, goal)
  {
    if Stale(cfg, s, t, s.lru[i].value) {
      StaleHeads(cfg, s, t, i, world, goal);
    } else {
      FreshHeads(cfg, s, t, i, world, goal);
    }
  }

  lemma NewHeads(cfg: Config, s: State, t: nat, world: Q.World, goal: (Q.Store, Q.Reply))
    requires Owned(cfg, s) && Course(cfg, s, t, world, goal) && s.tasks[t].pc.LookupLock?
    requires Find(s.lru, KeyOf(cfg.requests[t])).None?
    ensures Course(cfg, LookupNew(cfg, s, t), t, world, goal)
  {
    NewStore(cfg, s, t);
    LookupHeads(cfg, s, LookupNew(cfg, s, t), t, t, world, goal);
  }

  // ----- The fetch -----

  lemma NeverHeads(cfg: Config, s: State, t: nat, world: Q.World, goal: (Q.Store, Q.Reply))
    requires Course(cfg, s, t, world, goal) && s.tasks[t].pc.NeverFetch?
    ensures Course(cfg, NeverAnswered(cfg, s, t, world.answer), t, world, goal)
  {
    SlotsSame(s, NeverAnswered(cfg, s, t, world.answer));
  }

  lemma FetchHeads(cfg: Config, s: State, t: nat, world: Q.World, goal: (Q.Store, Q.Reply))
    requires Course(cfg, s, t, world, goal) && s.tasks[t].pc.FetchBody?
    requires ValueAt(s, s.tasks[t].pc.cell).None?
    ensures Course(cfg, FetchAnswered(cfg, s, t, s.tasks[t].pc.cell, world.answer), t, world, goal)
  {
    if world.answer.Found? { FoundBodyHeads(cfg, s, t, world, goal); } else { NoBodyHeads(cfg, s, t, world, goal); }
  }

  lemma FetchSettles(cfg: Config, s: State, t: nat, answer: Answer)
    requires WellFormed(cfg, s) && t < |s.tasks| && s.tasks[t].pc.FetchBody? && answer.Found?
    ensures Settling(FetchAnswered(cfg, s, t, s.tasks[t].pc.cell, answer), t) == Settling(s, t)
  {
    SlotsSame(s, FetchAnswered(cfg, s, t, s.tasks[t].pc.cell, answer));
  }

  lemma FoundBodyHeads(cfg: Config, s: State, t: nat, world: Q.World, goal: (Q.Store, Q.Reply))
    requires Course(cfg, s, t, world, goal) && s.tasks[t].pc.FetchBody? && world.answer.Found?
    ensures Course(cfg, FetchAnswered(cfg, s, t, s.tasks[t].pc.cell, world.answer), t, world, goal)
  {
    FetchSettles(cfg, s, t, world.answer);
  }

  lemma NoBodyHeads(cfg: Config, s: State, t: nat, world: Q.World, goal: (Q.Store, Q.Reply))
    requires Course(cfg, s, t, world, goal) && s.tasks[t].pc.FetchBody? && !world.answer.Found?
    requires ValueAt(s, s.tasks[t].pc.cell).None?
    ensures Course(cfg, FetchAnswered(cfg, s, t, s.tasks[t].pc.cell, world.answer), t, world, goal)
  {
    var s' := FetchAnswered(cfg, s, t, s.tasks[t].pc.cell, world.answer);
    NoBodyStore(cfg, s, t, world.answer);
    GoneHeads(cfg, s', t, world, goal);
  }

  lemma NoBodyStore(cfg: Config, s: State, t: nat, answer: Answer)
    requires WellFormed(cfg, s) && t < |s.tasks| && s.tasks[t].pc.FetchBody? && !answer.Found?
    requires ValueAt(s, s.tasks[t].pc.cell).None?
    ensures Settling(FetchAnswered(cfg, s, t, s.tasks[t].pc.cell, answer), t) == Settling(s, t)
  {
    SlotsSame(s, FetchAnswered(cfg, s, t, s.tasks[t].pc.cell, answer));
  }

  /** A request that has its reply, and will leave the store where it should, is on course. */
  lemma GoneHeads(cfg: Config, s: State, t: nat, world: Q.World, goal: (Q.Store, Q.Reply))
    requires WellFormed(cfg, s) && t < |s.tasks| && StageOf(s.tasks[t].pc).Gone? && SnapOf(s.tasks[t].pc).None?
    requires Settling(s, t) == goal.0 && Replied(s.tasks[t], t, cfg.requests[t].rule, goal.1)
    ensures Course(cfg, s, t, world, goal)
  {
  }

  lemma SeeSettles(s: State, t: nat, c: nat)
    requires t < |s.tasks| && s.tasks[t].pc == AwaitCell(c) && InPlace(s, t)
    ensures Settling(Goto(s, t, Classify(c)), t) == Settling(s, t) && Mapped(s.lru, c)
  {
    SlotsSame(s, Goto(s, t, Classify(c)));
    assert s.lru[|s.lru| - 1].value == c;
  }

  lemma SeeHeads(cfg: Config, s: State, t: nat, world: Q.World, goal: (Q.Store, Q.Reply))
    requires Course(cfg, s, t, world, goal) && s.tasks[t].pc.AwaitCell?
    requires var v := ValueAt(s, s.tasks[t].pc.cell); v.Some? && v.value.id != t
    ensures Course(cfg, Goto(s, t, Classify(s.tasks[t].pc.cell)), t, world, goal)
  {
    SeeSettles(s, t, s.tasks[t].pc.cell);
  }

  lemma PermitHeads(cfg: Config, s: State, t: nat, world: Q.World, goal: (Q.Store, Q.Reply))
    requires Course(cfg, s, t, world, goal) && s.tasks[t].pc.AwaitCell?
    requires s.cells[s.tasks[t].pc.cell].value.None?
    ensures Course(cfg, EnterCell(cfg, s, t, s.tasks[t].pc.cell), t, world, goal)
  {
    SlotsSame(s, EnterCell(cfg, s, t, s.tasks[t].pc.cell));
  }

  /** A reservation, as an effect. */
  ghost predicate Grants(cfg: Config, s: State, s': State, t: nat, c: nat, content: Content, amount: nat) {
    && WellFormed(cfg, s) && WellFormed(cfg, s') && t < |s.tasks|
    && s'.lru == s.lru && s'.cells == s.cells && amount <= s.available && s'.available == s.available - amount
    && s'.resources == s.resources[t := Resource(c, content, Expiry(cfg.requests[t]), amount, Held, false)]
    && s'.tasks[t].pc.Unlock? && s'.tasks[t].pc.cell == c
  }

  lemma GrantStore(cfg: Config, s: State, s': State, t: nat, c: nat, content: Content, amount: nat)
    requires Grants(cfg, s, s', t, c, content, amount) && Owed(s, t) == 0
    requires amount == Min(Size(content), s.available) && (s.lru == [] || amount == Size(content))
    requires forall i :: 0 <= i < |s.lru| ==> s.cells[s.lru[i].value].value != Some(t)
    ensures Placed(Settling(s', t), Q.Cached(t, content, Expiry(cfg.requests[t]), amount))
         == Q.Fill(Settling(s, t), t, content, Expiry(cfg.requests[t]))
  {
    SlotsSame(s, s');
    FillsAtOnce(Settling(s, t), t, content, Expiry(cfg.requests[t]));
  }

  lemma GrantHeads(cfg: Config, s: State, s': State, t: nat, c: nat, content: Content, amount: nat,
                   world: Q.World, goal: (Q.Store, Q.Reply))
    requires Course(cfg, s, t, world, goal) && (s.tasks[t].pc.Reserve? || s.tasks[t].pc.ReserveUpTo?)
    requires Grants(cfg, s, s', t, c, content, amount)
    requires CellOf(s.tasks[t].pc) == Some(c) && content == s.tasks[t].pc.content
    requires amount == Min(Size(content), s.available) && (s.lru == [] || amount == Size(content))
    requires forall i :: 0 <= i < |s.lru| ==> s.cells[s.lru[i].value].value != Some(t)
    ensures Course(cfg, s', t, world, goal)
  {
    GrantStore(cfg, s, s', t, c, content, amount);
    MadeHeads(cfg, s, s', t, c, content, world, goal);
  }

  /** A request that has made its resource, and will place it where filling leads, is on course. */
  lemma MadeHeads(cfg: Config, s: State, s': State, t: nat, c: nat, content: Content, world: Q.World,
                  goal: (Q.Store, Q.Reply))
    requires Course(cfg, s, t, world, goal) && WellFormed(cfg, s') && s'.lru == s.lru
    requires StageOf(s.tasks[t].pc) == Making(content) && CellOf(s.tasks[t].pc) == Some(c)
      && s'.tasks[t].pc.Unlock? && s'.tasks[t].pc.cell == c
    requires var x := s'.resources[t];
      && x.content == content
      && Placed(Settling(s', t), Q.Cached(t, content, x.expiresAt, x.reserved))
           == Q.Fill(Settling(s, t), t, content, Expiry(cfg.requests[t]))
    ensures Course(cfg, s', t, world, goal)
  {
  }

  /** Nothing is popped if the content fits already, or if there is nothing to pop. */
  lemma FillsAtOnce(st: Q.Store, id: nat, content: Content, expiresAt: Option<int>)
    requires Size(content) <= st.available || st.entries == []
    ensures var granted := Min(Size(content), st.available);
      Q.Fill(st, id, content, expiresAt) ==
        Placed(Q.Store(st.available - granted, st.entries), Q.Cached(id, content, expiresAt, granted))
  {
    assert st.entries[..0] == [] && st.entries[0..] == st.entries;
  }

  lemma PopStore(cfg: Config, s: State, t: nat)
    requires WellFormed(cfg, s) && t < |s.tasks| && s.tasks[t].pc.Evict? && s.lru != []
    ensures var pc := s.tasks[t].pc;
      Settling(PopOldest(cfg, s, t, pc.cell, pc.content), t) ==
        Q.Store(s.available + Q.Held(Slots(s)[0].value), Slots(s)[1..])
  {
    var pc := s.tasks[t].pc;
    assert Slots(PopOldest(cfg, s, t, pc.cell, pc.content)) == Slots(s)[1..];
  }

  lemma PopHeads(cfg: Config, s: State, t: nat, world: Q.World, goal: (Q.Store, Q.Reply))
    requires Course(cfg, s, t, world, goal) && s.tasks[t].pc.Evict? && s.lru != []
    ensures var pc := s.tasks[t].pc; Course(cfg, PopOldest(cfg, s, t, pc.cell, pc.content), t, world, goal)
  {
    var pc := s.tasks[t].pc;
    var s' := PopOldest(cfg, s, t, pc.cell, pc.content);
    PopPlaced(cfg, s, t);
    PopStore(cfg, s, t);
    FillsAfterPop(Settling(s, t), Settling(s', t), t, pc.content, Expiry(cfg.requests[t]));
    MakingHeads(cfg, s, s', t, world, goal);
  }

  lemma PopPlaced(cfg: Config, s: State, t: nat)
    requires WellFormed(cfg, s) && t < |s.tasks| && InPlace(s, t) && s.tasks[t].pc.Evict? && s.lru != []
    ensures var pc := s.tasks[t].pc; var s' := PopOldest(cfg, s, t, pc.cell, pc.content);
      InPlace(s', t) && Informed(cfg, s', t)
  {
  }

  /** A step after which filling leads to the same store keeps a request on course. */
  lemma MakingHeads(cfg: Config, s: State, s': State, t: nat, world: Q.World, goal: (Q.Store, Q.Reply))
    requires Course(cfg, s, t, world, goal) && StageOf(s.tasks[t].pc).Making?
    requires WellFormed(cfg, s') && Informed(cfg, s', t) && InPlace(s', t)
    requires StageOf(s'.tasks[t].pc) == StageOf(s.tasks[t].pc)
    requires var content, expiry := StageOf(s.tasks[t].pc).content, Expiry(cfg.requests[t]);
      Q.Fill(Settling(s', t), t, content, expiry) == Q.Fill(Settling(s, t), t, content, expiry)
    ensures Course(cfg, s', t, world, goal)
  {
  }

  /** Popping one entry that has to go does not change what filling leads to. */
  lemma FillsAfterPop(st: Q.Store, st1: Q.Store, id: nat, content: Content, expiresAt: Option<int>)
    requires st.available < Size(content) && st.entries != []
    requires st1 == Q.Store(st.available + Q.Held(st.entries[0].value), st.entries[1..])
    ensures Q.Fill(st1, id, content, expiresAt) == Q.Fill(st, id, content, expiresAt)
  {
    var k1, k := Q.Pops(st1.available, st1.entries, Size(content)), Q.Pops(st.available, st.entries, Size(content));
    assert k == k1 + 1;
    FreedAfterPop(st.entries, k1);
    assert st1.available + Q.HeldIn(st1.entries[..k1]) == st.available + Q.HeldIn(st.entries[..k]);
    assert st1.entries[k1..] == st.entries[k..];
  }

  lemma FreedAfterPop(es: seq<Q.Slot>, k: nat)
    requires k < |es|
    ensures Q.HeldIn(es[..k + 1]) == Q.Held(es[0].value) + Q.HeldIn(es[1..][..k])
  {
    assert es[..k + 1][1..] == es[1..][..k];
  }

  lemma EmptiedHeads(cfg: Config, s: State, t: nat, world: Q.World, goal: (Q.Store, Q.Reply))
    requires Course(cfg, s, t, world, goal) && s.tasks[t].pc.Evict? && s.lru == []
    ensures var pc := s.tasks[t].pc; Course(cfg, PopOldest(cfg, s, t, pc.cell, pc.content), t, world, goal)
  {
    var pc := s.tasks[t].pc;
    SlotsSame(s, PopOldest(cfg, s, t, pc.cell, pc.content));
  }

  lemma EvictedSame(cfg: Config, s: State, t: nat)
    requires WellFormed(cfg, s) && t < |s.tasks| && s.tasks[t].pc.CountEvicted? && !Mapped(s.lru, s.tasks[t].pc.victim)
    ensures var pc := s.tasks[t].pc; SameCourse(s, CountEviction(cfg, s, t, pc.cell, pc.content, pc.victim), t)
  {
    var pc := s.tasks[t].pc;
    assert SameView(s, CountEviction(cfg, s, t, pc.cell, pc.content, pc.victim), pc.victim);
  }

  lemma EvictedHeads(cfg: Config, s: State, t: nat, world: Q.World, goal: (Q.Store, Q.Reply))
    requires Course(cfg, s, t, world, goal) && s.tasks[t].pc.CountEvicted? && !Mapped(s.lru, s.tasks[t].pc.victim)
    ensures var pc := s.tasks[t].pc; Course(cfg, CountEviction(cfg, s, t, pc.cell, pc.content, pc.victim), t, world, goal)
  {
    var pc := s.tasks[t].pc;
    EvictedSame(cfg, s, t);
    CourseKept(cfg, s, CountEviction(cfg, s, t, pc.cell, pc.content, pc.victim), t, world, goal);
  }

  lemma FileHeads(cfg: Config, s: State, t: nat, world: Q.World, goal: (Q.Store, Q.Reply))
    requires Course(cfg, s, t, world, goal) && s.tasks[t].pc.CountFile?
    ensures Course(cfg, CountNewFile(cfg, s, t, s.tasks[t].pc.cell), t, world, goal)
  {
    CourseKept(cfg, s, CountNewFile(cfg, s, t, s.tasks[t].pc.cell), t, world, goal);
  }

  /** The value goes into the last entry, or nowhere if the map was emptied. */
  lemma FillStore(cfg: Config, s: State, t: nat, c: nat)
    requires WellFormed(cfg, s) && t < |s.tasks| && s.tasks[t].pc == Fill(c) && InPlace(s, t)
    requires forall i :: 0 <= i < |s.lru| - 1 ==> s.lru[i].value != c
    ensures
      var s', x := FillCell(cfg, s, t, c), s.resources[t];
      var v := Q.Cached(t, x.content, x.expiresAt, x.reserved);
      && ValueAt(s', c) == Some(v) && s'.lru == s.lru && (Mapped(s.lru, c) <==> s.lru != [])
      && Slots(s') == Placed(Settling(s, t), v).entries
  {
    var s' := FillCell(cfg, s, t, c);
    forall i | 0 <= i < |s.lru| - 1 ensures SameView(s, s', s.lru[i].value) { }
    if s.lru == [] {
      SlotsSame(s, s');
    } else {
      assert s.lru[|s.lru| - 1].value == c;
    }
  }

  /** A request whose resource is in its place is on course. */
  lemma FilledHeads(cfg: Config, s: State, s': State, t: nat, c: nat, world: Q.World, goal: (Q.Store, Q.Reply))
    requires Course(cfg, s, t, world, goal) && s.tasks[t].pc == Fill(c) && WellFormed(cfg, s')
    requires s'.tasks[t].pc == Classify(c) && s'.lru == s.lru && s'.available == s.available
    requires Mapped(s.lru, c) <==> s.lru != []
    requires var x := s.resources[t];
      var v := Q.Cached(t, x.content, x.expiresAt, x.reserved);
      ValueAt(s', c) == Some(v) && Slots(s') == Placed(Settling(s, t), v).entries
    ensures Course(cfg, s', t, world, goal)
  {
  }

  lemma FillHeads(cfg: Config, s: State, t: nat, world: Q.World, goal: (Q.Store, Q.Reply))
    requires Course(cfg, s, t, world, goal) && s.tasks[t].pc.Fill?
    requires forall i :: 0 <= i < |s.lru| - 1 ==> s.lru[i].value != s.tasks[t].pc.cell
    ensures Course(cfg, FillCell(cfg, s, t, s.tasks[t].pc.cell), t, world, goal)
  {
    var c := s.tasks[t].pc.cell;
    FillStore(cfg, s, t, c);
    FilledHeads(cfg, s, FillCell(cfg, s, t, c), t, c, world, goal);
  }

  lemma ReportStore(cfg: Config, s: State, t: nat, c: nat)
    requires WellFormed(cfg, s) && t < |s.tasks| && s.tasks[t].pc == Classify(c) && s.cells[c].value.Some?
    ensures var s' := Report(cfg, s, t, c);
      && Settling(s', t) == Settling(s, t) && s'.lru == s.lru && SameView(s, s', c) && ValueAt(s', c).Some?
      && s'.tasks[t].pc == Respond(c) && s'.tasks[t].served == Some(ValueAt(s', c).value.id)
      && var v := ValueAt(s', c).value;
      s'.tasks[t].tally == Some(if v.id == t then Miss(Size(v.content)) else Hit(Size(v.content)))
  {
    SlotsSame(s, Report(cfg, s, t, c));
  }

  /** A request whose cell is filled, and which is counted for it, is on course. */
  lemma GivingHeads(cfg: Config, s: State, s': State, t: nat, c: nat, world: Q.World, goal: (Q.Store, Q.Reply))
    requires Course(cfg, s, t, world, goal) && s.tasks[t].pc == Classify(c) && WellFormed(cfg, s')
    requires Settling(s', t) == Settling(s, t) && s'.lru == s.lru && SameView(s, s', c)
    requires s'.tasks[t].pc == Respond(c) && Informed(cfg, s', t)
    ensures Course(cfg, s', t, world, goal)
  {
  }

  lemma ReportHeads(cfg: Config, s: State, t: nat, world: Q.World, goal: (Q.Store, Q.Reply))
    requires Course(cfg, s, t, world, goal) && s.tasks[t].pc.Classify?
    requires s.cells[s.tasks[t].pc.cell].value.Some?
    ensures Course(cfg, Report(cfg, s, t, s.tasks[t].pc.cell), t, world, goal)
  {
    var c := s.tasks[t].pc.cell;
    ReportStore(cfg, s, t, c);
    GivingHeads(cfg, s, Report(cfg, s, t, c), t, c, world, goal);
  }

  lemma SendStore(cfg: Config, s: State, t: nat, c: nat, ok: bool)
    requires WellFormed(cfg, s) && t < |s.tasks| && s.tasks[t].pc == Respond(c)
    requires s.cells[c].value.Some?
    ensures Settling(SendResponse(cfg, s, t, c, ok), t) ==
      if Mapped(s.lru, c) then Settling(s, t) else Q.Store(s.available + ValueAt(s, c).value.reserved, Slots(s))
  {
    SlotsSame(s, SendResponse(cfg, s, t, c, ok));
  }

  lemma SendHeads(cfg: Config, s: State, t: nat, world: Q.World, goal: (Q.Store, Q.Reply))
    requires Course(cfg, s, t, world, goal) && s.tasks[t].pc.Respond?
    requires s.cells[s.tasks[t].pc.cell].value.Some?
    ensures Course(cfg, SendResponse(cfg, s, t, s.tasks[t].pc.cell, world.cloned), t, world, goal)
  {
    SendStore(cfg, s, t, s.tasks[t].pc.cell, world.cloned);
  }

  // ----- Destructors -----

  /** The reference dropped is the last one unless the map has another. */
  ghost predicate DropsLast(s: State, t: nat)
    requires t < |s.tasks|
  {
    var pc := s.tasks[t].pc;
    pc.DropRef? && pc.target < |s.cells| && s.cells[pc.target].value.Some? ==>
      (Referenced(Goto(s, t, Continue(pc.after)), pc.target) <==> Mapped(s.lru, pc.target))
  }

  lemma DropSame(cfg: Config, s: State, t: nat)
    requires WellFormed(cfg, s) && t < |s.tasks| && s.tasks[t].pc.DropRef? && DropsLast(s, t)
    ensures var pc := s.tasks[t].pc; SameCourse(s, DropCell(cfg, s, t, pc.target, pc.after), t)
  {
  }

  lemma UncountSame(cfg: Config, s: State, t: nat)
    requires WellFormed(cfg, s) && t < |s.tasks| && s.tasks[t].pc.Destroy?
    ensures var pc := s.tasks[t].pc; SameCourse(s, Uncount(cfg, s, t, pc.resource, pc.after), t)
  {
  }

  /** The resource that a request gives back is in no cell of the map. */
  ghost predicate ReturnsUnseen(s: State, t: nat)
    requires t < |s.tasks|
  {
    var pc := s.tasks[t].pc;
    pc.Return? ==> forall i :: 0 <= i < |s.lru| && s.lru[i].value < |s.cells| ==> s.cells[s.lru[i].value].value != Some(pc.resource)
  }

  lemma ReturnSame(cfg: Config, s: State, t: nat)
    requires WellFormed(cfg, s) && t < |s.tasks| && s.tasks[t].pc.Return? && ReturnsUnseen(s, t) && Informed(cfg, s, t)
    ensures var pc := s.tasks[t].pc; SameCourse(s, TryReturn(cfg, s, t, pc.resource, pc.snap, pc.after), t)
  {
  }

  lemma DropHeads(cfg: Config, s: State, t: nat, world: Q.World, goal: (Q.Store, Q.Reply))
    requires Course(cfg, s, t, world, goal) && s.tasks[t].pc.DropRef? && DropsLast(s, t)
    ensures var pc := s.tasks[t].pc; Course(cfg, DropCell(cfg, s, t, pc.target, pc.after), t, world, goal)
  {
    var pc := s.tasks[t].pc;
    DropSame(cfg, s, t);
    CourseKept(cfg, s, DropCell(cfg, s, t, pc.target, pc.after), t, world, goal);
  }

  lemma UncountHeads(cfg: Config, s: State, t: nat, world: Q.World, goal: (Q.Store, Q.Reply))
    requires Course(cfg, s, t, world, goal) && s.tasks[t].pc.Destroy?
    ensures var pc := s.tasks[t].pc; Course(cfg, Uncount(cfg, s, t, pc.resource, pc.after), t, world, goal)
  {
    var pc := s.tasks[t].pc;
    UncountSame(cfg, s, t);
    CourseKept(cfg, s, Uncount(cfg, s, t, pc.resource, pc.after), t, world, goal);
  }

  lemma ReturnHeads(cfg: Config, s: State, t: nat, world: Q.World, goal: (Q.Store, Q.Reply))
    requires Course(cfg, s, t, world, goal) && s.tasks[t].pc.Return? && ReturnsUnseen(s, t)
    ensures var pc := s.tasks[t].pc; Course(cfg, TryReturn(cfg, s, t, pc.resource, pc.snap, pc.after), t, world, goal)
  {
    var pc := s.tasks[t].pc;
    ReturnSame(cfg, s, t);
    CourseKept(cfg, s, TryReturn(cfg, s, t, pc.resource, pc.snap, pc.after), t, world, goal);
  }

  // ----- Any step -----

  ghost predicate Allowed(a: Action, world: Q.World) {
    a == Go || a == Deliver(world.answer) || a == Send(world.cloned)
  }

  ghost predicate Solo(cfg: Config, s: State, t: nat, a: Action, world: Q.World, goal: (Q.Store, Q.Reply)) {
    && Balanced(cfg, s) && EvictionsCounted(cfg, s) && Alone(s, t)
    && Course(cfg, s, t, world, goal) && CanStep(cfg, s, t, a) && Allowed(a, world)
  }

  lemma WaitHeads(cfg: Config, s: State, t: nat, a: Action, world: Q.World, goal: (Q.Store, Q.Reply))
    requires Solo(cfg, s, t, a, world, goal) && !a.Go?
    ensures Course(cfg, Step(cfg, s, t, a), t, world, goal)
  {
    if s.tasks[t].pc.NeverFetch? {
      NeverHeads(cfg, s, t, world, goal);
    } else if s.tasks[t].pc.FetchBody? {
      assert TaskOwns(cfg, s, t);
      FetchHeads(cfg, s, t, world, goal);
    } else {
      SendHeads(cfg, s, t, world, goal);
    }
  }

  /** A resource not made yet is in no cell. */
  lemma NotYetUnseen(cfg: Config, s: State, t: nat, c: nat)
    requires Lives(cfg, s) && t < |s.tasks| && Before(s.tasks[t].pc) && c < |s.cells|
    ensures s.cells[c].value != Some(t)
  {
    assert CellLives(s, c) && ResourceLives(cfg, s, t);
  }

  lemma AskHeads(cfg: Config, s: State, t: nat, world: Q.World, goal: (Q.Store, Q.Reply))
    requires Solo(cfg, s, t, Go, world, goal)
    requires var pc := s.tasks[t].pc; pc.Idle? || pc.LookupLock? || pc.LookupUnlock? || pc.AwaitCell?
    ensures Course(cfg, Step(cfg, s, t, Go), t, world, goal)
  {
    var pc := s.tasks[t].pc;
    if pc.Idle? {
      ArriveHeads(cfg, s, t, world, goal);
    } else if pc.LookupLock? {
      match Find(s.lru, KeyOf(cfg.requests[t]))
      case Some(i) => FoundHeads(cfg, s, t, i, world, goal);
      case None => NewHeads(cfg, s, t, world, goal);
    } else if pc.LookupUnlock? {
      UnseenHeads(cfg, s, t, None, s.clock, world, goal);
      GotoHeads(cfg, s.(mutex := None), t, AwaitCell(pc.cell), world, goal);
    } else if s.cells[pc.cell].value.Some? {
      NotYetUnseen(cfg, s, t, pc.cell);
      SeeHeads(cfg, s, t, world, goal);
    } else {
      PermitHeads(cfg, s, t, world, goal);
    }
  }

  lemma TakesHeads(cfg: Config, s: State, t: nat, world: Q.World, goal: (Q.Store, Q.Reply))
    requires Course(cfg, s, t, world, goal) && s.tasks[t].pc.Reserve?
    requires var pc := s.tasks[t].pc; Size(pc.content) == 0 || (pc.snap.Some? && Size(pc.content) <= pc.snap.value)
    requires forall i :: 0 <= i < |s.lru| ==> s.cells[s.lru[i].value].value != Some(t)
    ensures var pc := s.tasks[t].pc; Course(cfg, TryReserve(cfg, s, t, pc.cell, pc.content, pc.locked, pc.snap), t, world, goal)
  {
    var pc := s.tasks[t].pc;
    TakesGrant(cfg, s, t);
    GrantHeads(cfg, s, TryReserve(cfg, s, t, pc.cell, pc.content, pc.locked, pc.snap), t, pc.cell, pc.content,
               Size(pc.content), world, goal);
  }

  lemma TakesGrant(cfg: Config, s: State, t: nat)
    requires WellFormed(cfg, s) && t < |s.tasks| && s.tasks[t].pc.Reserve? && Informed(cfg, s, t)
    requires var pc := s.tasks[t].pc; Size(pc.content) == 0 || (pc.snap.Some? && Size(pc.content) <= pc.snap.value)
    ensures var pc := s.tasks[t].pc;
      Grants(cfg, s, TryReserve(cfg, s, t, pc.cell, pc.content, pc.locked, pc.snap), t, pc.cell, pc.content, Size(pc.content))
  {
  }

  lemma ReserveTakesHeads(cfg: Config, s: State, t: nat, world: Q.World, goal: (Q.Store, Q.Reply))
    requires Solo(cfg, s, t, Go, world, goal) && s.tasks[t].pc.Reserve?
    requires var pc := s.tasks[t].pc; Size(pc.content) == 0 || (pc.snap.Some? && Size(pc.content) <= pc.snap.value)
    ensures Course(cfg, Step(cfg, s, t, Go), t, world, goal)
  {
    forall i | 0 <= i < |s.lru| ensures s.cells[s.lru[i].value].value != Some(t) {
      NotYetUnseen(cfg, s, t, s.lru[i].value);
    }
    TakesHeads(cfg, s, t, world, goal);
  }

  lemma ReserveTriesHeads(cfg: Config, s: State, t: nat, world: Q.World, goal: (Q.Store, Q.Reply))
    requires Solo(cfg, s, t, Go, world, goal) && s.tasks[t].pc.Reserve?
    requires var pc := s.tasks[t].pc; Size(pc.content) > 0 && (pc.snap.Some? ==> pc.snap.value < Size(pc.content))
    ensures Course(cfg, Step(cfg, s, t, Go), t, world, goal)
  {
    TriesHeads(cfg, s, t, world, goal);
  }

  lemma TriesHeads(cfg: Config, s: State, t: nat, world: Q.World, goal: (Q.Store, Q.Reply))
    requires Course(cfg, s, t, world, goal) && s.tasks[t].pc.Reserve?
    requires var pc := s.tasks[t].pc; Size(pc.content) > 0 && (pc.snap.Some? ==> pc.snap.value < Size(pc.content))
    ensures var pc := s.tasks[t].pc; Course(cfg, TryReserve(cfg, s, t, pc.cell, pc.content, pc.locked, pc.snap), t, world, goal)
  {
    var pc := s.tasks[t].pc;
    if pc.snap.None? {
      GotoHeads(cfg, s, t, Reserve(pc.cell, pc.content, pc.locked, Some(s.available)), world, goal);
    } else if pc.locked {
      GotoHeads(cfg, s, t, Evict(pc.cell, pc.content), world, goal);
    } else {
      GotoHeads(cfg, s, t, EvictLock(pc.cell, pc.content), world, goal);
    }
  }

  lemma ReserveUpToHeads(cfg: Config, s: State, t: nat, world: Q.World, goal: (Q.Store, Q.Reply))
    requires Solo(cfg, s, t, Go, world, goal) && s.tasks[t].pc.ReserveUpTo?
    ensures Course(cfg, Step(cfg, s, t, Go), t, world, goal)
  {
    var pc := s.tasks[t].pc;
    assert TaskBytes(cfg, s, t);
    if pc.snap.None? {
      GotoHeads(cfg, s, t, ReserveUpTo(pc.cell, pc.content, Some(s.available)), world, goal);
    } else {
      TakesMostHeads(cfg, s, t, world, goal);
    }
  }

  lemma TakesMostHeads(cfg: Config, s: State, t: nat, world: Q.World, goal: (Q.Store, Q.Reply))
    requires Course(cfg, s, t, world, goal) && s.tasks[t].pc.ReserveUpTo? && s.tasks[t].pc.snap.Some? && s.lru == []
    ensures var pc := s.tasks[t].pc; Course(cfg, TryReserveUpTo(cfg, s, t, pc.cell, pc.content, pc.snap), t, world, goal)
  {
    var pc := s.tasks[t].pc;
    TakesMostGrant(cfg, s, t);
    GrantHeads(cfg, s, TryReserveUpTo(cfg, s, t, pc.cell, pc.content, pc.snap), t, pc.cell, pc.content,
               Min(Size(pc.content), s.available), world, goal);
  }

  lemma TakesMostGrant(cfg: Config, s: State, t: nat)
    requires WellFormed(cfg, s) && t < |s.tasks| && Informed(cfg, s, t)
    requires s.tasks[t].pc.ReserveUpTo? && s.tasks[t].pc.snap.Some?
    ensures var pc := s.tasks[t].pc;
      Grants(cfg, s, TryReserveUpTo(cfg, s, t, pc.cell, pc.content, pc.snap), t, pc.cell, pc.content, Min(Size(pc.content), s.available))
  {
  }

  lemma EvictLockHeads(cfg: Config, s: State, t: nat, world: Q.World, goal: (Q.Store, Q.Reply))
    requires Solo(cfg, s, t, Go, world, goal) && s.tasks[t].pc.EvictLock?
    ensures Course(cfg, Step(cfg, s, t, Go), t, world, goal)
  {
    var pc := s.tasks[t].pc;
    UnseenHeads(cfg, s, t, Some(t), s.clock, world, goal);
    GotoHeads(cfg, s.(mutex := Some(t)), t, Evict(pc.cell, pc.content), world, goal);
  }

  lemma EvictHeads(cfg: Config, s: State, t: nat, world: Q.World, goal: (Q.Store, Q.Reply))
    requires Solo(cfg, s, t, Go, world, goal) && (s.tasks[t].pc.Evict? || s.tasks[t].pc.CountEvicted?)
    ensures Course(cfg, Step(cfg, s, t, Go), t, world, goal)
  {
    var pc := s.tasks[t].pc;
    if pc.CountEvicted? {
      assert Counting(s, t);
      EvictedHeads(cfg, s, t, world, goal);
    } else if s.lru == [] {
      EmptiedHeads(cfg, s, t, world, goal);
    } else {
      PopHeads(cfg, s, t, world, goal);
    }
  }

  lemma UnlockHeads(cfg: Config, s: State, t: nat, world: Q.World, goal: (Q.Store, Q.Reply))
    requires Solo(cfg, s, t, Go, world, goal) && s.tasks[t].pc.Unlock?
    ensures Course(cfg, Step(cfg, s, t, Go), t, world, goal)
  {
    var pc := s.tasks[t].pc;
    var s1 := if pc.locked then s.(mutex := None) else s;
    UnseenHeads(cfg, s, t, s1.mutex, s.clock, world, goal);
    GotoHeads(cfg, s1, t, CountFile(pc.cell), world, goal);
  }

  lemma PlaceHeads(cfg: Config, s: State, t: nat, world: Q.World, goal: (Q.Store, Q.Reply))
    requires Solo(cfg, s, t, Go, world, goal)
    requires var pc := s.tasks[t].pc; pc.CountFile? || pc.Fill? || pc.Classify?
    ensures Course(cfg, Step(cfg, s, t, Go), t, world, goal)
  {
    var pc := s.tasks[t].pc;
    if pc.CountFile? {
      FileHeads(cfg, s, t, world, goal);
    } else if pc.Fill? {
      forall i | 0 <= i < |s.lru| - 1 ensures s.lru[i].value != pc.cell {
        DistinctCells(cfg, s, i, |s.lru| - 1);
      }
      FillHeads(cfg, s, t, world, goal);
    } else {
      ReportHeads(cfg, s, t, world, goal);
    }
  }

  /** A lone request's reference is the last one outside the map. */
  lemma LastReference(cfg: Config, s: State, t: nat)
    requires Owned(cfg, s) && Alone(s, t) && InPlace(s, t)
    ensures DropsLast(s, t)
  {
    var pc := s.tasks[t].pc;
    assert TaskOwns(cfg, s, t);
    if pc.DropRef? && pc.after == ThenUnlock(pc.target) { assert s.lru[|s.lru| - 1].value == pc.target; }
  }

  lemma FreedUnseen(cfg: Config, s: State, t: nat)
    requires Lives(cfg, s) && t < |s.tasks|
    ensures ReturnsUnseen(s, t)
  {
    if s.tasks[t].pc.Return? {
      forall i | 0 <= i < |s.lru| ensures s.cells[s.lru[i].value].value != Some(s.tasks[t].pc.resource) {
        FreedIsOut(cfg, s, t, i);
      }
    }
  }

  lemma DestroyHeads(cfg: Config, s: State, t: nat, world: Q.World, goal: (Q.Store, Q.Reply))
    requires Solo(cfg, s, t, Go, world, goal) && InDestructor(s.tasks[t].pc)
    ensures Course(cfg, Step(cfg, s, t, Go), t, world, goal)
  {
    var pc := s.tasks[t].pc;
    if pc.DropRef? {
      LastReference(cfg, s, t);
      DropHeads(cfg, s, t, world, goal);
    } else if pc.Destroy? {
      UncountHeads(cfg, s, t, world, goal);
    } else {
      FreedUnseen(cfg, s, t);
      ReturnHeads(cfg, s, t, world, goal);
    }
  }

  lemma StepHeads(cfg: Config, s: State, t: nat, a: Action, world: Q.World, goal: (Q.Store, Q.Reply))
    requires Solo(cfg, s, t, a, world, goal)
    ensures Course(cfg, Step(cfg, s, t, a), t, world, goal)
  {
    var pc := s.tasks[t].pc;
    if !a.Go? { WaitHeads(cfg, s, t, a, world, goal); }
    else if pc.Idle? || pc.LookupLock? || pc.LookupUnlock? || pc.AwaitCell? { AskHeads(cfg, s, t, world, goal); }
    else if pc.Reserve? {
      if Size(pc.content) == 0 || (pc.snap.Some? && Size(pc.content) <= pc.snap.value) {
        ReserveTakesHeads(cfg, s, t, world, goal);
      } else {
        ReserveTriesHeads(cfg, s, t, world, goal);
      }
    }
    else if pc.ReserveUpTo? { ReserveUpToHeads(cfg, s, t, world, goal); }
    else if pc.EvictLock? { EvictLockHeads(cfg, s, t, world, goal); }
    else if pc.Evict? || pc.CountEvicted? { EvictHeads(cfg, s, t, world, goal); }
    else if InDestructor(pc) { DestroyHeads(cfg, s, t, world, goal); }
    else if pc.Unlock? { UnlockHeads(cfg, s, t, world, goal); }
    else { PlaceHeads(cfg, s, t, world, goal); }
  }

  /** Every step of a lone request keeps it on its way. */
  lemma StaysOnCourse(cfg: Config, s: State, t: nat, a: Action, world: Q.World, goal: (Q.Store, Q.Reply))
    requires Solo(cfg, s, t, a, world, goal)
    ensures Course(cfg, Next(cfg, s, t, a), t, world, goal)
  {
    StepHeads(cfg, s, t, a, world, goal);
    TickHeads(cfg, s, t, a, world, goal);
  }

  lemma TickHeads(cfg: Config, s: State, t: nat, a: Action, world: Q.World, goal: (Q.Store, Q.Reply))
    requires WellFormed(cfg, s) && CanStep(cfg, s, t, a) && Course(cfg, Step(cfg, s, t, a), t, world, goal)
    ensures Course(cfg, Next(cfg, s, t, a), t, world, goal)
  {
    ClockHeads(cfg, Step(cfg, s, t, a), Next(cfg, s, t, a), t, world, goal);
  }

  // ----- Runs without overlap -----

  /** After tr0, only task t moved, with what the world does to it, and it was not cancelled. */
  ghost predicate Undisturbed(tr: Trace, tr0: Trace, t: nat, world: Q.World) {
    tr == tr0 || (tr.Then? && tr.task == t && Allowed(tr.action, world) && Undisturbed(tr.before, tr0, t, world))
  }

  lemma {:induction false} UndisturbedCourse(cfg: Config, tr: Trace, tr0: Trace, t: nat, world: Q.World)
    requires Valid(cfg, tr) && Undisturbed(tr, tr0, t, world)
    requires Valid(cfg, tr0) && Quiescent(Final(cfg, tr0)) && t < |cfg.requests| && Final(cfg, tr0).tasks[t].pc.Idle?
    ensures Alone(Final(cfg, tr), t)
    ensures Course(cfg, Final(cfg, tr), t, world,
                   Q.Serve(LimitsOf(cfg), StoreOf(Final(cfg, tr0)), cfg.requests[t], t, world))
  {
    if tr != tr0 {
      UndisturbedCourse(cfg, tr.before, tr0, t, world);
      RunStaysOnCourse(cfg, tr, world, Q.Serve(LimitsOf(cfg), StoreOf(Final(cfg, tr0)), cfg.requests[t], t, world));
    }
  }

  lemma RunStaysOnCourse(cfg: Config, tr: Trace, world: Q.World, goal: (Q.Store, Q.Reply))
    requires Valid(cfg, tr) && tr.Then? && Allowed(tr.action, world)
    requires Alone(Final(cfg, tr.before), tr.task) && Course(cfg, Final(cfg, tr.before), tr.task, world, goal)
    ensures Alone(Final(cfg, tr), tr.task) && Course(cfg, Final(cfg, tr), tr.task, world, goal)
  {
    BalancedAlways(cfg, tr.before);
    EvictionsAlways(cfg, tr.before);
    StaysOnCourse(cfg, Final(cfg, tr.before), tr.task, tr.action, world, goal);
    var k := StepEffect(cfg, Final(cfg, tr.before), tr.task, tr.action);
  }

  /**
   * Refinement. A request that runs from rest to its end without overlap, by
   * any steps, leaves the store as the sequential model says, and is answered
   * and counted as the sequential model replies.
   */
  lemma LoneRequestServes(cfg: Config, tr0: Trace, s0: State, tr: Trace, s: State, t: nat, world: Q.World)
    requires Reaches(cfg, tr0, s0) && Quiescent(s0) && t < |cfg.requests| && s0.tasks[t].pc.Idle?
    requires Reaches(cfg, tr, s) && Undisturbed(tr, tr0, t, world) && s.tasks[t].pc.Done?
    ensures Quiescent(s)
    ensures StoreOf(s) == Q.Serve(LimitsOf(cfg), StoreOf(s0), cfg.requests[t], t, world).0
    ensures Replied(s.tasks[t], t, cfg.requests[t].rule, Q.Serve(LimitsOf(cfg), StoreOf(s0), cfg.requests[t], t, world).1)
  {
    UndisturbedCourse(cfg, tr, tr0, t, world);
    AtTheEnd(cfg, s, t, world, Q.Serve(LimitsOf(cfg), StoreOf(s0), cfg.requests[t], t, world));
  }

  lemma AtTheEnd(cfg: Config, s: State, t: nat, world: Q.World, goal: (Q.Store, Q.Reply))
    requires Course(cfg, s, t, world, goal) && s.tasks[t].pc.Done?
    ensures StoreOf(s) == goal.0 && Replied(s.tasks[t], t, cfg.requests[t].rule, goal.1)
  {
  }

  /** What a lone request does next. */
  ghost function NextAction(pc: Pc, world: Q.World): Action {
    if pc.NeverFetch? || pc.FetchBody? then Deliver(world.answer) else if pc.Respond? then Send(world.cloned) else Go
  }

  /** Nobody else holds the lock, or the permit of its cell. */
  lemma NothingInTheWay(cfg: Config, s: State, t: nat, world: Q.World)
    requires Owned(cfg, s) && Alone(s, t) && !s.tasks[t].pc.Done? && cfg.upstream(KeyOf(cfg.requests[t]), world.answer)
    ensures CanStep(cfg, s, t, NextAction(s.tasks[t].pc, world))
  {
    var pc := s.tasks[t].pc;
    assert TaskOwns(cfg, s, t);
    if s.mutex.Some? { assert TaskOwns(cfg, s, s.mutex.value); }
    if pc.AwaitCell? { assert CellOwned(s, pc.cell); }
  }

  /** A lone request that is not done can take one more step, and gets closer to its end. */
  lemma OneMoreStep(cfg: Config, tr: Trace, t: nat, world: Q.World) returns (tr': Trace)
    requires Valid(cfg, tr) && Alone(Final(cfg, tr), t) && !Final(cfg, tr).tasks[t].pc.Done?
    requires cfg.upstream(KeyOf(cfg.requests[t]), world.answer)
    ensures tr'.Then? && tr'.before == tr && tr'.task == t && Allowed(tr'.action, world)
    ensures Valid(cfg, tr') && Alone(Final(cfg, tr'), t)
    ensures 0 <= Measure(Final(cfg, tr')) < Measure(Final(cfg, tr))
  {
    var s := Final(cfg, tr);
    var a := NextAction(s.tasks[t].pc, world);
    OwnedAlways(cfg, tr);
    NothingInTheWay(cfg, s, t, world);
    MeasureDecreases(cfg, s, t, a);
    MeasureNonNegative(Next(cfg, s, t, a));
    var k := StepEffect(cfg, s, t, a);
    tr' := Then(tr, t, a);
  }

  lemma {:induction false} RunsOn(cfg: Config, tr: Trace, tr0: Trace, t: nat, world: Q.World) returns (tr': Trace)
    requires Valid(cfg, tr) && Undisturbed(tr, tr0, t, world) && Alone(Final(cfg, tr), t)
    requires cfg.upstream(KeyOf(cfg.requests[t]), world.answer)
    ensures Valid(cfg, tr') && Undisturbed(tr', tr0, t, world) && Final(cfg, tr').tasks[t].pc.Done?
    decreases Measure(Final(cfg, tr))
  {
    if Final(cfg, tr).tasks[t].pc.Done? {
      tr' := tr;
    } else {
      var more := OneMoreStep(cfg, tr, t, world);
      tr' := RunsOn(cfg, more, tr0, t, world);
    }
  }

  /** A lone request always reaches its end, whichever of its possible worlds upstream gives. */
  lemma LoneRequestEnds(cfg: Config, tr0: Trace, t: nat, world: Q.World) returns (tr: Trace)
    requires Valid(cfg, tr0) && Quiescent(Final(cfg, tr0)) && t < |cfg.requests|
    requires cfg.upstream(KeyOf(cfg.requests[t]), world.answer)
    ensures Valid(cfg, tr) && Undisturbed(tr, tr0, t, world) && Final(cfg, tr).tasks[t].pc.Done?
  {
    tr := RunsOn(cfg, tr0, tr0, t, world);
  }

  /** From tr0 to tr, request t ran to its end, alone. */
  ghost predicate RanAlone(cfg: Config, tr0: Trace, tr: Trace, t: nat, world: Q.World) {
    Valid(cfg, tr) && Undisturbed(tr, tr0, t, world) && t < |cfg.requests| && Final(cfg, tr).tasks[t].pc.Done?
  }

  /** Request i ran alone between moment i and the next. */
  ghost predicate RanNext(cfg: Config, moments: seq<Trace>, worlds: seq<Q.World>, i: nat)
    requires i < |worlds| && |moments| == |worlds| + 1
  {
    RanAlone(cfg, moments[i], moments[i + 1], i, worlds[i])
  }

  /** The requests ran one after another, each to its end: moments[i] is the run when the first i were done. */
  ghost predicate InOrder(cfg: Config, moments: seq<Trace>, worlds: seq<Q.World>) {
    && ValidConfig(cfg) && |moments| == |worlds| + 1 <= |cfg.requests| + 1 && moments[0] == Start
    && forall i :: 0 <= i < |worlds| ==> RanNext(cfg, moments, worlds, i)
  }

  ghost function CallsOf(cfg: Config, worlds: seq<Q.World>, n: nat): seq<Q.Call>
    requires n <= |worlds| && n <= |cfg.requests|
  {
    seq(n, i requires 0 <= i < n => Q.Call(cfg.requests[i], worlds[i]))
  }

  lemma {:induction false} UndisturbedValid(cfg: Config, tr: Trace, tr0: Trace, t: nat, world: Q.World)
    requires Valid(cfg, tr) && Undisturbed(tr, tr0, t, world)
    ensures Valid(cfg, tr0)
    ensures forall u :: 0 <= u < |cfg.requests| && u != t ==> Final(cfg, tr).tasks[u] == Final(cfg, tr0).tasks[u]
  {
    if tr != tr0 {
      UndisturbedValid(cfg, tr.before, tr0, t, world);
      var k := StepEffect(cfg, Final(cfg, tr.before), t, tr.action);
    }
  }

  /** The first n requests are done, answered as the sequential run says; the others have not arrived. */
  ghost predicate DoneInOrder(cfg: Config, s: State, calls: seq<Q.Call>, n: nat)
    requires 1 <= cfg.maxFiles && n <= |calls| && |s.tasks| == |cfg.requests|
  {
    forall i :: 0 <= i < |s.tasks| ==> DoneOrIdle(cfg, s, calls, n, i)
  }

  ghost predicate DoneOrIdle(cfg: Config, s: State, calls: seq<Q.Call>, n: nat, i: nat)
    requires 1 <= cfg.maxFiles && n <= |calls| && i < |s.tasks| == |cfg.requests|
  {
    if i < n then
      s.tasks[i].pc.Done? && Replied(s.tasks[i], i, cfg.requests[i].rule, Q.ReplyTo(LimitsOf(cfg), calls, i))
    else s.tasks[i].pc.Idle?
  }

  lemma SameReply(limits: Q.Limits, a: seq<Q.Call>, b: seq<Q.Call>, i: nat)
    requires 1 <= limits.maxFiles && i < |a| <= |b| && b[..|a|] == a
    ensures Q.ReplyTo(limits, b, i) == Q.ReplyTo(limits, a, i)
  {
    assert b[..i] == a[..i] && b[i] == a[i];
  }

  /** The run is a sequential run of the first n requests: same store, and the sequential reply to each. */
  ghost predicate IsSequential(cfg: Config, tr: Trace, worlds: seq<Q.World>, n: nat)
    requires 1 <= cfg.maxFiles && n <= |worlds| && n <= |cfg.requests|
  {
    && Valid(cfg, tr)
    && DoneInOrder(cfg, Final(cfg, tr), CallsOf(cfg, worlds, n), n)
    && StoreOf(Final(cfg, tr)) == Q.Run(LimitsOf(cfg), CallsOf(cfg, worlds, n))
  }

  lemma NoneInOrder(cfg: Config, worlds: seq<Q.World>)
    requires ValidConfig(cfg)
    ensures IsSequential(cfg, Start, worlds, 0)
  {
    assert Slots(Init(cfg)) == [];
  }

  /**
   * Requests that run one after another, each from its first step to its last,
   * are a sequential run: the machine's store is the sequential store, and each
   * request has its sequential reply.
   */
  lemma {:induction false} RunsInOrder(cfg: Config, moments: seq<Trace>, worlds: seq<Q.World>, n: nat)
    requires InOrder(cfg, moments, worlds) && n <= |worlds|
    ensures IsSequential(cfg, moments[n], worlds, n)
  {
    if n == 0 {
      NoneInOrder(cfg, worlds);
    } else {
      RunsInOrder(cfg, moments, worlds, n - 1);
      assert RanNext(cfg, moments, worlds, n - 1);
      OneMoreInOrder(cfg, moments[n - 1], moments[n], worlds, n - 1);
    }
  }

  lemma OneMoreInOrder(cfg: Config, tr0: Trace, tr: Trace, worlds: seq<Q.World>, j: nat)
    requires 1 <= cfg.maxFiles && j < |worlds| && RanAlone(cfg, tr0, tr, j, worlds[j])
    requires IsSequential(cfg, tr0, worlds, j)
    ensures IsSequential(cfg, tr, worlds, j + 1)
  {
    DoneIsQuiet(cfg, Final(cfg, tr0), CallsOf(cfg, worlds, j), j);
    NextServed(cfg, tr0, tr, worlds, j);
    UndisturbedValid(cfg, tr, tr0, j, worlds[j]);
    LastCall(cfg, worlds, j);
    DoneOneMore(cfg, Final(cfg, tr0), Final(cfg, tr), CallsOf(cfg, worlds, j + 1), j);
  }

  lemma DoneIsQuiet(cfg: Config, s: State, calls: seq<Q.Call>, n: nat)
    requires 1 <= cfg.maxFiles && n <= |calls| && |s.tasks| == |cfg.requests| && DoneInOrder(cfg, s, calls, n)
    ensures Quiescent(s) && (n < |s.tasks| ==> s.tasks[n].pc.Idle?)
  {
    forall i | 0 <= i < |s.tasks| ensures s.tasks[i].pc.Idle? || s.tasks[i].pc.Done? {
      assert DoneOrIdle(cfg, s, calls, n, i);
    }
    if n < |s.tasks| { assert DoneOrIdle(cfg, s, calls, n, n); }
  }

  lemma NextServed(cfg: Config, tr0: Trace, tr: Trace, worlds: seq<Q.World>, j: nat)
    requires j < |worlds| && RanAlone(cfg, tr0, tr, j, worlds[j])
    requires Valid(cfg, tr0) && Quiescent(Final(cfg, tr0)) && Final(cfg, tr0).tasks[j].pc.Idle?
    requires StoreOf(Final(cfg, tr0)) == Q.Run(LimitsOf(cfg), CallsOf(cfg, worlds, j))
    ensures StoreOf(Final(cfg, tr)) == Q.Run(LimitsOf(cfg), CallsOf(cfg, worlds, j + 1))
    ensures Replied(Final(cfg, tr).tasks[j], j, cfg.requests[j].rule, Q.ReplyTo(LimitsOf(cfg), CallsOf(cfg, worlds, j + 1), j))
  {
    LoneRequestServes(cfg, tr0, Final(cfg, tr0), tr, Final(cfg, tr), j, worlds[j]);
    LastCall(cfg, worlds, j);
  }

  lemma LastCall(cfg: Config, worlds: seq<Q.World>, j: nat)
    requires 1 <= cfg.maxFiles && j < |worlds| && j < |cfg.requests|
    ensures var calls := CallsOf(cfg, worlds, j + 1);
      && calls[..j] == CallsOf(cfg, worlds, j)
      && (Q.Run(LimitsOf(cfg), calls), Q.ReplyTo(LimitsOf(cfg), calls, j))
           == Q.Serve(LimitsOf(cfg), Q.Run(LimitsOf(cfg), CallsOf(cfg, worlds, j)), cfg.requests[j], j, worlds[j])
  {
    var calls := CallsOf(cfg, worlds, j + 1);
    assert calls[..j] == CallsOf(cfg, worlds, j) && calls[..j + 1] == calls;
    Q.RunNext(LimitsOf(cfg), calls, j);
  }

  lemma DoneOneMore(cfg: Config, s0: State, s: State, calls: seq<Q.Call>, j: nat)
    requires 1 <= cfg.maxFiles && j < |calls| && j < |cfg.requests| == |s.tasks| == |s0.tasks|
    requires DoneInOrder(cfg, s0, calls[..j], j)
    requires forall u :: 0 <= u < |cfg.requests| && u != j ==> s.tasks[u] == s0.tasks[u]
    requires s.tasks[j].pc.Done? && Replied(s.tasks[j], j, cfg.requests[j].rule, Q.ReplyTo(LimitsOf(cfg), calls, j))
    ensures DoneInOrder(cfg, s, calls, j + 1)
  {
    var n := j + 1;
    forall i | 0 <= i < |s.tasks| ensures DoneOrIdle(cfg, s, calls, n, i) {
      assert DoneOrIdle(cfg, s0, calls[..j], j, i);
      if i < j { SameReply(LimitsOf(cfg), calls[..j], calls, i); }
    }
  }
}
