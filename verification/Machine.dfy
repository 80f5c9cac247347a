/**
 * The cache under concurrency: a state machine whose steps are the atomic
 * actions of `Cache::get`, `create_cached_resource` and the destructors.
 *
 * A request allocates at most one cell and at most one resource, so cells and
 * resources carry the index of the request that allocates them; this index is
 * also the fresh identifier that the request draws (`init_id`).
 */
module Machine {
  import opened Options
  import opened Model
  import opened Recency

  /** What does not change during a run. */
  datatype Config = Config(
    capacity: nat,                          // bytes, `max_disk_capacity`
    maxFiles: nat,                          // entries, `max_cache_files`
    hosts: nat,                             // host keys are 0..hosts
    routes: seq<nat>,                       // the host key of each set of route counters
    requests: seq<Request>,
    ghost upstream: (Key, Answer) -> bool)  // the answers an upstream may give for a key

  ghost predicate ValidConfig(cfg: Config) {
    && 1 <= cfg.maxFiles
    && (forall i :: 0 <= i < |cfg.requests| ==> ValidRequest(cfg, cfg.requests[i]))
  }

  ghost predicate ValidRequest(cfg: Config, r: Request) {
    r.host < cfg.hosts && r.route < |cfg.routes| && cfg.routes[r.route] == r.host
  }

  ghost predicate OnHost(cfg: Config, i: int, h: nat) {
    0 <= i < |cfg.requests| && cfg.requests[i].host == h
  }

  /** What a request does once a destructor it runs has finished. */
  datatype After =
    | ThenUnlock(cell: nat)                     // leave the lookup
    | ThenReserve(cell: nat, content: Content)  // try to reserve again
    | ThenDone

  /** Where a request is, with the local variables it holds there. */
  datatype Pc =
    | Idle
    | NeverFetch                                  // awaiting upstream, caching disabled
    | LookupLock                                  // awaiting the mutex
    | LookupUnlock(cell: nat)                     // holding the mutex, cell cloned
    | AwaitCell(cell: nat)                        // in `get_or_try_init`, awaiting the permit
    | FetchBody(cell: nat)                        // awaiting upstream, holding the permit
    | Reserve(cell: nat, content: Content, locked: bool, snap: Option<nat>)
    | EvictLock(cell: nat, content: Content)      // awaiting the mutex
    | Evict(cell: nat, content: Content)          // holding the mutex
    | CountEvicted(cell: nat, content: Content, victim: nat)
    | ReserveUpTo(cell: nat, content: Content, snap: Option<nat>)
    | Unlock(cell: nat, locked: bool)             // reserved, about to leave the block
    | CountFile(cell: nat)
    | Fill(cell: nat)
    | Classify(cell: nat)
    | Respond(cell: nat)                          // awaiting the clone of the file handle
    | DropRef(target: nat, after: After)          // drop a reference to a cell
    | Destroy(resource: nat, after: After)        // `CachedResource::drop`
    | Return(resource: nat, snap: Option<nat>, after: After) // `CacheCapacityReservation::drop`
    | Done

  datatype Response = Pending | Served(content: Content) | Absent | Errored | Cancelled

  datatype Task = Task(
    pc: Pc,
    lookedUpAt: nat,          // the time of its lookup
    served: Option<nat>,      // the resource it obtained from its cell
    tally: Option<Class>,     // what it was counted as
    response: Response)

  /** An `Arc<OnceCell<..>>`: the holder of its permit, and its write-once value. */
  datatype Cell = Cell(created: bool, permit: Option<nat>, value: Option<nat>, filledAt: nat)

  /** The life of a resource: reserved, counted, stored in its cell, destroyed. */
  datatype Phase = NotYet | Held | Counted | Stored | Dying(task: nat) | Returning(task: nat) | Freed

  datatype Resource = Resource(
    home: nat, content: Content, expiresAt: Option<int>, reserved: nat, phase: Phase, evicted: bool)

  datatype State = State(
    clock: nat,
    available: nat,                 // the atomic capacity
    mutex: Option<nat>,             // who holds the lock of the map
    lru: seq<Entry<Key, nat>>,      // the map, least recently used first
    tasks: seq<Task>,
    cells: seq<Cell>,
    resources: seq<Resource>,
    routes: seq<RouteMetrics>,
    hosts: seq<HostMetrics>)

  const NEW_TASK := Task(Idle, 0, None, None, Pending)
  const NO_CELL := Cell(false, None, None, 0)
  const NO_RESOURCE := Resource(0, Content(None, []), None, 0, NotYet, false)

  ghost function Init(cfg: Config): (s: State)
    requires ValidConfig(cfg)
    ensures WellFormed(cfg, s)
  {
    var n := |cfg.requests|;
    State(0, cfg.capacity, None, [],
          seq(n, i => NEW_TASK), seq(n, i => NO_CELL), seq(n, i => NO_RESOURCE),
          seq(|cfg.routes|, i => NO_ROUTE_METRICS), seq(cfg.hosts, i => NO_HOST_METRICS))
  }

  // ----- Program counters -----

  ghost function AfterCell(after: After): Option<nat> {
    match after
    case ThenUnlock(c) => Some(c)
    case ThenReserve(c, _) => Some(c)
    case ThenDone => None
  }

  /** The cell a request holds in its own local variable. */
  ghost function CellOf(pc: Pc): Option<nat> {
    match pc
    case Idle => None
    case NeverFetch => None
    case LookupLock => None
    case DropRef(_, after) => AfterCell(after)
    case Destroy(_, after) => AfterCell(after)
    case Return(_, _, after) => AfterCell(after)
    case Done => None
    case _ => Some(pc.cell)
  }

  /** The cell a request is about to give up. */
  ghost function VictimOf(pc: Pc): Option<nat> {
    match pc
    case CountEvicted(_, _, victim) => Some(victim)
    case DropRef(target, _) => Some(target)
    case _ => None
  }

  ghost predicate HoldsRef(pc: Pc, c: nat) {
    CellOf(pc) == Some(c) || VictimOf(pc) == Some(c)
  }

  ghost predicate InDestructor(pc: Pc) {
    pc.DropRef? || pc.Destroy? || pc.Return?
  }

  ghost predicate HoldsMutex(pc: Pc) {
    || pc.LookupUnlock? || pc.Evict? || pc.CountEvicted? || pc.ReserveUpTo?
    || (pc.Reserve? && pc.locked)
    || (pc.Unlock? && pc.locked)
    || (InDestructor(pc) && !pc.after.ThenDone?)
  }

  /** The request is the initialiser of its cell. */
  ghost predicate Filling(pc: Pc) {
    || pc.FetchBody? || pc.Reserve? || pc.EvictLock? || pc.Evict? || pc.CountEvicted?
    || pc.ReserveUpTo? || pc.Unlock? || pc.CountFile? || pc.Fill?
    || (InDestructor(pc) && pc.after.ThenReserve?)
  }

  /** The request is suspended at an await point, where it may be cancelled. */
  ghost predicate Awaiting(pc: Pc) {
    pc.NeverFetch? || pc.LookupLock? || pc.AwaitCell? || pc.FetchBody? || pc.EvictLock? || pc.Respond?
  }

  ghost predicate InRange(n: nat, c: Option<nat>) {
    c.Some? ==> c.value < n
  }

  ghost predicate PcInRange(n: nat, pc: Pc) {
    && InRange(n, CellOf(pc)) && InRange(n, VictimOf(pc))
    && (pc.Destroy? || pc.Return? ==> pc.resource < n)
  }

  ghost predicate WellFormed(cfg: Config, s: State) {
    var n := |cfg.requests|;
    && ValidConfig(cfg)
    && |s.tasks| == |s.cells| == |s.resources| == n
    && |s.routes| == |cfg.routes| && |s.hosts| == cfg.hosts
    && (forall t :: 0 <= t < n ==> PcInRange(n, s.tasks[t].pc))
    && (forall i :: 0 <= i < |s.lru| ==> s.lru[i].value < n)
    && (forall c :: 0 <= c < n ==> InRange(n, s.cells[c].value))
  }

  // ----- References -----

  ghost predicate Mapped(lru: seq<Entry<Key, nat>>, c: nat) {
    exists i :: 0 <= i < |lru| && lru[i].value == c
  }

  ghost predicate Referenced(s: State, c: nat) {
    || Mapped(s.lru, c)
    || exists t :: 0 <= t < |s.tasks| && HoldsRef(s.tasks[t].pc, c)
  }

  // ----- Updates -----

  ghost function Goto(s: State, t: nat, pc: Pc): State
    requires t < |s.tasks|
  {
    s.(tasks := s.tasks[t := s.tasks[t].(pc := pc)])
  }

  /** Count a request under its class, for its route. */
  ghost function Count(cfg: Config, s: State, t: nat, kind: Class): State
    requires WellFormed(cfg, s) && t < |s.tasks|
  {
    var route := cfg.requests[t].route;
    s.(tasks := s.tasks[t := s.tasks[t].(tally := Some(kind))],
       routes := s.routes[route := Classified(s.routes[route], kind)])
  }

  ghost function Answering(s: State, t: nat, response: Response): State
    requires t < |s.tasks|
  {
    s.(tasks := s.tasks[t := s.tasks[t].(response := response)])
  }

  ghost function Continue(after: After): Pc {
    match after
    case ThenUnlock(c) => LookupUnlock(c)
    case ThenReserve(c, content) => Reserve(c, content, true, None)
    case ThenDone => Done
  }

  ghost function ReleasePermit(s: State, c: nat): State
    requires c < |s.cells|
  {
    s.(cells := s.cells[c := s.cells[c].(permit := None)])
  }

  // ----- Steps -----

  /** src/cache.rs lines 148 to 182. */
  ghost function Arrive(cfg: Config, s: State, t: nat): (s': State)
    requires WellFormed(cfg, s) && t < |s.tasks|
    ensures WellFormed(cfg, s')
  {
    var req := cfg.requests[t];
    var m := s.routes[req.route];
    var s1 := s.(routes := s.routes[req.route := m.(requests := m.requests + 1)]);
    match req.rule
    case Disabled => Goto(Answering(Count(cfg, s1, t, Unrouted), t, Absent), t, Done)
    case Enabled(CacheNever) => Goto(Count(cfg, s1, t, Never), t, NeverFetch)
    case Enabled(_) => Goto(s1, t, LookupLock)
  }

  /** Lines 175 to 180. */
  ghost function NeverAnswered(cfg: Config, s: State, t: nat, a: Answer): (s': State)
    requires WellFormed(cfg, s) && t < |s.tasks|
    ensures WellFormed(cfg, s')
  {
    var response :=
      match a
      case Found(content) => Served(content)
      case NotFound => Absent
      case Failed(_) => Errored;
    Goto(Answering(s, t, response), t, Done)
  }

  /** The entry the map keeps for a key is filled and has expired. */
  ghost predicate Stale(cfg: Config, s: State, t: nat, c: nat)
    requires WellFormed(cfg, s) && t < |s.tasks| && c < |s.cells|
  {
    var v := s.cells[c].value;
    v.Some? && IsExpired(s.resources[v.value].expiresAt, cfg.requests[t].now)
  }

  /** The state once the mutex is acquired and the time of the lookup is noted. */
  ghost function Locked(s: State, t: nat): State
    requires t < |s.tasks|
  {
    s.(mutex := Some(t), tasks := s.tasks[t := s.tasks[t].(lookedUpAt := s.clock)])
  }

  /** The key has an entry, at position i. */
  ghost function LookupFound(cfg: Config, s: State, t: nat, i: nat): (s': State)
    requires WellFormed(cfg, s) && t < |s.tasks| && i < |s.lru|
    ensures WellFormed(cfg, s')
  {
    var c := s.lru[i].value;
    if Stale(cfg, s, t, c) then
      Goto(Locked(s, t).(lru := Promote(s.lru, i, t), cells := s.cells[t := NO_CELL.(created := true)]),
           t, DropRef(c, ThenUnlock(t)))
    else
      Goto(Locked(s, t).(lru := Promote(s.lru, i, c)), t, LookupUnlock(c))
  }

  /** The key has no entry. */
  ghost function LookupNew(cfg: Config, s: State, t: nat): (s': State)
    requires WellFormed(cfg, s) && t < |s.tasks|
    ensures WellFormed(cfg, s')
  {
    var s1 := Locked(s, t).(lru := Insert(s.lru, cfg.maxFiles, Entry(KeyOf(cfg.requests[t]), t)),
                            cells := s.cells[t := NO_CELL.(created := true)]);
    Goto(s1, t, if |s.lru| < cfg.maxFiles then LookupUnlock(t) else DropRef(s.lru[0].value, ThenUnlock(t)))
  }

  /** Lines 184 to 193, once the mutex is acquired. */
  ghost function Lookup(cfg: Config, s: State, t: nat): (s': State)
    requires WellFormed(cfg, s) && t < |s.tasks|
    ensures WellFormed(cfg, s')
  {
    match Find(s.lru, KeyOf(cfg.requests[t]))
    case Some(i) => LookupFound(cfg, s, t, i)
    case None => LookupNew(cfg, s, t)
  }

  /** The permit of the cell, or its value: lines 195 and 196. */
  ghost function EnterCell(cfg: Config, s: State, t: nat, c: nat): (s': State)
    requires WellFormed(cfg, s) && t < |s.tasks| && c < |s.cells|
    ensures WellFormed(cfg, s')
  {
    if s.cells[c].value.Some? then
      Goto(s, t, Classify(c))
    else
      Goto(s.(cells := s.cells[c := s.cells[c].(permit := Some(t))]), t, FetchBody(c))
  }

  /** Lines 197 to 210 and 229 to 256 on failure, 450 to 458 on success. */
  ghost function FetchAnswered(cfg: Config, s: State, t: nat, c: nat, a: Answer): (s': State)
    requires WellFormed(cfg, s) && t < |s.tasks| && c < |s.cells|
    ensures WellFormed(cfg, s')
  {
    match a
    case Found(content) => Goto(s, t, Reserve(c, content, false, None))
    case NotFound =>
      Goto(Answering(Count(cfg, ReleasePermit(s, c), t, Missing), t, Absent), t, DropRef(c, ThenDone))
    case Failed(_) =>
      Goto(Answering(Count(cfg, ReleasePermit(s, c), t, Error), t, Errored), t, DropRef(c, ThenDone))
  }

  /** The reservation of `amount` bytes now owned by the request's new resource. */
  ghost function Reserved(cfg: Config, s: State, t: nat, c: nat, content: Content, amount: nat, left: nat,
                          locked: bool): (s': State)
    requires WellFormed(cfg, s) && t < |s.tasks| && c < |s.cells|
    ensures WellFormed(cfg, s')
  {
    var r := Resource(c, content, Expiry(cfg.requests[t]), amount, Held, false);
    Goto(s.(available := left, resources := s.resources[t := r]), t, Unlock(c, locked))
  }

  /** One iteration of the loop in `reserve`, and what follows its failure: lines 619 to 647, 464 to 475. */
  ghost function TryReserve(cfg: Config, s: State, t: nat, c: nat, content: Content, locked: bool,
                            snap: Option<nat>): (s': State)
    requires WellFormed(cfg, s) && t < |s.tasks| && c < |s.cells|
    ensures WellFormed(cfg, s')
  {
    var size := Size(content);
    if size == 0 then
      Reserved(cfg, s, t, c, content, 0, s.available, locked)
    else if snap.None? then
      Goto(s, t, Reserve(c, content, locked, Some(s.available)))
    else if snap.value < size then
      Goto(s, t, if locked then Evict(c, content) else EvictLock(c, content))
    else if s.available == snap.value then
      Reserved(cfg, s, t, c, content, size, snap.value - size, locked)
    else
      Goto(s, t, Reserve(c, content, locked, None))
  }

  /** Lines 477 to 483. */
  ghost function PopOldest(cfg: Config, s: State, t: nat, c: nat, content: Content): (s': State)
    requires WellFormed(cfg, s) && t < |s.tasks| && c < |s.cells|
    ensures WellFormed(cfg, s')
  {
    if s.lru == [] then
      Goto(s, t, ReserveUpTo(c, content, None))
    else
      Goto(s.(lru := s.lru[1..]), t, CountEvicted(c, content, s.lru[0].value))
  }

  /** Lines 496 to 504: the counters are those of the host that created the resource. */
  ghost function CountEviction(cfg: Config, s: State, t: nat, c: nat, content: Content, victim: nat): (s': State)
    requires WellFormed(cfg, s) && t < |s.tasks| && c < |s.cells| && victim < |s.cells|
    ensures WellFormed(cfg, s')
  {
    var s1 :=
      if s.cells[victim].value.Some? then
        var r := s.cells[victim].value.value;
        var res := s.resources[r];
        var h := cfg.requests[r].host;
        var m := s.hosts[h];
        s.(resources := s.resources[r := res.(evicted := true)],
           hosts := s.hosts[h := m.(evictions := m.evictions + 1, evictedBytes := m.evictedBytes + Size(res.content))])
      else s;
    Goto(s1, t, DropRef(victim, ThenReserve(c, content)))
  }

  /** One iteration of the loop in `reserve_up_to`: lines 649 to 678. */
  ghost function TryReserveUpTo(cfg: Config, s: State, t: nat, c: nat, content: Content, snap: Option<nat>): (s': State)
    requires WellFormed(cfg, s) && t < |s.tasks| && c < |s.cells|
    ensures WellFormed(cfg, s')
  {
    var size := Size(content);
    if snap.None? then
      Goto(s, t, ReserveUpTo(c, content, Some(s.available)))
    else if s.available == snap.value then
      var left := if snap.value < size then 0 else snap.value - size;
      Reserved(cfg, s, t, c, content, snap.value - left, left, true)
    else
      Goto(s, t, ReserveUpTo(c, content, None))
  }

  /** Lines 511 and 512. */
  ghost function CountNewFile(cfg: Config, s: State, t: nat, c: nat): (s': State)
    requires WellFormed(cfg, s) && t < |s.tasks| && c < |s.cells|
    ensures WellFormed(cfg, s')
  {
    var res := s.resources[t];
    var h := cfg.requests[t].host;
    var m := s.hosts[h];
    Goto(s.(resources := s.resources[t := res.(phase := Counted)],
            hosts := s.hosts[h := m.(files := m.files + 1, bytes := m.bytes + Size(res.content))]),
         t, Fill(c))
  }

  /** The value is set and the permit given up: lines 225 to 227. */
  ghost function FillCell(cfg: Config, s: State, t: nat, c: nat): (s': State)
    requires WellFormed(cfg, s) && t < |s.tasks| && c < |s.cells|
    ensures WellFormed(cfg, s')
  {
    Goto(s.(resources := s.resources[t := s.resources[t].(phase := Stored)],
            cells := s.cells[c := Cell(true, None, Some(t), s.clock)]),
         t, Classify(c))
  }

  /** Lines 229 to 243: a miss if the resource carries the identifier this request drew. */
  ghost function Report(cfg: Config, s: State, t: nat, c: nat): (s': State)
    requires WellFormed(cfg, s) && t < |s.tasks| && c < |s.cells| && s.cells[c].value.Some?
    ensures WellFormed(cfg, s')
  {
    var r := s.cells[c].value.value;
    var size := Size(s.resources[r].content);
    var s1 := Count(cfg, s, t, if r == t then Miss(size) else Hit(size));
    Goto(s1.(tasks := s1.tasks[t := s1.tasks[t].(served := Some(r))]), t, Respond(c))
  }

  /** Lines 257 to 270; the locals are dropped on return. */
  ghost function SendResponse(cfg: Config, s: State, t: nat, c: nat, ok: bool): (s': State)
    requires WellFormed(cfg, s) && t < |s.tasks| && c < |s.cells| && s.cells[c].value.Some?
    ensures WellFormed(cfg, s')
  {
    var r := s.cells[c].value.value;
    var response := if ok then Served(s.resources[r].content) else Errored;
    Goto(Answering(s, t, response), t, DropRef(c, ThenDone))
  }

  /** The last reference to a filled cell takes the resource with it. */
  ghost function DropCell(cfg: Config, s: State, t: nat, c: nat, after: After): (s': State)
    requires WellFormed(cfg, s) && t < |s.tasks| && c < |s.cells| && InRange(|s.cells|, AfterCell(after))
    ensures WellFormed(cfg, s')
  {
    var s1 := Goto(s, t, Continue(after));
    if s.cells[c].value.Some? && !Referenced(s1, c) then
      var r := s.cells[c].value.value;
      Goto(s.(resources := s.resources[r := s.resources[r].(phase := Dying(t))]), t, Destroy(r, after))
    else s1
  }

  /** Lines 600 to 603. */
  ghost function Uncount(cfg: Config, s: State, t: nat, r: nat, after: After): (s': State)
    requires WellFormed(cfg, s) && t < |s.tasks| && r < |s.resources| && InRange(|s.cells|, AfterCell(after))
    ensures WellFormed(cfg, s')
  {
    var res := s.resources[r];
    var h := cfg.requests[r].host;
    var m := s.hosts[h];
    Goto(s.(resources := s.resources[r := res.(phase := Returning(t))],
            hosts := s.hosts[h := m.(files := m.files - 1, bytes := m.bytes - Size(res.content))]),
         t, Return(r, None, after))
  }

  /** One iteration of the loop in `return_to_pool`: lines 688 to 714. */
  ghost function TryReturn(cfg: Config, s: State, t: nat, r: nat, snap: Option<nat>, after: After): (s': State)
    requires WellFormed(cfg, s) && t < |s.tasks| && r < |s.resources| && InRange(|s.cells|, AfterCell(after))
    ensures WellFormed(cfg, s')
  {
    var res := s.resources[r];
    if res.reserved == 0 then
      Goto(s.(resources := s.resources[r := res.(phase := Freed)]), t, Continue(after))
    else if snap.None? then
      Goto(s, t, Return(r, Some(s.available), after))
    else if s.available == snap.value then
      Goto(s.(available := snap.value + res.reserved,
              resources := s.resources[r := res.(reserved := 0, phase := Freed)]),
           t, Continue(after))
    else
      Goto(s, t, Return(r, None, after))
  }

  /** The future is dropped at an await point: its permit and its references go. */
  ghost function Abandon(cfg: Config, s: State, t: nat, pc: Pc): (s': State)
    requires WellFormed(cfg, s) && t < |s.tasks| && InRange(|s.cells|, CellOf(pc))
    ensures WellFormed(cfg, s')
  {
    var s1 := Answering(s, t, Cancelled);
    match CellOf(pc)
    case None => Goto(s1, t, Done)
    case Some(c) =>
      Goto(if Filling(pc) then ReleasePermit(s1, c) else s1, t, DropRef(c, ThenDone))
  }

  // ----- The machine -----

  datatype Action =
    | Go                  // take the next atomic step
    | Deliver(answer: Answer) // the awaited upstream answers
    | Send(ok: bool)      // the awaited file handle is cloned, or cannot be
    | Cancel              // the client goes away

  ghost predicate CanStep(cfg: Config, s: State, t: nat, a: Action)
    requires WellFormed(cfg, s)
  {
    && t < |s.tasks|
    && var pc := s.tasks[t].pc;
    match a
    case Deliver(answer) =>
      (pc.NeverFetch? || pc.FetchBody?) && cfg.upstream(Key(cfg.requests[t].host, cfg.requests[t].path), answer)
    case Send(_) => pc.Respond? && s.cells[pc.cell].value.Some?
    case Cancel => Awaiting(pc)
    case Go =>
      match pc
      case NeverFetch => false
      case FetchBody(_) => false
      case Respond(_) => false
      case Done => false
      case LookupLock => s.mutex.None?
      case EvictLock(_, _) => s.mutex.None?
      case AwaitCell(c) => s.cells[c].value.Some? || s.cells[c].permit.None?
      case Classify(c) => s.cells[c].value.Some?
      case _ => true
  }

  /** The state after one step, apart from the clock. */
  ghost function Step(cfg: Config, s: State, t: nat, a: Action): (s': State)
    requires WellFormed(cfg, s) && CanStep(cfg, s, t, a)
    ensures WellFormed(cfg, s')
  {
    var pc := s.tasks[t].pc;
    match a
    case Deliver(answer) =>
      if pc.NeverFetch? then NeverAnswered(cfg, s, t, answer) else FetchAnswered(cfg, s, t, pc.cell, answer)
    case Send(ok) => SendResponse(cfg, s, t, pc.cell, ok)
    case Cancel => Abandon(cfg, s, t, pc)
    case Go =>
      match pc
      case Idle => Arrive(cfg, s, t)
      case LookupLock => Lookup(cfg, s, t)
      case LookupUnlock(c) => Goto(s.(mutex := None), t, AwaitCell(c))
      case AwaitCell(c) => EnterCell(cfg, s, t, c)
      case Reserve(c, content, locked, snap) => TryReserve(cfg, s, t, c, content, locked, snap)
      case EvictLock(c, content) => Goto(s.(mutex := Some(t)), t, Evict(c, content))
      case Evict(c, content) => PopOldest(cfg, s, t, c, content)
      case CountEvicted(c, content, victim) => CountEviction(cfg, s, t, c, content, victim)
      case ReserveUpTo(c, content, snap) => TryReserveUpTo(cfg, s, t, c, content, snap)
      case Unlock(c, locked) => Goto(if locked then s.(mutex := None) else s, t, CountFile(c))
      case CountFile(c) => CountNewFile(cfg, s, t, c)
      case Fill(c) => FillCell(cfg, s, t, c)
      case Classify(c) => Report(cfg, s, t, c)
      case DropRef(c, after) => DropCell(cfg, s, t, c, after)
      case Destroy(r, after) => Uncount(cfg, s, t, r, after)
      case Return(r, snap, after) => TryReturn(cfg, s, t, r, snap, after)
  }

  ghost function Next(cfg: Config, s: State, t: nat, a: Action): (s': State)
    requires WellFormed(cfg, s) && CanStep(cfg, s, t, a)
    ensures WellFormed(cfg, s')
  {
    Step(cfg, s, t, a).(clock := s.clock + 1)
  }

  // ----- Runs -----

  /** A schedule: any task, any enabled action, in any order. */
  datatype Trace = Start | Then(before: Trace, task: nat, action: Action)

  ghost predicate Valid(cfg: Config, tr: Trace)
    decreases tr, 0
  {
    && ValidConfig(cfg)
    && (tr.Then? ==> Valid(cfg, tr.before) && CanStep(cfg, Final(cfg, tr.before), tr.task, tr.action))
  }

  ghost function Final(cfg: Config, tr: Trace): (s: State)
    requires Valid(cfg, tr)
    ensures WellFormed(cfg, s)
    decreases tr, 1
  {
    match tr
    case Start => Init(cfg)
    case Then(before, t, a) => Next(cfg, Final(cfg, before), t, a)
  }

  /** The run leads to state s. */
  ghost predicate Reaches(cfg: Config, tr: Trace, s: State) {
    Valid(cfg, tr) && s == Final(cfg, tr)
  }

  ghost function Length(tr: Trace): nat {
    match tr
    case Start => 0
    case Then(before, _, _) => Length(before) + 1
  }

  /** tr extends the earlier run tr0, by any steps. */
  ghost predicate Extends(tr: Trace, tr0: Trace) {
    tr == tr0 || (tr.Then? && Extends(tr.before, tr0))
  }

  ghost predicate Finished(s: State) {
    forall t :: 0 <= t < |s.tasks| ==> s.tasks[t].pc.Done?
  }

  /** No request is in flight. */
  ghost predicate Quiescent(s: State) {
    forall t :: 0 <= t < |s.tasks| ==> s.tasks[t].pc.Idle? || s.tasks[t].pc.Done?
  }
}
