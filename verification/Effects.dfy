/**
 * What each step of the machine changes, stated flatly. The invariants are
 * proved against these effects, so the step functions are unfolded only here.
 */
module Effects {
  import opened Options
  import opened Model
  import opened Recency
  import opened Machine

  /** The request has not looked up its cell. */
  ghost predicate Early(pc: Pc) {
    pc.Idle? || pc.NeverFetch? || pc.LookupLock?
  }

  /** The request has not reserved space for a resource, and may still do so. */
  ghost predicate Before(pc: Pc) {
    || Early(pc) || pc.LookupUnlock? || pc.AwaitCell? || pc.FetchBody? || pc.Reserve? || pc.EvictLock?
    || pc.Evict? || pc.CountEvicted? || pc.ReserveUpTo? || (InDestructor(pc) && !pc.after.ThenDone?)
  }

  ghost predicate Obtained(pc: Pc) {
    pc.Classify? || pc.Respond?
  }

  /** The request owns a resource that is not in its cell yet. */
  ghost predicate Holding(pc: Pc) {
    pc.Unlock? || pc.CountFile?
  }

  /** The body a request has fetched and not yet stored. */
  ghost function ContentOf(pc: Pc): Option<Content> {
    if pc.Reserve? || pc.EvictLock? || pc.Evict? || pc.CountEvicted? || pc.ReserveUpTo? then Some(pc.content)
    else if InDestructor(pc) && pc.after.ThenReserve? then Some(pc.after.content)
    else None
  }

  /** The available capacity a request has loaded and not yet acted upon. */
  ghost function SnapOf(pc: Pc): Option<nat> {
    if pc.Reserve? || pc.ReserveUpTo? || pc.Return? then pc.snap else None
  }

  datatype Role = Role(
    mutex: bool, filling: bool, cell: Option<nat>, victim: Option<nat>, holding: bool, storing: bool,
    destroys: Option<nat>, restores: Option<nat>)

  ghost function RoleOf(pc: Pc): Role {
    Role(HoldsMutex(pc), Filling(pc), CellOf(pc), VictimOf(pc), Holding(pc), pc.Fill?,
         if pc.Destroy? then Some(pc.resource) else None,
         if pc.Return? then Some(pc.resource) else None)
  }

  datatype Kind =
    | Plain                               // only the task moves
    | Locking                             // it takes or gives up the mutex
    | Looking                             // it looks up its key
    | Seeing                              // it finds its cell filled
    | Permitting                          // it takes the permit of its cell
    | Quitting                            // it gives up the permit, and its cell
    | Handing                             // it gives up its cell
    | Granting(amount: nat)               // it reserves
    | Popping                             // it pops the map
    | Evicting                            // it counts an eviction
    | Filing                              // it counts a new file
    | Storing                             // it fills its cell
    | Dropping                            // it drops a reference, not the last of a filled cell
    | Killing                             // it drops the last reference of a filled cell
    | Uncounting                          // it uncounts a file
    | Freeing                             // it returns a reservation

  /** What every step keeps. */
  ghost predicate Common(cfg: Config, s: State, s': State, t: nat) {
    && WellFormed(cfg, s) && WellFormed(cfg, s') && t < |s.tasks|
    && (forall u :: 0 <= u < |s.tasks| && u != t ==> s'.tasks[u] == s.tasks[u])
    && s'.clock == s.clock + 1
    && var p, q := s.tasks[t].pc, s'.tasks[t].pc;
    && (SnapOf(q).Some? ==> SnapOf(q) == Some(s.available) && SnapOf(p).None?)
    && (Early(q) ==> Early(p)) && (Before(q) ==> Before(p)) && (p.NeverFetch? ==> q.Done?)
    && (ContentOf(q).Some? ==> ContentOf(q) == ContentOf(p) || cfg.upstream(KeyOf(cfg.requests[t]), Found(ContentOf(q).value)))
  }

  ghost predicate SameShared(s: State, s': State) {
    s'.lru == s.lru && s'.cells == s.cells && s'.resources == s.resources
    && s'.available == s.available && s'.hosts == s.hosts
  }

  ghost predicate SameStore(s: State, s': State) {
    s'.mutex == s.mutex && s'.lru == s.lru && s'.cells == s.cells
  }

  /** The host counters after the files of host h changed by one of the given size. */
  ghost function WithFile(hosts: seq<HostMetrics>, h: nat, sign: int, size: nat): seq<HostMetrics>
    requires h < |hosts|
  {
    var m := hosts[h];
    hosts[h := m.(files := m.files + sign, bytes := m.bytes + sign * size)]
  }

  ghost predicate Effect(cfg: Config, s: State, s': State, t: nat, k: Kind) {
    && Common(cfg, s, s', t)
    && var p, q := s.tasks[t].pc, s'.tasks[t].pc;
    && (k.Looking? || s'.tasks[t].lookedUpAt == s.tasks[t].lookedUpAt)
    && (k.Seeing? || k.Storing? || (Obtained(q) ==> Obtained(p)))
    && (q.ReserveUpTo? ==> p.ReserveUpTo? || (k.Plain? && s.lru == []))
    && (p.ReserveUpTo? ==> q.ReserveUpTo? || k.Granting?)
    && (q.CountEvicted? ==> k.Popping?)
    && match k
       case Plain =>
         SameShared(s, s') && s'.mutex == s.mutex && RoleOf(q) == RoleOf(p) && !p.Respond? && !p.Done?
       case Locking =>
         && SameShared(s, s') && RoleOf(q) == RoleOf(p).(mutex := RoleOf(q).mutex)
         && (p.LookupUnlock? || p.EvictLock? || p.Unlock?) && p.LookupUnlock? == q.AwaitCell?
         && (s.mutex.None? || RoleOf(p).mutex) && s'.mutex == if RoleOf(q).mutex then Some(t) else None
       case Looking =>
         && p.LookupLock? && s.mutex.None? && s'.mutex == Some(t)
         && s'.resources == s.resources && s'.available == s.available && s'.hosts == s.hosts
         && s'.tasks[t].lookedUpAt == s.clock
         && LookupMoves(cfg, s, s', t)
       case Seeing =>
         && SameShared(s, s') && s'.mutex == s.mutex
         && p.AwaitCell? && q == Classify(p.cell) && s.cells[p.cell].value.Some?
       case Permitting =>
         && p.AwaitCell? && q == FetchBody(p.cell)
         && s.cells[p.cell].value.None? && s.cells[p.cell].permit.None?
         && s' == s.(clock := s'.clock, tasks := s'.tasks, routes := s'.routes,
                     cells := s.cells[p.cell := s.cells[p.cell].(permit := Some(t))])
       case Quitting =>
         && (p.FetchBody? || p.EvictLock?) && q == DropRef(p.cell, ThenDone)
         && s' == s.(clock := s'.clock, tasks := s'.tasks, routes := s'.routes,
                     cells := s.cells[p.cell := s.cells[p.cell].(permit := None)])
       case Handing =>
         && (p.AwaitCell? || p.Respond?) && q == DropRef(p.cell, ThenDone)
         && SameShared(s, s') && s'.mutex == s.mutex
       case Granting(amount) =>
         && (p.Reserve? || p.ReserveUpTo?) && q == Unlock(p.cell, HoldsMutex(p))
         && SameStore(s, s') && s'.hosts == s.hosts
         && amount <= s.available && s'.available == s.available - amount
         && amount <= Size(p.content)
         && (p.Reserve? ==> amount == Size(p.content))
         && (p.ReserveUpTo? ==> amount == Size(p.content) || amount == s.available)
         && s'.resources == s.resources[t := Resource(p.cell, p.content, Expiry(cfg.requests[t]), amount, Held, false)]
       case Popping =>
         && p.Evict? && s.lru != [] && q == CountEvicted(p.cell, p.content, s.lru[0].value)
         && s' == s.(clock := s'.clock, tasks := s'.tasks, routes := s'.routes, lru := s.lru[1..])
       case Evicting =>
         && p.CountEvicted? && q == DropRef(p.victim, ThenReserve(p.cell, p.content))
         && SameStore(s, s') && s'.available == s.available
         && EvictionCounted(cfg, s, s', p.victim)
       case Filing =>
         && p.CountFile? && q == Fill(p.cell)
         && SameStore(s, s') && s'.available == s.available
         && s'.resources == s.resources[t := s.resources[t].(phase := Counted)]
         && s'.hosts == WithFile(s.hosts, cfg.requests[t].host, 1, Size(s.resources[t].content))
       case Storing =>
         && p.Fill? && q == Classify(p.cell)
         && s'.mutex == s.mutex && s'.lru == s.lru && s'.available == s.available && s'.hosts == s.hosts
         && s'.resources == s.resources[t := s.resources[t].(phase := Stored)]
         && s'.cells == s.cells[p.cell := Cell(true, None, Some(t), s.clock)]
       case Dropping =>
         && p.DropRef? && q == Continue(p.after)
         && SameShared(s, s') && s'.mutex == s.mutex
         && (s.cells[p.target].value.Some? ==> Referenced(s', p.target))
       case Killing =>
         && p.DropRef? && s.cells[p.target].value.Some?
         && q == Destroy(s.cells[p.target].value.value, p.after)
         && SameStore(s, s') && s'.available == s.available && s'.hosts == s.hosts
         && !Mapped(s.lru, p.target)
         && (forall u :: 0 <= u < |s.tasks| && u != t ==> !HoldsRef(s.tasks[u].pc, p.target))
         && AfterCell(p.after) != Some(p.target)
         && var r := q.resource;
            s'.resources == s.resources[r := s.resources[r].(phase := Dying(t))]
       case Uncounting =>
         && p.Destroy? && q == Return(p.resource, None, p.after)
         && SameStore(s, s') && s'.available == s.available
         && var r := p.resource;
         && s'.resources == s.resources[r := s.resources[r].(phase := Returning(t))]
         && s'.hosts == WithFile(s.hosts, cfg.requests[r].host, -1, Size(s.resources[r].content))
       case Freeing =>
         && p.Return? && q == Continue(p.after)
         && SameStore(s, s') && s'.hosts == s.hosts
         && var r := p.resource;
         && s'.resources == s.resources[r := s.resources[r].(reserved := 0, phase := Freed)]
         && s'.available == s.available + s.resources[r].reserved
  }

  /** Which cell a lookup clones, which it drops, and what becomes of the map. */
  ghost predicate LookupMoves(cfg: Config, s: State, s': State, t: nat)
    requires WellFormed(cfg, s) && WellFormed(cfg, s') && t < |s.tasks|
  {
    var key := KeyOf(cfg.requests[t]);
    var q := s'.tasks[t].pc;
    match Find(s.lru, key)
    case Some(i) =>
      var c := s.lru[i].value;
      if Stale(cfg, s, t, c) then
        && s'.lru == Promote(s.lru, i, t) && s'.cells == s.cells[t := NO_CELL.(created := true)]
        && q == DropRef(c, ThenUnlock(t))
      else
        s'.lru == Promote(s.lru, i, c) && s'.cells == s.cells && q == LookupUnlock(c)
    case None =>
      && s'.lru == Insert(s.lru, cfg.maxFiles, Entry(key, t))
      && s'.cells == s.cells[t := NO_CELL.(created := true)]
      && q == if |s.lru| < cfg.maxFiles then LookupUnlock(t) else DropRef(s.lru[0].value, ThenUnlock(t))
  }

  ghost predicate EvictionCounted(cfg: Config, s: State, s': State, victim: nat)
    requires WellFormed(cfg, s) && victim < |s.cells|
  {
    if s.cells[victim].value.Some? then
      var r := s.cells[victim].value.value;
      var h := cfg.requests[r].host;
      var m := s.hosts[h];
      && s'.resources == s.resources[r := s.resources[r].(evicted := true)]
      && s'.hosts == s.hosts[h := m.(evictions := m.evictions + 1,
                                     evictedBytes := m.evictedBytes + Size(s.resources[r].content))]
    else
      s'.resources == s.resources && s'.hosts == s.hosts
  }

  /** Every step has one of these effects. */
  lemma StepEffect(cfg: Config, s: State, t: nat, a: Action) returns (k: Kind)
    requires WellFormed(cfg, s) && CanStep(cfg, s, t, a)
    ensures Effect(cfg, s, Next(cfg, s, t, a), t, k)
  {
    var pc := s.tasks[t].pc;
    if a.Deliver? {
      if pc.NeverFetch? { k := NeverEffect(cfg, s, t, a); } else { k := FetchEffect(cfg, s, t, a); }
    } else if a.Send? {
      k := SendEffect(cfg, s, t, a);
    } else if a.Cancel? {
      k := CancelEffect(cfg, s, t, a);
    } else if pc.Idle? {
      k := ArriveEffect(cfg, s, t);
    } else if pc.LookupLock? {
      k := LookupEffect(cfg, s, t);
    } else if pc.LookupUnlock? || pc.EvictLock? {
      k := LockEffect(cfg, s, t);
    } else if pc.Unlock? {
      k := UnlockEffect(cfg, s, t);
    } else if pc.AwaitCell? {
      k := CellEffect(cfg, s, t);
    } else if pc.Fill? {
      k := FillEffect(cfg, s, t);
    } else if pc.Classify? {
      k := ReportEffect(cfg, s, t);
    } else if pc.Reserve? {
      k := ReserveEffect(cfg, s, t);
    } else if pc.ReserveUpTo? {
      k := ReserveUpToEffect(cfg, s, t);
    } else if pc.Evict? {
      k := PopEffect(cfg, s, t);
    } else if pc.CountEvicted? {
      k := EvictedEffect(cfg, s, t);
    } else if pc.CountFile? {
      k := FileEffect(cfg, s, t);
    } else if pc.Destroy? {
      k := UncountEffect(cfg, s, t);
    } else if pc.DropRef? {
      k := DropEffect(cfg, s, t);
    } else {
      k := ReturnEffect(cfg, s, t);
    }
  }

  lemma NeverEffect(cfg: Config, s: State, t: nat, a: Action) returns (k: Kind)
    requires WellFormed(cfg, s) && CanStep(cfg, s, t, a)
    requires a.Deliver? && s.tasks[t].pc.NeverFetch?
    ensures Effect(cfg, s, Next(cfg, s, t, a), t, k)
  {
    k := Plain;
  }

  lemma FetchEffect(cfg: Config, s: State, t: nat, a: Action) returns (k: Kind)
    requires WellFormed(cfg, s) && CanStep(cfg, s, t, a)
    requires a.Deliver? && s.tasks[t].pc.FetchBody?
    ensures Effect(cfg, s, Next(cfg, s, t, a), t, k)
  {
    if a.answer.Found? {
      k := Plain;
      FetchFinds(cfg, s, t, a);
    } else {
      k := Quitting;
      FetchFails(cfg, s, t, a);
    }
  }

  lemma FetchFinds(cfg: Config, s: State, t: nat, a: Action)
    requires WellFormed(cfg, s) && CanStep(cfg, s, t, a)
    requires a.Deliver? && s.tasks[t].pc.FetchBody? && a.answer.Found?
    ensures Effect(cfg, s, Next(cfg, s, t, a), t, Plain)
  {
  }

  lemma FetchFails(cfg: Config, s: State, t: nat, a: Action)
    requires WellFormed(cfg, s) && CanStep(cfg, s, t, a)
    requires a.Deliver? && s.tasks[t].pc.FetchBody? && !a.answer.Found?
    ensures Effect(cfg, s, Next(cfg, s, t, a), t, Quitting)
  {
  }

  lemma SendEffect(cfg: Config, s: State, t: nat, a: Action) returns (k: Kind)
    requires WellFormed(cfg, s) && CanStep(cfg, s, t, a)
    requires a.Send?
    ensures Effect(cfg, s, Next(cfg, s, t, a), t, k)
  {
    k := Handing;
  }

  lemma CancelEffect(cfg: Config, s: State, t: nat, a: Action) returns (k: Kind)
    requires WellFormed(cfg, s) && CanStep(cfg, s, t, a)
    requires a.Cancel?
    ensures Effect(cfg, s, Next(cfg, s, t, a), t, k)
  {
    var pc := s.tasks[t].pc;
    if CellOf(pc).None? {
      k := Plain;
      CancelEarly(cfg, s, t);
    } else if Filling(pc) {
      k := Quitting;
      CancelFilling(cfg, s, t);
    } else {
      k := Handing;
      CancelWaiting(cfg, s, t);
    }
  }

  lemma CancelEarly(cfg: Config, s: State, t: nat)
    requires WellFormed(cfg, s) && CanStep(cfg, s, t, Cancel) && CellOf(s.tasks[t].pc).None?
    ensures Effect(cfg, s, Next(cfg, s, t, Cancel), t, Plain)
  {
  }

  lemma CancelFilling(cfg: Config, s: State, t: nat)
    requires WellFormed(cfg, s) && CanStep(cfg, s, t, Cancel) && Filling(s.tasks[t].pc)
    ensures Effect(cfg, s, Next(cfg, s, t, Cancel), t, Quitting)
  {
  }

  lemma CancelWaiting(cfg: Config, s: State, t: nat)
    requires WellFormed(cfg, s) && CanStep(cfg, s, t, Cancel)
    requires CellOf(s.tasks[t].pc).Some? && !Filling(s.tasks[t].pc)
    ensures Effect(cfg, s, Next(cfg, s, t, Cancel), t, Handing)
  {
  }

  lemma ArriveEffect(cfg: Config, s: State, t: nat) returns (k: Kind)
    requires WellFormed(cfg, s) && CanStep(cfg, s, t, Go)
    requires s.tasks[t].pc.Idle?
    ensures Effect(cfg, s, Next(cfg, s, t, Go), t, k)
  {
    k := Plain;
  }

  lemma LookupEffect(cfg: Config, s: State, t: nat) returns (k: Kind)
    requires WellFormed(cfg, s) && CanStep(cfg, s, t, Go)
    requires s.tasks[t].pc.LookupLock?
    ensures Effect(cfg, s, Next(cfg, s, t, Go), t, k)
  {
    k := Looking;
  }

  lemma LockEffect(cfg: Config, s: State, t: nat) returns (k: Kind)
    requires WellFormed(cfg, s) && CanStep(cfg, s, t, Go)
    requires s.tasks[t].pc.LookupUnlock? || s.tasks[t].pc.EvictLock?
    ensures Effect(cfg, s, Next(cfg, s, t, Go), t, k)
  {
    k := Locking;
  }

  lemma UnlockEffect(cfg: Config, s: State, t: nat) returns (k: Kind)
    requires WellFormed(cfg, s) && CanStep(cfg, s, t, Go)
    requires s.tasks[t].pc.Unlock?
    ensures Effect(cfg, s, Next(cfg, s, t, Go), t, k)
  {
    var pc := s.tasks[t].pc;
    k := if pc.locked then Locking else Plain;
  }

  lemma CellEffect(cfg: Config, s: State, t: nat) returns (k: Kind)
    requires WellFormed(cfg, s) && CanStep(cfg, s, t, Go)
    requires s.tasks[t].pc.AwaitCell?
    ensures Effect(cfg, s, Next(cfg, s, t, Go), t, k)
  {
    var pc := s.tasks[t].pc;
    k := if s.cells[pc.cell].value.Some? then Seeing else Permitting;
  }

  lemma FillEffect(cfg: Config, s: State, t: nat) returns (k: Kind)
    requires WellFormed(cfg, s) && CanStep(cfg, s, t, Go)
    requires s.tasks[t].pc.Fill?
    ensures Effect(cfg, s, Next(cfg, s, t, Go), t, k)
  {
    k := Storing;
  }

  lemma ReportEffect(cfg: Config, s: State, t: nat) returns (k: Kind)
    requires WellFormed(cfg, s) && CanStep(cfg, s, t, Go)
    requires s.tasks[t].pc.Classify?
    ensures Effect(cfg, s, Next(cfg, s, t, Go), t, k)
  {
    k := Plain;
  }

  lemma ReserveEffect(cfg: Config, s: State, t: nat) returns (k: Kind)
    requires WellFormed(cfg, s) && CanStep(cfg, s, t, Go)
    requires s.tasks[t].pc.Reserve?
    ensures Effect(cfg, s, Next(cfg, s, t, Go), t, k)
  {
    var pc := s.tasks[t].pc;
    if Size(pc.content) == 0 || (pc.snap.Some? && Size(pc.content) <= pc.snap.value && s.available == pc.snap.value) {
      k := Granting(Size(pc.content));
      ReserveTakes(cfg, s, t);
    } else {
      k := Plain;
      ReserveTries(cfg, s, t);
    }
  }

  lemma ReserveTakes(cfg: Config, s: State, t: nat)
    requires WellFormed(cfg, s) && CanStep(cfg, s, t, Go) && s.tasks[t].pc.Reserve?
    requires var pc := s.tasks[t].pc; var size := Size(pc.content);
      size == 0 || (pc.snap.Some? && size <= pc.snap.value && s.available == pc.snap.value)
    ensures Effect(cfg, s, Next(cfg, s, t, Go), t, Granting(Size(s.tasks[t].pc.content)))
  {
  }

  lemma ReserveTries(cfg: Config, s: State, t: nat)
    requires WellFormed(cfg, s) && CanStep(cfg, s, t, Go) && s.tasks[t].pc.Reserve?
    requires var pc := s.tasks[t].pc; var size := Size(pc.content);
      size > 0 && (pc.snap.None? || pc.snap.value < size || s.available != pc.snap.value)
    ensures Effect(cfg, s, Next(cfg, s, t, Go), t, Plain)
  {
  }

  lemma ReserveUpToEffect(cfg: Config, s: State, t: nat) returns (k: Kind)
    requires WellFormed(cfg, s) && CanStep(cfg, s, t, Go)
    requires s.tasks[t].pc.ReserveUpTo?
    ensures Effect(cfg, s, Next(cfg, s, t, Go), t, k)
  {
    var pc := s.tasks[t].pc;
    var size := Size(pc.content);
    k := if pc.snap.Some? && s.available == pc.snap.value then
           Granting(Min(size, s.available))
         else Plain;
  }

  lemma PopEffect(cfg: Config, s: State, t: nat) returns (k: Kind)
    requires WellFormed(cfg, s) && CanStep(cfg, s, t, Go)
    requires s.tasks[t].pc.Evict?
    ensures Effect(cfg, s, Next(cfg, s, t, Go), t, k)
  {
    k := if s.lru == [] then Plain else Popping;
  }

  lemma EvictedEffect(cfg: Config, s: State, t: nat) returns (k: Kind)
    requires WellFormed(cfg, s) && CanStep(cfg, s, t, Go)
    requires s.tasks[t].pc.CountEvicted?
    ensures Effect(cfg, s, Next(cfg, s, t, Go), t, k)
  {
    k := Evicting;
  }

  lemma FileEffect(cfg: Config, s: State, t: nat) returns (k: Kind)
    requires WellFormed(cfg, s) && CanStep(cfg, s, t, Go)
    requires s.tasks[t].pc.CountFile?
    ensures Effect(cfg, s, Next(cfg, s, t, Go), t, k)
  {
    k := Filing;
  }

  lemma UncountEffect(cfg: Config, s: State, t: nat) returns (k: Kind)
    requires WellFormed(cfg, s) && CanStep(cfg, s, t, Go)
    requires s.tasks[t].pc.Destroy?
    ensures Effect(cfg, s, Next(cfg, s, t, Go), t, k)
  {
    k := Uncounting;
  }

  lemma DropEffect(cfg: Config, s: State, t: nat) returns (k: Kind)
    requires WellFormed(cfg, s) && CanStep(cfg, s, t, Go)
    requires s.tasks[t].pc.DropRef?
    ensures Effect(cfg, s, Next(cfg, s, t, Go), t, k)
  {
    var pc := s.tasks[t].pc;
    if s.cells[pc.target].value.Some? && !Referenced(Goto(s, t, Continue(pc.after)), pc.target) {
      k := Killing;
      DropKills(cfg, s, t);
    } else {
      k := Dropping;
      DropSpares(cfg, s, t);
    }
  }

  lemma DropKills(cfg: Config, s: State, t: nat)
    requires WellFormed(cfg, s) && CanStep(cfg, s, t, Go) && s.tasks[t].pc.DropRef?
    requires var pc := s.tasks[t].pc; s.cells[pc.target].value.Some? && !Referenced(Goto(s, t, Continue(pc.after)), pc.target)
    ensures Effect(cfg, s, Next(cfg, s, t, Go), t, Killing)
  {
    var pc := s.tasks[t].pc;
    NobodyRefers(s, t, Continue(pc.after), pc.target);
  }

  lemma NobodyRefers(s: State, t: nat, q: Pc, c: nat)
    requires t < |s.tasks| && !Referenced(Goto(s, t, q), c)
    ensures !Mapped(s.lru, c) && !HoldsRef(q, c)
    ensures forall u :: 0 <= u < |s.tasks| && u != t ==> !HoldsRef(s.tasks[u].pc, c)
  {
    var s1 := Goto(s, t, q);
    assert s1.lru == s.lru && s1.tasks[t].pc == q;
    forall u | 0 <= u < |s.tasks| && u != t ensures !HoldsRef(s.tasks[u].pc, c) {
      assert s1.tasks[u].pc == s.tasks[u].pc;
    }
  }

  lemma DropSpares(cfg: Config, s: State, t: nat)
    requires WellFormed(cfg, s) && CanStep(cfg, s, t, Go) && s.tasks[t].pc.DropRef?
    requires var pc := s.tasks[t].pc; s.cells[pc.target].value.None? || Referenced(Goto(s, t, Continue(pc.after)), pc.target)
    ensures Effect(cfg, s, Next(cfg, s, t, Go), t, Dropping)
  {
    var pc := s.tasks[t].pc;
    var s1, s' := Goto(s, t, Continue(pc.after)), Next(cfg, s, t, Go);
    if Referenced(s1, pc.target) { SameReferences(s1, s', pc.target); }
  }

  lemma SameReferences(s: State, s': State, c: nat)
    requires s'.lru == s.lru && s'.tasks == s.tasks
    ensures Referenced(s', c) == Referenced(s, c)
  {
  }

  lemma ReturnEffect(cfg: Config, s: State, t: nat) returns (k: Kind)
    requires WellFormed(cfg, s) && CanStep(cfg, s, t, Go)
    requires s.tasks[t].pc.Return?
    ensures Effect(cfg, s, Next(cfg, s, t, Go), t, k)
  {
    var pc := s.tasks[t].pc;
    if s.resources[pc.resource].reserved == 0 || (pc.snap.Some? && s.available == pc.snap.value) {
      k := Freeing;
      ReturnFrees(cfg, s, t);
    } else {
      k := Plain;
      ReturnTries(cfg, s, t);
    }
  }

  lemma ReturnFrees(cfg: Config, s: State, t: nat)
    requires WellFormed(cfg, s) && CanStep(cfg, s, t, Go) && s.tasks[t].pc.Return?
    requires var pc := s.tasks[t].pc;
      s.resources[pc.resource].reserved == 0 || (pc.snap.Some? && s.available == pc.snap.value)
    ensures Effect(cfg, s, Next(cfg, s, t, Go), t, Freeing)
  {
  }

  lemma ReturnTries(cfg: Config, s: State, t: nat)
    requires WellFormed(cfg, s) && CanStep(cfg, s, t, Go) && s.tasks[t].pc.Return?
    requires var pc := s.tasks[t].pc;
      s.resources[pc.resource].reserved > 0 && (pc.snap.None? || s.available != pc.snap.value)
    ensures Effect(cfg, s, Next(cfg, s, t, Go), t, Plain)
  {
  }
}
