/**
 * Progress: every run of finitely many requests is finite, whatever the
 * schedule; no reachable state is stuck before all requests are done; and the
 * compare-and-swap loops are lock-free.
 */
module Progress {
  import opened Options
  import opened Model
  import opened Sums
  import opened Machine
  import opened Effects
  import opened Ownership
  import opened Capacity

  // ----- Termination -----

  /** The steps a request may still take, not counting retries and entries it pops. */
  ghost function Rank(pc: Pc): nat {
    match pc
    case Idle => 24
    case LookupLock => 23
    case LookupUnlock(_) => 15
    case AwaitCell(_) => 14
    case FetchBody(_) => 13
    case Reserve(_, _, _, _) => 12
    case EvictLock(_, _) => 11
    case Evict(_, _) => 10
    case CountEvicted(_, _, _) => 16
    case ReserveUpTo(_, _, _) => 9
    case Unlock(_, _) => 8
    case CountFile(_) => 7
    case Fill(_) => 6
    case Classify(_) => 5
    case Respond(_) => 4
    case DropRef(_, after) => RankAfter(after) + 3
    case Destroy(_, after) => RankAfter(after) + 2
    case Return(_, _, after) => RankAfter(after) + 1
    case NeverFetch => 1
    case Done => 0
  }

  ghost function RankAfter(after: After): nat {
    match after
    case ThenUnlock(_) => 15
    case ThenReserve(_, _) => 12
    case ThenDone => 0
  }

  /** Popping an entry restarts the eviction loop; this pays for it. */
  const ENTRY_RANK: nat := 7

  /** A stale snapshot costs a failed exchange and a load, a missing one a load. */
  ghost function Retries(pc: Pc, available: nat): nat {
    if SnapOf(pc).Some? then (if SnapOf(pc).value == available then 0 else 2)
    else if pc.Reserve? || pc.ReserveUpTo? || pc.Return? then 1
    else 0
  }

  ghost function Ranks(): (int, Task) -> int {
    (i: int, x: Task) => Rank(x.pc)
  }

  ghost function AllRetries(available: nat): (int, Task) -> int {
    (i: int, x: Task) => Retries(x.pc, available)
  }

  ghost function Work(s: State): int {
    SumOf(s.tasks, Ranks()) + ENTRY_RANK * |s.lru|
  }

  ghost function Measure(s: State): int {
    Work(s) * (2 * |s.tasks| + 1) + SumOf(s.tasks, AllRetries(s.available))
  }

  /** The mover gets closer to its end, or leaves all shared state and needs fewer retries. */
  ghost predicate Closer(s: State, s': State, t: nat)
    requires t < |s.tasks| && t < |s'.tasks|
  {
    var p, q := s.tasks[t].pc, s'.tasks[t].pc;
    || Rank(q) + ENTRY_RANK * |s'.lru| < Rank(p) + ENTRY_RANK * |s.lru|
    || (Rank(q) == Rank(p) && |s'.lru| == |s.lru| && s'.available == s.available
        && Retries(q, s.available) < Retries(p, s.available))
  }

  lemma CloserNext(cfg: Config, s: State, t: nat, a: Action)
    requires WellFormed(cfg, s) && CanStep(cfg, s, t, a)
    ensures Closer(s, Next(cfg, s, t, a), t)
  {
    var pc := s.tasks[t].pc;
    if !a.Go? { CloserAwait(cfg, s, t, a); }
    else if InDestructor(pc) { CloserDestructor(cfg, s, t); }
    else if pc.Reserve? || pc.ReserveUpTo? { CloserReserve(cfg, s, t); }
    else if pc.LookupLock? { CloserLookup(cfg, s, t); }
    else { CloserGo(cfg, s, t); }
  }

  lemma CloserAwait(cfg: Config, s: State, t: nat, a: Action)
    requires WellFormed(cfg, s) && CanStep(cfg, s, t, a) && !a.Go?
    ensures Closer(s, Next(cfg, s, t, a), t)
  {
  }

  lemma CloserDestructor(cfg: Config, s: State, t: nat)
    requires WellFormed(cfg, s) && CanStep(cfg, s, t, Go) && InDestructor(s.tasks[t].pc)
    ensures Closer(s, Next(cfg, s, t, Go), t)
  {
  }

  lemma CloserReserve(cfg: Config, s: State, t: nat)
    requires WellFormed(cfg, s) && CanStep(cfg, s, t, Go) && (s.tasks[t].pc.Reserve? || s.tasks[t].pc.ReserveUpTo?)
    ensures Closer(s, Next(cfg, s, t, Go), t)
  {
  }

  lemma CloserLookup(cfg: Config, s: State, t: nat)
    requires WellFormed(cfg, s) && CanStep(cfg, s, t, Go) && s.tasks[t].pc.LookupLock?
    ensures Closer(s, Next(cfg, s, t, Go), t)
  {
  }

  lemma CloserGo(cfg: Config, s: State, t: nat)
    requires WellFormed(cfg, s) && CanStep(cfg, s, t, Go)
    requires var pc := s.tasks[t].pc; !InDestructor(pc) && !pc.Reserve? && !pc.ReserveUpTo? && !pc.LookupLock?
    ensures Closer(s, Next(cfg, s, t, Go), t)
  {
  }

  lemma RetriesBounded(s: State, available: nat)
    ensures 0 <= SumOf(s.tasks, AllRetries(available)) <= 2 * |s.tasks|
  {
    SumBound(s.tasks, AllRetries(available), 2);
  }

  /** Every step, a failed exchange included, makes the measure smaller. */
  lemma MeasureDecreases(cfg: Config, s: State, t: nat, a: Action)
    requires WellFormed(cfg, s) && CanStep(cfg, s, t, a)
    ensures Measure(Next(cfg, s, t, a)) < Measure(s)
  {
    var s' := Next(cfg, s, t, a);
    var k := StepEffect(cfg, s, t, a);
    MeasureStep(cfg, s, s', t, k) by { CloserNext(cfg, s, t, a); }
  }

  lemma MeasureStep(cfg: Config, s: State, s': State, t: nat, k: Kind)
    requires Effect(cfg, s, s', t, k) && Closer(s, s', t)
    ensures Measure(s') < Measure(s)
  {
    MoverUpdates(s, s', t);
    RetriesBounded(s, s.available);
    RetriesBounded(s', s'.available);
    Lexicographic(Work(s'), SumOf(s'.tasks, AllRetries(s'.available)),
                  Work(s), SumOf(s.tasks, AllRetries(s.available)), 2 * |s.tasks|);
  }

  lemma MoverUpdates(s: State, s': State, t: nat)
    requires t < |s.tasks| == |s'.tasks|
    requires forall u :: 0 <= u < |s.tasks| && u != t ==> s'.tasks[u] == s.tasks[u]
    ensures var p, q := s.tasks[t].pc, s'.tasks[t].pc;
      && Work(s') == Work(s) + Rank(q) - Rank(p) + ENTRY_RANK * (|s'.lru| - |s.lru|)
      && SumOf(s'.tasks, AllRetries(s.available)) ==
           SumOf(s.tasks, AllRetries(s.available)) + Retries(q, s.available) - Retries(p, s.available)
  {
    assert s'.tasks == s.tasks[t := s'.tasks[t]];
    SumUpdate(s.tasks, Ranks(), t, s'.tasks[t]);
    SumUpdate(s.tasks, AllRetries(s.available), t, s'.tasks[t]);
  }

  /** Pairs ordered by their first parts, with second parts up to c, as single numbers. */
  lemma Lexicographic(a: int, x: int, b: int, y: int, c: nat)
    requires 0 <= x <= c && 0 <= y <= c
    requires a < b || (a == b && x < y)
    ensures a * (c + 1) + x < b * (c + 1) + y
  {
    if a < b { assert (a + 1) * (c + 1) <= b * (c + 1); }
  }

  lemma MeasureNonNegative(s: State)
    ensures 0 <= Measure(s)
  {
    SumBound(s.tasks, Ranks(), 24);
    RetriesBounded(s, s.available);
    assert 0 <= Work(s) * (2 * |s.tasks| + 1);
  }

  lemma MeasureInit(cfg: Config)
    requires ValidConfig(cfg)
    ensures Measure(Init(cfg)) <= 24 * |cfg.requests| * (2 * |cfg.requests| + 1)
  {
    var s := Init(cfg);
    SumBound(s.tasks, Ranks(), 24);
    SumZero(s.tasks, AllRetries(s.available));
    assert Work(s) <= 24 * |cfg.requests|;
    if Work(s) < 24 * |cfg.requests| { Lexicographic(Work(s), 0, 24 * |cfg.requests|, 0, 2 * |cfg.requests|); }
  }

  lemma {:induction false} RunShrinks(cfg: Config, tr: Trace)
    requires Valid(cfg, tr)
    ensures Length(tr) + Measure(Final(cfg, tr)) <= Measure(Init(cfg))
  {
    if tr.Then? {
      RunShrinks(cfg, tr.before);
      MeasureDecreases(cfg, Final(cfg, tr.before), tr.task, tr.action);
    }
  }

  /**
   * Termination: under every schedule, fair or not, n requests take at most
   * 24 n (2 n + 1) atomic steps together, failed exchanges included.
   */
  lemma RunsAreFinite(cfg: Config, tr: Trace)
    requires Valid(cfg, tr)
    ensures Length(tr) <= 24 * |cfg.requests| * (2 * |cfg.requests| + 1)
  {
    RunShrinks(cfg, tr);
    MeasureNonNegative(Final(cfg, tr));
    MeasureInit(cfg);
  }

  // ----- Deadlock freedom -----

  /** Upstreams answer every key somehow. */
  ghost predicate Responsive(cfg: Config) {
    forall key :: Answers(cfg, key)
  }

  ghost predicate Answers(cfg: Config, key: Key) {
    exists answer :: cfg.upstream(key, answer)
  }

  /** A request that waits for nobody can move by itself. */
  lemma CanMove(cfg: Config, s: State, t: nat) returns (a: Action)
    requires Owned(cfg, s) && Responsive(cfg) && t < |s.tasks|
    requires var pc := s.tasks[t].pc; !pc.Done? && !pc.AwaitCell? && ((pc.LookupLock? || pc.EvictLock?) ==> s.mutex.None?)
    ensures !a.Cancel? && CanStep(cfg, s, t, a)
  {
    var pc := s.tasks[t].pc;
    assert TaskOwns(cfg, s, t);
    if pc.NeverFetch? || pc.FetchBody? {
      assert Answers(cfg, KeyOf(cfg.requests[t]));
      var answer :| cfg.upstream(KeyOf(cfg.requests[t]), answer);
      a := Deliver(answer);
    } else if pc.Respond? {
      a := Send(true);
    } else {
      a := Go;
    }
  }

  lemma SomeoneMoves(cfg: Config, s: State, u: nat) returns (t: nat, a: Action)
    requires Owned(cfg, s) && Responsive(cfg) && u < |s.tasks| && !s.tasks[u].pc.Done?
    ensures !a.Cancel? && CanStep(cfg, s, t, a)
  {
    if s.mutex.Some? {
      // The holder of the mutex never waits.
      t := s.mutex.value;
      assert TaskOwns(cfg, s, t);
      a := CanMove(cfg, s, t);
    } else if s.tasks[u].pc.AwaitCell? {
      var c := s.tasks[u].pc.cell;
      if s.cells[c].value.None? && s.cells[c].permit.Some? {
        // The holder of the permit waits for the mutex at most, and it is free.
        t := s.cells[c].permit.value;
        assert CellOwned(s, c);
        a := CanMove(cfg, s, t);
      } else {
        t, a := u, Go;
      }
    } else {
      t := u;
      a := CanMove(cfg, s, u);
    }
  }

  /** While any request is unfinished, some request can take a step that is not a cancellation. */
  lemma NoDeadlock(cfg: Config, tr: Trace, s: State) returns (t: nat, a: Action)
    requires Reaches(cfg, tr, s) && Responsive(cfg) && !Finished(s)
    ensures !a.Cancel? && CanStep(cfg, s, t, a)
  {
    OwnedAlways(cfg, tr);
    var u: nat :| u < |cfg.requests| && !s.tasks[u].pc.Done?;
    t, a := SomeoneMoves(cfg, s, u);
  }

  /** A run in which nobody can move, unless by giving up, has finished every request. */
  lemma StuckMeansFinished(cfg: Config, tr: Trace, s: State)
    requires Reaches(cfg, tr, s) && Responsive(cfg)
    requires forall t, a :: CanStep(cfg, s, t, a) ==> a.Cancel?
    ensures Finished(s)
  {
    if !Finished(s) {
      var t, a := NoDeadlock(cfg, tr, s);
    }
  }

  // ----- Waiting -----

  ghost predicate WaitsForMutex(s: State, t: nat)
    requires t < |s.tasks|
  {
    (s.tasks[t].pc.LookupLock? || s.tasks[t].pc.EvictLock?) && s.mutex.Some?
  }

  /** Another request fills the cell that this one looked up. */
  ghost predicate WaitsForCell(s: State, t: nat)
    requires t < |s.tasks|
  {
    && s.tasks[t].pc.AwaitCell?
    && exists u :: 0 <= u < |s.tasks| && u != t && Filling(s.tasks[u].pc) && CellOf(s.tasks[u].pc) == CellOf(s.tasks[t].pc)
  }

  lemma CellWaits(cfg: Config, s: State, t: nat)
    requires Owned(cfg, s) && t < |s.tasks| && s.tasks[t].pc.AwaitCell?
    ensures CanStep(cfg, s, t, Go) <==> !WaitsForCell(s, t)
  {
    var c := s.tasks[t].pc.cell;
    assert TaskOwns(cfg, s, t) && CellOwned(s, c);
    if s.cells[c].value.None? && s.cells[c].permit.Some? {
      assert Filling(s.tasks[s.cells[c].permit.value].pc);
    }
    if WaitsForCell(s, t) {
      var u :| 0 <= u < |s.tasks| && u != t && Filling(s.tasks[u].pc) && CellOf(s.tasks[u].pc) == CellOf(s.tasks[t].pc);
      assert TaskOwns(cfg, s, u);
    }
  }

  /**
   * A request waits for nothing but upstream, the mutex, and another request
   * that fills its cell: in every reachable state it can take a step that is not
   * a cancellation exactly if it is unfinished and in neither of the last two
   * waits. If it can take none, it can be cancelled.
   */
  lemma MovesUnlessWaiting(cfg: Config, tr: Trace, s: State, t: nat)
    requires Reaches(cfg, tr, s) && Responsive(cfg) && t < |cfg.requests|
    ensures (exists a: Action :: !a.Cancel? && CanStep(cfg, s, t, a)) <==>
      !s.tasks[t].pc.Done? && !WaitsForMutex(s, t) && !WaitsForCell(s, t)
    ensures WaitsForMutex(s, t) || WaitsForCell(s, t) ==> CanStep(cfg, s, t, Cancel)
  {
    OwnedAlways(cfg, tr);
    var pc := s.tasks[t].pc;
    if pc.AwaitCell? {
      CellWaits(cfg, s, t);
    } else if !pc.Done? && !WaitsForMutex(s, t) {
      var a := CanMove(cfg, s, t);
    }
  }

  /**
   * The mutex is never held across an await: its holder is a request that can
   * take its next step whatever others do, and cannot be cancelled.
   */
  lemma HolderMoves(cfg: Config, tr: Trace, s: State)
    requires Reaches(cfg, tr, s) && s.mutex.Some?
    ensures s.mutex.value < |cfg.requests|
    ensures CanStep(cfg, s, s.mutex.value, Go) && !CanStep(cfg, s, s.mutex.value, Cancel)
    ensures forall t :: 0 <= t < |cfg.requests| && HoldsMutex(s.tasks[t].pc) ==> t == s.mutex.value
  {
    OwnedAlways(cfg, tr);
    assert TaskOwns(cfg, s, s.mutex.value);
    forall t | 0 <= t < |cfg.requests| && HoldsMutex(s.tasks[t].pc) ensures t == s.mutex.value {
      assert TaskOwns(cfg, s, t);
    }
  }

  /**
   * The world decides: each answer that upstream may give can be given, each file handle can be
   * cloned or refused, and a client can go away at every await.
   */
  lemma AnyAnswerComes(cfg: Config, tr: Trace, s: State, t: nat, answer: Answer, ok: bool)
    requires Reaches(cfg, tr, s) && t < |cfg.requests|
    requires cfg.upstream(Key(cfg.requests[t].host, cfg.requests[t].path), answer)
    ensures s.tasks[t].pc.NeverFetch? || s.tasks[t].pc.FetchBody? ==> CanStep(cfg, s, t, Deliver(answer))
    ensures s.tasks[t].pc.Respond? ==> CanStep(cfg, s, t, Send(ok))
    ensures var pc := s.tasks[t].pc;
      pc.NeverFetch? || pc.LookupLock? || pc.AwaitCell? || pc.FetchBody? || pc.EvictLock? || pc.Respond? ==>
        CanStep(cfg, s, t, Cancel)
  {
    OwnedAlways(cfg, tr);
    assert TaskOwns(cfg, s, t);
  }

  // ----- Lock freedom -----

  /** The next step of task t is a compare-and-swap, not a load or a decision to give up. */
  ghost predicate Exchanging(s: State, t: nat, a: Action) {
    && a.Go? && t < |s.tasks|
    && var pc := s.tasks[t].pc;
    && SnapOf(pc).Some?
    && (pc.Reserve? ==> |pc.content.body| != 0 && |pc.content.body| <= pc.snap.value)
    && (pc.Return? ==> pc.resource < |s.resources| && s.resources[pc.resource].reserved != 0)
  }

  ghost predicate Fails(s: State, t: nat, a: Action) {
    Exchanging(s, t, a) && SnapOf(s.tasks[t].pc).value != s.available
  }

  ghost predicate Succeeds(s: State, t: nat, a: Action) {
    Exchanging(s, t, a) && SnapOf(s.tasks[t].pc).value == s.available
  }

  ghost function FailuresOf(cfg: Config, tr: Trace, t: nat): nat
    requires Valid(cfg, tr)
  {
    match tr
    case Start => 0
    case Then(before, u, a) => FailuresOf(cfg, before, t) + if u == t && Fails(Final(cfg, before), u, a) then 1 else 0
  }

  ghost function SuccessesOfOthers(cfg: Config, tr: Trace, t: nat): nat
    requires Valid(cfg, tr)
  {
    match tr
    case Start => 0
    case Then(before, u, a) =>
      SuccessesOfOthers(cfg, before, t) + if u != t && Succeeds(Final(cfg, before), u, a) then 1 else 0
  }

  ghost predicate HasStale(s: State, t: nat)
    requires t < |s.tasks|
  {
    SnapOf(s.tasks[t].pc).Some? && SnapOf(s.tasks[t].pc).value != s.available
  }

  /** The capacity changes only when an exchange succeeds. */
  lemma OnlySuccessChanges(cfg: Config, s: State, t: nat, a: Action)
    requires WellFormed(cfg, s) && CanStep(cfg, s, t, a)
    ensures Next(cfg, s, t, a).available != s.available ==> Succeeds(s, t, a)
  {
    var k := StepEffect(cfg, s, t, a);
    if Next(cfg, s, t, a).available != s.available {
      assert k.Granting? || k.Freeing?;
    }
  }

  /** After a step of task t, its snapshot is not stale: it has used it up, or just loaded it. */
  lemma OwnStepRefreshes(cfg: Config, s: State, t: nat, a: Action)
    requires WellFormed(cfg, s) && CanStep(cfg, s, t, a)
    ensures !HasStale(Next(cfg, s, t, a), t)
  {
    var k := StepEffect(cfg, s, t, a);
    RefreshStep(cfg, s, Next(cfg, s, t, a), t, k);
  }

  lemma RefreshStep(cfg: Config, s: State, s': State, t: nat, k: Kind)
    requires Effect(cfg, s, s', t, k)
    ensures !HasStale(s', t)
  {
  }

  lemma {:induction false} FailuresAccounted(cfg: Config, tr: Trace, t: nat)
    requires Valid(cfg, tr) && t < |cfg.requests|
    ensures FailuresOf(cfg, tr, t) + (if HasStale(Final(cfg, tr), t) then 1 else 0) <= SuccessesOfOthers(cfg, tr, t)
  {
    if tr.Then? {
      var s := Final(cfg, tr.before);
      FailuresAccounted(cfg, tr.before, t);
      OnlySuccessChanges(cfg, s, tr.task, tr.action);
      OwnStepRefreshes(cfg, s, tr.task, tr.action);
      var k := StepEffect(cfg, s, tr.task, tr.action);
    }
  }

  /**
   * Lock freedom: a request fails an exchange at most as often as other
   * requests succeed, even if they restore the value it had loaded.
   */
  lemma LockFree(cfg: Config, tr: Trace, t: nat, failures: nat, successes: nat)
    requires Valid(cfg, tr) && t < |cfg.requests|
    requires failures == FailuresOf(cfg, tr, t) && successes == SuccessesOfOthers(cfg, tr, t)
    ensures failures <= successes
  {
    FailuresAccounted(cfg, tr, t);
  }

  // ----- Linearization -----

  /** The last step of task t started from where tr0 had led, and was not an answer or a cancellation. */
  ghost predicate LastStepAt(tr: Trace, tr0: Trace, t: nat) {
    tr.Then? && if tr.task == t then tr.before == tr0 && tr.action.Go? else LastStepAt(tr.before, tr0, t)
  }

  /**
   * The capacity was truly this at the last step that the request took, which
   * was the load of its present attempt: other tasks alone have moved since.
   */
  ghost predicate Observed(cfg: Config, tr: Trace, t: nat, value: nat)
    requires Valid(cfg, tr)
  {
    exists tr0 :: LastStepAt(tr, tr0, t) && Valid(cfg, tr0) && Loads(cfg, tr, tr0, t) && Final(cfg, tr0).available == value
  }

  ghost predicate Loads(cfg: Config, tr: Trace, tr0: Trace, t: nat)
    requires Valid(cfg, tr) && Valid(cfg, tr0)
  {
    t < |cfg.requests| && Loaded(Final(cfg, tr0).tasks[t].pc, Final(cfg, tr).tasks[t].pc)
  }

  /** q is p after its load. */
  ghost predicate Loaded(p: Pc, q: Pc) {
    match q
    case Reserve(c, content, locked, Some(_)) => p == Reserve(c, content, locked, None)
    case ReserveUpTo(c, content, Some(_)) => p == ReserveUpTo(c, content, None)
    case Return(r, Some(_), after) => p == Return(r, None, after)
    case _ => false
  }

  lemma LoadsCapacity(cfg: Config, s: State, t: nat)
    requires WellFormed(cfg, s) && CanStep(cfg, s, t, Go)
    requires var pc := s.tasks[t].pc; pc.Reserve? || pc.ReserveUpTo? || pc.Return?
    requires SnapOf(Next(cfg, s, t, Go).tasks[t].pc).Some?
    ensures Loaded(s.tasks[t].pc, Next(cfg, s, t, Go).tasks[t].pc)
  {
  }

  lemma LoadsNothing(cfg: Config, s: State, t: nat, a: Action)
    requires WellFormed(cfg, s) && CanStep(cfg, s, t, a)
    requires var pc := s.tasks[t].pc; !pc.Reserve? && !pc.ReserveUpTo? && !pc.Return?
    ensures SnapOf(Next(cfg, s, t, a).tasks[t].pc).None?
  {
  }

  lemma LoadStep(cfg: Config, s: State, t: nat, a: Action)
    requires WellFormed(cfg, s) && CanStep(cfg, s, t, a)
    requires SnapOf(Next(cfg, s, t, a).tasks[t].pc).Some?
    ensures a.Go? && SnapOf(Next(cfg, s, t, a).tasks[t].pc) == Some(s.available)
    ensures Loaded(s.tasks[t].pc, Next(cfg, s, t, a).tasks[t].pc)
  {
    var pc := s.tasks[t].pc;
    if pc.Reserve? || pc.ReserveUpTo? || pc.Return? {
      LoadsCapacity(cfg, s, t);
      var k := StepEffect(cfg, s, t, a);
    } else {
      LoadsNothing(cfg, s, t, a);
    }
  }

  lemma {:induction false} SnapshotObserved(cfg: Config, tr: Trace, t: nat)
    requires Valid(cfg, tr) && t < |cfg.requests| && SnapOf(Final(cfg, tr).tasks[t].pc).Some?
    ensures Observed(cfg, tr, t, SnapOf(Final(cfg, tr).tasks[t].pc).value)
  {
    if tr.Then? {
      var s := Final(cfg, tr.before);
      var k := StepEffect(cfg, s, tr.task, tr.action);
      if tr.task == t {
        LoadStep(cfg, s, t, tr.action);
        assert LastStepAt(tr, tr.before, t) && Loads(cfg, tr, tr.before, t);
      } else {
        SnapshotObserved(cfg, tr.before, t);
        var tr0 :| LastStepAt(tr.before, tr0, t) && Valid(cfg, tr0) && Loads(cfg, tr.before, tr0, t)
                   && Final(cfg, tr0).available == SnapOf(s.tasks[t].pc).value;
        assert LastStepAt(tr, tr0, t) && Loads(cfg, tr, tr0, t);
      }
    }
  }

  lemma GivesUpShort(cfg: Config, s: State, t: nat)
    requires WellFormed(cfg, s) && CanStep(cfg, s, t, Go) && s.tasks[t].pc.Reserve?
    requires Next(cfg, s, t, Go).tasks[t].pc.Evict? || Next(cfg, s, t, Go).tasks[t].pc.EvictLock?
    ensures SnapOf(s.tasks[t].pc).Some? && SnapOf(s.tasks[t].pc).value < |s.tasks[t].pc.content.body|
  {
  }

  /**
   * Linearizability of `reserve`: it fails only if, at the load of its present
   * attempt, less than the size was available, so failing was right at that moment.
   */
  lemma FailsOnlyWhenShort(cfg: Config, tr: Trace, s: State, t: nat, s': State)
    requires Reaches(cfg, tr, s) && CanStep(cfg, s, t, Go) && s' == Next(cfg, s, t, Go)
    requires s.tasks[t].pc.Reserve? && (s'.tasks[t].pc.Evict? || s'.tasks[t].pc.EvictLock?)
    ensures exists v: nat :: v < |s.tasks[t].pc.content.body| && Observed(cfg, tr, t, v)
  {
    GivesUpShort(cfg, s, t);
    SnapshotObserved(cfg, tr, t);
  }

  /**
   * Linearizability of the successful operations: at the one step that changes
   * the pool, `reserve` takes the size and `reserve_up_to` the smaller of size
   * and available capacity; `return_to_pool` gives back exactly its reservation.
   * The pool never holds more than the initial capacity.
   */
  lemma PoolSteps(cfg: Config, tr: Trace, s: State, t: nat, a: Action, s': State)
    requires Reaches(cfg, tr, s) && CanStep(cfg, s, t, a) && s' == Next(cfg, s, t, a)
    ensures s'.available <= cfg.capacity
    ensures var pc := s.tasks[t].pc;
      if pc.Reserve? && s'.tasks[t].pc.Unlock? then
        |pc.content.body| <= s.available && s'.available == s.available - |pc.content.body|
        && s'.resources[t].reserved == |pc.content.body|
      else if pc.ReserveUpTo? && s'.tasks[t].pc.Unlock? then
        var m := Min(|pc.content.body|, s.available);
        s'.available == s.available - m && s'.resources[t].reserved == m
      else if pc.Return? && s'.tasks[t].pc == Continue(pc.after) then
        s'.available == s.available + s.resources[pc.resource].reserved && s'.resources[pc.resource].reserved == 0
      else
        s'.available == s.available
  {
    var k := StepEffect(cfg, s, t, a);
    PoolBounded(cfg, Then(tr, t, a));
  }

  lemma PoolBounded(cfg: Config, tr: Trace)
    requires Valid(cfg, tr)
    ensures Final(cfg, tr).available <= cfg.capacity
  {
    var s := Final(cfg, tr);
    BalancedAlways(cfg, tr);
    SumMonotone(s.resources, (i: int, r: Resource) => 0, Reservation());
    SumZero(s.resources, (i: int, r: Resource) => 0);
  }
}
