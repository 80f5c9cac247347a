/**
 * The lookup, and what becomes of the cells it hands out. A request joins the
 * cell that the map keeps for its key unless that cell is filled and past the
 * age of the request that filled it; a cell leaves the map in three ways only;
 * and what a request obtains is what its cell is filled with.
 */
module Lookups {
  import opened Options
  import opened Model
  import opened Recency
  import opened Machine
  import opened Effects
  import opened Notes
  import opened Ownership
  import opened Lifecycle
  import opened Capacity
  import opened Transparency
  import opened Answers

  /** The request acquires the mutex and looks up its key. */
  ghost predicate LooksUp(cfg: Config, s: State, t: nat, a: Action, s': State) {
    && WellFormed(cfg, s) && CanStep(cfg, s, t, a) && s' == Next(cfg, s, t, a)
    && a.Go? && s.tasks[t].pc.LookupLock?
  }

  /** The entry at position i is for the host and path of request t. */
  ghost predicate EntryFor(cfg: Config, s: State, t: nat, i: nat) {
    && t < |cfg.requests| && i < |s.lru|
    && s.lru[i].key == Key(cfg.requests[t].host, cfg.requests[t].path)
  }

  ghost predicate NoEntryFor(cfg: Config, s: State, t: nat) {
    forall i: nat :: !EntryFor(cfg, s, t, i)
  }

  /** The cell is unfilled, or filled with what is within the age of its creator at the request's own time. */
  ghost predicate Usable(cfg: Config, s: State, t: nat, c: nat)
    requires WellFormed(cfg, s) && t < |s.tasks| && c < |s.cells|
  {
    var v := s.cells[c].value;
    v.Some? ==> WithinAge(cfg.requests[v.value], cfg.requests[t].now)
  }

  // ----- One lookup -----

  lemma FindsEntry(cfg: Config, s: State, t: nat, i: nat)
    requires Owned(cfg, s) && EntryFor(cfg, s, t, i)
    ensures Find(s.lru, KeyOf(cfg.requests[t])) == Some(i)
  {
    var found := Find(s.lru, KeyOf(cfg.requests[t]));
    assert s.lru[i].key == KeyOf(cfg.requests[t]);
    assert found.Some?;
  }

  lemma FindsNone(cfg: Config, s: State, t: nat)
    requires t < |cfg.requests| && NoEntryFor(cfg, s, t)
    ensures Find(s.lru, KeyOf(cfg.requests[t])).None?
  {
    var found := Find(s.lru, KeyOf(cfg.requests[t]));
    if found.Some? { assert EntryFor(cfg, s, t, found.value); }
  }

  /** What fills a cell was made by a request that looked up, and expires as its rule says. */
  lemma FilledByLooker(cfg: Config, s: State, c: nat)
    requires AllAnswered(cfg, s) && c < |s.cells| && s.cells[c].value.Some?
    ensures var r := s.cells[c].value.value;
      r < |cfg.requests| && Looks(cfg.requests[r].rule) && s.resources[r].expiresAt == Expiry(cfg.requests[r])
  {
    var r := s.cells[c].value.value;
    assert CellLives(s, c) && ResourceTold(cfg, s, r) && Answered(cfg, s, r);
  }

  lemma StaleMeansUnusable(cfg: Config, s: State, t: nat, c: nat)
    requires AllAnswered(cfg, s) && t < |s.tasks| && c < |s.cells|
    ensures Stale(cfg, s, t, c) <==> !Usable(cfg, s, t, c)
  {
    if s.cells[c].value.Some? {
      FilledByLooker(cfg, s, c);
      ExpiresWithAge(cfg.requests[s.cells[c].value.value], cfg.requests[t].now);
    }
  }

  /**
   * A lookup joins the cell that the map keeps for the request's host and path,
   * if it is unfilled, whoever is about to fill it, or still within its age: the
   * entry moves to the recent end and nothing else changes.
   */
  lemma LookupJoins(cfg: Config, tr: Trace, s: State, t: nat, a: Action, s': State, i: nat)
    requires Reaches(cfg, tr, s) && LooksUp(cfg, s, t, a, s')
    requires EntryFor(cfg, s, t, i) && Usable(cfg, s, t, s.lru[i].value)
    ensures s'.tasks[t].pc == LookupUnlock(s.lru[i].value)
    ensures s'.lru == s.lru[..i] + s.lru[i + 1..] + [s.lru[i]]
    ensures s'.cells == s.cells && s'.resources == s.resources
  {
    AnsweredAlways(cfg, tr);
    FindsEntry(cfg, s, t, i);
    StaleMeansUnusable(cfg, s, t, s.lru[i].value);
  }

  /**
   * It replaces a cell past its age by a new one of its own, at the recent end;
   * what the old cell holds stays for those who refer to it.
   */
  lemma LookupReplaces(cfg: Config, tr: Trace, s: State, t: nat, a: Action, s': State, i: nat)
    requires Reaches(cfg, tr, s) && LooksUp(cfg, s, t, a, s')
    requires EntryFor(cfg, s, t, i) && !Usable(cfg, s, t, s.lru[i].value)
    ensures CellOf(s'.tasks[t].pc) == Some(t) && VictimOf(s'.tasks[t].pc) == Some(s.lru[i].value)
    ensures s'.lru == s.lru[..i] + s.lru[i + 1..] + [Entry(s.lru[i].key, t)]
    ensures s'.cells == s.cells[t := Cell(true, None, None, 0)] && s'.resources == s.resources
  {
    AnsweredAlways(cfg, tr);
    FindsEntry(cfg, s, t, i);
    StaleMeansUnusable(cfg, s, t, s.lru[i].value);
  }

  /** Without an entry it adds a new cell of its own; a full map loses its oldest entry. */
  lemma LookupStarts(cfg: Config, tr: Trace, s: State, t: nat, a: Action, s': State)
    requires Reaches(cfg, tr, s) && LooksUp(cfg, s, t, a, s') && NoEntryFor(cfg, s, t)
    ensures |s.lru| <= cfg.maxFiles
    ensures CellOf(s'.tasks[t].pc) == Some(t)
    ensures VictimOf(s'.tasks[t].pc) == if |s.lru| < cfg.maxFiles then None else Some(s.lru[0].value)
    ensures s'.lru == s.lru[(if |s.lru| < cfg.maxFiles then 0 else 1)..]
                      + [Entry(Key(cfg.requests[t].host, cfg.requests[t].path), t)]
    ensures s'.cells == s.cells[t := Cell(true, None, None, 0)] && s'.resources == s.resources
  {
    AnsweredAlways(cfg, tr);
    FindsNone(cfg, s, t);
  }

  // ----- The map -----

  /** The step takes the oldest entry, with cell c: the eviction loop pops it, or a new key pushes it out of a full map. */
  ghost predicate Displaces(cfg: Config, s: State, t: nat, a: Action, c: nat) {
    && t < |s.tasks| && a.Go? && s.lru != [] && s.lru[0].value == c
    && (s.tasks[t].pc.Evict? || (s.tasks[t].pc.LookupLock? && |s.lru| == cfg.maxFiles && NoEntryFor(cfg, s, t)))
  }

  /** The step looks up the key of cell c and finds it past its age. */
  ghost predicate Replaces(cfg: Config, s: State, t: nat, a: Action, c: nat)
    requires WellFormed(cfg, s)
  {
    && t < |s.tasks| && a.Go? && s.tasks[t].pc.LookupLock? && c < |s.cells| && !Usable(cfg, s, t, c)
    && exists i: nat :: EntryFor(cfg, s, t, i) && s.lru[i].value == c
  }

  lemma OneEntry(cfg: Config, s: State, i: nat, c: nat)
    requires Owned(cfg, s) && i < |s.lru| && s.lru[i].value == c
    ensures forall j :: 0 <= j < |s.lru| && j != i ==> s.lru[j].value != c
  {
    forall j | 0 <= j < |s.lru| && j != i ensures s.lru[j].value != c {
      if j < i { DistinctCells(cfg, s, j, i); } else { DistinctCells(cfg, s, i, j); }
    }
  }

  /** What a step that looks up does to the place of a cell in the map. */
  lemma LookupLeaves(cfg: Config, s: State, t: nat, a: Action, s': State, c: nat)
    requires AllAnswered(cfg, s) && LooksUp(cfg, s, t, a, s') && Mapped(s.lru, c)
    ensures Mapped(s'.lru, c) <==> !Displaces(cfg, s, t, a, c) && !Replaces(cfg, s, t, a, c)
  {
    var k := StepEffect(cfg, s, t, a);
    match Find(s.lru, KeyOf(cfg.requests[t]))
    case Some(i) => FoundLeaves(cfg, s, t, a, s', c, i);
    case None => NewLeaves(cfg, s, t, a, s', c);
  }

  lemma FoundLeaves(cfg: Config, s: State, t: nat, a: Action, s': State, c: nat, i: nat)
    requires AllAnswered(cfg, s) && LooksUp(cfg, s, t, a, s') && LookupMoves(cfg, s, s', t) && Mapped(s.lru, c)
    requires Find(s.lru, KeyOf(cfg.requests[t])) == Some(i)
    ensures Mapped(s'.lru, c) <==> !Displaces(cfg, s, t, a, c) && !Replaces(cfg, s, t, a, c)
  {
    assert EntryFor(cfg, s, t, i);
    StaleMeansUnusable(cfg, s, t, s.lru[i].value);
    FoundReplaces(cfg, s, t, a, c, i);
    NewCell(cfg, s, t, c);
    FoundMapped(cfg, s, t, c, i, if Stale(cfg, s, t, s.lru[i].value) then t else s.lru[i].value);
  }

  /** Of the cells in the map, a lookup can replace the one it finds. */
  lemma FoundReplaces(cfg: Config, s: State, t: nat, a: Action, c: nat, i: nat)
    requires Owned(cfg, s) && EntryFor(cfg, s, t, i) && a.Go? && s.tasks[t].pc.LookupLock?
    ensures !Displaces(cfg, s, t, a, c)
    ensures Replaces(cfg, s, t, a, c) <==> c == s.lru[i].value && !Usable(cfg, s, t, c)
  {
    if j: nat :| EntryFor(cfg, s, t, j) && s.lru[j].value == c { assert j == i; }
  }

  lemma FoundMapped(cfg: Config, s: State, t: nat, c: nat, i: nat, v: nat)
    requires Owned(cfg, s) && t < |s.tasks| && s.tasks[t].pc.LookupLock? && Mapped(s.lru, c)
    requires i < |s.lru| && (v == t || v == s.lru[i].value)
    ensures Mapped(Promote(s.lru, i, v), c) <==> c != s.lru[i].value || v == c
  {
    MappedPromote(s.lru, i, v, c);
    NewCell(cfg, s, t, c);
    OneEntry(cfg, s, i, s.lru[i].value);
  }

  /** The cell of a request that has not looked up is not in the map. */
  lemma NewCell(cfg: Config, s: State, t: nat, c: nat)
    requires Owned(cfg, s) && t < |s.tasks| && s.tasks[t].pc.LookupLock? && Mapped(s.lru, c)
    ensures c != t
  {
    assert TaskOwns(cfg, s, t);
    var j :| 0 <= j < |s.lru| && s.lru[j].value == c;
    assert EntryOwned(cfg, s, j);
  }

  lemma NewLeaves(cfg: Config, s: State, t: nat, a: Action, s': State, c: nat)
    requires AllAnswered(cfg, s) && LooksUp(cfg, s, t, a, s') && LookupMoves(cfg, s, s', t) && Mapped(s.lru, c)
    requires Find(s.lru, KeyOf(cfg.requests[t])).None?
    ensures Mapped(s'.lru, c) <==> !Displaces(cfg, s, t, a, c) && !Replaces(cfg, s, t, a, c)
  {
    var e := Entry(KeyOf(cfg.requests[t]), t);
    MappedInsert(s.lru, cfg.maxFiles, e, c);
    NewCell(cfg, s, t, c);
    if |s.lru| == cfg.maxFiles && c == s.lru[0].value { OldestGoes(cfg, s, e); }
  }

  lemma OldestGoes(cfg: Config, s: State, e: Entry<Key, nat>)
    requires Owned(cfg, s) && |s.lru| == cfg.maxFiles && s.lru[0].value != e.value
    ensures !Mapped(Insert(s.lru, cfg.maxFiles, e), s.lru[0].value)
  {
    OneEntry(cfg, s, 0, s.lru[0].value);
  }

  lemma PopLeaves(cfg: Config, s: State, t: nat, a: Action, s': State, c: nat)
    requires AllAnswered(cfg, s) && CanStep(cfg, s, t, a) && s' == Next(cfg, s, t, a) && Mapped(s.lru, c)
    requires a.Go? && s.tasks[t].pc.Evict?
    ensures Mapped(s'.lru, c) <==> !Displaces(cfg, s, t, a, c)
  {
    OneEntry(cfg, s, 0, s.lru[0].value);
    var j :| 0 <= j < |s.lru| && s.lru[j].value == c;
    if j > 0 { assert s'.lru[j - 1].value == c; }
  }

  /** A cell leaves the map exactly with the step that displaces or replaces it. */
  lemma LeavesMap(cfg: Config, s: State, t: nat, a: Action, s': State, c: nat)
    requires AllAnswered(cfg, s) && CanStep(cfg, s, t, a) && s' == Next(cfg, s, t, a) && Mapped(s.lru, c)
    ensures Mapped(s'.lru, c) <==> !Displaces(cfg, s, t, a, c) && !Replaces(cfg, s, t, a, c)
  {
    if a.Go? && s.tasks[t].pc.LookupLock? {
      LookupLeaves(cfg, s, t, a, s', c);
    } else if a.Go? && s.tasks[t].pc.Evict? {
      PopLeaves(cfg, s, t, a, s', c);
    } else {
      var k := StepEffect(cfg, s, t, a);
      SameMap(cfg, s, s', t, k);
    }
  }

  lemma SameMap(cfg: Config, s: State, s': State, t: nat, k: Kind)
    requires Effect(cfg, s, s', t, k) && !k.Looking? && !k.Popping?
    ensures s'.lru == s.lru
  {
  }

  /** Since tr0, some step has taken the cell out of the map. */
  ghost predicate LeftSince(cfg: Config, tr: Trace, tr0: Trace, c: nat)
    requires Valid(cfg, tr)
  {
    && tr != tr0 && tr.Then?
    && var s := Final(cfg, tr.before);
    (Displaces(cfg, s, tr.task, tr.action, c) || Replaces(cfg, s, tr.task, tr.action, c) || LeftSince(cfg, tr.before, tr0, c))
  }

  ghost predicate DisplacedSince(cfg: Config, tr: Trace, tr0: Trace, c: nat)
    requires Valid(cfg, tr)
  {
    && tr != tr0 && tr.Then?
    && (Displaces(cfg, Final(cfg, tr.before), tr.task, tr.action, c) || DisplacedSince(cfg, tr.before, tr0, c))
  }

  lemma MappedCreated(cfg: Config, s: State, c: nat)
    requires Owned(cfg, s) && Mapped(s.lru, c)
    ensures c < |s.cells| && s.cells[c].created
  {
    var i :| 0 <= i < |s.lru| && s.lru[i].value == c;
    assert EntryOwned(cfg, s, i);
  }

  /** A created cell that is not in the map does not get there. */
  lemma StaysOut(cfg: Config, s: State, t: nat, a: Action, s': State, c: nat)
    requires Lives(cfg, s) && CanStep(cfg, s, t, a) && s' == Next(cfg, s, t, a)
    requires c < |s.cells| && s.cells[c].created
    ensures s'.cells[c].created && (Mapped(s'.lru, c) ==> Mapped(s.lru, c))
  {
    var k := StepEffect(cfg, s, t, a);
    if Mapped(s'.lru, c) { MapGrows(cfg, s, s', t, k, c); }
    StoreSteps(cfg, s, s', t, k);
    assert CellStep(s, s', t, c);
  }

  lemma {:induction false} MappedSince(cfg: Config, tr: Trace, tr0: Trace, c: nat)
    requires Valid(cfg, tr) && Valid(cfg, tr0) && Extends(tr, tr0) && Mapped(Final(cfg, tr0).lru, c)
    ensures c < |cfg.requests| && Final(cfg, tr).cells[c].created
    ensures Mapped(Final(cfg, tr).lru, c) <==> !LeftSince(cfg, tr, tr0, c)
  {
    if tr == tr0 {
      OwnedAlways(cfg, tr0);
      MappedCreated(cfg, Final(cfg, tr0), c);
    } else {
      MappedSince(cfg, tr.before, tr0, c);
      AnsweredAlways(cfg, tr.before);
      StaysOut(cfg, Final(cfg, tr.before), tr.task, tr.action, Final(cfg, tr), c);
      if Mapped(Final(cfg, tr.before).lru, c) {
        LeavesMap(cfg, Final(cfg, tr.before), tr.task, tr.action, Final(cfg, tr), c);
      }
    }
  }

  /** While a cell is unfilled, it can only have been displaced. */
  lemma {:induction false} UnfilledDisplaced(cfg: Config, tr: Trace, tr0: Trace, c: nat)
    requires Valid(cfg, tr) && Valid(cfg, tr0) && Extends(tr, tr0)
    requires c < |cfg.requests| && Final(cfg, tr).cells[c].value.None?
    ensures LeftSince(cfg, tr, tr0, c) <==> DisplacedSince(cfg, tr, tr0, c)
  {
    if tr != tr0 {
      if Final(cfg, tr.before).cells[c].value.Some? { KeptSince(cfg, tr, tr.before, c); }
      UnfilledDisplaced(cfg, tr.before, tr0, c);
    }
  }

  /**
   * In every run, a cell that was in the map still is, unless the eviction loop
   * popped it, a new key pushed it out of a full map, or a request for its key
   * found it past its age.
   */
  lemma StaysMapped(cfg: Config, tr: Trace, s: State, tr0: Trace, s0: State, c: nat)
    requires Reaches(cfg, tr, s) && Reaches(cfg, tr0, s0) && Extends(tr, tr0) && Mapped(s0.lru, c)
    ensures Mapped(s.lru, c) <==> !LeftSince(cfg, tr, tr0, c)
  {
    MappedSince(cfg, tr, tr0, c);
  }

  /** A cell that is not filled yet still is in the map, unless it was popped or pushed out. */
  lemma UnfilledStaysMapped(cfg: Config, tr: Trace, s: State, tr0: Trace, s0: State, c: nat)
    requires Reaches(cfg, tr, s) && Reaches(cfg, tr0, s0) && Extends(tr, tr0) && Mapped(s0.lru, c)
    requires c < |cfg.requests| && s.cells[c].value.None?
    ensures Mapped(s.lru, c) <==> !DisplacedSince(cfg, tr, tr0, c)
  {
    MappedSince(cfg, tr, tr0, c);
    UnfilledDisplaced(cfg, tr, tr0, c);
  }

  // ----- Single flight -----

  /** The cells of requests for one host and path, if they are in the map, are one cell. */
  lemma OneCellPerKey(cfg: Config, s: State, t: nat, u: nat)
    requires Owned(cfg, s) && t < |s.tasks| && u < |s.tasks| && SameKey(cfg.requests[t], cfg.requests[u])
    requires var c, d := CellOf(s.tasks[t].pc), CellOf(s.tasks[u].pc);
      c.Some? && d.Some? && Mapped(s.lru, c.value) && Mapped(s.lru, d.value)
    ensures CellOf(s.tasks[t].pc) == CellOf(s.tasks[u].pc)
  {
    assert TaskOwns(cfg, s, t) && TaskOwns(cfg, s, u);
    var i :| 0 <= i < |s.lru| && s.lru[i].value == CellOf(s.tasks[t].pc).value;
    var j :| 0 <= j < |s.lru| && s.lru[j].value == CellOf(s.tasks[u].pc).value;
    assert EntryOwned(cfg, s, i) && EntryOwned(cfg, s, j);
    assert s.lru[i].key == s.lru[j].key;
  }

  /**
   * Single flight by key: of the requests for one host and path that await
   * upstream or store its answer, at most one has its cell in the map.
   */
  lemma OneFetchPerKey(cfg: Config, tr: Trace, s: State, t: nat, u: nat)
    requires Reaches(cfg, tr, s) && t < |cfg.requests| && u < |cfg.requests|
    requires SameKey(cfg.requests[t], cfg.requests[u]) && Filling(s.tasks[t].pc) && Filling(s.tasks[u].pc)
    requires Mapped(s.lru, CellOf(s.tasks[t].pc).value) && Mapped(s.lru, CellOf(s.tasks[u].pc).value)
    ensures t == u
  {
    OwnedAlways(cfg, tr);
    OneCellPerKey(cfg, s, t, u);
    OneInitialiser(cfg, tr, s, t, u);
  }

  /** While one request fetches for a cell in the map, a lookup of the same host and path joins that cell. */
  lemma LookupAwaitsFetch(cfg: Config, tr: Trace, s: State, t: nat, u: nat, a: Action, s': State)
    requires Reaches(cfg, tr, s) && t < |cfg.requests| && Filling(s.tasks[t].pc)
    requires Mapped(s.lru, CellOf(s.tasks[t].pc).value)
    requires LooksUp(cfg, s, u, a, s') && SameKey(cfg.requests[u], cfg.requests[t])
    ensures s'.tasks[u].pc == LookupUnlock(CellOf(s.tasks[t].pc).value) && s'.cells == s.cells
  {
    OwnedAlways(cfg, tr);
    assert TaskOwns(cfg, s, t);
    var i: nat :| i < |s.lru| && s.lru[i].value == CellOf(s.tasks[t].pc).value;
    assert EntryOwned(cfg, s, i);
    LookupJoins(cfg, tr, s, u, a, s', i);
  }

  // ----- What a request obtains -----

  /** The request holds the cell, or had it, and whatever it obtained is what fills it. */
  ghost predicate KeepsTo(s: State, t: nat, c: nat) {
    && t < |s.tasks| && c < |s.cells|
    && (CellOf(s.tasks[t].pc) == Some(c) || (CellOf(s.tasks[t].pc).None? && Ending(s.tasks[t].pc)))
    && (s.tasks[t].served.Some? ==> s.cells[c].value == s.tasks[t].served)
  }

  lemma KeepsToNext(cfg: Config, s: State, u: nat, a: Action, s': State, t: nat, c: nat)
    requires AllAnswered(cfg, s) && AllAnswered(cfg, s')
    requires CanStep(cfg, s, u, a) && s' == Next(cfg, s, u, a) && KeepsTo(s, t, c)
    ensures KeepsTo(s', t, c)
  {
    var k := StepEffect(cfg, s, u, a);
    var n := StepNote(cfg, s, u, a);
    if s.cells[c].value.Some? { FilledKept(cfg, s, s', u, k, c); }
    if t == u { MoverKeepsTo(cfg, s, s', t, k, n, c); }
  }

  lemma MoverKeepsTo(cfg: Config, s: State, s': State, t: nat, k: Kind, n: Note, c: nat)
    requires AllAnswered(cfg, s) && AllAnswered(cfg, s') && Effect(cfg, s, s', t, k) && Noted(cfg, s, s', t, n)
    requires KeepsTo(s, t, c) && (s.cells[c].value.Some? ==> s'.cells[c] == s.cells[c])
    ensures KeepsTo(s', t, c)
  {
    assert Answered(cfg, s, t) && Answered(cfg, s', t);
    if CellOf(s'.tasks[t].pc).Some? { CellKept(cfg, s, s', t, k); }
  }

  lemma KeepsToNow(cfg: Config, s: State, t: nat, c: nat)
    requires AllAnswered(cfg, s) && t < |s.tasks| && CellOf(s.tasks[t].pc) == Some(c)
    ensures KeepsTo(s, t, c)
  {
    assert Answered(cfg, s, t);
  }

  lemma {:induction false} KeepsToSince(cfg: Config, tr: Trace, tr0: Trace, t: nat, c: nat)
    requires Valid(cfg, tr) && Valid(cfg, tr0) && Extends(tr, tr0)
    requires t < |cfg.requests| && CellOf(Final(cfg, tr0).tasks[t].pc) == Some(c)
    ensures KeepsTo(Final(cfg, tr), t, c)
  {
    AnsweredAlways(cfg, tr);
    if tr == tr0 {
      KeepsToNow(cfg, Final(cfg, tr), t, c);
    } else {
      AnsweredAlways(cfg, tr.before);
      KeepsToSince(cfg, tr.before, tr0, t, c);
      KeepsToNext(cfg, Final(cfg, tr.before), tr.task, tr.action, Final(cfg, tr), t, c);
    }
  }

  lemma {:induction false} ContentSince(cfg: Config, tr: Trace, tr0: Trace, r: nat)
    requires Valid(cfg, tr) && Valid(cfg, tr0) && Extends(tr, tr0)
    requires r < |cfg.requests| && !Final(cfg, tr0).resources[r].phase.NotYet?
    ensures !Final(cfg, tr).resources[r].phase.NotYet?
    ensures Final(cfg, tr).resources[r].content == Final(cfg, tr0).resources[r].content
  {
    if tr != tr0 {
      ContentSince(cfg, tr.before, tr0, r);
      LivesAlways(cfg, tr.before);
      var k := StepEffect(cfg, Final(cfg, tr.before), tr.task, tr.action);
      FixedNext(cfg, Final(cfg, tr.before), Final(cfg, tr), tr.task, k, r);
    }
  }

  /**
   * A request obtains what its cell is filled with, and nothing else: once it
   * has looked up a cell, in every continuation of the run.
   */
  lemma ObtainsFromItsCell(cfg: Config, tr: Trace, s: State, tr0: Trace, s0: State, t: nat, c: nat)
    requires Reaches(cfg, tr, s) && Reaches(cfg, tr0, s0) && Extends(tr, tr0)
    requires t < |cfg.requests| && CellOf(s0.tasks[t].pc) == Some(c)
    ensures c < |cfg.requests|
    ensures CellOf(s.tasks[t].pc).Some? ==> CellOf(s.tasks[t].pc) == Some(c)
    ensures s.tasks[t].served.Some? ==> s.tasks[t].served == s.cells[c].value
  {
    KeepsToSince(cfg, tr, tr0, t, c);
  }

  // ----- Hits -----

  /** The request keeps to a filled cell, and is told nothing before it obtains what fills it, unless it gives up. */
  ghost predicate SetToHit(s: State, t: nat, c: nat) {
    && KeepsTo(s, t, c) && s.cells[c].value.Some?
    && (s.tasks[t].served.None? ==> s.tasks[t].response in {Pending, Cancelled})
  }

  lemma SetToHitNext(cfg: Config, s: State, u: nat, a: Action, s': State, t: nat, c: nat)
    requires AllAnswered(cfg, s) && CanStep(cfg, s, u, a) && s' == Next(cfg, s, u, a)
    requires SetToHit(s, t, c) && KeepsTo(s', t, c)
    ensures SetToHit(s', t, c)
  {
    var k := StepEffect(cfg, s, u, a);
    FilledKept(cfg, s, s', u, k, c);
    if t == u {
      var n := StepNote(cfg, s, u, a);
      MoverSetToHit(cfg, s, s', t, n, c);
    }
  }

  lemma MoverSetToHit(cfg: Config, s: State, s': State, t: nat, n: Note, c: nat)
    requires AllAnswered(cfg, s) && Noted(cfg, s, s', t, n) && SetToHit(s, t, c)
    ensures s'.tasks[t].served.None? ==> s'.tasks[t].response in {Pending, Cancelled}
  {
    assert TaskOwns(cfg, s, t) && Answered(cfg, s, t);
  }

  lemma {:induction false} SetToHitSince(cfg: Config, tr: Trace, tr0: Trace, t: nat, c: nat)
    requires Valid(cfg, tr) && Valid(cfg, tr0) && Extends(tr, tr0)
    requires t < |cfg.requests| && SetToHit(Final(cfg, tr0), t, c) && CellOf(Final(cfg, tr0).tasks[t].pc) == Some(c)
    ensures SetToHit(Final(cfg, tr), t, c)
  {
    if tr != tr0 {
      AnsweredAlways(cfg, tr.before);
      SetToHitSince(cfg, tr.before, tr0, t, c);
      KeepsToSince(cfg, tr, tr0, t, c);
      SetToHitNext(cfg, Final(cfg, tr.before), tr.task, tr.action, Final(cfg, tr), t, c);
    }
  }

  /** A request that has looked up and found its cell filled did not fill it. */
  lemma FoundFilled(cfg: Config, s: State, t: nat, c: nat)
    requires AllAnswered(cfg, s) && t < |s.tasks| && c < |s.cells|
    requires s.tasks[t].pc == LookupUnlock(c) && s.cells[c].value.Some?
    ensures SetToHit(s, t, c) && Looks(cfg.requests[t].rule)
    ensures var r := s.cells[c].value.value; r < |s.resources| && r != t && !s.resources[r].phase.NotYet?
  {
    assert CellLives(s, c) && ResourceLives(cfg, s, t) && Answered(cfg, s, t);
  }

  /** The request does not ask upstream, is counted as no more than a hit on this body, and is served no other. */
  ghost predicate HitOnly(s: State, t: nat, content: Content)
    requires t < |s.tasks|
  {
    && !Filling(s.tasks[t].pc) && !s.tasks[t].pc.NeverFetch?
    && var x := s.tasks[t];
    && (x.tally.None? || x.tally == Some(Hit(|content.body|)))
    && (x.response.Pending? || x.response == Served(content) || x.response.Errored? || x.response.Cancelled?)
  }

  /** What is known of a request that is set to hit. */
  lemma HitOutcome(cfg: Config, s: State, t: nat, c: nat)
    requires AllAnswered(cfg, s) && t < |s.tasks| && Looks(cfg.requests[t].rule)
    requires SetToHit(s, t, c) && s.cells[c].value != Some(t)
    ensures s.cells[c].value.value < |s.resources|
    ensures HitOnly(s, t, s.resources[s.cells[c].value.value].content)
  {
    assert Answered(cfg, s, t) && TaskOwns(cfg, s, t) && CellLives(s, c);
  }

  /**
   * A lookup that finds a filled cell within its age decides for a hit: in no
   * continuation of the run does the request ask upstream, it is counted as
   * nothing but a hit of that size, and served no body but that one.
   */
  lemma HitsWhatItFound(cfg: Config, tr: Trace, s: State, tr0: Trace, s0: State, t: nat, c: nat)
    requires Reaches(cfg, tr, s) && Reaches(cfg, tr0, s0) && Extends(tr, tr0)
    requires t < |cfg.requests| && s0.tasks[t].pc == LookupUnlock(c) && c < |cfg.requests| && s0.cells[c].value.Some?
    ensures s0.cells[c].value.value < |cfg.requests|
    ensures HitOnly(s, t, s0.resources[s0.cells[c].value.value].content)
  {
    AnsweredAlways(cfg, tr0);
    AnsweredAlways(cfg, tr);
    FoundFilled(cfg, s0, t, c);
    KeptSince(cfg, tr, tr0, c);
    SetToHitSince(cfg, tr, tr0, t, c);
    ContentSince(cfg, tr, tr0, s0.cells[c].value.value);
    HitOutcome(cfg, s, t, c);
  }

  // ----- Freshness -----

  /** The request has looked up a cell. */
  ghost predicate Looked(s: State, t: nat)
    requires t < |s.tasks|
  {
    CellOf(s.tasks[t].pc).Some? || s.tasks[t].served.Some?
  }

  /** Earlier in the run, the request had looked up a cell, and cell c was still unfilled. */
  ghost predicate UnfilledAtLookup(cfg: Config, tr: Trace, t: nat, c: nat) {
    exists tr1 :: Extends(tr, tr1) && Valid(cfg, tr1) && WaitedFor(cfg, tr1, t, c)
  }

  ghost predicate WaitedFor(cfg: Config, tr: Trace, t: nat, c: nat)
    requires Valid(cfg, tr)
  {
    t < |cfg.requests| && c < |cfg.requests| && Looked(Final(cfg, tr), t) && Final(cfg, tr).cells[c].value.None?
  }

  lemma {:induction false} FilledInThePast(cfg: Config, tr: Trace, c: nat)
    requires Valid(cfg, tr) && c < |cfg.requests| && Final(cfg, tr).cells[c].value.Some?
    ensures Final(cfg, tr).cells[c].filledAt < Final(cfg, tr).clock
  {
    if tr.Then? {
      var s := Final(cfg, tr.before);
      LivesAlways(cfg, tr.before);
      var k := StepEffect(cfg, s, tr.task, tr.action);
      if s.cells[c].value.Some? {
        FilledInThePast(cfg, tr.before, c);
        KeptSince(cfg, tr, tr.before, c);
      } else {
        NewlyFilled(cfg, s, Final(cfg, tr), tr.task, k, c);
      }
    }
  }

  lemma NewlyFilled(cfg: Config, s: State, s': State, t: nat, k: Kind, c: nat)
    requires Lives(cfg, s) && Effect(cfg, s, s', t, k) && c < |s.cells|
    requires s.cells[c].value.None? && s'.cells[c].value.Some?
    ensures k.Storing? && s'.cells[c].filledAt == s.clock
  {
    if !k.Storing? { SameValues(cfg, s, s', t, k, c); }
  }

  /** The step by which a request comes to have looked up is its lookup, and it notes the time. */
  lemma FirstLooks(cfg: Config, s: State, s': State, u: nat, k: Kind, n: Note, t: nat)
    requires AllAnswered(cfg, s) && AllAnswered(cfg, s') && Effect(cfg, s, s', u, k) && Noted(cfg, s, s', u, n)
    requires t < |s.tasks| && Looked(s', t)
    ensures !Looked(s, t) ==> u == t && k.Looking? && s'.tasks[t].lookedUpAt == s.clock
    ensures Looked(s, t) ==> s'.tasks[t].lookedUpAt == s.tasks[t].lookedUpAt
  {
    if u == t { MoverFirstLooks(cfg, s, s', t, k, n); }
  }

  lemma MoverFirstLooks(cfg: Config, s: State, s': State, t: nat, k: Kind, n: Note)
    requires AllAnswered(cfg, s) && AllAnswered(cfg, s') && Effect(cfg, s, s', t, k) && Noted(cfg, s, s', t, n)
    requires Looked(s', t)
    ensures !Looked(s, t) ==> k.Looking? && s'.tasks[t].lookedUpAt == s.clock
    ensures Looked(s, t) ==> s'.tasks[t].lookedUpAt == s.tasks[t].lookedUpAt
  {
    assert Answered(cfg, s, t) && Answered(cfg, s', t);
    if !Looked(s, t) && !k.Looking? && CellOf(s'.tasks[t].pc).Some? { CellKept(cfg, s, s', t, k); }
  }

  lemma {:induction false} FilledAfterLookup(cfg: Config, tr: Trace, t: nat, c: nat)
    requires Valid(cfg, tr) && t < |cfg.requests| && c < |cfg.requests|
    requires Looked(Final(cfg, tr), t) && Final(cfg, tr).cells[c].value.Some?
    requires Final(cfg, tr).cells[c].filledAt > Final(cfg, tr).tasks[t].lookedUpAt
    ensures UnfilledAtLookup(cfg, tr, t, c)
  {
    if tr.Then? {
      var s, s' := Final(cfg, tr.before), Final(cfg, tr);
      AnsweredAlways(cfg, tr.before);
      AnsweredAlways(cfg, tr);
      var k := StepEffect(cfg, s, tr.task, tr.action);
      var n := StepNote(cfg, s, tr.task, tr.action);
      FirstLooks(cfg, s, s', tr.task, k, n, t);
      FilledInThePast(cfg, tr, c);
      if s.cells[c].value.None? {
        assert Extends(tr, tr.before) && WaitedFor(cfg, tr.before, t, c);
      } else {
        KeptSince(cfg, tr, tr.before, c);
        FilledAfterLookup(cfg, tr.before, t, c);
        var tr1 :| Extends(tr.before, tr1) && Valid(cfg, tr1) && WaitedFor(cfg, tr1, t, c);
        assert Extends(tr, tr1);
      }
    }
  }

  /**
   * Freshness, told by the run alone: what a request obtains was fetched for its
   * own host and path, and is within its age at the request's own time unless
   * its cell was still unfilled when the request had already looked up.
   */
  lemma FreshUnlessFilledLater(cfg: Config, tr: Trace, s: State, t: nat, r: nat)
    requires Reaches(cfg, tr, s) && t < |cfg.requests| && s.tasks[t].served == Some(r)
    ensures r < |cfg.requests| && SameKey(cfg.requests[r], cfg.requests[t])
    ensures s.resources[r].home < |cfg.requests| && s.cells[s.resources[r].home].value == Some(r)
    ensures WithinAge(cfg.requests[r], cfg.requests[t].now) || UnfilledAtLookup(cfg, tr, t, s.resources[r].home)
  {
    AnsweredAlways(cfg, tr);
    ServedFresh(cfg, s, t, r);
    if !WithinAge(cfg.requests[r], cfg.requests[t].now) { FilledAfterLookup(cfg, tr, t, s.resources[r].home); }
  }

  lemma ServedFresh(cfg: Config, s: State, t: nat, r: nat)
    requires AllAnswered(cfg, s) && t < |s.tasks| && s.tasks[t].served == Some(r)
    ensures r < |s.resources| && SameKey(cfg.requests[r], cfg.requests[t])
    ensures s.resources[r].home < |s.cells| && s.cells[s.resources[r].home].value == Some(r)
    ensures WithinAge(cfg.requests[r], cfg.requests[t].now)
      || s.cells[s.resources[r].home].filledAt > s.tasks[t].lookedUpAt
  {
    assert TaskTold(cfg, s, t) && ResourceTold(cfg, s, r) && ResourceLives(cfg, s, r);
    FilledByLooker(cfg, s, s.resources[r].home);
    ExpiresWithAge(cfg.requests[r], cfg.requests[t].now);
  }
}
