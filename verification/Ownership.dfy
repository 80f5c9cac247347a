/**
 * Who owns what: in every reachable state the mutex and each permit have the
 * holder their program counters say, the map holds one cell per key, and a
 * request only ever refers to cells of its own key.
 */
module Ownership {
  import opened Options
  import opened Model
  import opened Recency
  import opened Machine
  import opened Effects

  ghost predicate TaskOwns(cfg: Config, s: State, t: nat)
    requires WellFormed(cfg, s) && t < |s.tasks|
  {
    var pc := s.tasks[t].pc;
    && (s.mutex == Some(t) <==> HoldsMutex(pc))
    && (CellOf(pc).Some? ==>
          && s.cells[CellOf(pc).value].created
          && KeyOf(cfg.requests[CellOf(pc).value]) == KeyOf(cfg.requests[t]))
    && (VictimOf(pc).Some? ==> s.cells[VictimOf(pc).value].created)
    && (Filling(pc) ==> s.cells[CellOf(pc).value].permit == Some(t) && s.cells[CellOf(pc).value].value.None?)
    && (Obtained(pc) ==> s.cells[CellOf(pc).value].value.Some?)
    && (Early(pc) ==> !s.cells[t].created)
  }

  ghost predicate CellOwned(s: State, c: nat)
    requires c < |s.cells|
  {
    var cell := s.cells[c];
    && (cell.permit.Some? ==>
          && cell.permit.value < |s.tasks|
          && Filling(s.tasks[cell.permit.value].pc)
          && CellOf(s.tasks[cell.permit.value].pc) == Some(c))
    && (!cell.created ==> cell.permit.None? && cell.value.None?)
  }

  ghost predicate EntryOwned(cfg: Config, s: State, i: nat)
    requires WellFormed(cfg, s) && i < |s.lru|
  {
    var e := s.lru[i];
    s.cells[e.value].created && e.key == KeyOf(cfg.requests[e.value])
  }

  ghost predicate MapOwned(cfg: Config, s: State)
    requires WellFormed(cfg, s)
  {
    && (forall i :: 0 <= i < |s.lru| ==> EntryOwned(cfg, s, i))
    && DistinctKeys(s.lru)
    && |s.lru| <= cfg.maxFiles
  }

  ghost predicate Owned(cfg: Config, s: State)
  {
    && WellFormed(cfg, s)
    && (s.mutex.Some? ==> s.mutex.value < |s.tasks|)
    && (forall t :: 0 <= t < |s.tasks| ==> TaskOwns(cfg, s, t))
    && (forall c :: 0 <= c < |s.cells| ==> CellOwned(s, c))
    && MapOwned(cfg, s)
  }

  lemma OwnedInit(cfg: Config)
    requires ValidConfig(cfg)
    ensures Owned(cfg, Init(cfg))
  {
  }

  /** The map keeps its promises if its entries or their cells barely change. */
  lemma MapKept(cfg: Config, s: State, s': State)
    requires Owned(cfg, s) && WellFormed(cfg, s')
    requires s'.lru == s.lru
    requires forall c :: 0 <= c < |s.cells| && s.cells[c].created ==> s'.cells[c].created
    ensures MapOwned(cfg, s')
  {
    forall i | 0 <= i < |s'.lru| ensures EntryOwned(cfg, s', i) {
      assert EntryOwned(cfg, s, i);
    }
  }

  /** What one step of task t does to the mutex and to a cell, as the other tasks see it. */
  ghost predicate CellStep(s: State, s': State, t: nat, c: nat)
    requires c < |s.cells| == |s'.cells|
  {
    var x, y := s.cells[c], s'.cells[c];
    && (x.created ==> y.created) && (y.created ==> x.created || c == t)
    && (y.permit == x.permit || (x.permit in {None, Some(t)} && y.permit in {None, Some(t)}))
    && (y.value == x.value || (x.value.None? && x.permit == Some(t) && y.permit.None?))
  }

  ghost predicate StoreStep(s: State, s': State, t: nat) {
    && (s'.mutex == s.mutex || (s.mutex in {None, Some(t)} && s'.mutex in {None, Some(t)}))
    && |s.cells| == |s'.cells|
    && (forall c :: 0 <= c < |s.cells| ==> CellStep(s, s', t, c))
  }

  lemma StoreSteps(cfg: Config, s: State, s': State, t: nat, k: Kind)
    requires Owned(cfg, s) && Effect(cfg, s, s', t, k)
    ensures StoreStep(s, s', t)
  {
    assert TaskOwns(cfg, s, t);
    if k.Looking? { assert CellOwned(s, t); }
  }

  lemma Bystander(cfg: Config, s: State, s': State, t: nat, u: nat)
    requires Owned(cfg, s) && Common(cfg, s, s', t) && StoreStep(s, s', t)
    requires u < |s.tasks| && u != t
    ensures TaskOwns(cfg, s', u)
  {
    assert TaskOwns(cfg, s, u);
    var pc := s.tasks[u].pc;
    assert CellStep(s, s', t, u);
    if CellOf(pc).Some? { assert CellStep(s, s', t, CellOf(pc).value); }
    if VictimOf(pc).Some? { assert CellStep(s, s', t, VictimOf(pc).value); }
  }

  lemma MoverMoves(cfg: Config, s: State, s': State, t: nat, k: Kind)
    requires Owned(cfg, s) && Effect(cfg, s, s', t, k)
    requires k.Plain? || k.Locking? || k.Seeing? || k.Granting? || k.Evicting? || k.Filing?
    ensures TaskOwns(cfg, s', t)
  {
    assert TaskOwns(cfg, s, t);
  }

  lemma MoverDrops(cfg: Config, s: State, s': State, t: nat, k: Kind)
    requires Owned(cfg, s) && Effect(cfg, s, s', t, k)
    requires k.Handing? || k.Dropping? || k.Killing? || k.Uncounting? || k.Freeing?
    ensures TaskOwns(cfg, s', t)
  {
    assert TaskOwns(cfg, s, t);
  }

  lemma MoverPermits(cfg: Config, s: State, s': State, t: nat, k: Kind)
    requires Owned(cfg, s) && Effect(cfg, s, s', t, k)
    requires k.Permitting? || k.Quitting? || k.Storing? || k.Popping?
    ensures TaskOwns(cfg, s', t)
  {
    assert TaskOwns(cfg, s, t);
    if k.Popping? { assert EntryOwned(cfg, s, 0); }
  }

  lemma MoverLooks(cfg: Config, s: State, s': State, t: nat)
    requires Owned(cfg, s) && Effect(cfg, s, s', t, Looking)
    ensures TaskOwns(cfg, s', t)
  {
    assert TaskOwns(cfg, s, t);
    match Find(s.lru, KeyOf(cfg.requests[t]))
    case Some(i) => assert EntryOwned(cfg, s, i);
    case None => if |s.lru| >= cfg.maxFiles { assert EntryOwned(cfg, s, 0); }
  }

  /** The holder of a permit keeps it, except the task that moves. */
  lemma CellsStayOwned(cfg: Config, s: State, s': State, t: nat, c: nat)
    requires Owned(cfg, s) && Common(cfg, s, s', t) && StoreStep(s, s', t) && TaskOwns(cfg, s', t)
    requires c < |s.cells|
    requires s'.cells[c].permit == Some(t) ==> Filling(s'.tasks[t].pc) && CellOf(s'.tasks[t].pc) == Some(c)
    ensures CellOwned(s', c)
  {
    assert CellOwned(s, c) && CellStep(s, s', t, c);
  }

  /** After a step, the permits of the mover are those of its program counter. */
  lemma OwnPermit(cfg: Config, s: State, s': State, t: nat, k: Kind, c: nat)
    requires Owned(cfg, s) && Effect(cfg, s, s', t, k)
    requires c < |s.cells| && s'.cells[c].permit == Some(t)
    ensures Filling(s'.tasks[t].pc) && CellOf(s'.tasks[t].pc) == Some(c)
  {
    assert CellOwned(s, c);
    if !k.Permitting? || c != s.tasks[t].pc.cell {
      PermitBefore(cfg, s, s', t, k, c);
      FillsOn(cfg, s, s', t, k, c);
    }
  }

  lemma PermitBefore(cfg: Config, s: State, s': State, t: nat, k: Kind, c: nat)
    requires Owned(cfg, s) && Effect(cfg, s, s', t, k)
    requires c < |s.cells| && s'.cells[c].permit == Some(t) && (k.Permitting? ==> c != s.tasks[t].pc.cell)
    ensures s.cells[c].permit == Some(t)
    ensures !k.Permitting? && !k.Quitting? && !k.Storing?
  {
    assert CellOwned(s, c) && TaskOwns(cfg, s, t);
  }

  lemma FillsOn(cfg: Config, s: State, s': State, t: nat, k: Kind, c: nat)
    requires Effect(cfg, s, s', t, k) && !k.Permitting? && !k.Quitting? && !k.Storing?
    requires Filling(s.tasks[t].pc) && CellOf(s.tasks[t].pc) == Some(c)
    ensures Filling(s'.tasks[t].pc) && CellOf(s'.tasks[t].pc) == Some(c)
  {
  }

  lemma MapFound(cfg: Config, s: State, s': State, t: nat, i: nat)
    requires Owned(cfg, s) && Effect(cfg, s, s', t, Looking) && Find(s.lru, KeyOf(cfg.requests[t])) == Some(i)
    ensures MapOwned(cfg, s')
  {
    PromoteKeepsDistinct(s.lru, i, s'.lru[|s'.lru| - 1].value);
    forall j | 0 <= j < |s'.lru| ensures EntryOwned(cfg, s', j) {
      assert EntryOwned(cfg, s, if j < i then j else if j < |s.lru| - 1 then j + 1 else i);
    }
  }

  lemma MapNew(cfg: Config, s: State, s': State, t: nat)
    requires Owned(cfg, s) && Effect(cfg, s, s', t, Looking) && Find(s.lru, KeyOf(cfg.requests[t])).None?
    ensures MapOwned(cfg, s')
  {
    InsertKeepsDistinct(s.lru, cfg.maxFiles, Entry(KeyOf(cfg.requests[t]), t));
    forall j | 0 <= j < |s'.lru| ensures EntryOwned(cfg, s', j) {
      if j < |s'.lru| - 1 { assert EntryOwned(cfg, s, if |s.lru| < cfg.maxFiles then j else j + 1); }
    }
  }

  lemma MapLookup(cfg: Config, s: State, s': State, t: nat)
    requires Owned(cfg, s) && Effect(cfg, s, s', t, Looking)
    ensures MapOwned(cfg, s')
  {
    match Find(s.lru, KeyOf(cfg.requests[t]))
    case Some(i) => MapFound(cfg, s, s', t, i);
    case None => MapNew(cfg, s, s', t);
  }

  lemma MapPop(cfg: Config, s: State, s': State, t: nat)
    requires Owned(cfg, s) && Effect(cfg, s, s', t, Popping)
    ensures MapOwned(cfg, s')
  {
    forall i | 0 <= i < |s'.lru| ensures EntryOwned(cfg, s', i) {
      assert EntryOwned(cfg, s, i + 1);
    }
  }

  lemma OwnedNext(cfg: Config, s: State, s': State, t: nat, k: Kind)
    requires Owned(cfg, s) && Effect(cfg, s, s', t, k)
    ensures Owned(cfg, s')
  {
    StoreSteps(cfg, s, s', t, k);
    if k.Looking? {
      MoverLooks(cfg, s, s', t);
      MapLookup(cfg, s, s', t);
    } else if k.Popping? {
      MoverPermits(cfg, s, s', t, k);
      MapPop(cfg, s, s', t);
    } else {
      MapKept(cfg, s, s') by { assert forall c :: 0 <= c < |s.cells| ==> CellStep(s, s', t, c); }
      if k.Permitting? || k.Quitting? || k.Storing? { MoverPermits(cfg, s, s', t, k); }
      else if k.Handing? || k.Dropping? || k.Killing? || k.Uncounting? || k.Freeing? { MoverDrops(cfg, s, s', t, k); }
      else { MoverMoves(cfg, s, s', t, k); }
    }
    OwnedRest(cfg, s, s', t, k);
  }

  lemma OwnedRest(cfg: Config, s: State, s': State, t: nat, k: Kind)
    requires Owned(cfg, s) && Effect(cfg, s, s', t, k)
    requires StoreStep(s, s', t) && TaskOwns(cfg, s', t) && MapOwned(cfg, s')
    ensures Owned(cfg, s')
  {
    forall u | 0 <= u < |s'.tasks| ensures TaskOwns(cfg, s', u) {
      if u != t { Bystander(cfg, s, s', t, u); }
    }
    forall c | 0 <= c < |s'.cells| ensures CellOwned(s', c) {
      if s'.cells[c].permit == Some(t) { OwnPermit(cfg, s, s', t, k, c); }
      CellsStayOwned(cfg, s, s', t, c);
    }
  }

  /** Every reachable state is properly owned. */
  lemma {:induction false} OwnedAlways(cfg: Config, tr: Trace)
    requires Valid(cfg, tr)
    ensures Owned(cfg, Final(cfg, tr))
  {
    match tr
    case Start => OwnedInit(cfg);
    case Then(before, t, a) =>
      OwnedAlways(cfg, before);
      var k := StepEffect(cfg, Final(cfg, before), t, a);
      OwnedNext(cfg, Final(cfg, before), Final(cfg, tr), t, k);
  }
}
