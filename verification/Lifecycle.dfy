/**
 * The life of a resource: in every reachable state it belongs to the request
 * that creates it until that request puts it into its cell, it stays there as
 * long as anything refers to the cell, and exactly one request destroys it.
 */
module Lifecycle {
  import opened Options
  import opened Model
  import opened Recency
  import opened Machine
  import opened Effects
  import opened Ownership

  ghost predicate Settled(p: Phase) {
    p.Stored? || p.Dying? || p.Returning? || p.Freed?
  }

  ghost predicate ResourceLives(cfg: Config, s: State, r: nat)
    requires WellFormed(cfg, s) && r < |s.resources|
  {
    var x, pc := s.resources[r], s.tasks[r].pc;
    && (x.phase.Held? <==> Holding(pc))
    && (x.phase.Counted? <==> pc.Fill?)
    && (x.phase.Held? || x.phase.Counted? ==> CellOf(pc) == Some(x.home))
    && (Before(pc) ==> x.phase.NotYet?)
    && (!x.phase.NotYet? ==> x.home < |s.cells| && s.cells[x.home].created)
    && (Settled(x.phase) ==>
          && s.cells[x.home].value == Some(r)
          && (x.phase.Stored? <==> Referenced(s, x.home)))
    && (x.phase.Dying? ==> x.phase.task < |s.tasks| && RoleOf(s.tasks[x.phase.task].pc).destroys == Some(r))
    && (x.phase.Returning? ==> x.phase.task < |s.tasks| && RoleOf(s.tasks[x.phase.task].pc).restores == Some(r))
  }

  ghost predicate CellLives(s: State, c: nat)
    requires c < |s.cells|
  {
    var v := s.cells[c].value;
    v.Some? ==> v.value < |s.resources| && Settled(s.resources[v.value].phase) && s.resources[v.value].home == c
  }

  ghost predicate TaskDestroys(s: State, t: nat)
    requires t < |s.tasks|
  {
    var role := RoleOf(s.tasks[t].pc);
    && (role.destroys.Some? ==> role.destroys.value < |s.resources| && s.resources[role.destroys.value].phase == Dying(t))
    && (role.restores.Some? ==> role.restores.value < |s.resources| && s.resources[role.restores.value].phase == Returning(t))
  }

  ghost predicate Lives(cfg: Config, s: State)
  {
    && Owned(cfg, s)
    && (forall r :: 0 <= r < |s.resources| ==> ResourceLives(cfg, s, r))
    && (forall c :: 0 <= c < |s.cells| ==> CellLives(s, c))
    && (forall t :: 0 <= t < |s.tasks| ==> TaskDestroys(s, t))
  }

  lemma LivesInit(cfg: Config)
    requires ValidConfig(cfg)
    ensures Lives(cfg, Init(cfg))
  {
    OwnedInit(cfg);
  }

  // ----- References -----

  lemma HolderRefers(s: State, t: nat, c: nat)
    requires t < |s.tasks| && HoldsRef(s.tasks[t].pc, c)
    ensures Referenced(s, c)
  {
  }

  lemma RefsSame(s: State, s': State, t: nat, c: nat)
    requires |s'.tasks| == |s.tasks| && t < |s.tasks|
    requires forall u :: 0 <= u < |s.tasks| && u != t ==> s'.tasks[u] == s.tasks[u]
    requires Mapped(s'.lru, c) == Mapped(s.lru, c)
    requires HoldsRef(s'.tasks[t].pc, c) == HoldsRef(s.tasks[t].pc, c)
    ensures Referenced(s', c) == Referenced(s, c)
  {
    if Referenced(s, c) && !Mapped(s.lru, c) {
      var u :| 0 <= u < |s.tasks| && HoldsRef(s.tasks[u].pc, c);
      HolderRefers(s', u, c);
    }
    if Referenced(s', c) && !Mapped(s'.lru, c) {
      var u :| 0 <= u < |s'.tasks| && HoldsRef(s'.tasks[u].pc, c);
      HolderRefers(s, u, c);
    }
  }

  lemma RefsKept(cfg: Config, s: State, s': State, t: nat, k: Kind, c: nat)
    requires Effect(cfg, s, s', t, k)
    requires !k.Looking? && !k.Popping? && !k.Dropping? && !k.Killing?
    ensures Referenced(s', c) == Referenced(s, c)
  {
    RefsSame(s, s', t, c);
  }

  lemma RefsPop(cfg: Config, s: State, s': State, t: nat, c: nat)
    requires Effect(cfg, s, s', t, Popping)
    ensures Referenced(s', c) == Referenced(s, c)
  {
    var v := s.lru[0].value;
    if c == v {
      HolderRefers(s', t, c);
      assert Mapped(s.lru, c);
    } else {
      if Mapped(s.lru, c) {
        var i :| 0 <= i < |s.lru| && s.lru[i].value == c;
        assert s'.lru[i - 1].value == c;
      }
      if Mapped(s'.lru, c) {
        var i :| 0 <= i < |s'.lru| && s'.lru[i].value == c;
        assert s.lru[i + 1].value == c;
      }
      RefsSame(s, s', t, c);
    }
  }

  lemma RefsDrop(cfg: Config, s: State, s': State, t: nat, k: Kind, c: nat)
    requires Effect(cfg, s, s', t, k) && (k.Dropping? || k.Killing?)
    requires c < |s.cells| && s.cells[c].value.Some?
    ensures Referenced(s, c) && k.Killing? && c == s.tasks[t].pc.target ==> !Referenced(s', c)
    ensures !(k.Killing? && c == s.tasks[t].pc.target) ==> Referenced(s', c) == Referenced(s, c)
  {
    var p := s.tasks[t].pc;
    if c == p.target {
      HolderRefers(s, t, c);
    } else {
      RefsSame(s, s', t, c);
    }
  }

  lemma MappedPromote(lru: seq<Entry<Key, nat>>, i: nat, v: nat, c: nat)
    requires i < |lru|
    ensures Mapped(lru, c) && c != lru[i].value ==> Mapped(Promote(lru, i, v), c)
    ensures Mapped(Promote(lru, i, v), c) && c != v ==> Mapped(lru, c)
    ensures Mapped(Promote(lru, i, v), v)
  {
    var r := Promote(lru, i, v);
    assert r[|r| - 1].value == v;
    if Mapped(lru, c) && c != lru[i].value {
      var j :| 0 <= j < |lru| && lru[j].value == c;
      assert r[if j < i then j else j - 1].value == c;
    }
    if Mapped(r, c) && c != v {
      var j :| 0 <= j < |r| && r[j].value == c;
      assert lru[if j < i then j else j + 1].value == c;
    }
  }

  lemma MappedInsert(lru: seq<Entry<Key, nat>>, limit: nat, e: Entry<Key, nat>, c: nat)
    requires 1 <= limit
    ensures Mapped(lru, c) ==> Mapped(Insert(lru, limit, e), c) || (|lru| >= limit && c == lru[0].value)
    ensures Mapped(Insert(lru, limit, e), c) && c != e.value ==> Mapped(lru, c)
    ensures Mapped(Insert(lru, limit, e), e.value)
  {
    var r := Insert(lru, limit, e);
    assert r[|r| - 1].value == e.value;
    var d := if |lru| < limit then 0 else 1;
    if Mapped(lru, c) {
      var j :| 0 <= j < |lru| && lru[j].value == c;
      if d <= j { assert r[j - d].value == c; }
    }
    if Mapped(r, c) && c != e.value {
      var j :| 0 <= j < |r| && r[j].value == c;
      assert lru[j + d].value == c;
    }
  }

  /** A lookup changes no reference, except to the cell it may create. */
  lemma RefsLookup(cfg: Config, s: State, s': State, t: nat, c: nat)
    requires Effect(cfg, s, s', t, Looking) && c != t
    ensures Referenced(s', c) == Referenced(s, c)
  {
    var key := KeyOf(cfg.requests[t]);
    match Find(s.lru, key)
    case Some(i) =>
      MappedPromote(s.lru, i, s'.lru[|s'.lru| - 1].value, c);
      assert Mapped(s.lru, s.lru[i].value);
      if c == s.lru[i].value { HolderRefers(s', t, c); } else { RefsSame(s, s', t, c); }
    case None =>
      MappedInsert(s.lru, cfg.maxFiles, Entry(key, t), c);
      if |s.lru| >= cfg.maxFiles && c == s.lru[0].value {
        HolderRefers(s', t, c);
        assert Mapped(s.lru, c);
      } else {
        RefsSame(s, s', t, c);
      }
  }

  /** References to filled cells change only when the last one is dropped. */
  lemma RefStep(cfg: Config, s: State, s': State, t: nat, k: Kind, c: nat)
    requires Effect(cfg, s, s', t, k) && c < |s.cells| && s.cells[c].value.Some? && (k.Looking? ==> c != t)
    ensures k.Killing? && c == s.tasks[t].pc.target ==> Referenced(s, c) && !Referenced(s', c)
    ensures !(k.Killing? && c == s.tasks[t].pc.target) ==> Referenced(s', c) == Referenced(s, c)
  {
    if k.Looking? { RefsLookup(cfg, s, s', t, c); }
    else if k.Popping? { RefsPop(cfg, s, s', t, c); }
    else if k.Dropping? || k.Killing? {
      RefsDrop(cfg, s, s', t, k, c);
      if c == s.tasks[t].pc.target { HolderRefers(s, t, c); }
    }
    else { RefsKept(cfg, s, s', t, k, c); }
  }

  // ----- Preservation -----

  /** Kinds of steps that change no resource's phase. */
  ghost predicate Lifeless(k: Kind) {
    !k.Granting? && !k.Filing? && !k.Storing? && !k.Killing? && !k.Uncounting? && !k.Freeing?
  }

  lemma SamePhases(cfg: Config, s: State, s': State, t: nat, k: Kind, r: nat)
    requires Lives(cfg, s) && Effect(cfg, s, s', t, k) && Lifeless(k) && r < |s.resources|
    ensures s'.resources[r].phase == s.resources[r].phase && s'.resources[r].home == s.resources[r].home
    ensures s'.resources[r].content == s.resources[r].content && s'.resources[r].reserved == s.resources[r].reserved
    ensures s'.resources[r].expiresAt == s.resources[r].expiresAt
  {
  }

  lemma SameValues(cfg: Config, s: State, s': State, t: nat, k: Kind, c: nat)
    requires Lives(cfg, s) && Effect(cfg, s, s', t, k) && !k.Storing? && c < |s.cells|
    ensures s'.cells[c].value == s.cells[c].value
    ensures s.cells[c].created ==> s'.cells[c].created
  {
    if k.Looking? {
      assert TaskOwns(cfg, s, t) && CellOwned(s, t);
    }
  }

  /** The role of the mover in the life of resources is unchanged by a lifeless step. */
  lemma LifelessRole(cfg: Config, s: State, s': State, t: nat, k: Kind)
    requires Lives(cfg, s) && Effect(cfg, s, s', t, k) && Lifeless(k)
    ensures var p, q := s.tasks[t].pc, s'.tasks[t].pc;
      && Holding(q) == Holding(p) && q.Fill? == p.Fill?
      && RoleOf(q).destroys == RoleOf(p).destroys && RoleOf(q).restores == RoleOf(p).restores
      && (Holding(p) || p.Fill? ==> CellOf(q) == CellOf(p))
  {
  }

  lemma LifelessResource(cfg: Config, s: State, s': State, t: nat, k: Kind, r: nat)
    requires Lives(cfg, s) && Effect(cfg, s, s', t, k) && Lifeless(k) && r < |s.resources|
    ensures ResourceLives(cfg, s', r)
  {
    assert ResourceLives(cfg, s, r);
    assert TaskOwns(cfg, s, t);
    var x := s.resources[r];
    SamePhases(cfg, s, s', t, k, r);
    LifelessRole(cfg, s, s', t, k);
    if !x.phase.NotYet? { SameValues(cfg, s, s', t, k, x.home); }
    if Settled(x.phase) {
      RefStep(cfg, s, s', t, k, x.home);
    }
  }

  lemma LifelessNext(cfg: Config, s: State, s': State, t: nat, k: Kind)
    requires Lives(cfg, s) && Effect(cfg, s, s', t, k) && Lifeless(k)
    ensures Lives(cfg, s')
  {
    OwnedNext(cfg, s, s', t, k);
    forall r | 0 <= r < |s'.resources| ensures ResourceLives(cfg, s', r) {
      LifelessResource(cfg, s, s', t, k, r);
    }
    forall c | 0 <= c < |s'.cells| ensures CellLives(s', c) {
      assert CellLives(s, c);
      SameValues(cfg, s, s', t, k, c);
      if s.cells[c].value.Some? { SamePhases(cfg, s, s', t, k, s.cells[c].value.value); }
    }
    LifelessRole(cfg, s, s', t, k);
    forall u | 0 <= u < |s'.tasks| ensures TaskDestroys(s', u) {
      assert TaskDestroys(s, u);
      var role := RoleOf(s.tasks[u].pc);
      if role.destroys.Some? { SamePhases(cfg, s, s', t, k, role.destroys.value); }
      if role.restores.Some? { SamePhases(cfg, s, s', t, k, role.restores.value); }
    }
  }

  /** The resource that a step moves along its life. */
  ghost function Subject(s: State, t: nat, k: Kind): nat
    requires t < |s.tasks|
  {
    var pc := s.tasks[t].pc;
    if k.Killing? && pc.DropRef? && pc.target < |s.cells| && s.cells[pc.target].value.Some? then s.cells[pc.target].value.value
    else if pc.Destroy? || pc.Return? then pc.resource
    else t
  }

  /** The subject keeps its identity and moves to the next phase of its life. */
  lemma SubjectMoves(cfg: Config, s: State, s': State, t: nat, k: Kind)
    requires Lives(cfg, s) && Effect(cfg, s, s', t, k) && !Lifeless(k)
    ensures Subject(s, t, k) < |s.resources|
    ensures var x, y := s.resources[Subject(s, t, k)], s'.resources[Subject(s, t, k)];
      && (!k.Granting? ==> y.home == x.home && y.content == x.content && y.expiresAt == x.expiresAt && y.evicted == x.evicted)
      && (!k.Granting? && !k.Freeing? ==> y.reserved == x.reserved)
      && (k.Granting? ==> x.phase == NotYet && y.phase == Held)
      && (k.Filing? ==> x.phase == Held && y.phase == Counted)
      && (k.Storing? ==> x.phase == Counted && y.phase == Stored && x.home == s.tasks[t].pc.cell)
      && (k.Killing? ==> x.phase == Stored && y.phase == Dying(t) && x.home == s.tasks[t].pc.target)
      && (k.Uncounting? ==> x.phase == Dying(t) && y.phase == Returning(t))
      && (k.Freeing? ==> x.phase == Returning(t) && y.phase == Freed)
  {
    var pc := s.tasks[t].pc;
    assert ResourceLives(cfg, s, t) && TaskDestroys(s, t);
    if k.Killing? {
      assert CellLives(s, pc.target);
      assert ResourceLives(cfg, s, s.cells[pc.target].value.value);
      HolderRefers(s, t, pc.target);
    }
  }

  lemma OthersStay(cfg: Config, s: State, s': State, t: nat, k: Kind, r: nat)
    requires Lives(cfg, s) && Effect(cfg, s, s', t, k) && !Lifeless(k)
    requires r < |s.resources| && r != Subject(s, t, k)
    ensures s'.resources[r] == s.resources[r]
  {
  }

  /** The life of the subject goes on. */
  lemma SubjectGrows(cfg: Config, s: State, s': State, t: nat, k: Kind)
    requires Lives(cfg, s) && Effect(cfg, s, s', t, k)
    requires k.Granting? || k.Filing? || k.Storing?
    ensures ResourceLives(cfg, s', t)
  {
    if k.Storing? { SubjectStored(cfg, s, s', t); } else { SubjectMade(cfg, s, s', t, k); }
  }

  lemma SubjectMade(cfg: Config, s: State, s': State, t: nat, k: Kind)
    requires Lives(cfg, s) && Effect(cfg, s, s', t, k) && (k.Granting? || k.Filing?)
    ensures ResourceLives(cfg, s', t)
  {
    SubjectMoves(cfg, s, s', t, k);
    assert ResourceLives(cfg, s, t) && TaskOwns(cfg, s, t);
  }

  lemma SubjectStored(cfg: Config, s: State, s': State, t: nat)
    requires Lives(cfg, s) && Effect(cfg, s, s', t, Storing)
    ensures ResourceLives(cfg, s', t)
  {
    SubjectMoves(cfg, s, s', t, Storing);
    assert ResourceLives(cfg, s, t) && TaskOwns(cfg, s, t);
    HolderRefers(s', t, s.tasks[t].pc.cell);
  }

  lemma SubjectDies(cfg: Config, s: State, s': State, t: nat, k: Kind)
    requires Lives(cfg, s) && Effect(cfg, s, s', t, k)
    requires k.Killing? || k.Uncounting? || k.Freeing?
    ensures ResourceLives(cfg, s', Subject(s, t, k))
  {
    var r := Subject(s, t, k);
    SubjectMoves(cfg, s, s', t, k);
    assert ResourceLives(cfg, s, r);
    RefStep(cfg, s, s', t, k, s.resources[r].home);
  }

  /** The cells of settled resources keep their values and references. */
  lemma OthersKept(cfg: Config, s: State, s': State, t: nat, k: Kind, r: nat)
    requires Lives(cfg, s) && Effect(cfg, s, s', t, k) && !Lifeless(k)
    requires r < |s.resources| && r != Subject(s, t, k) && !s.resources[r].phase.NotYet?
    ensures var h := s.resources[r].home;
      && h < |s.cells| && s'.cells[h].created
      && (Settled(s.resources[r].phase) ==> s'.cells[h].value == Some(r) && Referenced(s', h) == Referenced(s, h))
  {
    assert ResourceLives(cfg, s, r) && TaskOwns(cfg, s, t);
    var x := s.resources[r];
    SubjectMoves(cfg, s, s', t, k);
    if !k.Storing? { SameValues(cfg, s, s', t, k, x.home); }
    if Settled(x.phase) { RefStep(cfg, s, s', t, k, x.home); }
  }

  lemma OthersLive(cfg: Config, s: State, s': State, t: nat, k: Kind, r: nat)
    requires Lives(cfg, s) && Effect(cfg, s, s', t, k) && !Lifeless(k)
    requires r < |s.resources| && r != Subject(s, t, k)
    ensures ResourceLives(cfg, s', r)
  {
    OthersStay(cfg, s, s', t, k, r);
    if !s.resources[r].phase.NotYet? { assert ResourceLives(cfg, s, r); OthersKept(cfg, s, s', t, k, r); }
    if r == t { MoverStays(cfg, s, s', t, k); } else { OtherStays(cfg, s, s', t, k, r); }
  }

  /** The resource is as it was, and so are its cell and the references to it. */
  ghost predicate Untouched(s: State, s': State, r: nat)
    requires r < |s.resources|
  {
    && r < |s'.resources| && s'.resources[r] == s.resources[r]
    && var x := s.resources[r];
    !x.phase.NotYet? ==>
      && x.home < |s.cells| && x.home < |s'.cells| && s'.cells[x.home].created
      && (Settled(x.phase) ==> s'.cells[x.home].value == Some(r) && Referenced(s', x.home) == Referenced(s, x.home))
  }

  lemma MoverStays(cfg: Config, s: State, s': State, t: nat, k: Kind)
    requires Lives(cfg, s) && Effect(cfg, s, s', t, k) && !Lifeless(k)
    requires Untouched(s, s', t) && t != Subject(s, t, k)
    ensures ResourceLives(cfg, s', t)
  {
    assert ResourceLives(cfg, s, t) && TaskDestroys(s, t);
  }

  lemma OtherStays(cfg: Config, s: State, s': State, t: nat, k: Kind, r: nat)
    requires Lives(cfg, s) && Effect(cfg, s, s', t, k) && !Lifeless(k)
    requires r < |s.resources| && Untouched(s, s', r) && r != t && r != Subject(s, t, k)
    ensures ResourceLives(cfg, s', r)
  {
    assert ResourceLives(cfg, s, r) && TaskDestroys(s, t);
  }

  lemma LivingNext(cfg: Config, s: State, s': State, t: nat, k: Kind)
    requires Lives(cfg, s) && Effect(cfg, s, s', t, k) && !Lifeless(k)
    ensures Lives(cfg, s')
  {
    OwnedNext(cfg, s, s', t, k);
    SubjectMoves(cfg, s, s', t, k);
    var r0 := Subject(s, t, k);
    forall r | 0 <= r < |s'.resources| ensures ResourceLives(cfg, s', r) {
      if r != r0 { OthersLive(cfg, s, s', t, k, r); }
      else if k.Granting? || k.Filing? || k.Storing? { SubjectGrows(cfg, s, s', t, k); }
      else { SubjectDies(cfg, s, s', t, k); }
    }
    forall c | 0 <= c < |s'.cells| ensures CellLives(s', c) {
      LivingCell(cfg, s, s', t, k, c);
    }
    forall u | 0 <= u < |s'.tasks| ensures TaskDestroys(s', u) {
      LivingTask(cfg, s, s', t, k, u);
    }
  }

  lemma LivingCell(cfg: Config, s: State, s': State, t: nat, k: Kind, c: nat)
    requires Lives(cfg, s) && Effect(cfg, s, s', t, k) && !Lifeless(k) && c < |s.cells|
    ensures CellLives(s', c)
  {
    assert CellLives(s, c);
    SubjectMoves(cfg, s, s', t, k);
    if k.Storing? && c == s.tasks[t].pc.cell {
    } else if s.cells[c].value.Some? && s.cells[c].value.value != Subject(s, t, k) {
      OthersStay(cfg, s, s', t, k, s.cells[c].value.value);
    }
  }

  lemma LivingTask(cfg: Config, s: State, s': State, t: nat, k: Kind, u: nat)
    requires Lives(cfg, s) && Effect(cfg, s, s', t, k) && !Lifeless(k) && u < |s.tasks|
    ensures TaskDestroys(s', u)
  {
    if u == t { LivingMover(cfg, s, s', t, k); } else { LivingOther(cfg, s, s', t, k, u); }
  }

  lemma LivingMover(cfg: Config, s: State, s': State, t: nat, k: Kind)
    requires Lives(cfg, s) && Effect(cfg, s, s', t, k) && !Lifeless(k)
    ensures TaskDestroys(s', t)
  {
    assert TaskDestroys(s, t);
    SubjectMoves(cfg, s, s', t, k);
  }

  lemma LivingOther(cfg: Config, s: State, s': State, t: nat, k: Kind, u: nat)
    requires Lives(cfg, s) && Effect(cfg, s, s', t, k) && !Lifeless(k) && u < |s.tasks| && u != t
    ensures TaskDestroys(s', u)
  {
    assert TaskDestroys(s, u);
    SubjectMoves(cfg, s, s', t, k);
    var role := RoleOf(s.tasks[u].pc);
    if role.destroys.Some? { OthersStay(cfg, s, s', t, k, role.destroys.value); }
    if role.restores.Some? { OthersStay(cfg, s, s', t, k, role.restores.value); }
  }

  lemma LivesNext(cfg: Config, s: State, s': State, t: nat, k: Kind)
    requires Lives(cfg, s) && Effect(cfg, s, s', t, k)
    ensures Lives(cfg, s')
  {
    if Lifeless(k) { LifelessNext(cfg, s, s', t, k); } else { LivingNext(cfg, s, s', t, k); }
  }

  lemma {:induction false} LivesAlways(cfg: Config, tr: Trace)
    requires Valid(cfg, tr)
    ensures Lives(cfg, Final(cfg, tr))
  {
    match tr
    case Start => LivesInit(cfg);
    case Then(before, t, a) =>
      LivesAlways(cfg, before);
      var k := StepEffect(cfg, Final(cfg, before), t, a);
      LivesNext(cfg, Final(cfg, before), Final(cfg, tr), t, k);
  }
}
