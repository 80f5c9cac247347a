/**
 * What requests are told. Every response carries an answer the upstream gives
 * for the request's own key, and is fresh unless its cell was filled after the
 * request looked it up; each resource is a miss for its creator alone.
 */
module Transparency {
  import opened Options
  import opened Model
  import opened Machine
  import opened Effects
  import opened Notes
  import opened Ownership
  import opened Lifecycle

  /** The request has passed the point where it obtains a resource. */
  ghost predicate Leaving(pc: Pc) {
    pc.Respond? || Ending(pc)
  }

  /** Unexpired for the request's own time, or put into its cell after the request looked. */
  ghost predicate FreshFor(cfg: Config, s: State, t: nat, r: nat)
    requires WellFormed(cfg, s) && t < |s.tasks| && r < |s.resources| && s.resources[r].home < |s.cells|
  {
    || !IsExpired(s.resources[r].expiresAt, cfg.requests[t].now)
    || s.cells[s.resources[r].home].filledAt > s.tasks[t].lookedUpAt
  }

  ghost predicate ServedWell(cfg: Config, s: State, t: nat, r: nat)
    requires WellFormed(cfg, s) && t < |s.tasks|
  {
    && r < |s.resources| && Settled(s.resources[r].phase) && s.resources[r].home < |s.cells|
    && KeyOf(cfg.requests[r]) == KeyOf(cfg.requests[t])
    && s.tasks[t].tally == Some(OutcomeOf(s, t, r))
    && FreshFor(cfg, s, t, r)
  }

  ghost predicate TaskTold(cfg: Config, s: State, t: nat)
    requires Lives(cfg, s) && t < |s.tasks|
  {
    var x := s.tasks[t];
    var key := KeyOf(cfg.requests[t]);
    && (ContentOf(x.pc).Some? ==> cfg.upstream(key, Found(ContentOf(x.pc).value)))
    && (x.response.Served? ==> cfg.upstream(key, Found(x.response.content)))
    && (CellOf(x.pc).Some? ==>
          && x.lookedUpAt < s.clock
          && var v := s.cells[CellOf(x.pc).value].value;
          v.Some? ==> s.resources[v.value].home < |s.cells| && FreshFor(cfg, s, t, v.value))
    && (x.served.Some? ==> Leaving(x.pc) && ServedWell(cfg, s, t, x.served.value))
  }

  ghost predicate ResourceTold(cfg: Config, s: State, r: nat)
    requires Lives(cfg, s) && r < |s.resources|
  {
    var x := s.resources[r];
    var key := KeyOf(cfg.requests[r]);
    && (!x.phase.NotYet? ==>
          && cfg.upstream(key, Found(x.content)) && x.expiresAt == Expiry(cfg.requests[r])
          && x.home < |s.cells| && KeyOf(cfg.requests[x.home]) == key)
    && (Settled(x.phase) ==> s.tasks[r].pc == Classify(x.home) || s.tasks[r].served == Some(r))
  }

  ghost predicate Told(cfg: Config, s: State) {
    && Lives(cfg, s)
    && (forall t :: 0 <= t < |s.tasks| ==> TaskTold(cfg, s, t))
    && (forall r :: 0 <= r < |s.resources| ==> ResourceTold(cfg, s, r))
  }

  lemma ToldInit(cfg: Config)
    requires ValidConfig(cfg)
    ensures Told(cfg, Init(cfg))
  {
    LivesInit(cfg);
  }

  /** What a resource is made of, and when its cell was filled, never changes. */
  ghost predicate Fixed(s: State, s': State, r: nat)
    requires r < |s.resources| == |s'.resources| && |s.cells| == |s'.cells|
  {
    var x, y := s.resources[r], s'.resources[r];
    && (!x.phase.NotYet? ==>
          !y.phase.NotYet? && y.content == x.content && y.expiresAt == x.expiresAt && y.home == x.home)
    && (Settled(x.phase) ==>
          Settled(y.phase) && x.home < |s.cells| && s'.cells[x.home].filledAt == s.cells[x.home].filledAt)
  }

  lemma FilledAtKept(cfg: Config, s: State, s': State, t: nat, k: Kind, r: nat)
    requires Lives(cfg, s) && Effect(cfg, s, s', t, k) && r < |s.resources| && Settled(s.resources[r].phase)
    ensures s.resources[r].home < |s.cells|
    ensures s'.cells[s.resources[r].home].filledAt == s.cells[s.resources[r].home].filledAt
  {
    assert ResourceLives(cfg, s, r) && TaskOwns(cfg, s, t);
  }

  lemma FixedNext(cfg: Config, s: State, s': State, t: nat, k: Kind, r: nat)
    requires Lives(cfg, s) && Effect(cfg, s, s', t, k) && r < |s.resources|
    ensures Fixed(s, s', r)
  {
    if Settled(s.resources[r].phase) { FilledAtKept(cfg, s, s', t, k, r); }
    if Lifeless(k) {
      SamePhases(cfg, s, s', t, k, r);
    } else {
      SubjectMoves(cfg, s, s', t, k);
      if r != Subject(s, t, k) { OthersStay(cfg, s, s', t, k, r); }
    }
  }

  // ----- Resources -----

  lemma ResourceToldNext(cfg: Config, s: State, s': State, t: nat, k: Kind, n: Note, r: nat)
    requires Told(cfg, s) && Effect(cfg, s, s', t, k) && Noted(cfg, s, s', t, n) && r < |s.resources| && Lives(cfg, s')
    ensures ResourceTold(cfg, s', r)
  {
    assert ResourceTold(cfg, s, r);
    FixedNext(cfg, s, s', t, k, r);
    if s.resources[r].phase.NotYet? && !s'.resources[r].phase.NotYet? {
      Granted(cfg, s, s', t, k, r);
    } else if Settled(s'.resources[r].phase) {
      SettledTold(cfg, s, s', t, k, n, r);
    }
  }

  lemma Granted(cfg: Config, s: State, s': State, t: nat, k: Kind, r: nat)
    requires Told(cfg, s) && Effect(cfg, s, s', t, k) && r < |s.resources|
    requires s.resources[r].phase.NotYet? && !s'.resources[r].phase.NotYet?
    ensures var y := s'.resources[r]; var key := KeyOf(cfg.requests[r]);
      && cfg.upstream(key, Found(y.content)) && y.expiresAt == Expiry(cfg.requests[r])
      && y.home < |s.cells| && KeyOf(cfg.requests[y.home]) == key && !Settled(y.phase)
  {
    if Lifeless(k) {
      SamePhases(cfg, s, s', t, k, r);
    } else {
      SubjectMoves(cfg, s, s', t, k);
      if r != Subject(s, t, k) { OthersStay(cfg, s, s', t, k, r); }
    }
    assert TaskTold(cfg, s, t) && TaskOwns(cfg, s, t);
  }

  lemma SettledTold(cfg: Config, s: State, s': State, t: nat, k: Kind, n: Note, r: nat)
    requires Told(cfg, s) && Effect(cfg, s, s', t, k) && Noted(cfg, s, s', t, n) && r < |s.resources|
    requires Settled(s'.resources[r].phase) && !s.resources[r].phase.NotYet?
    ensures s'.tasks[r].pc == Classify(s'.resources[r].home) || s'.tasks[r].served == Some(r)
  {
    assert ResourceTold(cfg, s, r) && ResourceLives(cfg, s, r) && TaskTold(cfg, s, r);
    FixedNext(cfg, s, s', t, k, r);
    if !Settled(s.resources[r].phase) {
      Stores(cfg, s, s', t, k, r);
    }
  }

  lemma Stores(cfg: Config, s: State, s': State, t: nat, k: Kind, r: nat)
    requires Lives(cfg, s) && Effect(cfg, s, s', t, k) && r < |s.resources|
    requires Settled(s'.resources[r].phase) && !Settled(s.resources[r].phase)
    ensures k.Storing? && r == t && s.resources[r].home == s.tasks[t].pc.cell
  {
    if Lifeless(k) {
      SamePhases(cfg, s, s', t, k, r);
    } else {
      SubjectMoves(cfg, s, s', t, k);
      if r != Subject(s, t, k) { OthersStay(cfg, s, s', t, k, r); }
    }
  }

  // ----- Tasks -----

  lemma CellFresh(cfg: Config, s: State, s': State, t: nat, k: Kind, u: nat)
    requires Told(cfg, s) && Effect(cfg, s, s', t, k) && Lives(cfg, s') && u < |s.tasks|
    requires CellOf(s'.tasks[u].pc).Some? && CellOf(s'.tasks[u].pc) == CellOf(s.tasks[u].pc)
    requires s'.tasks[u].lookedUpAt == s.tasks[u].lookedUpAt
    ensures var v := s'.cells[CellOf(s'.tasks[u].pc).value].value;
      v.Some? ==> s'.resources[v.value].home < |s'.cells| && FreshFor(cfg, s', u, v.value)
  {
    var c := CellOf(s.tasks[u].pc).value;
    var v := s'.cells[c].value;
    assert CellLives(s', c);
    if v.Some? {
      assert ResourceLives(cfg, s', v.value);
      if k.Storing? && c == s.tasks[t].pc.cell {
        assert TaskTold(cfg, s, u);
      } else {
        SameOrStored(cfg, s, s', t, k, c);
        StillFresh(cfg, s, s', t, k, u, c);
      }
    }
  }

  lemma StillFresh(cfg: Config, s: State, s': State, t: nat, k: Kind, u: nat, c: nat)
    requires Told(cfg, s) && Effect(cfg, s, s', t, k) && u < |s.tasks| && CellOf(s.tasks[u].pc) == Some(c)
    requires s.cells[c].value.Some? && s'.cells[c].value == s.cells[c].value
    requires s'.tasks[u].lookedUpAt == s.tasks[u].lookedUpAt
    ensures var r := s'.cells[c].value.value; s'.resources[r].home < |s'.cells| && FreshFor(cfg, s', u, r)
  {
    assert TaskTold(cfg, s, u) && CellLives(s, c);
    FixedNext(cfg, s, s', t, k, s.cells[c].value.value);
  }

  lemma SameOrStored(cfg: Config, s: State, s': State, t: nat, k: Kind, c: nat)
    requires Lives(cfg, s) && Effect(cfg, s, s', t, k) && c < |s.cells|
    requires !(k.Storing? && c == s.tasks[t].pc.cell)
    ensures s'.cells[c].value == s.cells[c].value
  {
    if !k.Storing? { SameValues(cfg, s, s', t, k, c); }
  }

  lemma ServedStays(cfg: Config, s: State, s': State, t: nat, k: Kind, u: nat, r: nat)
    requires Told(cfg, s) && Effect(cfg, s, s', t, k) && u < |s.tasks|
    requires s.tasks[u].served == Some(r)
    requires s'.tasks[u].lookedUpAt == s.tasks[u].lookedUpAt && s'.tasks[u].tally == s.tasks[u].tally
    ensures ServedWell(cfg, s', u, r)
  {
    assert TaskTold(cfg, s, u);
    FixedNext(cfg, s, s', t, k, r);
  }

  lemma OtherTold(cfg: Config, s: State, s': State, t: nat, k: Kind, u: nat)
    requires Told(cfg, s) && Effect(cfg, s, s', t, k) && Lives(cfg, s') && u < |s.tasks| && u != t
    ensures TaskTold(cfg, s', u)
  {
    assert TaskTold(cfg, s, u);
    if CellOf(s.tasks[u].pc).Some? { CellFresh(cfg, s, s', t, k, u); }
    if s.tasks[u].served.Some? { ServedStays(cfg, s, s', t, k, u, s.tasks[u].served.value); }
  }

  lemma LookupFresh(cfg: Config, s: State, s': State, t: nat)
    requires Told(cfg, s) && Effect(cfg, s, s', t, Looking) && Lives(cfg, s')
    ensures CellOf(s'.tasks[t].pc).Some?
    ensures var v := s'.cells[CellOf(s'.tasks[t].pc).value].value;
      v.Some? ==> s'.resources[v.value].home < |s'.cells| && FreshFor(cfg, s', t, v.value)
  {
    var c := CellOf(s'.tasks[t].pc).value;
    assert CellLives(s', c);
    if s'.cells[c].value.Some? { assert ResourceLives(cfg, s', s'.cells[c].value.value); }
  }

  lemma MoverResponds(cfg: Config, s: State, s': State, t: nat, n: Note)
    requires Told(cfg, s) && Noted(cfg, s, s', t, n)
    ensures s'.tasks[t].response.Served? ==> cfg.upstream(KeyOf(cfg.requests[t]), Found(s'.tasks[t].response.content))
  {
    assert TaskTold(cfg, s, t) && TaskOwns(cfg, s, t);
    var p := s.tasks[t].pc;
    if p.Respond? && s.cells[p.cell].value.Some? {
      assert CellLives(s, p.cell) && ResourceTold(cfg, s, s.cells[p.cell].value.value);
    }
  }

  lemma MoverServed(cfg: Config, s: State, s': State, t: nat, k: Kind, n: Note)
    requires Told(cfg, s) && Effect(cfg, s, s', t, k) && Noted(cfg, s, s', t, n) && Lives(cfg, s')
    ensures s'.tasks[t].served.Some? ==> Leaving(s'.tasks[t].pc) && ServedWell(cfg, s', t, s'.tasks[t].served.value)
  {
    assert TaskTold(cfg, s, t);
    if n.Obtains? {
      NewlyServed(cfg, s, s', t, k, n);
    } else if s.tasks[t].served.Some? {
      LeavingStays(cfg, s, s', t, k);
      ServedStays(cfg, s, s', t, k, t, s.tasks[t].served.value);
    }
  }

  lemma LeavingStays(cfg: Config, s: State, s': State, t: nat, k: Kind)
    requires Told(cfg, s) && Effect(cfg, s, s', t, k) && Leaving(s.tasks[t].pc)
    ensures Leaving(s'.tasks[t].pc) && !k.Looking? && !s.tasks[t].pc.Idle? && !s.tasks[t].pc.FetchBody?
  {
  }

  lemma NewlyServed(cfg: Config, s: State, s': State, t: nat, k: Kind, n: Note)
    requires Told(cfg, s) && Effect(cfg, s, s', t, k) && Noted(cfg, s, s', t, n) && n.Obtains?
    ensures s'.tasks[t].pc.Respond? && s'.tasks[t].served == Some(n.resource)
    ensures ServedWell(cfg, s', t, n.resource)
  {
    var c := s.tasks[t].pc.cell;
    var r := n.resource;
    assert TaskTold(cfg, s, t) && TaskOwns(cfg, s, t) && CellLives(s, c) && ResourceTold(cfg, s, r);
    FixedNext(cfg, s, s', t, k, r);
  }

  lemma MoverTold(cfg: Config, s: State, s': State, t: nat, k: Kind, n: Note)
    requires Told(cfg, s) && Effect(cfg, s, s', t, k) && Noted(cfg, s, s', t, n) && Lives(cfg, s')
    ensures TaskTold(cfg, s', t)
  {
    assert TaskTold(cfg, s, t);
    MoverResponds(cfg, s, s', t, n);
    MoverServed(cfg, s, s', t, k, n);
    var q := s'.tasks[t].pc;
    if k.Looking? {
      LookupFresh(cfg, s, s', t);
    } else if CellOf(q).Some? {
      CellKept(cfg, s, s', t, k);
      CellFresh(cfg, s, s', t, k, t);
    }
  }

  lemma CellKept(cfg: Config, s: State, s': State, t: nat, k: Kind)
    requires Effect(cfg, s, s', t, k) && !k.Looking? && CellOf(s'.tasks[t].pc).Some?
    ensures CellOf(s.tasks[t].pc) == CellOf(s'.tasks[t].pc)
  {
  }

  lemma ToldNext(cfg: Config, s: State, s': State, t: nat, k: Kind, n: Note)
    requires Told(cfg, s) && Effect(cfg, s, s', t, k) && Noted(cfg, s, s', t, n)
    ensures Told(cfg, s')
  {
    LivesNext(cfg, s, s', t, k);
    forall u | 0 <= u < |s'.tasks| ensures TaskTold(cfg, s', u) {
      if u == t { MoverTold(cfg, s, s', t, k, n); } else { OtherTold(cfg, s, s', t, k, u); }
    }
    forall r | 0 <= r < |s'.resources| ensures ResourceTold(cfg, s', r) {
      ResourceToldNext(cfg, s, s', t, k, n, r);
    }
  }

  lemma {:induction false} ToldAlways(cfg: Config, tr: Trace)
    requires Valid(cfg, tr)
    ensures Told(cfg, Final(cfg, tr))
  {
    match tr
    case Start => ToldInit(cfg);
    case Then(before, t, a) =>
      ToldAlways(cfg, before);
      var k := StepEffect(cfg, Final(cfg, before), t, a);
      var n := StepNote(cfg, Final(cfg, before), t, a);
      ToldNext(cfg, Final(cfg, before), Final(cfg, tr), t, k, n);
  }

  // ----- What it means -----

  /**
   * Transparency: if each key has one content upstream, every response with a
   * body carries exactly that content, whatever was evicted, expired, replaced,
   * or fetched by others, and never the content of another host key or path.
   */
  lemma SameAsUpstream(cfg: Config, tr: Trace, s: State, t: nat, direct: Key -> Answer)
    requires Reaches(cfg, tr, s) && t < |cfg.requests|
    requires forall key, c :: cfg.upstream(key, Found(c)) ==> direct(key) == Found(c)
    requires s.tasks[t].response.Served?
    ensures direct(Key(cfg.requests[t].host, cfg.requests[t].path)) == Found(s.tasks[t].response.content)
  {
    ToldAlways(cfg, tr);
    assert TaskTold(cfg, s, t);
  }

  /**
   * Freshness: a resource obtained from a cell was either fetched less than its
   * maximum age before the request's own time, or put into the cell after the
   * request looked; and its creator asked for the same key.
   */
  lemma Freshness(cfg: Config, tr: Trace, s: State, t: nat, r: nat)
    requires Reaches(cfg, tr, s) && t < |cfg.requests| && s.tasks[t].served == Some(r)
    ensures r < |cfg.requests| && s.resources[r].home < |cfg.requests|
    ensures cfg.requests[r].host == cfg.requests[t].host && cfg.requests[r].path == cfg.requests[t].path
    ensures
      || (forall age :: cfg.requests[r].rule == Enabled(CacheFor(age)) ==> cfg.requests[t].now < cfg.requests[r].now + age)
      || s.cells[s.resources[r].home].filledAt > s.tasks[t].lookedUpAt
  {
    ToldAlways(cfg, tr);
    FreshWhenServed(cfg, s, t, r);
  }

  lemma FreshWhenServed(cfg: Config, s: State, t: nat, r: nat)
    requires Told(cfg, s) && t < |s.tasks| && s.tasks[t].served == Some(r)
    ensures r < |s.resources| && s.resources[r].home < |s.cells|
    ensures cfg.requests[r].host == cfg.requests[t].host && cfg.requests[r].path == cfg.requests[t].path
    ensures
      || (forall age :: cfg.requests[r].rule == Enabled(CacheFor(age)) ==> cfg.requests[t].now < cfg.requests[r].now + age)
      || s.cells[s.resources[r].home].filledAt > s.tasks[t].lookedUpAt
  {
    assert TaskTold(cfg, s, t) && ResourceTold(cfg, s, r);
  }

  /**
   * One miss per resource: the request that obtains a resource is counted as a
   * miss if it created the resource itself, and as a hit otherwise.
   */
  lemma MissIffCreator(cfg: Config, tr: Trace, s: State, t: nat, r: nat)
    requires Reaches(cfg, tr, s) && t < |cfg.requests| && s.tasks[t].served == Some(r)
    ensures s.tasks[t].tally.Some?
    ensures s.tasks[t].tally.value.Miss? <==> r == t
    ensures s.tasks[t].tally.value.Hit? <==> r != t
  {
    ToldAlways(cfg, tr);
    assert TaskTold(cfg, s, t);
  }

  /**
   * Each resource ever put into a cell is the one miss of its creator, even once
   * it is gone; unless the creator is just about to count it.
   */
  lemma EveryResourceIsAMiss(cfg: Config, tr: Trace, s: State, r: nat)
    requires Reaches(cfg, tr, s) && r < |cfg.requests| && Settled(s.resources[r].phase)
    ensures
      || (s.tasks[r].served == Some(r) && s.tasks[r].tally == Some(Miss(|s.resources[r].content.body|)))
      || s.tasks[r].pc == Classify(s.resources[r].home)
    ensures Quiescent(s) ==> s.tasks[r].served == Some(r)
  {
    ToldAlways(cfg, tr);
    assert ResourceTold(cfg, s, r) && TaskTold(cfg, s, r);
  }

  /** Single flight: a cell has at most one initialiser at a time, and none once it is filled. */
  lemma OneInitialiser(cfg: Config, tr: Trace, s: State, t: nat, u: nat)
    requires Reaches(cfg, tr, s) && t < |cfg.requests| && u < |cfg.requests|
    requires Filling(s.tasks[t].pc) && Filling(s.tasks[u].pc)
    requires CellOf(s.tasks[t].pc) == CellOf(s.tasks[u].pc)
    ensures t == u && s.cells[CellOf(s.tasks[t].pc).value].value.None?
  {
    OwnedAlways(cfg, tr);
    assert TaskOwns(cfg, s, t) && TaskOwns(cfg, s, u);
  }

  /** Write once: what a cell holds, it holds in every continuation of the run. */
  lemma WriteOnce(cfg: Config, tr: Trace, s: State, tr0: Trace, s0: State, c: nat)
    requires Reaches(cfg, tr, s) && Reaches(cfg, tr0, s0) && Extends(tr, tr0)
    requires c < |cfg.requests| && s0.cells[c].value.Some?
    ensures s.cells[c] == s0.cells[c]
  {
    KeptSince(cfg, tr, tr0, c);
  }

  lemma {:induction false} KeptSince(cfg: Config, tr: Trace, tr0: Trace, c: nat)
    requires Valid(cfg, tr) && Extends(tr, tr0) && Valid(cfg, tr0)
    requires c < |cfg.requests| && Final(cfg, tr0).cells[c].value.Some?
    ensures Final(cfg, tr).cells[c] == Final(cfg, tr0).cells[c]
  {
    if tr != tr0 {
      KeptSince(cfg, tr.before, tr0, c);
      var s := Final(cfg, tr.before);
      OwnedAlways(cfg, tr.before);
      var k := StepEffect(cfg, s, tr.task, tr.action);
      FilledKept(cfg, s, Final(cfg, tr), tr.task, k, c);
    }
  }

  lemma FilledKept(cfg: Config, s: State, s': State, t: nat, k: Kind, c: nat)
    requires Owned(cfg, s) && Effect(cfg, s, s', t, k) && c < |s.cells| && s.cells[c].value.Some?
    ensures s'.cells[c] == s.cells[c]
  {
    assert TaskOwns(cfg, s, t) && CellOwned(s, c);
  }
}
