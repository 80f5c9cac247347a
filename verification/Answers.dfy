/**
 * Counting is right. Each request is tallied under exactly the class that its
 * rule, the resource it obtained and the answer it was given call for, at every
 * moment; and it is answered exactly when it starts to clean up.
 */
module Answers {
  import opened Options
  import opened Model
  import opened Machine
  import opened Effects
  import opened Notes
  import opened Lifecycle
  import opened Transparency

  /** The class a request deserves, found without looking at its tally. */
  ghost function Deserved(cfg: Config, s: State, t: nat): Option<Class>
    requires t < |s.tasks| && t < |cfg.requests|
  {
    var x, rule := s.tasks[t], cfg.requests[t].rule;
    if x.pc.Idle? then None
    else if rule.Disabled? then Some(Unrouted)
    else if rule.maxAge.CacheNever? then Some(Never)
    else if x.served.Some? && x.served.value < |s.resources| then
      var bytes := |s.resources[x.served.value].content.body|;
      Some(if x.served.value == t then Miss(bytes) else Hit(bytes))
    else if x.response.Absent? then Some(Missing)
    else if x.response.Errored? then Some(Error)
    else None
  }

  /** What a request is answered fits its rule and what it obtained. */
  ghost predicate Fits(cfg: Config, s: State, t: nat)
    requires t < |s.tasks| && t < |cfg.requests|
  {
    var x, rule := s.tasks[t], cfg.requests[t].rule;
    && (x.response.Absent? ==> x.served.None?)
    && (rule.Disabled? && !x.pc.Idle? ==> x.response.Absent?)
    && (x.served.Some? ==> x.served.value < |s.resources| && Looks(rule))
    && (x.response.Served? && Looks(rule) ==>
          x.served.Some? && x.response.content == s.resources[x.served.value].content)
  }

  ghost predicate Answered(cfg: Config, s: State, t: nat)
    requires WellFormed(cfg, s) && t < |s.tasks|
  {
    var x, rule := s.tasks[t], cfg.requests[t].rule;
    && x.tally == Deserved(cfg, s, t)
    && (x.response.Pending? <==> !Ending(x.pc))
    && (x.pc.Respond? ==> x.served.Some? && s.cells[x.pc.cell].value == x.served)
    && (x.served.Some? ==> x.pc.Respond? || Ending(x.pc))
    && (x.pc.NeverFetch? ==> rule == Enabled(CacheNever))
    && (!x.pc.Idle? && !x.pc.NeverFetch? && !Ending(x.pc) ==> Looks(rule))
    && Fits(cfg, s, t)
  }

  ghost predicate AllAnswered(cfg: Config, s: State) {
    Told(cfg, s) && forall t :: 0 <= t < |s.tasks| ==> Answered(cfg, s, t)
  }

  lemma AnsweredInit(cfg: Config)
    requires ValidConfig(cfg)
    ensures AllAnswered(cfg, Init(cfg))
  {
    ToldInit(cfg);
  }

  // ----- The request that moves -----

  lemma QuietAnswered(cfg: Config, s: State, s': State, t: nat)
    requires WellFormed(cfg, s) && Noted(cfg, s, s', t, Quiet) && Answered(cfg, s, t)
    requires forall r :: 0 <= r < |s.resources| && s.tasks[t].served == Some(r) ==>
      Fixed(s, s', r) && !s.resources[r].phase.NotYet?
    ensures Answered(cfg, s', t)
  {
  }

  lemma ArrivedAnswered(cfg: Config, s: State, s': State, t: nat)
    requires WellFormed(cfg, s) && Noted(cfg, s, s', t, Arrived) && Answered(cfg, s, t)
    ensures Answered(cfg, s', t)
  {
  }

  lemma PassingAnswered(cfg: Config, s: State, s': State, t: nat)
    requires WellFormed(cfg, s) && Noted(cfg, s, s', t, Passing) && Answered(cfg, s, t)
    ensures Answered(cfg, s', t)
  {
  }

  lemma FailingAnswered(cfg: Config, s: State, s': State, t: nat, kind: Class)
    requires WellFormed(cfg, s) && Noted(cfg, s, s', t, Failing(kind)) && Answered(cfg, s, t)
    ensures Answered(cfg, s', t)
  {
  }

  lemma ObtainsAnswered(cfg: Config, s: State, s': State, t: nat, r: nat)
    requires WellFormed(cfg, s) && Noted(cfg, s, s', t, Obtains(r)) && Answered(cfg, s, t)
    requires r < |s.resources| && Fixed(s, s', r) && !s.resources[r].phase.NotYet?
    requires s'.cells[s.tasks[t].pc.cell].value == Some(r)
    ensures Answered(cfg, s', t)
  {
  }

  lemma SendingAnswered(cfg: Config, s: State, s': State, t: nat)
    requires WellFormed(cfg, s) && Noted(cfg, s, s', t, Sending) && Answered(cfg, s, t)
    requires var r := s.tasks[t].served;
      r.Some? && r.value < |s.resources| && Fixed(s, s', r.value) && !s.resources[r.value].phase.NotYet?
    ensures Answered(cfg, s', t)
  {
  }

  lemma AbandoningAnswered(cfg: Config, s: State, s': State, t: nat)
    requires WellFormed(cfg, s) && Noted(cfg, s, s', t, Abandoning) && Answered(cfg, s, t)
    requires forall r :: 0 <= r < |s.resources| && s.tasks[t].served == Some(r) ==>
      Fixed(s, s', r) && !s.resources[r].phase.NotYet?
    ensures Answered(cfg, s', t)
  {
  }

  /** A resource that a request obtained was made, and keeps its content. */
  lemma ServedFixed(cfg: Config, s: State, s': State, t: nat, k: Kind, u: nat, r: nat)
    requires Told(cfg, s) && Effect(cfg, s, s', t, k) && u < |s.tasks| && s.tasks[u].served == Some(r)
    ensures r < |s.resources| && Fixed(s, s', r) && !s.resources[r].phase.NotYet?
  {
    assert TaskTold(cfg, s, u);
    FixedNext(cfg, s, s', t, k, r);
  }

  lemma MoverAnswered(cfg: Config, s: State, s': State, t: nat, k: Kind, n: Note)
    requires AllAnswered(cfg, s) && Effect(cfg, s, s', t, k) && Noted(cfg, s, s', t, n)
    ensures Answered(cfg, s', t)
  {
    assert Answered(cfg, s, t);
    forall r | 0 <= r < |s.resources| && s.tasks[t].served == Some(r)
      ensures Fixed(s, s', r) && !s.resources[r].phase.NotYet?
    {
      ServedFixed(cfg, s, s', t, k, t, r);
    }
    match n
    case Quiet => QuietAnswered(cfg, s, s', t);
    case Arrived => ArrivedAnswered(cfg, s, s', t);
    case Passing => PassingAnswered(cfg, s, s', t);
    case Failing(kind) => FailingAnswered(cfg, s, s', t, kind);
    case Obtains(r) =>
      ObtainedFixed(cfg, s, s', t, k, r);
      ObtainsAnswered(cfg, s, s', t, r);
    case Sending => SendingAnswered(cfg, s, s', t);
    case Abandoning => AbandoningAnswered(cfg, s, s', t);
  }

  lemma ObtainedFixed(cfg: Config, s: State, s': State, t: nat, k: Kind, r: nat)
    requires Told(cfg, s) && Effect(cfg, s, s', t, k) && s.tasks[t].pc.Classify?
    requires s.cells[s.tasks[t].pc.cell].value == Some(r)
    ensures r < |s.resources| && Fixed(s, s', r) && !s.resources[r].phase.NotYet?
    ensures s'.cells[s.tasks[t].pc.cell].value == Some(r)
  {
    assert CellLives(s, s.tasks[t].pc.cell);
    FixedNext(cfg, s, s', t, k, r);
    FilledKept(cfg, s, s', t, k, s.tasks[t].pc.cell);
  }

  // ----- The others -----

  lemma OtherAnswered(cfg: Config, s: State, s': State, t: nat, k: Kind, u: nat)
    requires AllAnswered(cfg, s) && Effect(cfg, s, s', t, k) && u < |s.tasks| && u != t
    ensures Answered(cfg, s', u)
  {
    assert Answered(cfg, s, u);
    if s.tasks[u].served.Some? { ServedFixed(cfg, s, s', t, k, u, s.tasks[u].served.value); }
    if s.tasks[u].pc.Respond? { FilledKept(cfg, s, s', t, k, s.tasks[u].pc.cell); }
  }

  lemma AnsweredNext(cfg: Config, s: State, s': State, t: nat, k: Kind, n: Note)
    requires AllAnswered(cfg, s) && Effect(cfg, s, s', t, k) && Noted(cfg, s, s', t, n)
    ensures AllAnswered(cfg, s')
  {
    ToldNext(cfg, s, s', t, k, n);
    forall u | 0 <= u < |s'.tasks| ensures Answered(cfg, s', u) {
      if u == t { MoverAnswered(cfg, s, s', t, k, n); } else { OtherAnswered(cfg, s, s', t, k, u); }
    }
  }

  lemma {:induction false} AnsweredAlways(cfg: Config, tr: Trace)
    requires Valid(cfg, tr)
    ensures AllAnswered(cfg, Final(cfg, tr))
  {
    match tr
    case Start => AnsweredInit(cfg);
    case Then(before, t, a) =>
      AnsweredAlways(cfg, before);
      var k := StepEffect(cfg, Final(cfg, before), t, a);
      var n := StepNote(cfg, Final(cfg, before), t, a);
      AnsweredNext(cfg, Final(cfg, before), Final(cfg, tr), t, k, n);
  }

  // ----- What it means -----

  /**
   * The tally of a request is the class it deserves, in every reachable state:
   * its rule decides if it needs no lookup; else the resource it obtained, as a
   * miss if its own; else the answer it was given; and else it has none.
   */
  lemma TalliedAsDeserved(cfg: Config, tr: Trace, s: State, t: nat)
    requires Reaches(cfg, tr, s) && t < |cfg.requests|
    ensures s.tasks[t].tally == Deserved(cfg, s, t)
  {
    AnsweredAlways(cfg, tr);
    assert Answered(cfg, s, t);
  }

  /**
   * A request is answered exactly when it begins to clean up, in a way that its
   * tally allows; one that ends without a class was cancelled. A body that was
   * served is the body whose size was counted.
   */
  lemma AnswerFitsTally(cfg: Config, tr: Trace, s: State, t: nat)
    requires Reaches(cfg, tr, s) && t < |cfg.requests|
    ensures var x := s.tasks[t];
      && (x.response.Pending? <==> !Ending(x.pc))
      && (Ending(x.pc) && x.tally.None? ==> x.response.Cancelled?)
      && (x.response.Absent? ==> x.tally in {Some(Unrouted), Some(Never), Some(Missing)})
      && (x.response.Errored? ==>
            x.tally.Some? && (x.tally.value.Error? || x.tally.value.Never? || x.tally.value.Hit? || x.tally.value.Miss?))
      && (x.response.Cancelled? ==>
            x.tally.None? || x.tally.value.Never? || x.tally.value.Hit? || x.tally.value.Miss?)
      && (x.response.Served? ==>
            var size := |x.response.content.body|;
            x.tally in {Some(Never), Some(Hit(size)), Some(Miss(size))})
  {
    AnsweredAlways(cfg, tr);
    assert Answered(cfg, s, t);
  }
}
