/**
 * Answers have causes in the run. What a request is told follows from the last
 * thing that happened to it from outside, under every interleaving: an answer
 * from upstream, a cloned or refused file handle, or its cancellation.
 */
module Causes {
  import opened Options
  import opened Model
  import opened Machine
  import opened Effects
  import opened Notes
  import opened Lifecycle
  import opened Transparency
  import opened Answers

  /** The last step of request t that was not its own doing. */
  ghost function LastWord(tr: Trace, t: nat): Option<Action> {
    match tr
    case Start => None
    case Then(before, u, a) => if u == t && !a.Go? then Some(a) else LastWord(before, t)
  }

  /** The body that upstream last delivered to request t. */
  ghost function BodyFor(tr: Trace, t: nat): Option<Content> {
    match tr
    case Start => None
    case Then(before, u, a) =>
      if u == t && a.Deliver? && a.answer.Found? then Some(a.answer.content) else BodyFor(before, t)
  }

  /** The request took this step at some time of the run. */
  ghost predicate Took(tr: Trace, t: nat, a: Action) {
    tr.Then? && ((tr.task == t && tr.action == a) || Took(tr.before, t, a))
  }

  /** The response that goes with the last word. */
  ghost predicate FitsWord(cfg: Config, s: State, t: nat, word: Option<Action>)
    requires t < |s.tasks| && t < |cfg.requests|
  {
    var x, rule := s.tasks[t], cfg.requests[t].rule;
    && (x.pc.Idle? ==> word.None?)
    && match word
    case None => x.response == if rule.Disabled? && !x.pc.Idle? then Absent else Pending
    case Some(Go) => false
    case Some(Cancel) => x.response == Cancelled
    case Some(Send(true)) =>
      x.served.Some? && x.served.value < |s.resources| && x.response == Served(s.resources[x.served.value].content)
    case Some(Send(false)) => x.served.Some? && x.served.value < |s.resources| && x.response == Errored
    case Some(Deliver(NotFound)) => x.response == Absent
    case Some(Deliver(Failed(_))) => x.response == Errored
    case Some(Deliver(Found(content))) => x.response == if rule == Enabled(CacheNever) then Served(content) else Pending
  }

  // ----- One step -----

  lemma CancelWord(cfg: Config, s: State, t: nat)
    requires WellFormed(cfg, s) && CanStep(cfg, s, t, Cancel)
    ensures FitsWord(cfg, Next(cfg, s, t, Cancel), t, Some(Cancel))
  {
  }

  lemma SendWord(cfg: Config, s: State, t: nat, ok: bool)
    requires AllAnswered(cfg, s) && CanStep(cfg, s, t, Send(ok))
    ensures FitsWord(cfg, Next(cfg, s, t, Send(ok)), t, Some(Send(ok)))
  {
    assert Answered(cfg, s, t);
  }

  lemma DeliverWord(cfg: Config, s: State, t: nat, answer: Answer)
    requires AllAnswered(cfg, s) && CanStep(cfg, s, t, Deliver(answer))
    ensures FitsWord(cfg, Next(cfg, s, t, Deliver(answer)), t, Some(Deliver(answer)))
  {
    assert Answered(cfg, s, t);
  }

  /** By itself, a request is answered only when it arrives on a disabled route. */
  lemma GoWord(cfg: Config, s: State, s': State, t: nat, n: Note, word: Option<Action>)
    requires AllAnswered(cfg, s) && Noted(cfg, s, s', t, n) && (n.Quiet? || n.Arrived? || n.Obtains?)
    requires FitsWord(cfg, s, t, word)
    requires forall r :: 0 <= r < |s.resources| && s.tasks[t].served == Some(r) ==>
      s'.resources[r].content == s.resources[r].content
    ensures FitsWord(cfg, s', t, word)
  {
    assert Answered(cfg, s, t);
  }

  lemma MoverWord(cfg: Config, s: State, t: nat, a: Action, s': State, word: Option<Action>)
    requires AllAnswered(cfg, s) && CanStep(cfg, s, t, a) && s' == Next(cfg, s, t, a) && FitsWord(cfg, s, t, word)
    ensures FitsWord(cfg, s', t, if a.Go? then word else Some(a))
  {
    match a
    case Deliver(answer) => DeliverWord(cfg, s, t, answer);
    case Send(ok) => SendWord(cfg, s, t, ok);
    case Cancel => CancelWord(cfg, s, t);
    case Go =>
      var n := GoNote(cfg, s, t);
      KeepsContent(cfg, s, t, a, s', t);
      GoWord(cfg, s, s', t, n, word);
  }

  lemma GoNote(cfg: Config, s: State, t: nat) returns (n: Note)
    requires WellFormed(cfg, s) && CanStep(cfg, s, t, Go)
    ensures Noted(cfg, s, Next(cfg, s, t, Go), t, n) && (n.Quiet? || n.Arrived? || n.Obtains?)
  {
    n := StepNote(cfg, s, t, Go);
  }

  /** The resource that a request obtained keeps its content. */
  lemma KeepsContent(cfg: Config, s: State, t: nat, a: Action, s': State, u: nat)
    requires AllAnswered(cfg, s) && CanStep(cfg, s, t, a) && s' == Next(cfg, s, t, a) && u < |s.tasks|
    ensures forall r :: 0 <= r < |s.resources| && s.tasks[u].served == Some(r) ==>
      s'.resources[r].content == s.resources[r].content
  {
    var k := StepEffect(cfg, s, t, a);
    if s.tasks[u].served.Some? { ServedFixed(cfg, s, s', t, k, u, s.tasks[u].served.value); }
  }

  lemma OtherWord(cfg: Config, s: State, t: nat, a: Action, s': State, u: nat, word: Option<Action>)
    requires AllAnswered(cfg, s) && CanStep(cfg, s, t, a) && s' == Next(cfg, s, t, a)
    requires u < |s.tasks| && u != t && FitsWord(cfg, s, u, word)
    ensures FitsWord(cfg, s', u, word)
  {
    var k := StepEffect(cfg, s, t, a);
    KeepsContent(cfg, s, t, a, s', u);
  }

  lemma {:induction false} FitsWordAlways(cfg: Config, tr: Trace, t: nat)
    requires Valid(cfg, tr) && t < |cfg.requests|
    ensures FitsWord(cfg, Final(cfg, tr), t, LastWord(tr, t))
  {
    if tr.Then? {
      var s, s' := Final(cfg, tr.before), Final(cfg, tr);
      AnsweredAlways(cfg, tr.before);
      FitsWordAlways(cfg, tr.before, t);
      if tr.task == t {
        MoverWord(cfg, s, t, tr.action, s', LastWord(tr.before, t));
      } else {
        OtherWord(cfg, s, tr.task, tr.action, s', t, LastWord(tr.before, t));
      }
    }
  }

  // ----- Bodies -----

  /** A request holds, and its resource is made of, the body that upstream last delivered to it. */
  ghost predicate HoldsBody(s: State, t: nat, body: Option<Content>)
    requires t < |s.tasks| && t < |s.resources|
  {
    && (ContentOf(s.tasks[t].pc).Some? ==> body == ContentOf(s.tasks[t].pc))
    && (!s.resources[t].phase.NotYet? ==> body == Some(s.resources[t].content))
    && (s.tasks[t].pc.Idle? ==> body.None?)
  }

  /** By itself, a request goes on with the body it has. */
  lemma SameBody(cfg: Config, s: State, t: nat, a: Action)
    requires WellFormed(cfg, s) && CanStep(cfg, s, t, a) && !(a.Deliver? && a.answer.Found?)
    ensures var q := Next(cfg, s, t, a).tasks[t].pc;
      !q.Idle? && (ContentOf(q).Some? ==> ContentOf(q) == ContentOf(s.tasks[t].pc))
  {
    var pc := s.tasks[t].pc;
    if !a.Go? { SameBodyTold(cfg, s, t, a); }
    else if InDestructor(pc) { SameBodyDropping(cfg, s, t, a); }
    else if pc.Reserve? || pc.ReserveUpTo? { SameBodyReserving(cfg, s, t, a); }
    else { SameBodyGoing(cfg, s, t, a); }
  }

  lemma SameBodyTold(cfg: Config, s: State, t: nat, a: Action)
    requires WellFormed(cfg, s) && CanStep(cfg, s, t, a)
    requires !a.Go? && !(a.Deliver? && a.answer.Found?)
    ensures var q := Next(cfg, s, t, a).tasks[t].pc;
      !q.Idle? && (ContentOf(q).Some? ==> ContentOf(q) == ContentOf(s.tasks[t].pc))
  {
  }

  lemma SameBodyDropping(cfg: Config, s: State, t: nat, a: Action)
    requires WellFormed(cfg, s) && CanStep(cfg, s, t, a)
    requires a.Go? && InDestructor(s.tasks[t].pc)
    ensures var q := Next(cfg, s, t, a).tasks[t].pc;
      !q.Idle? && (ContentOf(q).Some? ==> ContentOf(q) == ContentOf(s.tasks[t].pc))
  {
  }

  lemma SameBodyReserving(cfg: Config, s: State, t: nat, a: Action)
    requires WellFormed(cfg, s) && CanStep(cfg, s, t, a)
    requires a.Go? && (s.tasks[t].pc.Reserve? || s.tasks[t].pc.ReserveUpTo?)
    ensures var q := Next(cfg, s, t, a).tasks[t].pc;
      !q.Idle? && (ContentOf(q).Some? ==> ContentOf(q) == ContentOf(s.tasks[t].pc))
  {
  }

  lemma SameBodyGoing(cfg: Config, s: State, t: nat, a: Action)
    requires WellFormed(cfg, s) && CanStep(cfg, s, t, a)
    requires a.Go? && var pc := s.tasks[t].pc; !InDestructor(pc) && !pc.Reserve? && !pc.ReserveUpTo?
    ensures var q := Next(cfg, s, t, a).tasks[t].pc;
      !q.Idle? && (ContentOf(q).Some? ==> ContentOf(q) == ContentOf(s.tasks[t].pc))
  {
  }

  lemma NewBody(cfg: Config, s: State, t: nat, content: Content)
    requires Lives(cfg, s) && CanStep(cfg, s, t, Deliver(Found(content)))
    ensures HoldsBody(Next(cfg, s, t, Deliver(Found(content))), t, Some(content))
  {
    assert ResourceLives(cfg, s, t);
  }

  /** A resource is made by its own request, of the body that it holds. */
  lemma MadeOf(cfg: Config, s: State, s': State, t: nat, k: Kind, r: nat)
    requires Lives(cfg, s) && Effect(cfg, s, s', t, k) && r < |s.resources|
    requires s.resources[r].phase.NotYet? && !s'.resources[r].phase.NotYet?
    ensures r == t && ContentOf(s.tasks[t].pc) == Some(s'.resources[t].content)
  {
    if Lifeless(k) {
      SamePhases(cfg, s, s', t, k, r);
    } else {
      SubjectMoves(cfg, s, s', t, k);
      if r != Subject(s, t, k) { OthersStay(cfg, s, s', t, k, r); }
    }
  }

  lemma BodyNext(cfg: Config, s: State, t: nat, a: Action, s': State, u: nat, body: Option<Content>)
    requires Lives(cfg, s) && CanStep(cfg, s, t, a) && s' == Next(cfg, s, t, a)
    requires u < |s.tasks| && HoldsBody(s, u, body) && !(u == t && a.Deliver? && a.answer.Found?)
    ensures HoldsBody(s', u, body)
  {
    var k := StepEffect(cfg, s, t, a);
    if u == t { SameBody(cfg, s, t, a); }
    if !s'.resources[u].phase.NotYet? {
      if s.resources[u].phase.NotYet? { MadeOf(cfg, s, s', t, k, u); } else { FixedNext(cfg, s, s', t, k, u); }
    }
  }

  lemma {:induction false} HoldsBodyAlways(cfg: Config, tr: Trace, t: nat)
    requires Valid(cfg, tr) && t < |cfg.requests|
    ensures HoldsBody(Final(cfg, tr), t, BodyFor(tr, t))
  {
    if tr.Then? {
      var s, s' := Final(cfg, tr.before), Final(cfg, tr);
      LivesAlways(cfg, tr.before);
      HoldsBodyAlways(cfg, tr.before, t);
      if tr.task == t && tr.action.Deliver? && tr.action.answer.Found? {
        NewBody(cfg, s, t, tr.action.answer.content);
      } else {
        BodyNext(cfg, s, tr.task, tr.action, s', t, BodyFor(tr.before, t));
      }
    }
  }

  // ----- What it means -----

  /**
   * What a request is told is what last happened to it, however others overlap,
   * evict, expire or replace: an answer of upstream, or a cloned or refused file
   * handle of the resource it obtained, or its own cancellation.
   */
  lemma AnsweredAsTold(cfg: Config, tr: Trace, s: State, t: nat)
    requires Reaches(cfg, tr, s) && t < |cfg.requests|
    ensures var x, rule := s.tasks[t], cfg.requests[t].rule;
      match LastWord(tr, t)
      case None => x.response == if rule.Disabled? && !x.pc.Idle? then Absent else Pending
      case Some(Go) => false
      case Some(Cancel) => x.response == Cancelled
      case Some(Send(ok)) =>
        && x.served.Some? && x.served.value < |cfg.requests|
        && x.response == if ok then Served(s.resources[x.served.value].content) else Errored
      case Some(Deliver(NotFound)) => x.response == Absent
      case Some(Deliver(Failed(_))) => x.response == Errored
      case Some(Deliver(Found(content))) => x.response == if rule == Enabled(CacheNever) then Served(content) else Pending
  {
    FitsWordAlways(cfg, tr, t);
  }

  lemma {:induction false} LastWordTaken(tr: Trace, t: nat)
    requires LastWord(tr, t).Some?
    ensures Took(tr, t, LastWord(tr, t).value)
  {
    if !(tr.task == t && !tr.action.Go?) { LastWordTaken(tr.before, t); }
  }

  lemma {:induction false} BodyDelivered(tr: Trace, t: nat)
    requires BodyFor(tr, t).Some?
    ensures Took(tr, t, Deliver(Found(BodyFor(tr, t).value)))
  {
    if !(tr.task == t && tr.action.Deliver? && tr.action.answer.Found?) { BodyDelivered(tr.before, t); }
  }

  lemma ErrorWord(cfg: Config, s: State, t: nat, word: Option<Action>)
    requires t < |s.tasks| && t < |cfg.requests| && FitsWord(cfg, s, t, word) && s.tasks[t].response.Errored?
    ensures word.Some? && (word.value == Send(false) || (word.value.Deliver? && word.value.answer.Failed?))
  {
  }

  /** An error has a cause: upstream failed for this very request, or its file handle could not be cloned. */
  lemma ErrorHasCause(cfg: Config, tr: Trace, s: State, t: nat)
    requires Reaches(cfg, tr, s) && t < |cfg.requests| && s.tasks[t].response.Errored?
    ensures Took(tr, t, Send(false)) || exists error :: Took(tr, t, Deliver(Failed(error)))
  {
    FitsWordAlways(cfg, tr, t);
    ErrorWord(cfg, s, t, LastWord(tr, t));
    LastWordTaken(tr, t);
    var word := LastWord(tr, t).value;
    if word.Deliver? { assert Took(tr, t, Deliver(Failed(word.answer.error))); }
  }

  /** So has an absence: the route is disabled, or upstream found nothing for this very request. */
  lemma AbsenceHasCause(cfg: Config, tr: Trace, s: State, t: nat)
    requires Reaches(cfg, tr, s) && t < |cfg.requests| && s.tasks[t].response.Absent?
    ensures cfg.requests[t].rule.Disabled? || Took(tr, t, Deliver(NotFound))
  {
    FitsWordAlways(cfg, tr, t);
    if LastWord(tr, t).Some? { LastWordTaken(tr, t); }
  }

  /** A resource is made of the body that upstream delivered to the request that made it. */
  lemma MadeOfDelivered(cfg: Config, tr: Trace, s: State, r: nat)
    requires Reaches(cfg, tr, s) && r < |cfg.requests| && !s.resources[r].phase.NotYet?
    ensures BodyFor(tr, r) == Some(s.resources[r].content) && Took(tr, r, Deliver(Found(s.resources[r].content)))
  {
    HoldsBodyAlways(cfg, tr, r);
    BodyDelivered(tr, r);
  }

  /**
   * Every body served was delivered in this run: to the request itself on a
   * route that is never cached, else to a request for the same host and path.
   */
  lemma ServedWasDelivered(cfg: Config, tr: Trace, s: State, t: nat) returns (r: nat)
    requires Reaches(cfg, tr, s) && t < |cfg.requests| && s.tasks[t].response.Served?
    ensures r < |cfg.requests| && SameKey(cfg.requests[r], cfg.requests[t])
    ensures cfg.requests[t].rule == Enabled(CacheNever) ==> r == t
    ensures Took(tr, r, Deliver(Found(s.tasks[t].response.content)))
  {
    AnsweredAlways(cfg, tr);
    assert Answered(cfg, s, t) && TaskTold(cfg, s, t);
    if Looks(cfg.requests[t].rule) {
      r := s.tasks[t].served.value;
      assert ResourceTold(cfg, s, r);
      MadeOfDelivered(cfg, tr, s, r);
    } else {
      r := t;
      FitsWordAlways(cfg, tr, t);
      LastWordTaken(tr, t);
    }
  }
}
