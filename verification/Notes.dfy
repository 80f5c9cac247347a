/**
 * What each step reports: the counters of the routes, and what the request
 * itself is told. Stated flatly, like the effects on the shared state.
 */
module Notes {
  import opened Options
  import opened Model
  import opened Machine

  datatype Note =
    | Quiet
    | Arrived                    // a request is counted, and perhaps classified at once
    | Passing                    // upstream answers a request that is never cached
    | Failing(kind: Class)       // the fetch found nothing, or failed
    | Obtains(resource: nat)     // a resource is obtained, as a hit or a miss
    | Sending                    // a resource is sent, or its handle cannot be cloned
    | Abandoning                 // the client goes away

  /** The request has its response and only cleans up. */
  ghost predicate Ending(pc: Pc) {
    pc.Done? || (InDestructor(pc) && pc.after.ThenDone?)
  }

  /** The class of a request whose route needs no lookup. */
  ghost function Immediate(rule: Rule): Option<Class> {
    match rule
    case Disabled => Some(Unrouted)
    case Enabled(CacheNever) => Some(Never)
    case _ => None
  }

  ghost function OutcomeOf(s: State, t: nat, r: nat): Class
    requires r < |s.resources|
  {
    var size := |s.resources[r].content.body|;
    if r == t then Miss(size) else Hit(size)
  }

  ghost function ArrivedMetrics(m: RouteMetrics, rule: Rule): RouteMetrics {
    var m1 := m.(requests := m.requests + 1);
    match Immediate(rule)
    case None => m1
    case Some(kind) => Classified(m1, kind)
  }

  /** What the response of a step may carry. */
  ghost predicate Responds(cfg: Config, s: State, s': State, t: nat)
    requires WellFormed(cfg, s) && WellFormed(cfg, s') && t < |s.tasks|
  {
    var p, r := s.tasks[t].pc, s'.tasks[t].response;
    r.Served? && r != s.tasks[t].response ==>
      || cfg.upstream(KeyOf(cfg.requests[t]), Found(r.content))
      || (p.Respond? && s.cells[p.cell].value.Some? && r.content == s.resources[s.cells[p.cell].value.value].content)
  }

  ghost predicate Noted(cfg: Config, s: State, s': State, t: nat, n: Note) {
    && WellFormed(cfg, s) && WellFormed(cfg, s') && t < |s.tasks|
    && Responds(cfg, s, s', t)
    && (s.tasks[t].pc.Idle? ==> n.Arrived?) && !s'.tasks[t].pc.Idle?
    && (s.tasks[t].pc.Classify? ==> n.Obtains?)
    && var x, y := s.tasks[t], s'.tasks[t];
       var route := cfg.requests[t].route;
       var m := s.routes[route];
       match n
       case Quiet =>
         && s'.routes == s.routes && y.tally == x.tally && y.served == x.served && y.response == x.response
         && Ending(y.pc) == Ending(x.pc) && !x.pc.Idle?
         && !x.pc.NeverFetch? && !x.pc.Respond? && !y.pc.NeverFetch? && !y.pc.Respond?
       case Arrived =>
         && x.pc.Idle? && y.served == x.served
         && y.tally == (if Immediate(cfg.requests[t].rule).Some? then Immediate(cfg.requests[t].rule) else x.tally)
         && (y.pc.LookupLock? <==> Immediate(cfg.requests[t].rule).None?)
         && (y.pc.NeverFetch? <==> Immediate(cfg.requests[t].rule) == Some(Never))
         && (y.pc.Done? <==> cfg.requests[t].rule.Disabled?)
         && y.response == (if cfg.requests[t].rule.Disabled? then Absent else x.response)
         && s'.routes == s.routes[route := ArrivedMetrics(m, cfg.requests[t].rule)]
       case Passing =>
         && x.pc.NeverFetch? && y.pc.Done?
         && s'.routes == s.routes && y.tally == x.tally && y.served == x.served
         && !y.response.Pending? && !y.response.Cancelled?
       case Failing(kind) =>
         && x.pc.FetchBody? && y.pc == DropRef(x.pc.cell, ThenDone) && y.served == x.served
         && (kind.Error? || kind.Missing?)
         && y.response == (if kind.Missing? then Absent else Errored)
         && y.tally == Some(kind) && s'.routes == s.routes[route := Classified(m, kind)]
       case Obtains(r) =>
         && x.pc.Classify? && y.pc == Respond(x.pc.cell) && s.cells[x.pc.cell].value == Some(r) && r < |s.resources|
         && y.served == Some(r) && y.tally == Some(OutcomeOf(s, t, r)) && y.response == x.response
         && s'.routes == s.routes[route := Classified(m, OutcomeOf(s, t, r))]
       case Sending =>
         && x.pc.Respond? && y.pc == DropRef(x.pc.cell, ThenDone) && s.cells[x.pc.cell].value.Some?
         && s'.routes == s.routes && y.tally == x.tally && y.served == x.served
         && (y.response == Errored || y.response == Served(s.resources[s.cells[x.pc.cell].value.value].content))
       case Abandoning =>
         && Awaiting(x.pc) && Ending(y.pc)
         && s'.routes == s.routes && y.tally == x.tally && y.served == x.served && y.response == Cancelled
  }

  /** Every step is noted in one of these ways. */
  lemma StepNote(cfg: Config, s: State, t: nat, a: Action) returns (n: Note)
    requires WellFormed(cfg, s) && CanStep(cfg, s, t, a)
    ensures Noted(cfg, s, Next(cfg, s, t, a), t, n)
  {
    var pc := s.tasks[t].pc;
    match a
    case Deliver(answer) => n := AnswerNote(cfg, s, t, answer);
    case Send(ok) =>
      n := Sending;
      SendNote(cfg, s, t, ok);
    case Cancel =>
      n := Abandoning;
      CancelNote(cfg, s, t);
    case Go =>
      if pc.Idle? {
        n := Arrived;
        ArriveNote(cfg, s, t);
      } else if pc.Classify? {
        n := Obtains(s.cells[pc.cell].value.value);
        ReportNote(cfg, s, t);
      } else {
        n := Quiet;
        if InDestructor(pc) { QuietDestructor(cfg, s, t); }
        else if pc.LookupLock? || pc.LookupUnlock? || pc.AwaitCell? { QuietLookup(cfg, s, t); }
        else { QuietFill(cfg, s, t); }
      }
  }

  lemma AnswerNote(cfg: Config, s: State, t: nat, answer: Answer) returns (n: Note)
    requires WellFormed(cfg, s) && CanStep(cfg, s, t, Deliver(answer))
    ensures Noted(cfg, s, Next(cfg, s, t, Deliver(answer)), t, n)
  {
    n := if s.tasks[t].pc.NeverFetch? then Passing else if answer.Found? then Quiet
         else if answer.NotFound? then Failing(Missing) else Failing(Error);
  }

  lemma SendNote(cfg: Config, s: State, t: nat, ok: bool)
    requires WellFormed(cfg, s) && CanStep(cfg, s, t, Send(ok))
    ensures Noted(cfg, s, Next(cfg, s, t, Send(ok)), t, Sending)
  {
  }

  lemma CancelNote(cfg: Config, s: State, t: nat)
    requires WellFormed(cfg, s) && CanStep(cfg, s, t, Cancel)
    ensures Noted(cfg, s, Next(cfg, s, t, Cancel), t, Abandoning)
  {
  }

  lemma ReportNote(cfg: Config, s: State, t: nat)
    requires WellFormed(cfg, s) && CanStep(cfg, s, t, Go) && s.tasks[t].pc.Classify?
    ensures Noted(cfg, s, Next(cfg, s, t, Go), t, Obtains(s.cells[s.tasks[t].pc.cell].value.value))
  {
  }

  lemma ArriveNote(cfg: Config, s: State, t: nat)
    requires WellFormed(cfg, s) && CanStep(cfg, s, t, Go) && s.tasks[t].pc.Idle?
    ensures Noted(cfg, s, Next(cfg, s, t, Go), t, Arrived)
  {
  }

  lemma QuietDestructor(cfg: Config, s: State, t: nat)
    requires WellFormed(cfg, s) && CanStep(cfg, s, t, Go) && InDestructor(s.tasks[t].pc)
    ensures Noted(cfg, s, Next(cfg, s, t, Go), t, Quiet)
  {
  }

  lemma QuietLookup(cfg: Config, s: State, t: nat)
    requires WellFormed(cfg, s) && CanStep(cfg, s, t, Go)
    requires var pc := s.tasks[t].pc; pc.LookupLock? || pc.LookupUnlock? || pc.AwaitCell?
    ensures Noted(cfg, s, Next(cfg, s, t, Go), t, Quiet)
  {
  }

  lemma QuietFill(cfg: Config, s: State, t: nat)
    requires WellFormed(cfg, s) && CanStep(cfg, s, t, Go)
    requires Filling(s.tasks[t].pc) && !InDestructor(s.tasks[t].pc)
    ensures Noted(cfg, s, Next(cfg, s, t, Go), t, Quiet)
  {
    if s.tasks[t].pc.Reserve? || s.tasks[t].pc.ReserveUpTo? { QuietReserve(cfg, s, t); } else { QuietStore(cfg, s, t); }
  }

  lemma QuietReserve(cfg: Config, s: State, t: nat)
    requires WellFormed(cfg, s) && CanStep(cfg, s, t, Go) && (s.tasks[t].pc.Reserve? || s.tasks[t].pc.ReserveUpTo?)
    ensures Noted(cfg, s, Next(cfg, s, t, Go), t, Quiet)
  {
  }

  lemma QuietStore(cfg: Config, s: State, t: nat)
    requires WellFormed(cfg, s) && CanStep(cfg, s, t, Go)
    requires var pc := s.tasks[t].pc; Filling(pc) && !InDestructor(pc) && !pc.Reserve? && !pc.ReserveUpTo?
    ensures Noted(cfg, s, Next(cfg, s, t, Go), t, Quiet)
  {
  }
}
