/**
 * The counters of the routes: every request is counted once when it arrives
 * and at most once under a class, and each counter is exactly the requests, or
 * the bytes, of its class.
 */
module Accounting {
  import opened Options
  import opened Model
  import opened Sums
  import opened Machine
  import opened Effects
  import opened Notes
  import opened Transparency
  import opened Answers

  datatype Counter = Unrouteds | Nevers | Hits | HitBytes | Misses | MissBytes | Errors | NotFounds

  ghost function Reading(m: RouteMetrics, c: Counter): int {
    match c
    case Unrouteds => m.unrouted
    case Nevers => m.never
    case Hits => m.hits
    case HitBytes => m.hitBytes
    case Misses => m.misses
    case MissBytes => m.missBytes
    case Errors => m.errors
    case NotFounds => m.notFound
  }

  /** What a class adds to a counter. */
  ghost function Weight(kind: Option<Class>, c: Counter): int {
    match kind
    case None => 0
    case Some(Unrouted) => if c.Unrouteds? then 1 else 0
    case Some(Never) => if c.Nevers? then 1 else 0
    case Some(Hit(bytes)) => if c.Hits? then 1 else if c.HitBytes? then bytes else 0
    case Some(Miss(bytes)) => if c.Misses? then 1 else if c.MissBytes? then bytes else 0
    case Some(Error) => if c.Errors? then 1 else 0
    case Some(Missing) => if c.NotFounds? then 1 else 0
  }

  ghost predicate OnRoute(cfg: Config, i: int, route: nat) {
    0 <= i < |cfg.requests| && cfg.requests[i].route == route
  }

  ghost function ArrivedOn(cfg: Config, route: nat): (int, Task) -> int {
    (i: int, x: Task) => if OnRoute(cfg, i, route) && !x.pc.Idle? then 1 else 0
  }

  ghost function TalliedOn(cfg: Config, route: nat, c: Counter): (int, Task) -> int {
    (i: int, x: Task) => if OnRoute(cfg, i, route) then Weight(x.tally, c) else 0
  }

  /** Arrived, not classified, and not answered yet. */
  ghost function InFlightOn(cfg: Config, route: nat): (int, Task) -> int {
    (i: int, x: Task) =>
      if OnRoute(cfg, i, route) && !x.pc.Idle? && x.tally.None? && x.response.Pending? then 1 else 0
  }

  /** Cancelled before it was classified. */
  ghost function LostOn(cfg: Config, route: nat): (int, Task) -> int {
    (i: int, x: Task) => if OnRoute(cfg, i, route) && x.tally.None? && x.response.Cancelled? then 1 else 0
  }

  /** The class a request deserves, on its route. */
  ghost function DeservedOn(cfg: Config, s: State, route: nat, c: Counter): (int, Task) -> int
    requires |s.tasks| == |cfg.requests|
  {
    (i: int, x: Task) => if OnRoute(cfg, i, route) then Weight(Deserved(cfg, s, i), c) else 0
  }

  ghost function HostTallied(cfg: Config, h: nat, c: Counter): (int, Task) -> int {
    (i: int, x: Task) => if OnHost(cfg, i, h) then Weight(x.tally, c) else 0
  }

  /** The readings of one counter over the routes of one host. */
  ghost function HostReading(cfg: Config, h: nat, c: Counter): (int, RouteMetrics) -> int {
    (i: int, m: RouteMetrics) => if 0 <= i < |cfg.routes| && cfg.routes[i] == h then Reading(m, c) else 0
  }

  ghost predicate Untallied(pc: Pc) {
    !Leaving(pc) && !pc.NeverFetch?
  }

  ghost predicate TaskCounted(s: State, t: nat)
    requires t < |s.tasks|
  {
    Untallied(s.tasks[t].pc) ==> s.tasks[t].tally.None?
  }

  ghost predicate RouteCounted(cfg: Config, s: State, route: nat, c: Counter)
    requires route < |s.routes|
  {
    && s.routes[route].requests == SumOf(s.tasks, ArrivedOn(cfg, route))
    && Reading(s.routes[route], c) == SumOf(s.tasks, TalliedOn(cfg, route, c))
  }

  ghost predicate HostCounted(cfg: Config, s: State, h: nat, c: Counter) {
    SumOf(s.routes, HostReading(cfg, h, c)) == SumOf(s.tasks, HostTallied(cfg, h, c))
  }

  ghost predicate Tallied(cfg: Config, s: State) {
    && WellFormed(cfg, s)
    && (forall t :: 0 <= t < |s.tasks| ==> TaskCounted(s, t))
    && (forall route, c :: 0 <= route < |s.routes| ==> RouteCounted(cfg, s, route, c))
    && (forall h: nat, c :: HostCounted(cfg, s, h, c))
  }

  lemma CountedInit(cfg: Config)
    requires ValidConfig(cfg)
    ensures Tallied(cfg, Init(cfg))
  {
    var s := Init(cfg);
    assert forall i :: 0 <= i < |s.tasks| ==> s.tasks[i] == NEW_TASK;
    forall route, c | 0 <= route < |s.routes| ensures RouteCounted(cfg, s, route, c) {
      assert Weight(NEW_TASK.tally, c) == 0;
      SumZero(s.tasks, ArrivedOn(cfg, route));
      SumZero(s.tasks, TalliedOn(cfg, route, c));
    }
    forall h: nat, c ensures HostCounted(cfg, s, h, c) {
      assert Weight(NEW_TASK.tally, c) == 0 && Reading(NO_ROUTE_METRICS, c) == 0;
      SumZero(s.routes, HostReading(cfg, h, c));
      SumZero(s.tasks, HostTallied(cfg, h, c));
    }
  }

  /** What a step adds to the counters of its own route. */
  ghost function Added(cfg: Config, s: State, t: nat, n: Note): Option<Class>
    requires WellFormed(cfg, s) && t < |s.tasks|
  {
    match n
    case Arrived => Immediate(cfg.requests[t].rule)
    case Failing(kind) => Some(kind)
    case Obtains(r) => if r < |s.resources| then Some(OutcomeOf(s, t, r)) else None
    case _ => None
  }

  lemma TallyStep(cfg: Config, s: State, s': State, t: nat, n: Note, c: Counter)
    requires Tallied(cfg, s) && Noted(cfg, s, s', t, n)
    ensures Weight(s'.tasks[t].tally, c) == Weight(s.tasks[t].tally, c) + Weight(Added(cfg, s, t, n), c)
    ensures s.tasks[t].tally.Some? ==> s'.tasks[t].tally == s.tasks[t].tally
  {
    assert TaskCounted(s, t);
  }

  lemma RouteStep(cfg: Config, s: State, s': State, t: nat, n: Note, c: Counter)
    requires WellFormed(cfg, s) && Noted(cfg, s, s', t, n)
    ensures var route := cfg.requests[t].route;
      && route < |s.routes| == |s'.routes| && s'.routes == s.routes[route := s'.routes[route]]
      && Reading(s'.routes[route], c) == Reading(s.routes[route], c) + Weight(Added(cfg, s, t, n), c)
      && s'.routes[route].requests == s.routes[route].requests + (if n.Arrived? then 1 else 0)
  {
  }

  lemma ArrivedNext(cfg: Config, s: State, s': State, t: nat, n: Note, route: nat)
    requires WellFormed(cfg, s) && Noted(cfg, s, s', t, n) && s'.tasks == s.tasks[t := s'.tasks[t]]
    requires s.tasks[t].pc.Idle? <==> n.Arrived?
    requires route < |s.routes| && s.routes[route].requests == SumOf(s.tasks, ArrivedOn(cfg, route))
    ensures s'.routes[route].requests == SumOf(s'.tasks, ArrivedOn(cfg, route))
  {
    RouteStep(cfg, s, s', t, n, Hits);
    SumUpdate(s.tasks, ArrivedOn(cfg, route), t, s'.tasks[t]);
  }

  lemma ReadingNext(cfg: Config, s: State, s': State, t: nat, n: Note, route: nat, c: Counter)
    requires WellFormed(cfg, s) && Noted(cfg, s, s', t, n) && route < |s.routes|
    ensures route < |s'.routes|
    ensures Reading(s'.routes[route], c) ==
      Reading(s.routes[route], c) + (if OnRoute(cfg, t, route) then Weight(Added(cfg, s, t, n), c) else 0)
  {
    RouteStep(cfg, s, s', t, n, c);
  }

  lemma TalliedNext(cfg: Config, s: State, s': State, t: nat, n: Note, route: nat, c: Counter)
    requires Tallied(cfg, s) && Noted(cfg, s, s', t, n) && s'.tasks == s.tasks[t := s'.tasks[t]]
    ensures SumOf(s'.tasks, TalliedOn(cfg, route, c)) ==
      SumOf(s.tasks, TalliedOn(cfg, route, c)) + (if OnRoute(cfg, t, route) then Weight(Added(cfg, s, t, n), c) else 0)
  {
    TallyStep(cfg, s, s', t, n, c);
    SumUpdate(s.tasks, TalliedOn(cfg, route, c), t, s'.tasks[t]);
  }

  lemma RouteCountedNext(cfg: Config, s: State, s': State, t: nat, n: Note, route: nat, c: Counter)
    requires Tallied(cfg, s) && Noted(cfg, s, s', t, n) && s'.tasks == s.tasks[t := s'.tasks[t]]
    requires s.tasks[t].pc.Idle? <==> n.Arrived?
    requires route < |s.routes|
    ensures RouteCounted(cfg, s', route, c)
  {
    assert RouteCounted(cfg, s, route, c);
    ArrivedNext(cfg, s, s', t, n, route);
    TalliedNext(cfg, s, s', t, n, route, c);
    ReadingNext(cfg, s, s', t, n, route, c);
  }

  lemma HostCountedNext(cfg: Config, s: State, s': State, t: nat, n: Note, h: nat, c: Counter)
    requires Tallied(cfg, s) && Noted(cfg, s, s', t, n) && s'.tasks == s.tasks[t := s'.tasks[t]]
    ensures HostCounted(cfg, s', h, c)
  {
    assert HostCounted(cfg, s, h, c);
    TallyStep(cfg, s, s', t, n, c);
    RouteStep(cfg, s, s', t, n, c);
    var route := cfg.requests[t].route;
    assert ValidRequest(cfg, cfg.requests[t]);
    SumUpdate(s.tasks, HostTallied(cfg, h, c), t, s'.tasks[t]);
    SumUpdate(s.routes, HostReading(cfg, h, c), route, s'.routes[route]);
  }

  lemma MoverCounted(cfg: Config, s: State, s': State, t: nat, k: Kind, n: Note)
    requires Told(cfg, s) && Tallied(cfg, s) && Effect(cfg, s, s', t, k) && Noted(cfg, s, s', t, n)
    ensures TaskCounted(s', t)
  {
    assert TaskCounted(s, t);
    if Leaving(s.tasks[t].pc) { LeavingStays(cfg, s, s', t, k); }
  }

  lemma CountedNext(cfg: Config, s: State, s': State, t: nat, k: Kind, n: Note)
    requires Told(cfg, s) && Tallied(cfg, s) && Effect(cfg, s, s', t, k) && Noted(cfg, s, s', t, n)
    ensures Tallied(cfg, s')
  {
    assert s'.tasks == s.tasks[t := s'.tasks[t]];
    forall u | 0 <= u < |s'.tasks| ensures TaskCounted(s', u) {
      assert TaskCounted(s, u);
      if u == t { MoverCounted(cfg, s, s', t, k, n); }
    }
    forall route, c | 0 <= route < |s'.routes| ensures RouteCounted(cfg, s', route, c) {
      RouteCountedNext(cfg, s, s', t, n, route, c);
    }
    forall h: nat, c ensures HostCounted(cfg, s', h, c) {
      HostCountedNext(cfg, s, s', t, n, h, c);
    }
  }

  lemma {:induction false} CountedAlways(cfg: Config, tr: Trace)
    requires Valid(cfg, tr)
    ensures Tallied(cfg, Final(cfg, tr))
  {
    match tr
    case Start => CountedInit(cfg);
    case Then(before, t, a) =>
      CountedAlways(cfg, before);
      ToldAlways(cfg, before);
      var k := StepEffect(cfg, Final(cfg, before), t, a);
      var n := StepNote(cfg, Final(cfg, before), t, a);
      CountedNext(cfg, Final(cfg, before), Final(cfg, tr), t, k, n);
  }

  /** A request without a class is on its way, or was cancelled. */
  ghost predicate Explained(x: Task) {
    && (x.pc.Idle? ==> x.tally.None? && x.response.Pending?)
    && (x.tally.None? ==> x.response.Pending? || x.response.Cancelled?)
  }

  lemma PartitionOne(cfg: Config, i: int, x: Task, route: nat)
    requires Explained(x)
    ensures ArrivedOn(cfg, route)(i, x) ==
      TalliedOn(cfg, route, Unrouteds)(i, x) + TalliedOn(cfg, route, Nevers)(i, x) + TalliedOn(cfg, route, Hits)(i, x)
      + TalliedOn(cfg, route, Misses)(i, x) + TalliedOn(cfg, route, Errors)(i, x) + TalliedOn(cfg, route, NotFounds)(i, x)
      + InFlightOn(cfg, route)(i, x) + LostOn(cfg, route)(i, x)
  {
    var k := x.tally;
    assert Weight(k, Unrouteds) + Weight(k, Nevers) + Weight(k, Hits) + Weight(k, Misses) + Weight(k, Errors)
           + Weight(k, NotFounds) == if k.Some? then 1 else 0;
  }

  /** The arrived requests of a route, class by class. */
  lemma {:induction false} Partition(cfg: Config, tasks: seq<Task>, route: nat)
    requires forall i :: 0 <= i < |tasks| ==> Explained(tasks[i])
    ensures SumOf(tasks, ArrivedOn(cfg, route)) ==
      SumOf(tasks, TalliedOn(cfg, route, Unrouteds)) + SumOf(tasks, TalliedOn(cfg, route, Nevers))
      + SumOf(tasks, TalliedOn(cfg, route, Hits)) + SumOf(tasks, TalliedOn(cfg, route, Misses))
      + SumOf(tasks, TalliedOn(cfg, route, Errors)) + SumOf(tasks, TalliedOn(cfg, route, NotFounds))
      + SumOf(tasks, InFlightOn(cfg, route)) + SumOf(tasks, LostOn(cfg, route))
  {
    if tasks != [] {
      var n := |tasks| - 1;
      Partition(cfg, tasks[..n], route);
      PartitionOne(cfg, n, tasks[n], route);
    }
  }

  /** All readings of a route. */
  lemma Readings(cfg: Config, s: State, route: nat)
    requires Tallied(cfg, s) && route < |s.routes|
    ensures var m := s.routes[route];
      && m.unrouted == SumOf(s.tasks, TalliedOn(cfg, route, Unrouteds)) && m.never == SumOf(s.tasks, TalliedOn(cfg, route, Nevers))
      && m.hits == SumOf(s.tasks, TalliedOn(cfg, route, Hits)) && m.misses == SumOf(s.tasks, TalliedOn(cfg, route, Misses))
      && m.errors == SumOf(s.tasks, TalliedOn(cfg, route, Errors)) && m.notFound == SumOf(s.tasks, TalliedOn(cfg, route, NotFounds))
      && m.requests == SumOf(s.tasks, ArrivedOn(cfg, route))
  {
    assert RouteCounted(cfg, s, route, Unrouteds) && RouteCounted(cfg, s, route, Nevers) && RouteCounted(cfg, s, route, Hits);
    assert RouteCounted(cfg, s, route, Misses) && RouteCounted(cfg, s, route, Errors) && RouteCounted(cfg, s, route, NotFounds);
  }

  /**
   * Request accounting: on every route, at every moment, the requests counted
   * are those of the six classes, those not yet classified nor answered, and
   * those cancelled before they were classified.
   */
  lemma RequestsAddUp(cfg: Config, tr: Trace, s: State, route: nat)
    requires Reaches(cfg, tr, s) && route < |cfg.routes|
    ensures var m := s.routes[route];
      m.requests == m.unrouted + m.never + m.hits + m.misses + m.errors + m.notFound
                    + SumOf(s.tasks, InFlightOn(cfg, route)) + SumOf(s.tasks, LostOn(cfg, route))
  {
    CountedAlways(cfg, tr);
    forall i | 0 <= i < |s.tasks| ensures Explained(s.tasks[i]) {
      assert TaskCounted(s, i);
      AnswerFitsTally(cfg, tr, s, i);
    }
    Partition(cfg, s.tasks, route);
    Readings(cfg, s, route);
  }

  /** At rest, the requests counted are those of the six classes and the cancelled ones. */
  lemma RequestsAtRest(cfg: Config, tr: Trace, s: State, route: nat)
    requires Reaches(cfg, tr, s) && Quiescent(s) && route < |cfg.routes|
    ensures var m := s.routes[route];
      m.requests == m.unrouted + m.never + m.hits + m.misses + m.errors + m.notFound + SumOf(s.tasks, LostOn(cfg, route))
  {
    RequestsAddUp(cfg, tr, s, route);
    forall i | 0 <= i < |s.tasks| ensures InFlightOn(cfg, route)(i, s.tasks[i]) == 0 {
      AnswerFitsTally(cfg, tr, s, i);
    }
    SumZero(s.tasks, InFlightOn(cfg, route));
  }

  /**
   * Every counter of every route is exactly the number, or the bytes, of the
   * requests that deserve its class by their rule, their resource and their answer.
   */
  lemma CountersDeserved(cfg: Config, tr: Trace, s: State, route: nat, c: Counter)
    requires Reaches(cfg, tr, s) && route < |cfg.routes|
    ensures Reading(s.routes[route], c) == SumOf(s.tasks, DeservedOn(cfg, s, route, c))
  {
    CountedAlways(cfg, tr);
    assert RouteCounted(cfg, s, route, c);
    forall i | 0 <= i < |s.tasks| ensures TalliedOn(cfg, route, c)(i, s.tasks[i]) == DeservedOn(cfg, s, route, c)(i, s.tasks[i]) {
      TalliedAsDeserved(cfg, tr, s, i);
    }
    SumSame(s.tasks, TalliedOn(cfg, route, c), DeservedOn(cfg, s, route, c));
  }
}
