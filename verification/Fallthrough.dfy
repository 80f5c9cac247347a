/**
 * Upstreams that try others in turn, and the configuration they are built from.
 */
module Fallthrough {
  import opened Options
  import opened Model

  /** A configured upstream; the sites stand for its HTTP URL or its S3 bucket. */
  datatype UpstreamConfig = Http(site: nat) | S3(site: nat) | Several(upstreams: seq<UpstreamConfig>)

  /** The upstream built from it: a client of one site, or a `FallthroughUpstream`. */
  datatype Upstream = Client(site: nat) | FallthroughOf(upstreams: seq<Upstream>)

  datatype Asked = Asked(site: nat, path: string)

  /** How a site answers, which may depend on everything that was asked before. */
  type Behaviour = (seq<Asked>, nat, string) -> Answer

  /** The sites, with a record of what they were asked. */
  class Network {
    const behave: Behaviour
    var log: seq<Asked>

    constructor (behave: Behaviour)
      ensures this.behave == behave && log == []
    {
      this.behave := behave;
      log := [];
    }

    method Ask(site: nat, path: string) returns (a: Answer)
      modifies this
      ensures log == old(log) + [Asked(site, path)] && a == behave(old(log), site, path)
    {
      a := behave(log, site, path);
      log := log + [Asked(site, path)];
    }
  }

  // ----- What an upstream answers -----

  function FirstError(first: Option<string>, error: string): Option<string> {
    if first.Some? then first else Some(error)
  }

  function Remembered(first: Option<string>): Answer {
    if first.Some? then Failed(first.value) else NotFound
  }

  function Eval(behave: Behaviour, u: Upstream, path: string, log: seq<Asked>): (seq<Asked>, Answer)
    decreases u, 1
  {
    match u
    case Client(site) => (log + [Asked(site, path)], behave(log, site, path))
    case FallthroughOf(us) => EvalAll(behave, us, path, log, None)
  }

  function EvalAll(behave: Behaviour, us: seq<Upstream>, path: string, log: seq<Asked>,
                   first: Option<string>): (seq<Asked>, Answer)
    decreases us, 0
  {
    if us == [] then (log, Remembered(first))
    else
      var (log1, a) := Eval(behave, us[0], path, log);
      match a
      case Found(_) => (log1, a)
      case NotFound => EvalAll(behave, us[1..], path, log1, first)
      case Failed(error) => EvalAll(behave, us[1..], path, log1, FirstError(first, error))
  }

  /** `get`: the loop over the upstreams, with its early return. */
  method Get(network: Network, u: Upstream, path: string) returns (a: Answer)
    modifies network
    ensures (network.log, a) == Eval(network.behave, u, path, old(network.log))
    decreases u
  {
    match u
    case Client(site) => a := network.Ask(site, path);
    case FallthroughOf(us) =>
      var first: Option<string> := None;
      var i := 0;
      while i < |us|
        invariant i <= |us|
        invariant EvalAll(network.behave, us[i..], path, network.log, first)
               == EvalAll(network.behave, us, path, old(network.log), None)
      {
        assert us[i..][0] == us[i] && us[i..][1..] == us[i + 1..];
        a := Get(network, us[i], path);
        if a.Found? {
          return;
        }
        if a.Failed? {
          first := FirstError(first, a.error);
        }
        i := i + 1;
      }
      a := Remembered(first);
  }

  // ----- The flat meaning -----

  function Leaves(u: Upstream): seq<nat>
    decreases u, 1
  {
    match u
    case Client(site) => [site]
    case FallthroughOf(us) => LeavesOf(us)
  }

  function LeavesOf(us: seq<Upstream>): seq<nat>
    decreases us, 0
  {
    if us == [] then [] else Leaves(us[0]) + LeavesOf(us[1..])
  }

  function Clients(sites: seq<nat>): seq<Upstream> {
    seq(|sites|, i requires 0 <= i < |sites| => Client(sites[i]))
  }

  /** One fallthrough over the given sites, from left to right. */
  function Flat(behave: Behaviour, sites: seq<nat>, path: string, log: seq<Asked>,
                first: Option<string>): (seq<Asked>, Answer) {
    EvalAll(behave, Clients(sites), path, log, first)
  }

  lemma FlatCons(behave: Behaviour, sites: seq<nat>, path: string, log: seq<Asked>, first: Option<string>)
    requires sites != []
    ensures var log1, a := log + [Asked(sites[0], path)], behave(log, sites[0], path);
      Flat(behave, sites, path, log, first) ==
        if a.Found? then (log1, a)
        else if a.NotFound? then Flat(behave, sites[1..], path, log1, first)
        else Flat(behave, sites[1..], path, log1, FirstError(first, a.error))
  {
    assert Clients(sites)[1..] == Clients(sites[1..]);
    assert Eval(behave, Clients(sites)[0], path, log) == (log + [Asked(sites[0], path)], behave(log, sites[0], path));
  }

  /** An error remembered from before only replaces a failure or an absence. */
  lemma {:induction false} FlatFirst(behave: Behaviour, sites: seq<nat>, path: string, log: seq<Asked>, error: string)
    ensures var (log0, a0) := Flat(behave, sites, path, log, None);
      Flat(behave, sites, path, log, Some(error)) == (log0, if a0.Found? then a0 else Failed(error))
    decreases |sites|
  {
    if sites != [] {
      var log1, a := log + [Asked(sites[0], path)], behave(log, sites[0], path);
      FlatCons(behave, sites, path, log, None);
      FlatCons(behave, sites, path, log, Some(error));
      FlatFirst(behave, sites[1..], path, log1, error);
      if a.Failed? { FlatFirst(behave, sites[1..], path, log1, a.error); }
    }
  }

  lemma {:induction false} FlatAppend(behave: Behaviour, a: seq<nat>, b: seq<nat>, path: string,
                              log: seq<Asked>, first: Option<string>)
    ensures var (log1, r) := Flat(behave, a, path, log, None);
      Flat(behave, a + b, path, log, first) ==
        if r.Found? then (log1, r)
        else if r.NotFound? then Flat(behave, b, path, log1, first)
        else Flat(behave, b, path, log1, FirstError(first, r.error))
    decreases |a|
  {
    if a == [] {
      assert a + b == b;
    } else {
      var log1, r := log + [Asked(a[0], path)], behave(log, a[0], path);
      assert (a + b)[1..] == a[1..] + b;
      FlatCons(behave, a, path, log, None);
      FlatCons(behave, a + b, path, log, first);
      FlatAppend(behave, a[1..], b, path, log1, if r.Failed? then FirstError(first, r.error) else first);
      if r.Failed? { FlatFirst(behave, a[1..], path, log1, r.error); }
    }
  }

  /** Nested means flat: the same sites asked in the same order, and the same answer. */
  lemma {:induction false} NestedIsFlat(behave: Behaviour, u: Upstream, path: string, log: seq<Asked>)
    ensures Eval(behave, u, path, log) == Flat(behave, Leaves(u), path, log, None)
    decreases u, 1
  {
    match u
    case Client(site) => FlatCons(behave, [site], path, log, None);
    case FallthroughOf(us) => NestedIsFlatAll(behave, us, path, log, None);
  }

  lemma {:induction false} NestedIsFlatAll(behave: Behaviour, us: seq<Upstream>, path: string,
                              log: seq<Asked>, first: Option<string>)
    ensures EvalAll(behave, us, path, log, first) == Flat(behave, LeavesOf(us), path, log, first)
    decreases us, 0
  {
    if us != [] {
      NestedIsFlat(behave, us[0], path, log);
      var (log1, a) := Eval(behave, us[0], path, log);
      FlatAppend(behave, Leaves(us[0]), LeavesOf(us[1..]), path, log, first);
      NestedIsFlatAll(behave, us[1..], path, log1, if a.Failed? then FirstError(first, a.error) else first);
    }
  }

  // ----- First success, else first error, else not found -----

  function AskedAll(sites: seq<nat>, path: string): seq<Asked> {
    seq(|sites|, i requires 0 <= i < |sites| => Asked(sites[i], path))
  }

  /** What site i answers when it is asked after all sites before it. */
  function AnswerAt(behave: Behaviour, sites: seq<nat>, path: string, log: seq<Asked>, i: nat): Answer
    requires i < |sites|
  {
    behave(log + AskedAll(sites[..i], path), sites[i], path)
  }

  lemma AnswerLater(behave: Behaviour, sites: seq<nat>, path: string, log: seq<Asked>, i: nat)
    requires i + 1 < |sites|
    ensures AnswerAt(behave, sites[1..], path, log + [Asked(sites[0], path)], i) == AnswerAt(behave, sites, path, log, i + 1)
  {
    assert log + [Asked(sites[0], path)] + AskedAll(sites[1..][..i], path) == log + AskedAll(sites[..i + 1], path);
  }

  /** The first body found is the answer, and no site behind it is asked. */
  lemma {:induction false} FirstFound(behave: Behaviour, sites: seq<nat>, path: string, log: seq<Asked>,
                              first: Option<string>, i: nat)
    requires i < |sites| && AnswerAt(behave, sites, path, log, i).Found?
    requires forall j :: 0 <= j < i ==> !AnswerAt(behave, sites, path, log, j).Found?
    ensures Flat(behave, sites, path, log, first) == (log + AskedAll(sites[..i + 1], path), AnswerAt(behave, sites, path, log, i))
    decreases |sites|
  {
    var log1 := log + [Asked(sites[0], path)];
    FlatCons(behave, sites, path, log, first);
    assert log + AskedAll(sites[..0], path) == log;
    if i == 0 {
      assert log + AskedAll(sites[..1], path) == log1;
    } else {
      var a := AnswerAt(behave, sites, path, log, 0);
      forall j | 0 <= j < i - 1 ensures !AnswerAt(behave, sites[1..], path, log1, j).Found? {
        AnswerLater(behave, sites, path, log, j);
      }
      AnswerLater(behave, sites, path, log, i - 1);
      FirstFound(behave, sites[1..], path, log1, if a.Failed? then FirstError(first, a.error) else first, i - 1);
      assert log1 + AskedAll(sites[1..][..i], path) == log + AskedAll(sites[..i + 1], path);
    }
  }

  /** The error of the first site that fails, if any. */
  function FirstFailure(behave: Behaviour, sites: seq<nat>, path: string, log: seq<Asked>, i: nat): Option<string>
    requires i <= |sites|
    decreases |sites| - i
  {
    if i == |sites| then None
    else
      var a := AnswerAt(behave, sites, path, log, i);
      if a.Failed? then Some(a.error) else FirstFailure(behave, sites, path, log, i + 1)
  }

  lemma {:induction false} FailureLater(behave: Behaviour, sites: seq<nat>, path: string, log: seq<Asked>, i: nat)
    requires i + 1 <= |sites|
    ensures FirstFailure(behave, sites[1..], path, log + [Asked(sites[0], path)], i) == FirstFailure(behave, sites, path, log, i + 1)
    decreases |sites| - i
  {
    if i + 1 < |sites| {
      AnswerLater(behave, sites, path, log, i);
      FailureLater(behave, sites, path, log, i + 1);
    }
  }

  /** If no site finds a body, all are asked, and the first error is the answer, if any. */
  lemma {:induction false} NoneFound(behave: Behaviour, sites: seq<nat>, path: string, log: seq<Asked>,
                              first: Option<string>)
    requires forall j :: 0 <= j < |sites| ==> !AnswerAt(behave, sites, path, log, j).Found?
    ensures Flat(behave, sites, path, log, first) ==
      (log + AskedAll(sites, path), Remembered(if first.Some? then first else FirstFailure(behave, sites, path, log, 0)))
    decreases |sites|
  {
    if sites == [] {
      assert log + AskedAll(sites, path) == log;
    } else {
      var log1 := log + [Asked(sites[0], path)];
      FlatCons(behave, sites, path, log, first);
      assert log + AskedAll(sites[..0], path) == log;
      var a := AnswerAt(behave, sites, path, log, 0);
      forall j | 0 <= j < |sites| - 1 ensures !AnswerAt(behave, sites[1..], path, log1, j).Found? {
        AnswerLater(behave, sites, path, log, j);
      }
      NoneFound(behave, sites[1..], path, log1, if a.Failed? then FirstError(first, a.error) else first);
      FailureLater(behave, sites, path, log, 0);
      assert log1 + AskedAll(sites[1..], path) == log + AskedAll(sites, path);
    }
  }

  // ----- Building -----

  /**
   * What building comes to. The parts are built concurrently and the first
   * failure in time is returned, so it is one of these errors.
   */
  datatype Built = Ready(upstream: Upstream) | Broken(errors: seq<string>)

  /** Why the client of a site cannot be made, if it cannot. */
  type Failures = nat -> Option<string>

  function MakeClient(site: nat, fails: Failures): Built {
    match fails(site)
    case None => Ready(Client(site))
    case Some(error) => Broken([error])
  }

  /** `build_upstream`. */
  function Build(config: UpstreamConfig, fails: Failures): Built
    decreases config, 1
  {
    match config
    case Http(site) => MakeClient(site, fails)
    case S3(site) => MakeClient(site, fails)
    case Several(configs) =>
      var (made, errors) := BuildAll(configs, fails);
      if errors == [] then Ready(FallthroughOf(made)) else Broken(errors)
  }

  /** The upstreams that can be built, and the errors of the others. */
  function BuildAll(configs: seq<UpstreamConfig>, fails: Failures): (seq<Upstream>, seq<string>)
    decreases configs, 0
  {
    if configs == [] then ([], [])
    else
      var (made, errors) := BuildAll(configs[1..], fails);
      match Build(configs[0], fails)
      case Ready(u) => ([u] + made, errors)
      case Broken(es) => (made, es + errors)
  }

  function Sites(config: UpstreamConfig): seq<nat>
    decreases config, 1
  {
    match config
    case Http(site) => [site]
    case S3(site) => [site]
    case Several(configs) => SitesOf(configs)
  }

  function SitesOf(configs: seq<UpstreamConfig>): seq<nat>
    decreases configs, 0
  {
    if configs == [] then [] else Sites(configs[0]) + SitesOf(configs[1..])
  }

  /** The errors of the sites whose clients cannot be made, in order. */
  function ErrorsOf(sites: seq<nat>, fails: Failures): seq<string> {
    if sites == [] then []
    else (if fails(sites[0]).Some? then [fails(sites[0]).value] else []) + ErrorsOf(sites[1..], fails)
  }

  lemma {:induction false} ErrorsAppend(a: seq<nat>, b: seq<nat>, fails: Failures)
    ensures ErrorsOf(a + b, fails) == ErrorsOf(a, fails) + ErrorsOf(b, fails)
  {
    if a == [] {
      assert a + b == b;
    } else {
      assert (a + b)[1..] == a[1..] + b;
      ErrorsAppend(a[1..], b, fails);
    }
  }

  lemma {:induction false} ErrorsNone(sites: seq<nat>, fails: Failures)
    ensures ErrorsOf(sites, fails) == [] <==> forall site :: site in sites ==> fails(site).None?
  {
    if sites != [] {
      ErrorsNone(sites[1..], fails);
      assert sites == [sites[0]] + sites[1..];
    }
  }

  /** The errors of a build are those of its sites; without any, it has its sites from left to right. */
  ghost predicate BuiltAs(b: Built, sites: seq<nat>, fails: Failures) {
    match b
    case Ready(u) => ErrorsOf(sites, fails) == [] && Leaves(u) == sites
    case Broken(errors) => errors != [] && errors == ErrorsOf(sites, fails)
  }

  lemma {:induction false} BuildKeepsSites(config: UpstreamConfig, fails: Failures)
    ensures BuiltAs(Build(config, fails), Sites(config), fails)
    decreases config, 1
  {
    if config.Several? { BuildAllKeepsSites(config.upstreams, fails); }
  }

  lemma {:induction false} BuildAllKeepsSites(configs: seq<UpstreamConfig>, fails: Failures)
    ensures BuildAll(configs, fails).1 == ErrorsOf(SitesOf(configs), fails)
    ensures BuildAll(configs, fails).1 == [] ==> LeavesOf(BuildAll(configs, fails).0) == SitesOf(configs)
    decreases configs, 0
  {
    if configs != [] {
      BuildKeepsSites(configs[0], fails);
      BuildAllKeepsSites(configs[1..], fails);
      ErrorsAppend(Sites(configs[0]), SitesOf(configs[1..]), fails);
      var one, all := Build(configs[0], fails), BuildAll(configs, fails).0;
      if one.Ready? { assert all[1..] == BuildAll(configs[1..], fails).0; }
    }
  }

  /**
   * A configuration tree of any shape means its list of sites: it builds exactly
   * if all its clients can be made, and then behaves as one fallthrough over them
   * from left to right; else it fails with an error of a site whose client cannot
   * be made.
   */
  lemma ConfigIsFlat(config: UpstreamConfig, fails: Failures, behave: Behaviour, path: string, log: seq<Asked>)
    ensures Build(config, fails).Ready? <==> forall site :: site in Sites(config) ==> fails(site).None?
    ensures Build(config, fails).Ready? ==>
      Eval(behave, Build(config, fails).upstream, path, log) == Flat(behave, Sites(config), path, log, None)
    ensures Build(config, fails).Broken? ==> Build(config, fails).errors == ErrorsOf(Sites(config), fails) != []
  {
    BuildKeepsSites(config, fails);
    ErrorsNone(Sites(config), fails);
    if Build(config, fails).Ready? { NestedIsFlat(behave, Build(config, fails).upstream, path, log); }
  }
}
