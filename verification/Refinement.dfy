/**
 The objects are the steps.

 HotReload speaks of steps on values; the transport, its bodies and the reload are code on objects.  Here
 what the code does is shown to be what the steps do, so that the results on runs speak of the code.
 */
module Refinement {
  import opened Common
  import opened Circuit
  import opened ProviderMetrics
  import opened Transport
  import opened HotReload
  import Runtime

  // ---------------------------------------------------------------- a round trip

  /** The part of a state a round trip of `provider` through breaker `id` can touch. */
  predicate Shows(s: System, id: nat, b: Breaker, registry: Registry) {
    id < |s.breakers| && s.breakers[id] == b && s.metrics == registry
  }

  /** A refused round trip is one step that ends the request and touches nothing else. */
  lemma RefusedIsStep(s: System, r: nat, asked: int)
    requires Possible(s, AskBreaker(r, asked))
    requires Decide(s.breakers[s.requests[r].breaker], asked).Rejected?
    ensures var s' := Apply(s, AskBreaker(r, asked));
            && Shows(s', s.requests[r].breaker, s.breakers[s.requests[r].breaker], s.metrics)
            && r !in s'.requests
  {
  }

  /** What the transport does before the exchange: ask the breaker and count the round trip in. */
  lemma AdmittedIsSteps(s: System, r: nat, asked: int)
    requires Possible(s, AskBreaker(r, asked))
    requires Decide(s.breakers[s.requests[r].breaker], asked).Admitted?
    ensures var (q, b) := (s.requests[r], s.breakers[s.requests[r].breaker]);
            var s1 := Apply(s, AskBreaker(r, asked));
            && Possible(s1, CountIn(r))
            && var s2 := Apply(s1, CountIn(r));
               && Shows(s2, q.breaker, AfterAllow(b, asked), AfterBegin(s.metrics, q.provider))
               && r in s2.requests
               && s2.requests[r] == Request(q.provider, q.breaker, Begun(Decide(b, asked).permit))
  {
  }

  /** What a completion does, on any of the three endings: count the round trip out and give the permit
      back. */
  lemma CompletionIsSteps(s: System, r: nat, ending: Ending, clock: Clock)
    requires Possible(s, CountOut(r, ending, clock.elapsed, clock.countedAt))
    requires s.requests[r].breaker < |s.breakers|
    ensures var q := s.requests[r];
            var s1 := Apply(s, CountOut(r, ending, clock.elapsed, clock.countedAt));
            && Possible(s1, GiveBack(r, clock.finishedAt))
            && var s2 := Apply(s1, GiveBack(r, clock.finishedAt));
               && Shows(s2, q.breaker,
                        Circuit.AfterFinish(s.breakers[q.breaker], q.phase.permit, Judge(ending).failed,
                                            clock.finishedAt),
                        CountedIn(s.metrics, q.provider, Judge(ending), clock))
               && r !in s2.requests
  {
  }

  /** The steps of one round trip that gets no stream. */
  function RoundTripSteps(r: nat, asked: int, ending: Ending, clock: Clock): seq<Action> {
    [AskBreaker(r, asked), CountIn(r), CountOut(r, ending, clock.elapsed, clock.countedAt),
     GiveBack(r, clock.finishedAt)]
  }

  lemma Steps(s: System, a: Action, next: System, rest: seq<Action>)
    requires Possible(s, a) && Apply(s, a) == next && Feasible(next, rest)
    ensures Feasible(s, [a] + rest) && Run(s, [a] + rest) == Run(next, rest)
  {
    assert ([a] + rest)[1..] == rest;
  }

  /**
   The transport refines the steps.  From any state in which request r has read a snapshot, RoundTrip on
   that breaker and those counters leaves, for an error or a bare response, what its four steps leave.
   */
  method RoundTripRefines(
      transport: ProviderTransport, asked: int, base: BaseResult, aborted: bool, clock: Clock,
      ghost s: System, ghost r: nat)
    returns (response: Response)
    requires r in s.requests && s.requests[r].phase.Routed? && s.requests[r].provider == transport.provider
    requires Shows(s, s.requests[r].breaker, transport.breaker.Value(), transport.metrics.providers)
    requires !base.BaseStream?
    modifies transport.metrics, transport.breaker
    ensures var id := s.requests[r].breaker;
            var ending := if base.BaseError? then NoResponse(aborted) else NoBody(base.status);
            if response.CircuitOpen? then
              && Possible(s, AskBreaker(r, asked))
              && Shows(Apply(s, AskBreaker(r, asked)), id, transport.breaker.Value(), transport.metrics.providers)
            else
              var actions := RoundTripSteps(r, asked, ending, clock);
              && Feasible(s, actions)
              && Shows(Run(s, actions), id, transport.breaker.Value(), transport.metrics.providers)
  {
    ghost var id := s.requests[r].breaker;
    ghost var b := transport.breaker.Value();
    response := transport.RoundTrip(asked, base, aborted, clock);
    if response.CircuitOpen? {
      RefusedIsStep(s, r, asked);
    } else {
      WholeRoundTrip(s, r, asked, if base.BaseError? then NoResponse(aborted) else NoBody(base.status), clock);
    }
  }

  lemma WholeRoundTrip(s: System, r: nat, asked: int, ending: Ending, clock: Clock)
    requires Possible(s, AskBreaker(r, asked))
    requires Decide(s.breakers[s.requests[r].breaker], asked).Admitted?
    ensures var (q, b) := (s.requests[r], s.breakers[s.requests[r].breaker]);
            var actions := RoundTripSteps(r, asked, ending, clock);
            && Feasible(s, actions)
            && Shows(Run(s, actions), q.breaker,
                     Circuit.AfterFinish(AfterAllow(b, asked), Decide(b, asked).permit, Judge(ending).failed,
                                         clock.finishedAt),
                     CountedIn(AfterBegin(s.metrics, q.provider), q.provider, Judge(ending), clock))
  {
    AdmittedIsSteps(s, r, asked);
    var s1 := Apply(s, AskBreaker(r, asked));
    var s2 := Apply(s1, CountIn(r));
    CompletionIsSteps(s2, r, ending, clock);
    var out := CountOut(r, ending, clock.elapsed, clock.countedAt);
    var s3 := Apply(s2, out);
    var s4 := Apply(s3, GiveBack(r, clock.finishedAt));
    Steps(s3, GiveBack(r, clock.finishedAt), s4, []);
    Steps(s2, out, s3, [GiveBack(r, clock.finishedAt)] + []);
    Steps(s1, CountIn(r), s2, [out] + ([GiveBack(r, clock.finishedAt)] + []));
    Steps(s, AskBreaker(r, asked), s1, [CountIn(r)] + ([out] + ([GiveBack(r, clock.finishedAt)] + [])));
    assert RoundTripSteps(r, asked, ending, clock)
        == [AskBreaker(r, asked)] + ([CountIn(r)] + ([out] + ([GiveBack(r, clock.finishedAt)] + [])));
  }

  /** A counted completion shows in the counters with the clock readings it took. */
  lemma CountedInExact(registry: Registry, provider: string, c: Completion, clock: Clock)
    requires !IsBlank(provider)
    ensures var (was, now) := (Entry(registry, provider), Entry(CountedIn(registry, provider, c, clock), provider));
            && now.requests == was.requests + 1
            && now.duration == was.duration + clock.elapsed
            && now.lastDuration == clock.elapsed
            && now.lastRequest == clock.countedAt
            && now.lastStatus == c.status
  {
  }

  // ---------------------------------------------------------------- a reload

  lemma {:induction false} RunAppend(s: System, first: seq<Action>, second: seq<Action>)
    requires Feasible(s, first) && Feasible(Run(s, first), second)
    ensures Feasible(s, first + second) && Run(s, first + second) == Run(Run(s, first), second)
    decreases |first|
  {
    if first == [] {
      assert first + second == second;
    } else {
      assert (first + second)[1..] == first[1..] + second;
      RunAppend(Apply(s, first[0]), first[1..], second);
    }
  }

  lemma RunOne(s: System, a: Action)
    requires Possible(s, a)
    ensures Feasible(s, [a]) && Run(s, [a]) == Apply(s, a)
  {
    assert [a][1..] == [];
    assert Run(Apply(s, a), []) == Apply(s, a);
  }

  lemma RunLast(s: System, actions: seq<Action>, s': System, a: Action)
    requires Feasible(s, actions) && Run(s, actions) == s' && Possible(s', a)
    ensures Feasible(s, actions + [a]) && Run(s, actions + [a]) == Apply(s', a)
  {
    RunOne(s', a);
    RunAppend(s, actions, [a]);
  }

  /** The published breakers of a state have these values, by name. */
  ghost predicate Mirrors(s: System, breakers: map<string, Breaker>) {
    && s.current.Keys == breakers.Keys
    && (forall name :: name in breakers ==>
          s.current[name] < |s.breakers| && s.breakers[s.current[name]] == breakers[name])
  }

  /** Breakers of earlier generations, and requests, are as they were. */
  ghost predicate LeavesOthers(s: System, s': System) {
    && s'.requests == s.requests
    && |s'.breakers| >= |s.breakers|
    && (forall id :: 0 <= id < |s.breakers| ==> s'.breakers[id] == s.breakers[id])
  }

  /** One Build per configured provider, in order. */
  function Builds(rt: Runtime.Settings, n: nat): seq<Action>
    requires n <= |rt.config.providers|
  {
    if n == 0 then []
    else
      var name := rt.config.providers[n - 1].name;
      Builds(rt, n - 1) + [Build(name, Runtime.CircuitPolicyFor(rt, name))]
  }

  function ReloadSteps(rt: Runtime.Settings, now: int): seq<Action> {
    [StartReload(now)] + Builds(rt, |rt.config.providers|) + [Publish]
  }

  /** The state after the first n builds. */
  ghost predicate BuiltSoFar(
      s: System, s': System, rt: Runtime.Settings, before: map<string, Breaker>, now: int, n: nat)
    requires n <= |rt.config.providers|
  {
    && LeavesOthers(s, s')
    && s'.current == s.current
    && s'.reload.Building? && s'.reload.now == now
    && HasExpected(s', rt, before, now, n)
    && s'.metrics == Runtime.RegisteredUpTo(s.metrics, rt.config.providers, n)
  }

  ghost predicate HasExpected(s: System, rt: Runtime.Settings, before: map<string, Breaker>, now: int, n: nat)
    requires n <= |rt.config.providers| && s.reload.Building?
  {
    var built := s.reload.built;
    && built.Keys == Runtime.NamesUpTo(rt.config.providers, n)
    && (forall name :: name in built ==>
          built[name] < |s.breakers| && s.breakers[built[name]] == Runtime.Expected(rt, name, before, now))
  }

  /** HotReload's build is the breaker the code expects. */
  lemma BuildIsExpected(
      s: System, s': System, rt: Runtime.Settings, before: map<string, Breaker>, now: int, name: string)
    requires Mirrors(s, before) && LeavesOthers(s, s') && s'.current == s.current
    requires s'.reload.Building? && s'.reload.now == now
    ensures var a := Build(name, Runtime.CircuitPolicyFor(rt, name));
            && Possible(s', a)
            && BuiltBreaker(s', name, a.policy, now) == Runtime.Expected(rt, name, before, now)
  {
  }

  /** What one build does. */
  lemma BuildMoves(s: System, name: string, policy: Policy)
    requires Possible(s, Build(name, policy))
    ensures var s' := Apply(s, Build(name, policy));
            && s'.requests == s.requests && s'.current == s.current
            && s'.breakers == s.breakers + [BuiltBreaker(s, name, policy, s.reload.now)]
            && s'.reload == Building(s.reload.built[name := |s.breakers|], s.reload.now)
            && s'.metrics == Registered(s.metrics, name)
  {
  }

  lemma OneMoreExpected(s: System, s': System, rt: Runtime.Settings, before: map<string, Breaker>, now: int, n: nat)
    requires n < |rt.config.providers| && s.reload.Building? && s'.reload.Building?
    requires HasExpected(s, rt, before, now, n)
    requires s'.reload.built == s.reload.built[rt.config.providers[n].name := |s.breakers|]
    requires s'.breakers == s.breakers + [Runtime.Expected(rt, rt.config.providers[n].name, before, now)]
    ensures HasExpected(s', rt, before, now, n + 1)
  {
  }

  lemma BuildNext(s: System, s': System, rt: Runtime.Settings, before: map<string, Breaker>, now: int, n: nat)
    requires n < |rt.config.providers| && Mirrors(s, before) && BuiltSoFar(s, s', rt, before, now, n)
    ensures var name := rt.config.providers[n].name;
            var a := Build(name, Runtime.CircuitPolicyFor(rt, name));
            Possible(s', a) && BuiltSoFar(s, Apply(s', a), rt, before, now, n + 1)
  {
    var name := rt.config.providers[n].name;
    var a := Build(name, Runtime.CircuitPolicyFor(rt, name));
    BuildIsExpected(s, s', rt, before, now, name);
    BuildMoves(s', name, a.policy);
    OneMoreExpected(s', Apply(s', a), rt, before, now, n);
  }

  lemma {:induction false} BuildsRun(
      s: System, started: System, rt: Runtime.Settings, before: map<string, Breaker>, now: int, n: nat)
    requires n <= |rt.config.providers| && Mirrors(s, before) && BuiltSoFar(s, started, rt, before, now, 0)
    ensures Feasible(started, Builds(rt, n)) && BuiltSoFar(s, Run(started, Builds(rt, n)), rt, before, now, n)
    decreases n
  {
    if n > 0 {
      BuildsRun(s, started, rt, before, now, n - 1);
      var s' := Run(started, Builds(rt, n - 1));
      var name := rt.config.providers[n - 1].name;
      var a := Build(name, Runtime.CircuitPolicyFor(rt, name));
      BuildNext(s, s', rt, before, now, n - 1);
      RunLast(started, Builds(rt, n - 1), s', a);
    }
  }

  /** The steps of a reload publish the expected breakers and leave everything else. */
  lemma ReloadStepsRun(
      s: System, rt: Runtime.Settings, before: map<string, Breaker>, after: map<string, Breaker>, now: int)
    requires s.reload.Idle? && Mirrors(s, before)
    requires Runtime.IsBuild(rt, before, after, now)
    ensures Feasible(s, ReloadSteps(rt, now))
    ensures var s' := Run(s, ReloadSteps(rt, now));
            && Mirrors(s', after) && LeavesOthers(s, s') && s'.reload.Idle?
            && s'.metrics == Runtime.RegisteredUpTo(s.metrics, rt.config.providers, |rt.config.providers|)
  {
    var n := |rt.config.providers|;
    var started := Apply(s, StartReload(now));
    BuildsRun(s, started, rt, before, now, n);
    var built := Run(started, Builds(rt, n));
    RunOne(s, StartReload(now));
    RunAppend(s, [StartReload(now)], Builds(rt, n));
    RunOne(built, Publish);
    RunAppend(s, [StartReload(now)] + Builds(rt, n), [Publish]);
  }

  /** A reload that fails after n builds and is abandoned has registered those names and changed nothing
      that requests can see. */
  lemma AbandonedStepsRun(s: System, rt: Runtime.Settings, before: map<string, Breaker>, now: int, n: nat)
    requires s.reload.Idle? && Mirrors(s, before) && n <= |rt.config.providers|
    ensures var actions := [StartReload(now)] + Builds(rt, n) + [Abandon];
            && Feasible(s, actions)
            && var s' := Run(s, actions);
               && s'.current == s.current && Mirrors(s', before) && LeavesOthers(s, s') && s'.reload.Idle?
               && s'.metrics == Runtime.RegisteredUpTo(s.metrics, rt.config.providers, n)
  {
    var started := Apply(s, StartReload(now));
    BuildsRun(s, started, rt, before, now, n);
    var built := Run(started, Builds(rt, n));
    RunOne(s, StartReload(now));
    RunAppend(s, [StartReload(now)], Builds(rt, n));
    RunOne(built, Abandon);
    RunAppend(s, [StartReload(now)] + Builds(rt, n), [Abandon]);
  }

  /**
   The reload refines the steps.  From any state that shows the gateway's breakers and counters, a
   successful Gateway.Reload leaves what StartReload, one Build per configured provider and Publish leave;
   one that is refused or finds nothing to do leaves the published breakers as they are.
   */
  method ReloadRefines(
      gateway: Runtime.Gateway, rt: Runtime.Settings, now: int, loggedAt: int, errorText: string, ghost s: System)
    returns (result: Runtime.ReloadResult)
    requires gateway.Valid() && gateway.rateLimits.Valid() && gateway.logs.Valid()
    requires s.reload.Idle? && Mirrors(s, Runtime.BreakersOf(Some(gateway.runtime)))
    requires s.metrics == gateway.metrics.providers
    modifies gateway`runtime, gateway.metrics, gateway.rateLimits, gateway.logs, gateway.logs.entries
    ensures gateway.Valid()
    ensures result.Reloaded? ==>
              && Feasible(s, ReloadSteps(rt, now))
              && var s' := Run(s, ReloadSteps(rt, now));
                 && Mirrors(s', Runtime.BreakersOf(Some(gateway.runtime)))
                 && s'.metrics == gateway.metrics.providers
                 && LeavesOthers(s, s')
    ensures !result.Reloaded? ==> gateway.runtime == old(gateway.runtime)
  {
    ghost var before := Runtime.BreakersOf(Some(gateway.runtime));
    result := gateway.Reload(rt, now, loggedAt, errorText);
    if result.Reloaded? {
      ReloadStepsRun(s, rt, before, Runtime.BreakersOf(Some(gateway.runtime)), now);
    }
  }
}
