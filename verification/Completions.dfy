/**
 When a provider's `consecutiveFailures` and its breaker's `failures` agree.

 A completion is two steps: it is counted (CountOut) and then its permit is given back (GiveBack).
 The counters follow the order of the first, the breaker that of the second.
 */
module Completions {
  import opened Circuit
  import opened BreakerRuns
  import opened ProviderMetrics
  import opened Transport
  import opened HotReload

  // ---------------------------------------------------------------- each follows its own order

  /** Whether completions counted for the provider failed, in the order they were counted. */
  function Counted(s: System, actions: seq<Action>, provider: string): seq<bool>
    requires Feasible(s, actions)
    decreases |actions|
  {
    if actions == [] then []
    else CountedNow(s, actions[0], provider) + Counted(Apply(s, actions[0]), actions[1..], provider)
  }

  function CountedNow(s: System, a: Action, provider: string): seq<bool>
    requires Possible(s, a)
  {
    if a.CountOut? && s.requests[a.r].provider == provider then [Judge(a.ending).failed] else []
  }

  /** The same for the permits given back to breaker `id`, in that order. */
  function Returned(s: System, actions: seq<Action>, id: nat): seq<bool>
    requires Feasible(s, actions)
    decreases |actions|
  {
    if actions == [] then []
    else ReturnedNow(s, actions[0], id) + Returned(Apply(s, actions[0]), actions[1..], id)
  }

  function ReturnedNow(s: System, a: Action, id: nat): seq<bool>
    requires Possible(s, a)
  {
    if a.GiveBack? && s.requests[a.r].breaker == id then [s.requests[a.r].phase.failed] else []
  }

  /** A failing tail of known length. */
  lemma TailGrows(seen: seq<bool>, failed: bool)
    ensures TrailingFailures(seen + [failed]) == if failed then TrailingFailures(seen) + 1 else 0
  {
    assert (seen + [failed])[..|seen|] == seen;
  }

  ghost predicate CountersFollow(s: System, provider: string, seen: seq<bool>) {
    Entry(s.metrics, provider).consecutiveFailures == TrailingFailures(seen)
  }

  /** A breaker that is enabled, and whose failures while closed are the failing tail. */
  ghost predicate BreakerFollows(s: System, id: nat, seen: seq<bool>) {
    && id < |s.breakers|
    && s.breakers[id].enabled
    && (s.breakers[id].state == Closed ==> s.breakers[id].failures == TrailingFailures(seen))
  }

  lemma CounterMoves(s: System, a: Action, provider: string)
    requires Possible(s, a) && !IsBlank(provider)
    ensures var (was, next) := (Entry(s.metrics, provider).consecutiveFailures,
                              Entry(Apply(s, a).metrics, provider).consecutiveFailures);
            next == if !CountedFor(s, a, provider) then was else if Judge(a.ending).failed then was + 1 else 0
  {
    match a {
      case CountIn(r) =>
      case CountOut(r, ending, _, _) =>
      case Build(_, _) =>
      case _ => assert Apply(s, a).metrics == s.metrics;
    }
  }

  predicate CountedFor(s: System, a: Action, provider: string)
    requires Possible(s, a)
  {
    a.CountOut? && s.requests[a.r].provider == provider
  }

  lemma CountersFollowStep(s: System, a: Action, provider: string, seen: seq<bool>)
    requires Possible(s, a) && !IsBlank(provider) && CountersFollow(s, provider, seen)
    ensures CountersFollow(Apply(s, a), provider, seen + CountedNow(s, a, provider))
  {
    CounterMoves(s, a, provider);
    if CountedFor(s, a, provider) {
      TailGrows(seen, Judge(a.ending).failed);
    } else {
      assert seen + [] == seen;
    }
  }

  lemma BreakerMoves(s: System, a: Action, id: nat)
    requires Possible(s, a) && id < |s.breakers|
    ensures id < |Apply(s, a).breakers|
    ensures Apply(s, a).breakers[id]
            == if a.AskBreaker? && s.requests[a.r].breaker == id then AfterAllow(s.breakers[id], a.now)
               else if a.GiveBack? && s.requests[a.r].breaker == id then
                 Circuit.AfterFinish(s.breakers[id], s.requests[a.r].phase.permit, s.requests[a.r].phase.failed, a.now)
               else s.breakers[id]
  {
  }

  lemma BreakerFollowsStep(s: System, a: Action, id: nat, seen: seq<bool>)
    requires Possible(s, a) && BreakerFollows(s, id, seen)
    ensures BreakerFollows(Apply(s, a), id, seen + ReturnedNow(s, a, id))
  {
    BreakerMoves(s, a, id);
    if a.GiveBack? && s.requests[a.r].breaker == id {
      TailGrows(seen, s.requests[a.r].phase.failed);
    } else {
      assert seen + [] == seen;
    }
  }

  lemma Associate(a: seq<bool>, b: seq<bool>, c: seq<bool>)
    ensures a + (b + c) == a + b + c
  {
  }

  /** Along any run, reloads included, the counter is the failing tail of the outcomes in the order they
      were counted. */
  lemma {:induction false} CountersFollowCounting(s: System, actions: seq<Action>, provider: string, seen: seq<bool>)
    requires Feasible(s, actions) && !IsBlank(provider) && CountersFollow(s, provider, seen)
    ensures CountersFollow(Run(s, actions), provider, seen + Counted(s, actions, provider))
    decreases |actions|
  {
    if actions == [] {
      assert seen + [] == seen;
    } else {
      var now := CountedNow(s, actions[0], provider);
      CountersFollowStep(s, actions[0], provider, seen);
      CountersFollowCounting(Apply(s, actions[0]), actions[1..], provider, seen + now);
      Associate(seen, now, Counted(Apply(s, actions[0]), actions[1..], provider));
    }
  }

  /** And the breaker's failures, while it is closed, are the failing tail in the order permits came
      back: late completions and probes included. */
  lemma {:induction false} BreakerFollowsReturns(s: System, actions: seq<Action>, id: nat, seen: seq<bool>)
    requires Feasible(s, actions) && BreakerFollows(s, id, seen)
    ensures BreakerFollows(Run(s, actions), id, seen + Returned(s, actions, id))
    decreases |actions|
  {
    if actions == [] {
      assert seen + [] == seen;
    } else {
      var now := ReturnedNow(s, actions[0], id);
      BreakerFollowsStep(s, actions[0], id, seen);
      BreakerFollowsReturns(Apply(s, actions[0]), actions[1..], id, seen + now);
      Associate(seen, now, Returned(Apply(s, actions[0]), actions[1..], id));
    }
  }

  // ---------------------------------------------------------------- one generation, in order

  /** Every live request of the provider was routed to breaker `id`, and so will later ones be. */
  predicate OneGeneration(s: System, provider: string, id: nat) {
    && HotReload.Named(s)
    && id < |s.breakers| && s.madeFor[id] == provider
    && Publishes(s, provider, id)
    && RoutesTo(s, provider, id)
  }

  predicate NoBuild(actions: seq<Action>, provider: string) {
    forall i :: 0 <= i < |actions| && actions[i].Build? ==> actions[i].provider != provider
  }

  lemma OneGenerationStep(s: System, a: Action, provider: string, id: nat)
    requires OneGeneration(s, provider, id) && Possible(s, a) && (a.Build? ==> a.provider != provider)
    ensures OneGeneration(Apply(s, a), provider, id)
  {
    NamedStep(s, a);
    BreakersKept(s, a, id);
    RoutesStep(s, a, provider, id);
    SnapshotsStep(s, a, provider, id);
  }

  lemma BreakersKept(s: System, a: Action, id: nat)
    requires HotReload.Named(s) && Possible(s, a) && id < |s.breakers|
    ensures id < |Apply(s, a).breakers| && |Apply(s, a).madeFor| == |Apply(s, a).breakers|
    ensures Apply(s, a).madeFor[id] == s.madeFor[id]
  {
  }

  predicate RoutesTo(s: System, provider: string, id: nat) {
    forall r :: r in s.requests && s.requests[r].provider == provider ==> s.requests[r].breaker == id
  }

  predicate Publishes(s: System, provider: string, id: nat) {
    && (provider in s.current ==> s.current[provider] == id)
    && (s.reload.Building? && provider in s.reload.built ==> s.reload.built[provider] == id)
  }

  lemma RoutesStep(s: System, a: Action, provider: string, id: nat)
    requires Possible(s, a) && RoutesTo(s, provider, id) && Publishes(s, provider, id)
    ensures RoutesTo(Apply(s, a), provider, id)
  {
    if a.AskBreaker? {
      assert forall q :: q in Apply(s, a).requests ==>
          q in s.requests && Apply(s, a).requests[q].breaker == s.requests[q].breaker
          && Apply(s, a).requests[q].provider == s.requests[q].provider;
    }
  }

  lemma SnapshotsStep(s: System, a: Action, provider: string, id: nat)
    requires Possible(s, a) && Publishes(s, provider, id) && (a.Build? ==> a.provider != provider)
    ensures Publishes(Apply(s, a), provider, id)
  {
    if a.AskBreaker? {
      assert Apply(s, a).current == s.current && Apply(s, a).reload == s.reload;
    }
  }

  predicate Uncompleted(s: System, r: nat, provider: string) {
    r in s.requests && s.requests[r].provider == provider && s.requests[r].phase.CountedOut?
  }

  /** `queue` lists the provider's completions that were counted and not yet given back, oldest first. */
  ghost predicate IsQueue(s: System, queue: seq<nat>, provider: string) {
    && (forall i :: 0 <= i < |queue| ==> Uncompleted(s, queue[i], provider))
    && (forall i, j :: 0 <= i < j < |queue| ==> queue[i] != queue[j])
    && (forall r :: Uncompleted(s, r, provider) ==> r in queue)
  }

  ghost function FailedOf(s: System, queue: seq<nat>, provider: string): (outcomes: seq<bool>)
    requires IsQueue(s, queue, provider)
    ensures |outcomes| == |queue|
    ensures forall i :: 0 <= i < |queue| ==> outcomes[i] == s.requests[queue[i]].phase.failed
  {
    seq(|queue|, i requires 0 <= i < |queue| => s.requests[queue[i]].phase.failed)
  }

  function QueueAfter(s: System, a: Action, queue: seq<nat>, provider: string): seq<nat>
    requires Possible(s, a)
  {
    if a.CountOut? && s.requests[a.r].provider == provider then queue + [a.r]
    else if a.GiveBack? && s.requests[a.r].provider == provider && queue != [] then queue[1..]
    else queue
  }

  /** Permits of the provider come back in the order their completions were counted. */
  predicate InOrder(s: System, actions: seq<Action>, queue: seq<nat>, provider: string)
    requires Feasible(s, actions)
    decreases |actions|
  {
    actions == [] ||
    (&& (actions[0].GiveBack? && s.requests[actions[0].r].provider == provider
         ==> queue != [] && queue[0] == actions[0].r)
     && InOrder(Apply(s, actions[0]), actions[1..], QueueAfter(s, actions[0], queue, provider), provider))
  }

  lemma QueueStep(s: System, a: Action, queue: seq<nat>, provider: string)
    requires Possible(s, a) && IsQueue(s, queue, provider)
    requires a.GiveBack? && s.requests[a.r].provider == provider ==> queue != [] && queue[0] == a.r
    ensures IsQueue(Apply(s, a), QueueAfter(s, a, queue, provider), provider)
  {
    match a {
      case CountOut(r, _, _, _) => QueueGrows(s, a, queue, provider);
      case GiveBack(r, _) => QueueShrinks(s, a, queue, provider);
      case _ =>
        assert forall r :: Uncompleted(Apply(s, a), r, provider) <==> Uncompleted(s, r, provider);
    }
  }

  lemma QueueGrows(s: System, a: Action, queue: seq<nat>, provider: string)
    requires a.CountOut? && Possible(s, a) && IsQueue(s, queue, provider)
    ensures IsQueue(Apply(s, a), QueueAfter(s, a, queue, provider), provider)
  {
    var s', queue' := Apply(s, a), QueueAfter(s, a, queue, provider);
    assert a.r !in queue;
    forall r | Uncompleted(s', r, provider) ensures r in queue' {
      if r == a.r {
        assert queue'[|queue|] == r;
      } else {
        assert Uncompleted(s, r, provider);
      }
    }
  }

  lemma QueueShrinks(s: System, a: Action, queue: seq<nat>, provider: string)
    requires a.GiveBack? && Possible(s, a) && IsQueue(s, queue, provider)
    requires s.requests[a.r].provider == provider ==> queue != [] && queue[0] == a.r
    ensures IsQueue(Apply(s, a), QueueAfter(s, a, queue, provider), provider)
  {
    var s', queue' := Apply(s, a), QueueAfter(s, a, queue, provider);
    forall r | Uncompleted(s', r, provider) ensures r in queue' {
      assert Uncompleted(s, r, provider);
      var i :| 0 <= i < |queue| && queue[i] == r;
      if s.requests[a.r].provider == provider {
        assert queue'[i - 1] == r;
      }
    }
    if s.requests[a.r].provider != provider {
      assert a.r !in queue;
    }
  }

  /** A completion that was just counted joins the queue, one that was given back leaves it. */
  lemma FailedOfNext(s: System, a: Action, queue: seq<nat>, provider: string)
    requires Possible(s, a) && IsQueue(s, queue, provider)
    requires IsQueue(Apply(s, a), QueueAfter(s, a, queue, provider), provider)
    requires a.GiveBack? && s.requests[a.r].provider == provider ==> queue != [] && queue[0] == a.r
    ensures var was := FailedOf(s, queue, provider);
            var next := FailedOf(Apply(s, a), QueueAfter(s, a, queue, provider), provider);
            && (CountedFor(s, a, provider) ==> next == was + [Judge(a.ending).failed])
            && (ReturnedFor(s, a, provider) ==> was == [s.requests[a.r].phase.failed] + next)
            && (!CountedFor(s, a, provider) && !ReturnedFor(s, a, provider) ==> next == was)
  {
    if CountedFor(s, a, provider) {
      FailedOfCounted(s, a, queue, provider);
    } else if ReturnedFor(s, a, provider) {
      FailedOfReturned(s, a, queue, provider);
    } else {
      FailedOfOther(s, a, queue, provider);
    }
  }

  predicate ReturnedFor(s: System, a: Action, provider: string)
    requires Possible(s, a)
  {
    a.GiveBack? && s.requests[a.r].provider == provider
  }

  lemma FailedOfCounted(s: System, a: Action, queue: seq<nat>, provider: string)
    requires Possible(s, a) && CountedFor(s, a, provider) && IsQueue(s, queue, provider)
    requires IsQueue(Apply(s, a), queue + [a.r], provider)
    ensures FailedOf(Apply(s, a), queue + [a.r], provider) == FailedOf(s, queue, provider) + [Judge(a.ending).failed]
  {
    var s', queue' := Apply(s, a), queue + [a.r];
    forall i | 0 <= i < |queue| ensures s'.requests[queue'[i]] == s.requests[queue[i]] {
      assert Uncompleted(s, queue[i], provider);
    }
  }

  lemma FailedOfReturned(s: System, a: Action, queue: seq<nat>, provider: string)
    requires Possible(s, a) && ReturnedFor(s, a, provider) && IsQueue(s, queue, provider)
    requires queue != [] && queue[0] == a.r && IsQueue(Apply(s, a), queue[1..], provider)
    ensures FailedOf(s, queue, provider)
            == [s.requests[a.r].phase.failed] + FailedOf(Apply(s, a), queue[1..], provider)
  {
    var was, next := FailedOf(s, queue, provider), FailedOf(Apply(s, a), queue[1..], provider);
    forall i | 0 <= i < |next| ensures was[i + 1] == next[i] {
      OthersStay(s, a, queue[1..][i]);
    }
    FirstAndRest(was, next);
  }

  lemma OthersStay(s: System, a: Action, r: nat)
    requires a.GiveBack? && Possible(s, a) && r in Apply(s, a).requests
    ensures r in s.requests && Apply(s, a).requests[r] == s.requests[r]
  {
  }

  lemma FirstAndRest(was: seq<bool>, next: seq<bool>)
    requires |was| == |next| + 1 && forall i :: 0 <= i < |next| ==> was[i + 1] == next[i]
    ensures was == [was[0]] + next
  {
  }

  lemma FailedOfOther(s: System, a: Action, queue: seq<nat>, provider: string)
    requires Possible(s, a) && !CountedFor(s, a, provider) && !ReturnedFor(s, a, provider)
    requires IsQueue(s, queue, provider) && IsQueue(Apply(s, a), queue, provider)
    ensures FailedOf(Apply(s, a), queue, provider) == FailedOf(s, queue, provider)
  {
    var s' := Apply(s, a);
    forall i | 0 <= i < |queue| ensures s'.requests[queue[i]].phase == s.requests[queue[i]].phase {
      assert Uncompleted(s, queue[i], provider) && Uncompleted(s', queue[i], provider);
    }
  }

  /** The queue is the difference between the two orders. */
  lemma BalanceStep(
      s: System, a: Action, queue: seq<nat>, provider: string, id: nat, counted: seq<bool>, returned: seq<bool>)
    requires OneGeneration(s, provider, id) && Possible(s, a) && IsQueue(s, queue, provider)
    requires a.GiveBack? && s.requests[a.r].provider == provider ==> queue != [] && queue[0] == a.r
    requires counted == returned + FailedOf(s, queue, provider)
    ensures IsQueue(Apply(s, a), QueueAfter(s, a, queue, provider), provider)
    ensures counted + CountedNow(s, a, provider)
            == returned + ReturnedNow(s, a, id)
               + FailedOf(Apply(s, a), QueueAfter(s, a, queue, provider), provider)
  {
    QueueStep(s, a, queue, provider);
    FailedOfNext(s, a, queue, provider);
    OwnReturns(s, a, provider, id);
    Joined(counted, returned, FailedOf(s, queue, provider), CountedNow(s, a, provider), ReturnedNow(s, a, id),
           FailedOf(Apply(s, a), QueueAfter(s, a, queue, provider), provider));
  }

  /** In one generation the provider's permits and the breaker's are the same. */
  lemma OwnReturns(s: System, a: Action, provider: string, id: nat)
    requires OneGeneration(s, provider, id) && Possible(s, a)
    ensures ReturnedNow(s, a, id) == if ReturnedFor(s, a, provider) then [s.requests[a.r].phase.failed] else []
  {
  }

  lemma Joined(
      counted: seq<bool>, returned: seq<bool>, was: seq<bool>, now: seq<bool>, back: seq<bool>, next: seq<bool>)
    requires counted == returned + was
    requires (now == [] && was == back + next) || (back == [] && next == was + now)
    ensures counted + now == returned + back + next
  {
  }

  lemma {:induction false} InOrderBalance(
      s: System, actions: seq<Action>, queue: seq<nat>, provider: string, id: nat, counted: seq<bool>,
      returned: seq<bool>)
    returns (left: seq<nat>)
    requires OneGeneration(s, provider, id) && Feasible(s, actions) && NoBuild(actions, provider)
    requires IsQueue(s, queue, provider) && InOrder(s, actions, queue, provider)
    requires counted == returned + FailedOf(s, queue, provider)
    ensures IsQueue(Run(s, actions), left, provider)
    ensures counted + Counted(s, actions, provider)
            == returned + Returned(s, actions, id) + FailedOf(Run(s, actions), left, provider)
    decreases |actions|
  {
    if actions == [] {
      left := queue;
      assert counted + [] == counted && returned + [] == returned;
    } else {
      var a := actions[0];
      var (now, back) := (CountedNow(s, a, provider), ReturnedNow(s, a, id));
      var next := Apply(s, a);
      OneGenerationStep(s, a, provider, id);
      BalanceStep(s, a, queue, provider, id, counted, returned);
      left := InOrderBalance(next, actions[1..], QueueAfter(s, a, queue, provider), provider, id,
                             counted + now, returned + back);
      Associate(counted, now, Counted(next, actions[1..], provider));
      Associate(returned, back, Returned(next, actions[1..], id));
    }
  }

  /** Counter and breaker agree: either it is not closed or both count the same. */
  predicate Agreeing(s: System, provider: string, id: nat)
    requires id < |s.breakers|
  {
    s.breakers[id].state == Closed ==> s.breakers[id].failures == Entry(s.metrics, provider).consecutiveFailures
  }

  ghost predicate Quiet(s: System, provider: string) {
    forall r :: !Uncompleted(s, r, provider)
  }

  lemma NothingQueued(s: System, queue: seq<nat>, provider: string)
    requires IsQueue(s, queue, provider) && Quiet(s, provider)
    ensures queue == []
  {
    assert !Uncompleted(s, Oldest(queue), provider);
  }

  function Oldest(queue: seq<nat>): nat {
    if queue == [] then 0 else queue[0]
  }

  /**
   Agreement in order.  Within one generation, with any traffic, probes and late completions included,
   if permits come back in the order their completions were counted then counter and breaker agree
   whenever no completion is half done.
   */
  lemma AgreeInOrder(s: System, actions: seq<Action>, provider: string, id: nat)
    requires OneGeneration(s, provider, id) && s.breakers[id].enabled && !IsBlank(provider)
    requires Quiet(s, provider) && Agreeing(s, provider, id)
    requires Feasible(s, actions) && NoBuild(actions, provider) && InOrder(s, actions, [], provider)
    requires Quiet(Run(s, actions), provider)
    ensures id < |Run(s, actions).breakers| && Agreeing(Run(s, actions), provider, id)
  {
    var seen := AlreadyFailed(Entry(s.metrics, provider).consecutiveFailures);
    TrailingOfAlreadyFailed(Entry(s.metrics, provider).consecutiveFailures);
    CountersFollowCounting(s, actions, provider, seen);
    BreakerFollowsReturns(s, actions, id, seen);
    assert seen == seen + FailedOf(s, [], provider);
    var left := InOrderBalance(s, actions, [], provider, id, seen, seen);
    var last := Run(s, actions);
    NothingQueued(last, left, provider);
    var returned := seen + Returned(s, actions, id);
    assert returned + FailedOf(last, left, provider) == returned;
  }

  /** No completion of the provider is counted while another one is half done. */
  predicate OneByOne(s: System, actions: seq<Action>, queue: seq<nat>, provider: string)
    requires Feasible(s, actions)
    decreases |actions|
  {
    actions == [] ||
    (&& (actions[0].CountOut? && s.requests[actions[0].r].provider == provider ==> queue == [])
     && OneByOne(Apply(s, actions[0]), actions[1..], QueueAfter(s, actions[0], queue, provider), provider))
  }

  /** Completions that do not overlap are in order. */
  lemma {:induction false} OneByOneIsInOrder(s: System, actions: seq<Action>, queue: seq<nat>, provider: string)
    requires Feasible(s, actions) && IsQueue(s, queue, provider) && |queue| <= 1
    requires OneByOne(s, actions, queue, provider)
    ensures InOrder(s, actions, queue, provider)
    decreases |actions|
  {
    if actions != [] {
      var a := actions[0];
      if a.GiveBack? && s.requests[a.r].provider == provider {
        assert Uncompleted(s, a.r, provider);
      }
      QueueStep(s, a, queue, provider);
      OneByOneIsInOrder(Apply(s, a), actions[1..], QueueAfter(s, a, queue, provider), provider);
    }
  }

  /** The states in which a provider was never built. */
  predicate NeverBuilt(s: System, provider: string) {
    && HotReload.Named(s)
    && Unrouted(s, provider)
    && Entry(s.metrics, provider) == ZERO_COUNTERS
  }

  lemma {:induction false} StaysUnbuilt(s: System, actions: seq<Action>, provider: string)
    requires NeverBuilt(s, provider) && Feasible(s, actions) && NoBuild(actions, provider)
    ensures NeverBuilt(Run(s, actions), provider)
    decreases |actions|
  {
    if actions != [] {
      UnbuiltStep(s, actions[0], provider);
      StaysUnbuilt(Apply(s, actions[0]), actions[1..], provider);
    }
  }

  lemma UnbuiltStep(s: System, a: Action, provider: string)
    requires NeverBuilt(s, provider) && Possible(s, a) && (a.Build? ==> a.provider != provider)
    ensures NeverBuilt(Apply(s, a), provider)
  {
    NamedStep(s, a);
    UnroutedStep(s, a, provider);
    UncountedStep(s, a, provider);
  }

  predicate Unrouted(s: System, provider: string) {
    && provider !in s.current
    && (s.reload.Building? ==> provider !in s.reload.built)
    && (forall r :: r in s.requests ==> s.requests[r].provider != provider)
  }

  lemma UnroutedStep(s: System, a: Action, provider: string)
    requires Unrouted(s, provider) && Possible(s, a) && (a.Build? ==> a.provider != provider)
    ensures Unrouted(Apply(s, a), provider)
  {
    if a.AskBreaker? {
      assert forall q :: q in Apply(s, a).requests ==>
          q in s.requests && Apply(s, a).requests[q].provider == s.requests[q].provider;
      assert Apply(s, a).current == s.current && Apply(s, a).reload == s.reload;
    }
  }

  lemma UncountedStep(s: System, a: Action, provider: string)
    requires Unrouted(s, provider) && Possible(s, a) && (a.Build? ==> a.provider != provider)
    requires Entry(s.metrics, provider) == ZERO_COUNTERS
    ensures Entry(Apply(s, a).metrics, provider) == ZERO_COUNTERS
  {
    match a {
      case CountIn(r) => assert s.requests[r].provider != provider;
      case CountOut(r, _, _, _) => assert s.requests[r].provider != provider;
      case Build(_, _) =>
      case _ => assert Apply(s, a).metrics == s.metrics;
    }
  }

  /**
   From start-up: whatever ran before a provider was first built, and whatever runs until it is built
   again, completions that come back in the order they were counted leave counter and breaker agreeing.
   */
  lemma FirstGenerationAgrees(before: seq<Action>, provider: string, policy: Policy, actions: seq<Action>)
    requires Feasible(INITIAL, before) && NoBuild(before, provider) && !IsBlank(provider) && policy.enabled
    requires Possible(Run(INITIAL, before), Build(provider, policy))
    requires var built := Apply(Run(INITIAL, before), Build(provider, policy));
             && Feasible(built, actions) && NoBuild(actions, provider)
             && InOrder(built, actions, [], provider) && Quiet(Run(built, actions), provider)
    ensures var id := |Run(INITIAL, before).breakers|;
            var last := Run(Apply(Run(INITIAL, before), Build(provider, policy)), actions);
            id < |last.breakers| && Agreeing(last, provider, id)
  {
    var s := Run(INITIAL, before);
    StaysUnbuilt(INITIAL, before, provider);
    NamedStep(s, Build(provider, policy));
    AgreeInOrder(Apply(s, Build(provider, policy)), actions, provider, |s.breakers|);
  }
}
