/**
 The breakers one provider has across reloads, and how many probes it can have out at once.
 */
module Generations {
  import opened Circuit
  import opened HotReload

  /** The provider's probe permits that are out, whichever generation issued them. */
  function ProbesOf(s: System, provider: string): set<nat> {
    set r | r in s.requests && IsProbe(s.requests[r], provider)
  }

  predicate IsProbe(q: Request, provider: string) {
    q.provider == provider && !q.phase.Routed? && q.phase.permit.probe
  }

  /** An enabled breaker of the provider that is half-open and was not born so. */
  predicate IsProbing(s: System, id: nat, provider: string)
    requires |s.madeFor| == |s.breakers|
  {
    && id < |s.breakers|
    && s.madeFor[id] == provider
    && s.breakers[id].enabled && s.breakers[id].state == HalfOpen
    && id !in s.bornHalfOpen
  }

  function ProbingBelow(s: System, provider: string, n: nat): set<nat>
    requires |s.madeFor| == |s.breakers|
  {
    set id | 0 <= id < n && IsProbing(s, id, provider)
  }

  function ProbesBelow(s: System, provider: string, n: nat): set<nat> {
    set r | r in s.requests && IsProbe(s.requests[r], provider) && s.requests[r].breaker < n
  }

  ghost predicate Reachable(s: System) {
    Inv(s) && HotReload.Named(s)
  }

  lemma ReachableFromStart(actions: seq<Action>)
    requires Feasible(INITIAL, actions)
    ensures Reachable(Run(INITIAL, actions))
  {
    InvInitially();
    InvAlways(INITIAL, actions);
    NamedAlways(INITIAL, actions);
  }

  /** The probes that breaker `id` has out: one while it is half-open and not born so, else none. */
  lemma HoldersOfOne(s: System, id: nat, provider: string)
    requires Reachable(s) && id < |s.breakers| && s.madeFor[id] == provider
    ensures |Holders(s.requests, id, true)| == if IsProbing(s, id, provider) then 1 else 0
  {
    assert CellOk(s, id);
  }

  lemma {:induction false} ProbesAreProbingBelow(s: System, provider: string, n: nat)
    requires Reachable(s) && n <= |s.breakers|
    ensures |ProbesBelow(s, provider, n)| == |ProbingBelow(s, provider, n)|
  {
    if n == 0 {
      assert ProbesBelow(s, provider, 0) == {} && ProbingBelow(s, provider, 0) == {};
    } else {
      ProbesAreProbingBelow(s, provider, n - 1);
      ProbesBelowNext(s, provider, n - 1);
      ProbingBelowNext(s, provider, n - 1);
      if s.madeFor[n - 1] == provider {
        HoldersOfOne(s, n - 1, provider);
      }
    }
  }

  /** A probe of breaker `id` is a probe of the provider `id` was made for. */
  lemma ProbeOfBreaker(s: System, provider: string, id: nat, r: nat)
    requires HotReload.Named(s) && id < |s.breakers| && r in s.requests
    ensures IsProbe(s.requests[r], provider) && s.requests[r].breaker == id
            <==> s.madeFor[id] == provider && Holds(s.requests[r], id, true)
  {
  }

  lemma ProbesBelowNext(s: System, provider: string, id: nat)
    requires HotReload.Named(s) && id < |s.breakers|
    ensures |ProbesBelow(s, provider, id + 1)|
            == |ProbesBelow(s, provider, id)| + if s.madeFor[id] == provider then |Holders(s.requests, id, true)| else 0
  {
    var below := ProbesBelow(s, provider, id);
    var own := if s.madeFor[id] == provider then Holders(s.requests, id, true) else {};
    forall r | r in s.requests
      ensures r in ProbesBelow(s, provider, id + 1) <==> r in below + own
      ensures !(r in below && r in own) {
      ProbeOfBreaker(s, provider, id, r);
    }
    DisjointUnion(ProbesBelow(s, provider, id + 1), below, own);
  }

  lemma DisjointUnion(all: set<nat>, a: set<nat>, b: set<nat>)
    requires forall r :: r in all <==> r in a + b
    requires forall r :: !(r in a && r in b)
    ensures |all| == |a| + |b|
  {
    assert all == a + b && a * b == {};
  }

  lemma ProbingBelowNext(s: System, provider: string, id: nat)
    requires |s.madeFor| == |s.breakers|
    ensures |ProbingBelow(s, provider, id + 1)|
            == |ProbingBelow(s, provider, id)| + if IsProbing(s, id, provider) then 1 else 0
  {
    var own := if IsProbing(s, id, provider) then {id} else {};
    assert ProbingBelow(s, provider, id + 1) == ProbingBelow(s, provider, id) + own;
    assert ProbingBelow(s, provider, id) * own == {};
  }

  /** A provider's outstanding probes number exactly its enabled half-open breakers not born half-open. */
  lemma ProbesAreProbing(s: System, provider: string)
    requires Reachable(s)
    ensures |ProbesOf(s, provider)| == |ProbingBelow(s, provider, |s.breakers|)|
  {
    ProbesAreProbingBelow(s, provider, |s.breakers|);
    assert ProbesOf(s, provider) == ProbesBelow(s, provider, |s.breakers|);
  }

  // ---------------------------------------------------------------- when a second probe goes out

  /** The asked breaker is open past its deadline while another one of the same provider is half-open
      with its own probe out. */
  ghost predicate AsksSecondProbe(s: System, a: Action, provider: string)
    requires Possible(s, a) && |s.madeFor| == |s.breakers|
  {
    && AsksDue(s, a, provider)
    && exists other :: other != s.requests[a.r].breaker && IsProbing(s, other, provider)
  }

  predicate IsDue(b: Breaker, now: int) {
    b.enabled && b.state == Open && now >= b.openUntil
  }

  /** The step asks a breaker of the provider that is due. */
  predicate AsksDue(s: System, a: Action, provider: string)
    requires Possible(s, a)
  {
    a.AskBreaker? && s.requests[a.r].provider == provider && IsDue(s.breakers[s.requests[a.r].breaker], a.now)
  }

  /** A step puts out one more probe exactly when it asks a breaker of the provider that is due. */
  lemma ProbesAfterStep(s: System, a: Action, provider: string)
    requires HotReload.Named(s) && Possible(s, a)
    ensures AsksDue(s, a, provider) ==> |ProbesOf(Apply(s, a), provider)| == |ProbesOf(s, provider)| + 1
    ensures !AsksDue(s, a, provider) ==> ProbesOf(Apply(s, a), provider) <= ProbesOf(s, provider)
  {
    match a {
      case AskBreaker(r, now) => AskProbes(s, r, now, provider);
      case Route(r, p) => PutKeepsProbes(s, Apply(s, a), r, provider);
      case CountIn(r) => PutKeepsProbes(s, Apply(s, a), r, provider);
      case CountOut(r, _, _, _) => PutKeepsProbes(s, Apply(s, a), r, provider);
      case Leave(r) => DropKeepsProbes(s, Apply(s, a), r, provider);
      case GiveBack(r, _) => DropKeepsProbes(s, Apply(s, a), r, provider);
      case _ =>
    }
  }

  /** Moving one request without giving it a probe adds none. */
  lemma PutKeepsProbes(s: System, s': System, r: nat, provider: string)
    requires r in s'.requests && s'.requests == s.requests[r := s'.requests[r]]
    requires IsProbe(s'.requests[r], provider) ==> r in s.requests && IsProbe(s.requests[r], provider)
    ensures ProbesOf(s', provider) <= ProbesOf(s, provider)
  {
  }

  lemma DropKeepsProbes(s: System, s': System, r: nat, provider: string)
    requires s'.requests == s.requests - {r}
    ensures ProbesOf(s', provider) <= ProbesOf(s, provider)
  {
  }

  lemma AskProbes(s: System, r: nat, now: int, provider: string)
    requires HotReload.Named(s) && Possible(s, AskBreaker(r, now))
    ensures var issued := s.requests[r].provider == provider && IsDue(s.breakers[s.requests[r].breaker], now);
            && ProbesOf(Apply(s, AskBreaker(r, now)), provider)
               == ProbesOf(s, provider) + (if issued then {r} else {})
            && r !in ProbesOf(s, provider)
  {
  }

  lemma Smaller(a: set<nat>, b: set<nat>)
    requires a <= b
    ensures |a| <= |b|
  {
    assert b == a + (b - a);
  }

  lemma ProbingHasMember(s: System, provider: string)
    requires |s.madeFor| == |s.breakers|
    ensures |ProbingBelow(s, provider, |s.breakers|)| > 0 <==> exists id :: IsProbing(s, id, provider)
  {
    var probing := ProbingBelow(s, provider, |s.breakers|);
    if |probing| > 0 {
      var id :| id in probing;
      assert IsProbing(s, id, provider);
    }
    if id :| IsProbing(s, id, provider) {
      assert id in probing;
    }
  }

  /** A step gives a provider a second concurrent probe if and only if it asks a due breaker while
      another breaker of that provider is probing. */
  lemma SecondProbeIff(s: System, a: Action, provider: string)
    requires Reachable(s) && Possible(s, a)
    ensures |ProbesOf(Apply(s, a), provider)| > |ProbesOf(s, provider)| >= 1 <==> AsksSecondProbe(s, a, provider)
  {
    ProbesAfterStep(s, a, provider);
    ProbesAreProbing(s, provider);
    ProbingHasMember(s, provider);
    if AsksDue(s, a, provider) {
      assert !IsProbing(s, s.requests[a.r].breaker, provider);
    } else {
      Smaller(ProbesOf(Apply(s, a), provider), ProbesOf(s, provider));
    }
  }

  /** The documented promise along a run: never more than one probe of the provider out. */
  predicate OneProbeAtATime(s: System, actions: seq<Action>, provider: string)
    requires Feasible(s, actions)
    decreases |actions|
  {
    && |ProbesOf(s, provider)| <= 1
    && (actions == [] || OneProbeAtATime(Apply(s, actions[0]), actions[1..], provider))
  }

  ghost predicate NeverAsksSecond(s: System, actions: seq<Action>, provider: string)
    requires Feasible(s, actions) && HotReload.Named(s)
    decreases |actions|
  {
    actions == [] ||
    (NamedStep(s, actions[0]);
     && !AsksSecondProbe(s, actions[0], provider)
     && NeverAsksSecond(Apply(s, actions[0]), actions[1..], provider))
  }

  /**
   One probe per provider, exactly.  Through any interleaving of requests and reloads a provider never
   has two probes out if and only if no request ever asks a due breaker of it while another of its
   breakers is probing.
   */
  lemma {:induction false} OneProbePerProviderIff(s: System, actions: seq<Action>, provider: string)
    requires Reachable(s) && Feasible(s, actions) && |ProbesOf(s, provider)| <= 1
    ensures OneProbeAtATime(s, actions, provider) <==> NeverAsksSecond(s, actions, provider)
    decreases |actions|
  {
    if actions != [] {
      var next := Apply(s, actions[0]);
      SecondProbeIff(s, actions[0], provider);
      ProbesAfterStep(s, actions[0], provider);
      InvStep(s, actions[0]);
      NamedStep(s, actions[0]);
      if |ProbesOf(next, provider)| <= 1 {
        OneProbePerProviderIff(next, actions[1..], provider);
      }
    }
  }
}
