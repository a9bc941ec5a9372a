/**
 Requests, breakers and hot reloads interleaved.

 A state holds every breaker object ever built (its index is its identity), the published snapshot,
 the reload in progress, the live requests and the per-provider counters shared by all generations.
 Each action is one lock-protected step of the program: a request reads the runtime, asks its breaker,
 counts itself in, counts itself out and gives its permit back in five separate steps, and a reload
 clones the breakers one at a time before it publishes (internal/gateway/runtime.go,
 internal/gateway/provider_metrics_transport.go).
 */
module HotReload {
  import opened Common
  import opened Circuit
  import opened BreakerRuns
  import opened ProviderMetrics
  import opened Transport

  datatype Phase =
    | Routed
    | Permitted(permit: Permit)
    | Begun(permit: Permit)
    | CountedOut(permit: Permit, failed: bool)

  /** A live request; `breaker` is the one in the snapshot it read. */
  datatype Request = Request(provider: string, breaker: nat, phase: Phase)

  datatype Reload = Idle | Building(built: map<string, nat>, now: int)

  datatype System = System(
    breakers: seq<Breaker>,
    current: map<string, nat>,
    reload: Reload,
    requests: map<nat, Request>,
    metrics: Registry,
    // history, read by no step: breakers born half-open, round trips begun per provider, and the
    // provider each breaker was built for
    bornHalfOpen: set<nat>,
    begun: map<string, nat>,
    madeFor: seq<string>)

  datatype Action =
    | Route(r: nat, provider: string)
    | Leave(r: nat)
    | AskBreaker(r: nat, now: int)
    | CountIn(r: nat)
    | CountOut(r: nat, ending: Ending, duration: int, now: int)
    | GiveBack(r: nat, now: int)
    | StartReload(now: int)
    | Build(provider: string, policy: Policy)
    | Publish
    | Abandon

  /** Before New has built anything. */
  const INITIAL: System := System([], map[], Idle, map[], map[], {}, map[], [])

  function BegunCount(s: System, provider: string): nat {
    if provider in s.begun then s.begun[provider] else 0
  }

  predicate Possible(s: System, a: Action) {
    match a
    case Route(r, provider) => r !in s.requests && provider in s.current
    case Leave(r) => r in s.requests && s.requests[r].phase.Routed?
    case AskBreaker(r, _) =>
      r in s.requests && s.requests[r].phase.Routed? && s.requests[r].breaker < |s.breakers|
    case CountIn(r) => r in s.requests && s.requests[r].phase.Permitted?
    case CountOut(r, _, _, _) => r in s.requests && s.requests[r].phase.Begun?
    case GiveBack(r, _) =>
      r in s.requests && s.requests[r].phase.CountedOut? && s.requests[r].breaker < |s.breakers|
    case StartReload(_) => s.reload.Idle?
    case Build(provider, _) =>
      s.reload.Building? && (provider in s.current ==> s.current[provider] < |s.breakers|)
    case Publish => s.reload.Building?
    case Abandon => s.reload.Building?
  }

  function Moved(s: System, r: nat, phase: Phase): System
    requires r in s.requests
  {
    s.(requests := s.requests[r := s.requests[r].(phase := phase)])
  }

  /** The breaker a reload makes for a provider: a clone of the published one, else a new one. */
  function BuiltBreaker(s: System, provider: string, policy: Policy, now: int): Breaker
    requires provider in s.current ==> s.current[provider] < |s.breakers|
  {
    if provider in s.current then Clone(s.breakers[s.current[provider]], policy, now) else Fresh(policy)
  }

  function Apply(s: System, a: Action): System
    requires Possible(s, a)
  {
    match a
    case Route(r, provider) =>
      s.(requests := s.requests[r := Request(provider, s.current[provider], Routed)])
    case Leave(r) =>
      s.(requests := s.requests - {r})
    case AskBreaker(r, now) =>
      var id := s.requests[r].breaker;
      var asked := s.(breakers := s.breakers[id := AfterAllow(s.breakers[id], now)]);
      (match Decide(s.breakers[id], now)
       case Admitted(permit) => Moved(asked, r, Permitted(permit))
       case Rejected(_) => asked.(requests := s.requests - {r}))
    case CountIn(r) =>
      var q := s.requests[r];
      Moved(s, r, Begun(q.phase.permit)).(
      metrics := AfterBegin(s.metrics, q.provider),
      begun := s.begun[q.provider := BegunCount(s, q.provider) + 1])
    case CountOut(r, ending, duration, now) =>
      var q := s.requests[r];
      var c := Judge(ending);
      Moved(s, r, CountedOut(q.phase.permit, c.failed)).(
      metrics := ProviderMetrics.AfterFinish(s.metrics, q.provider, c.status, duration, c.transportError, now))
    case GiveBack(r, now) =>
      var q := s.requests[r];
      var b := Circuit.AfterFinish(s.breakers[q.breaker], q.phase.permit, q.phase.failed, now);
      s.(breakers := s.breakers[q.breaker := b], requests := s.requests - {r})
    case StartReload(now) =>
      s.(reload := Building(map[], now))
    case Build(provider, policy) =>
      var b := BuiltBreaker(s, provider, policy, s.reload.now);
      var id := |s.breakers|;
      s.(breakers := s.breakers + [b],
      reload := Building(s.reload.built[provider := id], s.reload.now),
      metrics := Registered(s.metrics, provider),
      bornHalfOpen := if b.enabled && b.state == HalfOpen then s.bornHalfOpen + {id} else s.bornHalfOpen,
      madeFor := s.madeFor + [provider])
    case Publish =>
      s.(current := s.reload.built, reload := Idle)
    case Abandon =>
      s.(reload := Idle)
  }

  predicate Feasible(s: System, actions: seq<Action>)
    decreases |actions|
  {
    actions == [] || (Possible(s, actions[0]) && Feasible(Apply(s, actions[0]), actions[1..]))
  }

  function Run(s: System, actions: seq<Action>): System
    requires Feasible(s, actions)
    decreases |actions|
  {
    if actions == [] then s else Run(Apply(s, actions[0]), actions[1..])
  }

  // ---------------------------------------------------------------- outstanding permits

  predicate Holds(q: Request, id: nat, probe: bool) {
    q.breaker == id && !q.phase.Routed? && q.phase.permit.probe == probe
  }

  function Holders(requests: map<nat, Request>, id: nat, probe: bool): set<nat> {
    set r | r in requests && Holds(requests[r], id, probe)
  }

  function InFlight(requests: map<nat, Request>, provider: string): set<nat> {
    set r | r in requests && requests[r].provider == provider && requests[r].phase.Begun?
  }

  /** One breaker as its own users see it. */
  function View(s: System, id: nat): Cell
    requires id < |s.breakers|
  {
    Cell(s.breakers[id], |Holders(s.requests, id, true)|, |Holders(s.requests, id, false)|)
  }

  lemma HoldersPut(requests: map<nat, Request>, r: nat, q: Request, id: nat, probe: bool)
    ensures Holders(requests[r := q], id, probe)
            == Holders(requests, id, probe) - {r} + (if Holds(q, id, probe) then {r} else {})
  {
  }

  lemma HoldersDrop(requests: map<nat, Request>, r: nat, id: nat, probe: bool)
    ensures Holders(requests - {r}, id, probe) == Holders(requests, id, probe) - {r}
  {
  }

  /** Moving a request that holds nothing, or between phases holding the same permit, moves no count. */
  lemma HoldersKept(requests: map<nat, Request>, r: nat, q: Request, id: nat, probe: bool)
    requires r in requests ==> (Holds(requests[r], id, probe) <==> Holds(q, id, probe))
    requires r !in requests ==> !Holds(q, id, probe)
    ensures Holders(requests[r := q], id, probe) == Holders(requests, id, probe)
  {
  }

  // ---------------------------------------------------------------- the whole refines its parts

  /** What an action means to breaker `id`: at most one operation, made by a request that read a
      snapshot containing it. */
  function LocalOp(s: System, a: Action, id: nat): seq<Op>
    requires Possible(s, a)
  {
    match a
    case AskBreaker(r, now) => if s.requests[r].breaker == id then [Ask(now)] else []
    case GiveBack(r, now) =>
      if s.requests[r].breaker == id
      then [Done(s.requests[r].phase.permit.probe, s.requests[r].phase.failed, now)]
      else []
    case _ => []
  }

  function LocalRun(s: System, actions: seq<Action>, id: nat): seq<Op>
    requires Feasible(s, actions)
    decreases |actions|
  {
    if actions == [] then [] else LocalOp(s, actions[0], id) + LocalRun(Apply(s, actions[0]), actions[1..], id)
  }

  lemma ExecOne(c: Cell, op: Op)
    requires Allowed(c, op)
    ensures Legal(c, [op]) && Exec(c, [op]) == Next(c, op)
  {
    assert Legal(Next(c, op), [op][1..]);
    assert Exec(Next(c, op), [op][1..]) == Next(c, op);
  }

  lemma AskRefines(s: System, r: nat, now: int, id: nat)
    requires Possible(s, AskBreaker(r, now)) && id < |s.breakers|
    ensures var s' := Apply(s, AskBreaker(r, now));
            View(s', id) == if s.requests[r].breaker == id then Next(View(s, id), Ask(now)) else View(s, id)
  {
    AskMovesPermit(s, r, now, id, true);
    AskMovesPermit(s, r, now, id, false);
    AskMovesBreaker(s, r, now, id);
    var probes, plains := Holders(s.requests, id, true), Holders(s.requests, id, false);
    assert r !in probes && r !in plains;
    if s.requests[r].breaker != id || Decide(s.breakers[id], now).Rejected? {
      assert probes + {} == probes && plains + {} == plains;
    } else if Decide(s.breakers[id], now).permit.probe {
      assert |probes + {r}| == |probes| + 1 && plains + {} == plains;
    } else {
      assert probes + {} == probes && |plains + {r}| == |plains| + 1;
    }
  }

  lemma AskMovesBreaker(s: System, r: nat, now: int, id: nat)
    requires Possible(s, AskBreaker(r, now)) && id < |s.breakers|
    ensures var s' := Apply(s, AskBreaker(r, now));
            && |s'.breakers| == |s.breakers|
            && s'.breakers[id]
               == if s.requests[r].breaker == id then AfterAllow(s.breakers[id], now) else s.breakers[id]
  {
  }

  lemma AskMovesPermit(s: System, r: nat, now: int, id: nat, probe: bool)
    requires Possible(s, AskBreaker(r, now)) && id < |s.breakers|
    ensures Holders(Apply(s, AskBreaker(r, now)).requests, id, probe)
            == Holders(s.requests, id, probe)
               + (if s.requests[r].breaker == id && Decide(s.breakers[id], now) == Admitted(Permit(probe))
                  then {r} else {})
  {
    var q := s.requests[r];
    match Decide(s.breakers[q.breaker], now) {
      case Admitted(permit) => HoldersPut(s.requests, r, q.(phase := Permitted(permit)), id, probe);
      case Rejected(_) => HoldersDrop(s.requests, r, id, probe);
    }
  }

  lemma GiveBackMovesPermit(s: System, r: nat, now: int, id: nat, probe: bool)
    requires Possible(s, GiveBack(r, now)) && id < |s.breakers|
    ensures var holds := Holds(s.requests[r], id, probe);
            && (holds ==> |Holders(s.requests, id, probe)| > 0)
            && |Holders(Apply(s, GiveBack(r, now)).requests, id, probe)|
               == |Holders(s.requests, id, probe)| - if holds then 1 else 0
  {
    HoldersDrop(s.requests, r, id, probe);
    if Holds(s.requests[r], id, probe) {
      assert r in Holders(s.requests, id, probe);
    } else {
      assert r !in Holders(s.requests, id, probe);
    }
  }

  lemma GiveBackRefines(s: System, r: nat, now: int, id: nat)
    requires Possible(s, GiveBack(r, now)) && id < |s.breakers|
    ensures var s' := Apply(s, GiveBack(r, now));
            var q := s.requests[r];
            var op := Done(q.phase.permit.probe, q.phase.failed, now);
            if q.breaker == id then Allowed(View(s, id), op) && View(s', id) == Next(View(s, id), op)
            else View(s', id) == View(s, id)
  {
    GiveBackMovesPermit(s, r, now, id, true);
    GiveBackMovesPermit(s, r, now, id, false);
  }

  /** Each step of the whole is, for each breaker, one legal operation of that breaker or nothing. */
  lemma StepRefines(s: System, a: Action, id: nat)
    requires Possible(s, a) && id < |s.breakers|
    ensures id < |Apply(s, a).breakers|
    ensures Legal(View(s, id), LocalOp(s, a, id))
    ensures View(Apply(s, a), id) == Exec(View(s, id), LocalOp(s, a, id))
  {
    match a {
      case AskBreaker(r, now) =>
        AskRefines(s, r, now, id);
        ExecOne(View(s, id), Ask(now));
      case GiveBack(r, now) =>
        GiveBackRefines(s, r, now, id);
        var q := s.requests[r];
        if q.breaker == id {
          ExecOne(View(s, id), Done(q.phase.permit.probe, q.phase.failed, now));
        }
      case Leave(r) =>
        HoldersDrop(s.requests, r, id, true);
        HoldersDrop(s.requests, r, id, false);
      case Route(r, provider) =>
        var q := Request(provider, s.current[provider], Routed);
        HoldersKept(s.requests, r, q, id, true);
        HoldersKept(s.requests, r, q, id, false);
      case CountIn(r) =>
        var q := s.requests[r].(phase := Begun(s.requests[r].phase.permit));
        HoldersKept(s.requests, r, q, id, true);
        HoldersKept(s.requests, r, q, id, false);
      case CountOut(r, ending, _, _) =>
        var q := s.requests[r].(phase := CountedOut(s.requests[r].phase.permit, Judge(ending).failed));
        HoldersKept(s.requests, r, q, id, true);
        HoldersKept(s.requests, r, q, id, false);
      case _ =>
    }
  }

  /**
   Refinement.  However requests and reloads interleave, what happens to one breaker object is a
   legal run of that breaker alone.  Everything proved of single runs therefore holds of every
   breaker of every generation: in particular a permit issued by one generation is given back to that
   generation and to no other.
   */
  lemma {:induction false} RunRefines(s: System, actions: seq<Action>, id: nat)
    requires Feasible(s, actions) && id < |s.breakers|
    ensures id < |Run(s, actions).breakers|
    ensures Legal(View(s, id), LocalRun(s, actions, id))
    ensures View(Run(s, actions), id) == Exec(View(s, id), LocalRun(s, actions, id))
    decreases |actions|
  {
    if actions != [] {
      StepRefines(s, actions[0], id);
      RunRefines(Apply(s, actions[0]), actions[1..], id);
      ExecAppend(View(s, id), LocalOp(s, actions[0], id), LocalRun(Apply(s, actions[0]), actions[1..], id));
    }
  }

  // ---------------------------------------------------------------- invariants over all runs

  predicate WellFormed(s: System) {
    && (forall p :: p in s.current ==> s.current[p] < |s.breakers|)
    && (s.reload.Building? ==> forall p :: p in s.reload.built ==> s.reload.built[p] < |s.breakers|)
    && (forall r :: r in s.requests ==> s.requests[r].breaker < |s.breakers|)
    && (forall id :: id in s.bornHalfOpen ==> id < |s.breakers|)
  }

  /** Breakers are not shared between providers: snapshots and requests refer by name to breakers made
      for that name. */
  predicate Named(s: System) {
    SnapshotsNamed(s) && RequestsNamed(s)
  }

  predicate SnapshotsNamed(s: System) {
    && |s.madeFor| == |s.breakers|
    && (forall p :: p in s.current ==> s.current[p] < |s.breakers| && s.madeFor[s.current[p]] == p)
    && (s.reload.Building? ==> forall p :: p in s.reload.built ==>
          s.reload.built[p] < |s.breakers| && s.madeFor[s.reload.built[p]] == p)
  }

  predicate RequestsNamed(s: System) {
    && |s.madeFor| == |s.breakers|
    && (forall r :: r in s.requests ==>
          s.requests[r].breaker < |s.breakers| && s.madeFor[s.requests[r].breaker] == s.requests[r].provider)
  }

  lemma NamedStep(s: System, a: Action)
    requires Named(s) && Possible(s, a)
    ensures Named(Apply(s, a))
  {
    SnapshotsNamedStep(s, a);
    RequestsNamedStep(s, a);
  }

  lemma SnapshotsNamedStep(s: System, a: Action)
    requires Named(s) && Possible(s, a)
    ensures SnapshotsNamed(Apply(s, a))
  {
    match a {
      case AskBreaker(r, now) =>
        assert Apply(s, a).madeFor == s.madeFor && Apply(s, a).current == s.current && Apply(s, a).reload == s.reload;
      case _ =>
    }
  }

  lemma RequestsNamedStep(s: System, a: Action)
    requires Named(s) && Possible(s, a)
    ensures RequestsNamed(Apply(s, a))
  {
    match a {
      case AskBreaker(r, now) => AskRequestsNamed(s, r, now);
      case GiveBack(r, _) => RequestsShrink(s, Apply(s, a), r);
      case CountIn(r) => RequestsShrink(s, Apply(s, a), r);
      case CountOut(r, _, _, _) => RequestsShrink(s, Apply(s, a), r);
      case Leave(r) => RequestsShrink(s, Apply(s, a), r);
      case Build(_, _) => BuildRequestsNamed(s, a);
      case _ =>
    }
  }

  lemma AskRequestsNamed(s: System, r: nat, now: int)
    requires Named(s) && Possible(s, AskBreaker(r, now))
    ensures RequestsNamed(Apply(s, AskBreaker(r, now)))
  {
    RequestsShrink(s, Apply(s, AskBreaker(r, now)), r);
  }

  lemma BuildRequestsNamed(s: System, a: Action)
    requires a.Build? && Named(s) && Possible(s, a)
    ensures RequestsNamed(Apply(s, a))
  {
    assert forall id :: 0 <= id < |s.madeFor| ==> Apply(s, a).madeFor[id] == s.madeFor[id];
  }

  /** Moving or ending one request leaves all names right. */
  lemma RequestsShrink(s: System, s': System, r: nat)
    requires RequestsNamed(s) && r in s.requests
    requires s'.madeFor == s.madeFor && |s'.breakers| == |s.breakers|
    requires forall q :: q in s'.requests ==>
      && q in s.requests
      && s'.requests[q].breaker == s.requests[q].breaker
      && s'.requests[q].provider == s.requests[q].provider
    ensures RequestsNamed(s')
  {
  }

  lemma {:induction false} NamedAlways(s: System, actions: seq<Action>)
    requires Named(s) && Feasible(s, actions)
    ensures Named(Run(s, actions))
    decreases |actions|
  {
    if actions != [] {
      NamedStep(s, actions[0]);
      NamedAlways(Apply(s, actions[0]), actions[1..]);
    }
  }

  /** One live probe exactly while half-open, unless the breaker was born half-open: then it is
      half-open for good and has no probe. */
  predicate CellOk(s: System, id: nat)
    requires id < |s.breakers|
  {
    && Sound(s.breakers[id])
    && if id in s.bornHalfOpen then Stuck(View(s, id)) else OneProbe(View(s, id))
  }

  predicate BooksBalance(s: System, provider: string) {
    var entry := Entry(s.metrics, provider);
    !IsBlank(provider) ==>
      && entry.inFlight == |InFlight(s.requests, provider)|
      && BegunCount(s, provider) == entry.inFlight + entry.requests
  }

  ghost predicate Inv(s: System) {
    && WellFormed(s)
    && (forall id :: 0 <= id < |s.breakers| ==> CellOk(s, id))
    && (forall provider :: BooksBalance(s, provider))
  }

  lemma CellOkStep(s: System, a: Action, id: nat)
    requires WellFormed(s) && Possible(s, a) && id < |s.breakers| && CellOk(s, id)
    ensures CellOk(Apply(s, a), id)
  {
    StepRefines(s, a, id);
    var ops := LocalOp(s, a, id);
    if id in s.bornHalfOpen {
      StuckForever(View(s, id), ops);
      StuckStaysSound(View(s, id), ops);
    } else {
      OneProbeAlways(View(s, id), ops);
    }
  }

  lemma {:induction false} StuckStaysSound(c: Cell, ops: seq<Op>)
    requires Stuck(c) && Sound(c.b) && Legal(c, ops)
    ensures Sound(Exec(c, ops).b)
    decreases |ops|
  {
    if ops != [] {
      StuckStaysSound(Next(c, ops[0]), ops[1..]);
    }
  }

  /** A newly built breaker starts with no permits out. */
  lemma CellOkBuilt(s: System, provider: string, policy: Policy)
    requires Inv(s) && Possible(s, Build(provider, policy))
    ensures CellOk(Apply(s, Build(provider, policy)), |s.breakers|)
  {
    var s' := Apply(s, Build(provider, policy));
    var id := |s.breakers|;
    assert Holders(s'.requests, id, true) == {};
    assert Holders(s'.requests, id, false) == {};
    if provider in s.current {
      assert CellOk(s, s.current[provider]);
    }
  }

  lemma InFlightPut(requests: map<nat, Request>, r: nat, q: Request, provider: string)
    ensures InFlight(requests[r := q], provider)
            == InFlight(requests, provider) - {r} + (if q.provider == provider && q.phase.Begun? then {r} else {})
  {
  }

  lemma CountInBalances(s: System, r: nat, provider: string)
    requires Possible(s, CountIn(r)) && BooksBalance(s, provider)
    ensures BooksBalance(Apply(s, CountIn(r)), provider)
  {
    var q := s.requests[r];
    InFlightPut(s.requests, r, q.(phase := Begun(q.phase.permit)), provider);
    assert r !in InFlight(s.requests, provider);
  }

  lemma CountOutLeaves(s: System, r: nat, ending: Ending, duration: int, now: int, provider: string)
    requires Possible(s, CountOut(r, ending, duration, now))
    ensures var s' := Apply(s, CountOut(r, ending, duration, now));
            |InFlight(s'.requests, provider)|
            == |InFlight(s.requests, provider)| - if s.requests[r].provider == provider then 1 else 0
  {
    var q := s.requests[r];
    InFlightPut(s.requests, r, q.(phase := CountedOut(q.phase.permit, Judge(ending).failed)), provider);
    if q.provider == provider {
      assert r in InFlight(s.requests, provider);
    } else {
      assert r !in InFlight(s.requests, provider);
    }
  }

  lemma CountOutBalances(s: System, r: nat, ending: Ending, duration: int, now: int, provider: string)
    requires Possible(s, CountOut(r, ending, duration, now)) && BooksBalance(s, provider)
    ensures BooksBalance(Apply(s, CountOut(r, ending, duration, now)), provider)
  {
    CountOutLeaves(s, r, ending, duration, now, provider);
  }

  lemma BooksStep(s: System, a: Action, provider: string)
    requires Possible(s, a) && BooksBalance(s, provider)
    ensures BooksBalance(Apply(s, a), provider)
  {
    match a {
      case CountIn(r) =>
        CountInBalances(s, r, provider);
      case CountOut(r, ending, duration, now) =>
        CountOutBalances(s, r, ending, duration, now, provider);
      case _ =>
        assert InFlight(Apply(s, a).requests, provider) == InFlight(s.requests, provider);
    }
  }

  lemma WellFormedStep(s: System, a: Action)
    requires WellFormed(s) && Possible(s, a)
    ensures WellFormed(Apply(s, a))
  {
  }

  lemma CellsStep(s: System, a: Action)
    requires Inv(s) && Possible(s, a)
    ensures forall id :: 0 <= id < |Apply(s, a).breakers| ==> CellOk(Apply(s, a), id)
  {
    var s' := Apply(s, a);
    forall id | 0 <= id < |s'.breakers| ensures CellOk(s', id) {
      if id < |s.breakers| {
        CellOkStep(s, a, id);
      } else {
        CellOkBuilt(s, a.provider, a.policy);
      }
    }
  }

  lemma InvStep(s: System, a: Action)
    requires Inv(s) && Possible(s, a)
    ensures Inv(Apply(s, a))
  {
    WellFormedStep(s, a);
    CellsStep(s, a);
    forall provider ensures BooksBalance(Apply(s, a), provider) {
      BooksStep(s, a, provider);
    }
  }

  /**
   Safety over all runs.  From start-up, through any interleaving of requests and reloads: every
   breaker of every generation is half-open exactly while one probe permit of its own is out, except
   those born half-open, which stay half-open without a probe; and for every provider name, across all
   generations, the in-flight count is the number of round trips under way and every round trip begun
   is either in flight or counted.
   */
  lemma {:induction false} InvAlways(s: System, actions: seq<Action>)
    requires Inv(s) && Feasible(s, actions)
    ensures Inv(Run(s, actions))
    decreases |actions|
  {
    if actions != [] {
      InvStep(s, actions[0]);
      InvAlways(Apply(s, actions[0]), actions[1..]);
    }
  }

  lemma InvInitially()
    ensures Inv(INITIAL)
  {
    forall provider ensures BooksBalance(INITIAL, provider) {
      assert InFlight(INITIAL.requests, provider) == {};
    }
  }

  /** The same, spelled out for every state reachable from start-up. */
  lemma SafetyFromStart(actions: seq<Action>)
    requires Feasible(INITIAL, actions)
    ensures var s := Run(INITIAL, actions);
            && (forall id :: 0 <= id < |s.breakers| && id !in s.bornHalfOpen ==>
                  |Holders(s.requests, id, true)|
                  == if s.breakers[id].enabled && s.breakers[id].state == HalfOpen then 1 else 0)
            && (forall id :: 0 <= id < |s.breakers| && id in s.bornHalfOpen ==>
                  s.breakers[id].state == HalfOpen && Holders(s.requests, id, true) == {})
            && (forall provider :: !IsBlank(provider) ==>
                  Entry(s.metrics, provider).inFlight == |InFlight(s.requests, provider)|
                  && BegunCount(s, provider) == |InFlight(s.requests, provider)| + Entry(s.metrics, provider).requests)
  {
    InvInitially();
    InvAlways(INITIAL, actions);
    var s := Run(INITIAL, actions);
    forall id | 0 <= id < |s.breakers| && id !in s.bornHalfOpen
      ensures |Holders(s.requests, id, true)|
              == if s.breakers[id].enabled && s.breakers[id].state == HalfOpen then 1 else 0 {
      assert CellOk(s, id);
    }
    forall id | 0 <= id < |s.breakers| && id in s.bornHalfOpen
      ensures s.breakers[id].state == HalfOpen && Holders(s.requests, id, true) == {} {
      assert CellOk(s, id);
    }
    forall provider | !IsBlank(provider)
      ensures Entry(s.metrics, provider).inFlight == |InFlight(s.requests, provider)|
      ensures BegunCount(s, provider) == |InFlight(s.requests, provider)| + Entry(s.metrics, provider).requests {
      assert BooksBalance(s, provider);
    }
  }

  /** The `inFlight > 0` guard in providerFinish never hides an underflow. */
  lemma NoUnderflow(s: System, r: nat, ending: Ending, duration: int, now: int)
    requires Inv(s) && Possible(s, CountOut(r, ending, duration, now)) && !IsBlank(s.requests[r].provider)
    ensures Entry(s.metrics, s.requests[r].provider).inFlight > 0
  {
    var provider := s.requests[r].provider;
    assert BooksBalance(s, provider);
    assert r in InFlight(s.requests, provider);
  }

  // ---------------------------------------------------------------- a reload can strand a provider

  /** A snapshot entry all of whose requests are turned away. */
  predicate Stranded(s: System, provider: string) {
    && provider in s.current
    && s.current[provider] in s.bornHalfOpen
    && (s.reload.Building? && provider in s.reload.built ==> s.reload.built[provider] in s.bornHalfOpen)
  }

  /** Every reload along the run that gets published configures `provider` with its breaker enabled. */
  predicate KeptEnabled(s: System, actions: seq<Action>, provider: string)
    requires Feasible(s, actions)
    decreases |actions|
  {
    actions == [] ||
    (&& (actions[0].Build? && actions[0].provider == provider ==> actions[0].policy.enabled)
     && (actions[0].Publish? ==> provider in s.reload.built)
     && KeptEnabled(Apply(s, actions[0]), actions[1..], provider))
  }

  lemma StrandedTurnsAway(s: System, provider: string, now: int)
    requires Inv(s) && Stranded(s, provider)
    ensures s.current[provider] < |s.breakers|
    ensures Decide(s.breakers[s.current[provider]], now) == Rejected(SECOND)
  {
    assert CellOk(s, s.current[provider]);
  }

  /**
   A stranded provider stays stranded: through any traffic and any number of reloads, for as long as
   each published configuration keeps the provider with an enabled breaker, every request that reads
   the runtime is turned away from it, whatever the clock says.
   */
  lemma {:induction false} StrandedStays(s: System, actions: seq<Action>, provider: string)
    requires Inv(s) && Feasible(s, actions) && Stranded(s, provider) && KeptEnabled(s, actions, provider)
    ensures Stranded(Run(s, actions), provider)
    decreases |actions|
  {
    if actions != [] {
      StrandedStep(s, actions[0], provider);
      InvStep(s, actions[0]);
      StrandedStays(Apply(s, actions[0]), actions[1..], provider);
    }
  }

  lemma StrandedStep(s: System, a: Action, provider: string)
    requires Inv(s) && Possible(s, a) && Stranded(s, provider)
    requires a.Build? && a.provider == provider ==> a.policy.enabled
    requires a.Publish? ==> provider in s.reload.built
    ensures Stranded(Apply(s, a), provider)
  {
    match a {
      case Build(_, _) => assert CellOk(s, s.current[provider]);
      case AskBreaker(_, _) => assert Apply(s, a).current == s.current && Apply(s, a).reload == s.reload;
      case _ =>
    }
  }

  /** Nothing in `actions` builds `provider` again, publishes or gives up. */
  predicate LeavesBuild(actions: seq<Action>, provider: string) {
    forall i :: 0 <= i < |actions| ==>
      match actions[i]
      case Build(p, _) => p != provider
      case Publish => false
      case Abandon => false
      case _ => true
  }

  /** A reload under way has built breaker `id` for `provider`, half-open or not as `born` says. */
  predicate HasBuilt(s: System, provider: string, id: nat, born: bool) {
    && s.reload.Building?
    && provider in s.reload.built && s.reload.built[provider] == id
    && id < |s.breakers|
    && (id in s.bornHalfOpen <==> born)
  }

  lemma {:induction false} BuildKept(s: System, actions: seq<Action>, provider: string, id: nat, born: bool)
    requires Feasible(s, actions) && LeavesBuild(actions, provider) && HasBuilt(s, provider, id, born)
    ensures HasBuilt(Run(s, actions), provider, id, born)
    decreases |actions|
  {
    if actions != [] {
      BuildKeptStep(s, actions[0], provider, id, born);
      BuildKept(Apply(s, actions[0]), actions[1..], provider, id, born);
    }
  }

  lemma BuildKeptStep(s: System, a: Action, provider: string, id: nat, born: bool)
    requires Possible(s, a) && LeavesBuild([a], provider) && HasBuilt(s, provider, id, born)
    ensures HasBuilt(Apply(s, a), provider, id, born)
  {
    assert [a][0] == a;
  }

  /** Publishing strands a provider exactly when the clone built for it was born half-open, whatever
      traffic and other builds come between; and cloning does that exactly when at that moment the
      published breaker was half-open or past its cooldown, and both policies are enabled. */
  lemma StrandedIff(s: System, provider: string, policy: Policy, between: seq<Action>)
    requires Inv(s) && provider in s.current && Possible(s, Build(provider, policy))
    requires Feasible(Apply(s, Build(provider, policy)), between) && LeavesBuild(between, provider)
    ensures var last := Run(Apply(s, Build(provider, policy)), between);
            && Possible(last, Publish)
            && (Stranded(Apply(last, Publish), provider)
                <==> BornHalfOpen(s.breakers[s.current[provider]], policy, s.reload.now))
  {
    assert CellOk(s, s.current[provider]);
    assert |s.breakers| !in s.bornHalfOpen;
    BuildKept(Apply(s, Build(provider, policy)), between, provider, |s.breakers|,
              BornHalfOpen(s.breakers[s.current[provider]], policy, s.reload.now));
  }
}
