/**
 Which orders of completion are safe.

 A set of ordinary requests is under way on one closed breaker that agrees with the provider's
 counters.  A schedule says in which order their completions are counted and their permits given back,
 among any other steps of the system; how each request ends, and when, is left to a plan.
 */
module Schedules {
  import opened Circuit
  import opened BreakerRuns
  import opened ProviderMetrics
  import opened Transport
  import opened HotReload
  import opened Completions
  import opened Orders

  // ---------------------------------------------------------------- schedules and plans

  datatype Event = Out(r: nat) | Back(r: nat) | Other(a: Action)

  /** How each request ends, and the clock readings of its completion. */
  datatype Plan = Plan(ends: nat -> Ending, duration: nat -> int, countedAt: nat -> int, returnedAt: nat -> int)

  /** Which requests finish as failures under a plan. */
  function FailsOf(plan: Plan): Failing {
    (r: nat) => Judge(plan.ends(r)).failed
  }

  function ActionOf(e: Event, plan: Plan): Action {
    match e
    case Out(r) => CountOut(r, plan.ends(r), plan.duration(r), plan.countedAt(r))
    case Back(r) => GiveBack(r, plan.returnedAt(r))
    case Other(a) => a
  }

  function ActionsOf(events: seq<Event>, plan: Plan): (actions: seq<Action>)
    ensures |actions| == |events|
    ensures forall i :: 0 <= i < |events| ==> actions[i] == ActionOf(events[i], plan)
  {
    seq(|events|, i requires 0 <= i < |events| => ActionOf(events[i], plan))
  }

  lemma ActionsFirst(events: seq<Event>, plan: Plan)
    requires events != []
    ensures ActionsOf(events, plan)[0] == ActionOf(events[0], plan)
    ensures ActionsOf(events, plan)[1..] == ActionsOf(events[1..], plan)
  {
  }

  /** Every request of `waiting` is counted once and later given back once; `out` are those counted. */
  predicate Complete(events: seq<Event>, waiting: set<nat>, out: set<nat>)
    decreases |events|
  {
    if events == [] then waiting == {} && out == {}
    else
      && Fits(events[0], waiting, out)
      && Complete(events[1..], WaitingAfter(events[0], waiting), OutAfter(events[0], out))
  }

  predicate Fits(e: Event, waiting: set<nat>, out: set<nat>) {
    match e
    case Out(r) => r in waiting
    case Back(r) => r in out
    case Other(_) => true
  }

  function WaitingAfter(e: Event, waiting: set<nat>): set<nat> {
    match e
    case Out(r) => waiting - {r}
    case Back(_) => waiting
    case Other(_) => waiting
  }

  function OutAfter(e: Event, out: set<nat>): set<nat> {
    match e
    case Out(r) => out + {r}
    case Back(r) => out - {r}
    case Other(_) => out
  }

  /** The order in which completions are counted. */
  function OutOrder(events: seq<Event>): seq<nat>
    decreases |events|
  {
    if events == [] then []
    else if events[0].Out? then [events[0].r] + OutOrder(events[1..])
    else OutOrder(events[1..])
  }

  /** The order in which permits come back. */
  function BackOrder(events: seq<Event>): seq<nat>
    decreases |events|
  {
    if events == [] then []
    else if events[0].Back? then [events[0].r] + BackOrder(events[1..])
    else BackOrder(events[1..])
  }

  /** A step that completes nothing of the provider. */
  predicate Elsewhere(s: System, a: Action, provider: string)
    requires Possible(s, a)
  {
    a.CountOut? || a.GiveBack? ==> s.requests[a.r].provider != provider
  }

  /** The schedule can be run under this plan, and its other steps complete nothing of the provider. */
  predicate CanRun(s: System, events: seq<Event>, plan: Plan, provider: string)
    decreases |events|
  {
    events == [] ||
    (&& Possible(s, ActionOf(events[0], plan))
     && (events[0].Other? ==> Elsewhere(s, events[0].a, provider))
     && CanRun(Apply(s, ActionOf(events[0], plan)), events[1..], plan, provider))
  }

  lemma {:induction false} CanRunFeasible(s: System, events: seq<Event>, plan: Plan, provider: string)
    requires CanRun(s, events, plan, provider)
    ensures Feasible(s, ActionsOf(events, plan))
    decreases |events|
  {
    if events != [] {
      ActionsFirst(events, plan);
      CanRunFeasible(Apply(s, ActionOf(events[0], plan)), events[1..], plan, provider);
    }
  }

  // ---------------------------------------------------------------- the orders list the requests

  /** The members of a set, each once. */
  ghost predicate Lists(order: seq<nat>, members: set<nat>) {
    Distinct(order) && |order| == |members| && forall r :: r in order <==> r in members
  }

  lemma Prepended(r: nat, order: seq<nat>, members: set<nat>)
    requires Lists(order, members) && r !in members
    ensures Lists([r] + order, members + {r})
  {
    forall i, j | 0 <= i < j < |[r] + order| ensures ([r] + order)[i] != ([r] + order)[j] {
      assert order[j - 1] in order;
    }
  }

  lemma {:induction false} OutOrderLists(events: seq<Event>, waiting: set<nat>, out: set<nat>)
    requires Complete(events, waiting, out)
    ensures Lists(OutOrder(events), waiting)
    decreases |events|
  {
    if events != [] {
      var e := events[0];
      OutOrderLists(events[1..], WaitingAfter(e, waiting), OutAfter(e, out));
      if e.Out? {
        Prepended(e.r, OutOrder(events[1..]), waiting - {e.r});
        assert waiting - {e.r} + {e.r} == waiting;
      }
    }
  }

  /** The requests still to be given back. */
  function Unreturned(waiting: set<nat>, out: set<nat>): set<nat> {
    waiting + out
  }

  lemma UnreturnedAfter(e: Event, waiting: set<nat>, out: set<nat>)
    requires Fits(e, waiting, out) && waiting * out == {}
    ensures WaitingAfter(e, waiting) * OutAfter(e, out) == {}
    ensures var left := Unreturned(WaitingAfter(e, waiting), OutAfter(e, out));
            if e.Back? then e.r !in left && left + {e.r} == Unreturned(waiting, out)
            else left == Unreturned(waiting, out)
  {
    var left := Unreturned(WaitingAfter(e, waiting), OutAfter(e, out));
    forall r ensures r in left <==> r in Unreturned(waiting, out) && (e.Back? ==> r != e.r) {
      assert r in waiting && r in out ==> r in waiting * out;
    }
    forall r ensures !(r in WaitingAfter(e, waiting) && r in OutAfter(e, out)) {
      assert r in waiting && r in out ==> r in waiting * out;
    }
  }

  lemma {:induction false} BackOrderLists(events: seq<Event>, waiting: set<nat>, out: set<nat>)
    requires Complete(events, waiting, out) && waiting * out == {}
    ensures Lists(BackOrder(events), Unreturned(waiting, out))
    decreases |events|
  {
    if events != [] {
      var e := events[0];
      UnreturnedAfter(e, waiting, out);
      BackOrderLists(events[1..], WaitingAfter(e, waiting), OutAfter(e, out));
      if e.Back? {
        Prepended(e.r, BackOrder(events[1..]), Unreturned(WaitingAfter(e, waiting), OutAfter(e, out)));
      }
    }
  }

  // ---------------------------------------------------------------- what a schedule does

  /** The requests of a schedule, in `s`, hold ordinary permits of breaker `id`, made for `provider`. */
  predicate UnderWay(s: System, waiting: set<nat>, out: set<nat>, provider: string, id: nat, fails: Failing) {
    && HotReload.Named(s)
    && id < |s.breakers| && s.madeFor[id] == provider
    && waiting * out == {}
    && (forall r :: r in waiting ==>
          r in s.requests && s.requests[r] == Request(provider, id, Begun(Permit(false))))
    && (forall r :: r in out ==>
          r in s.requests && s.requests[r] == Request(provider, id, CountedOut(Permit(false), fails(r))))
  }

  lemma OutStep(s: System, r: nat, plan: Plan, waiting: set<nat>, out: set<nat>, provider: string, id: nat)
    requires UnderWay(s, waiting, out, provider, id, FailsOf(plan)) && r in waiting
    ensures Possible(s, ActionOf(Out(r), plan))
    ensures UnderWay(Apply(s, ActionOf(Out(r), plan)), waiting - {r}, out + {r}, provider, id, FailsOf(plan))
  {
    NamedStep(s, ActionOf(Out(r), plan));
  }

  lemma BackStep(s: System, r: nat, plan: Plan, waiting: set<nat>, out: set<nat>, provider: string, id: nat)
    requires UnderWay(s, waiting, out, provider, id, FailsOf(plan)) && r in out
    ensures Possible(s, ActionOf(Back(r), plan))
    ensures UnderWay(Apply(s, ActionOf(Back(r), plan)), waiting, out - {r}, provider, id, FailsOf(plan))
  {
    NamedStep(s, ActionOf(Back(r), plan));
  }

  /** Other steps leave the requests of the schedule where they are. */
  lemma OtherStep(
      s: System, a: Action, waiting: set<nat>, out: set<nat>, provider: string, id: nat, fails: Failing)
    requires UnderWay(s, waiting, out, provider, id, fails) && Possible(s, a) && Elsewhere(s, a, provider)
    ensures UnderWay(Apply(s, a), waiting, out, provider, id, fails)
  {
    NamedStep(s, a);
    BreakersKept(s, a, id);
    forall r | r in waiting || r in out ensures r in Apply(s, a).requests && Apply(s, a).requests[r] == s.requests[r] {
      Untouched(s, a, r, provider);
    }
  }

  lemma Untouched(s: System, a: Action, r: nat, provider: string)
    requires Possible(s, a) && Elsewhere(s, a, provider)
    requires r in s.requests && s.requests[r].provider == provider
    requires s.requests[r].phase.Begun? || s.requests[r].phase.CountedOut?
    ensures r in Apply(s, a).requests && Apply(s, a).requests[r] == s.requests[r]
  {
  }

  lemma EventStep(
      s: System, e: Event, plan: Plan, waiting: set<nat>, out: set<nat>, provider: string, id: nat)
    requires UnderWay(s, waiting, out, provider, id, FailsOf(plan)) && Fits(e, waiting, out)
    requires Possible(s, ActionOf(e, plan)) && (e.Other? ==> Elsewhere(s, e.a, provider))
    ensures UnderWay(Apply(s, ActionOf(e, plan)), WaitingAfter(e, waiting), OutAfter(e, out), provider, id,
                     FailsOf(plan))
  {
    match e {
      case Out(r) => OutStep(s, r, plan, waiting, out, provider, id);
      case Back(r) => BackStep(s, r, plan, waiting, out, provider, id);
      case Other(a) => OtherStep(s, a, waiting, out, provider, id, FailsOf(plan));
    }
  }

  /** What an event adds to the outcomes counted, and what it is to the breaker. */
  lemma EventSeen(
      s: System, e: Event, plan: Plan, waiting: set<nat>, out: set<nat>, provider: string, id: nat)
    requires UnderWay(s, waiting, out, provider, id, FailsOf(plan)) && Fits(e, waiting, out)
    requires Possible(s, ActionOf(e, plan)) && (e.Other? ==> Elsewhere(s, e.a, provider))
    ensures CountedNow(s, ActionOf(e, plan), provider) == if e.Out? then [FailsOf(plan)(e.r)] else []
    ensures match e
            case Out(_) => LocalOp(s, ActionOf(e, plan), id) == []
            case Back(r) => LocalOp(s, ActionOf(e, plan), id) == [Done(false, FailsOf(plan)(r), plan.returnedAt(r))]
            case Other(a) =>
              LocalOp(s, a, id) == if a.AskBreaker? && s.requests[a.r].breaker == id then [Ask(a.now)] else []
  {
  }

  lemma OutcomesFirst(r: nat, order: seq<nat>, fails: Failing)
    ensures Outcomes([r] + order, fails) == [fails(r)] + Outcomes(order, fails)
  {
  }

  /** What is counted is its endings in the order of counting. */
  lemma {:induction false} ScheduleCounts(
      s: System, events: seq<Event>, plan: Plan, waiting: set<nat>, out: set<nat>, provider: string, id: nat)
    requires UnderWay(s, waiting, out, provider, id, FailsOf(plan)) && Complete(events, waiting, out)
    requires CanRun(s, events, plan, provider) && Feasible(s, ActionsOf(events, plan))
    ensures Completions.Counted(s, ActionsOf(events, plan), provider) == Outcomes(OutOrder(events), FailsOf(plan))
    decreases |events|
  {
    if events != [] {
      var e, rest := events[0], events[1..];
      EventStep(s, e, plan, waiting, out, provider, id);
      EventSeen(s, e, plan, waiting, out, provider, id);
      ActionsFirst(events, plan);
      ScheduleCounts(Apply(s, ActionOf(e, plan)), rest, plan, WaitingAfter(e, waiting), OutAfter(e, out), provider, id);
      if e.Out? {
        OutcomesFirst(e.r, OutOrder(rest), FailsOf(plan));
      }
    }
  }

  lemma DoneFirst(seen: seq<bool>, failed: bool, now: int, ops: seq<Op>)
    ensures BreakerRuns.Counted(seen, [Done(false, failed, now)] + ops) == BreakerRuns.Counted(seen + [failed], ops)
    ensures LastProbeFailed(false, [Done(false, failed, now)] + ops) == LastProbeFailed(false, ops)
  {
    assert ([Done(false, failed, now)] + ops)[1..] == ops;
  }

  lemma AskFirst(seen: seq<bool>, now: int, ops: seq<Op>)
    ensures BreakerRuns.Counted(seen, [Ask(now)] + ops) == BreakerRuns.Counted(seen, ops)
    ensures LastProbeFailed(false, [Ask(now)] + ops) == LastProbeFailed(false, ops)
  {
    assert ([Ask(now)] + ops)[1..] == ops;
  }

  /** The breaker sees ordinary permits come back with the endings in the order of return, and no probe. */
  lemma {:induction false} ScheduleReturns(
      s: System, events: seq<Event>, plan: Plan, waiting: set<nat>, out: set<nat>, provider: string, id: nat,
      seen: seq<bool>)
    requires UnderWay(s, waiting, out, provider, id, FailsOf(plan)) && Complete(events, waiting, out)
    requires CanRun(s, events, plan, provider) && Feasible(s, ActionsOf(events, plan))
    ensures var ops := LocalRun(s, ActionsOf(events, plan), id);
            && BreakerRuns.Counted(seen, ops) == seen + Outcomes(BackOrder(events), FailsOf(plan))
            && !LastProbeFailed(false, ops)
    decreases |events|
  {
    if events == [] {
      assert seen + [] == seen;
    } else {
      var e, rest := events[0], events[1..];
      var next := Apply(s, ActionOf(e, plan));
      EventStep(s, e, plan, waiting, out, provider, id);
      EventSeen(s, e, plan, waiting, out, provider, id);
      ActionsFirst(events, plan);
      var ops := LocalRun(next, ActionsOf(rest, plan), id);
      var (waiting', out') := (WaitingAfter(e, waiting), OutAfter(e, out));
      match e {
        case Back(r) =>
          var failed := FailsOf(plan)(r);
          ScheduleReturns(next, rest, plan, waiting', out', provider, id, seen + [failed]);
          DoneFirst(seen, failed, plan.returnedAt(r), ops);
          OutcomesFirst(r, BackOrder(rest), FailsOf(plan));
          Completions.Associate(seen, [failed], Outcomes(BackOrder(rest), FailsOf(plan)));
        case Out(_) =>
          ScheduleReturns(next, rest, plan, waiting', out', provider, id, seen);
          assert [] + ops == ops;
        case Other(a) =>
          ScheduleReturns(next, rest, plan, waiting', out', provider, id, seen);
          assert [] + ops == ops;
          if a.AskBreaker? {
            AskFirst(seen, a.now, ops);
          }
      }
    }
  }

  // ---------------------------------------------------------------- when counter and breaker agree

  /** The requests `batch` are under way on a closed, enabled breaker that agrees with the provider's
      counters. */
  ghost predicate Fair(s: System, batch: set<nat>, provider: string, id: nat) {
    && UnderWay(s, batch, {}, provider, id, _ => false)
    && Inv(s) && id !in s.bornHalfOpen
    && !IsBlank(provider)
    && s.breakers[id].enabled && s.breakers[id].state == Closed
    && Entry(s.metrics, provider).consecutiveFailures == s.breakers[id].failures
  }

  lemma FairBounds(s: System, batch: set<nat>, provider: string, id: nat)
    requires Fair(s, batch, provider, id)
    ensures 0 <= s.breakers[id].failures < s.breakers[id].failureThreshold && OneProbe(View(s, id))
  {
    assert CellOk(s, id);
  }

  lemma FairFor(s: System, batch: set<nat>, provider: string, id: nat, plan: Plan)
    requires Fair(s, batch, provider, id)
    ensures UnderWay(s, batch, {}, provider, id, FailsOf(plan))
  {
  }

  /** After the schedule, under this plan, counter and breaker agree. */
  ghost predicate AgreesAfter(s: System, events: seq<Event>, plan: Plan, provider: string, id: nat) {
    && Feasible(s, ActionsOf(events, plan))
    && id < |Run(s, ActionsOf(events, plan)).breakers|
    && Agreeing(Run(s, ActionsOf(events, plan)), provider, id)
  }

  /** The plan's outcomes in the order of return never reach the threshold. */
  ghost predicate StaysClosed(s: System, events: seq<Event>, fails: Failing, id: nat)
    requires id < |s.breakers| && s.breakers[id].failures >= 0
  {
    !HasFailureBlock(OutcomesAfter(s.breakers[id].failures, BackOrder(events), fails), s.breakers[id].failureThreshold)
  }

  /** Both orders leave the same failing tail. */
  ghost predicate SameTails(s: System, events: seq<Event>, fails: Failing, id: nat)
    requires id < |s.breakers| && s.breakers[id].failures >= 0
  {
    TrailingFailures(OutcomesAfter(s.breakers[id].failures, OutOrder(events), fails))
    == TrailingFailures(OutcomesAfter(s.breakers[id].failures, BackOrder(events), fails))
  }

  /** The breaker after a schedule: closed unless a block of the outcomes in the order of return reached
      the threshold, with their failing tail. */
  lemma BreakerAfter(s: System, events: seq<Event>, batch: set<nat>, plan: Plan, provider: string, id: nat)
    requires Fair(s, batch, provider, id) && Complete(events, batch, {})
    requires CanRun(s, events, plan, provider) && Feasible(s, ActionsOf(events, plan))
    ensures s.breakers[id].failures >= 0
    ensures id < |Run(s, ActionsOf(events, plan)).breakers|
    ensures var b := Run(s, ActionsOf(events, plan)).breakers[id];
            && (b.state == Closed <==> StaysClosed(s, events, FailsOf(plan), id))
            && (b.state == Closed ==>
                  b.failures
                  == TrailingFailures(OutcomesAfter(s.breakers[id].failures, BackOrder(events), FailsOf(plan))))
  {
    FairBounds(s, batch, provider, id);
    FairFor(s, batch, provider, id, plan);
    assert CellOk(s, id);
    var actions := ActionsOf(events, plan);
    var seen := AlreadyFailed(s.breakers[id].failures);
    ScheduleReturns(s, events, plan, batch, {}, provider, id, seen);
    RunRefines(s, actions, id);
    TrailingOfAlreadyFailed(s.breakers[id].failures);
    ClosedFollowsHistory(View(s, id), LocalRun(s, actions, id), seen, false);
  }

  lemma CounterAfter(s: System, events: seq<Event>, batch: set<nat>, plan: Plan, provider: string, id: nat)
    requires Fair(s, batch, provider, id) && Complete(events, batch, {})
    requires CanRun(s, events, plan, provider) && Feasible(s, ActionsOf(events, plan))
    requires s.breakers[id].failures >= 0
    ensures Entry(Run(s, ActionsOf(events, plan)).metrics, provider).consecutiveFailures
            == TrailingFailures(OutcomesAfter(s.breakers[id].failures, OutOrder(events), FailsOf(plan)))
  {
    FairFor(s, batch, provider, id, plan);
    TrailingOfAlreadyFailed(s.breakers[id].failures);
    CountersFollowCounting(s, ActionsOf(events, plan), provider, AlreadyFailed(s.breakers[id].failures));
    ScheduleCounts(s, events, plan, batch, {}, provider, id);
  }

  lemma AgreesAfterIff(s: System, events: seq<Event>, batch: set<nat>, plan: Plan, provider: string, id: nat)
    requires Fair(s, batch, provider, id) && Complete(events, batch, {}) && CanRun(s, events, plan, provider)
    ensures s.breakers[id].failures >= 0
    ensures AgreesAfter(s, events, plan, provider, id)
            <==> (StaysClosed(s, events, FailsOf(plan), id) ==> SameTails(s, events, FailsOf(plan), id))
  {
    FairBounds(s, batch, provider, id);
    CanRunFeasible(s, events, plan, provider);
    BreakerAfter(s, events, batch, plan, provider, id);
    CounterAfter(s, events, batch, plan, provider, id);
  }

  lemma ScheduleOrders(s: System, events: seq<Event>, batch: set<nat>)
    requires Complete(events, batch, {})
    ensures SameRequests(OutOrder(events), BackOrder(events))
  {
    OutOrderLists(events, batch, {});
    BackOrderLists(events, batch, {});
    assert Unreturned(batch, {}) == batch;
  }

  /** A safe order makes both agree under every plan: responses, transport errors, broken streams and
      cancellations alike, at any time. */
  lemma SafeScheduleAgrees(s: System, events: seq<Event>, batch: set<nat>, plan: Plan, provider: string, id: nat)
    requires Fair(s, batch, provider, id) && Complete(events, batch, {}) && CanRun(s, events, plan, provider)
    requires |OutOrder(events)| == |BackOrder(events)| && s.breakers[id].failures >= 0
    requires SafeOrder(OutOrder(events), BackOrder(events), s.breakers[id].failureThreshold, s.breakers[id].failures)
    ensures AgreesAfter(s, events, plan, provider, id)
  {
    FairBounds(s, batch, provider, id);
    ScheduleOrders(s, events, batch);
    AgreesAfterIff(s, events, batch, plan, provider, id);
    if StaysClosed(s, events, FailsOf(plan), id) {
      SafeOrderAgrees(OutOrder(events), BackOrder(events), s.breakers[id].failureThreshold,
                      s.breakers[id].failures, FailsOf(plan));
    }
  }

  /** The plan in which the given requests get a bare 500 and the others a bare 200. */
  function BarePlan(fails: Failing): Plan {
    Plan((r: nat) => NoBody(if fails(r) then 500 else 200), _ => 0, _ => 0, _ => 0)
  }

  lemma BarePlanFails(fails: Failing, r: nat)
    ensures FailsOf(BarePlan(fails))(r) == fails(r)
  {
    assert BarePlan(fails).ends(r) == NoBody(if fails(r) then 500 else 200);
  }

  lemma SameFailing(order: seq<nat>, start: nat, fails1: Failing, fails2: Failing)
    requires forall r: nat :: fails1(r) == fails2(r)
    ensures OutcomesAfter(start, order, fails1) == OutcomesAfter(start, order, fails2)
  {
  }

  /** An order that is not safe leaves some plan, under which the breaker stays closed, with different
      failing tails. */
  lemma UnsafeScheduleDiffers(s: System, events: seq<Event>, batch: set<nat>, provider: string, id: nat)
    returns (plan: Plan)
    requires Fair(s, batch, provider, id) && Complete(events, batch, {})
    requires |OutOrder(events)| == |BackOrder(events)| && s.breakers[id].failures >= 0
    requires !SafeOrder(OutOrder(events), BackOrder(events), s.breakers[id].failureThreshold, s.breakers[id].failures)
    ensures StaysClosed(s, events, FailsOf(plan), id) && !SameTails(s, events, FailsOf(plan), id)
  {
    FairBounds(s, batch, provider, id);
    ScheduleOrders(s, events, batch);
    var start := s.breakers[id].failures;
    var fails := DifferenceTells(OutOrder(events), BackOrder(events), s.breakers[id].failureThreshold, start);
    plan := BarePlan(fails);
    forall r: nat ensures fails(r) == FailsOf(plan)(r) {
      BarePlanFails(fails, r);
    }
    SameFailing(OutOrder(events), start, fails, FailsOf(plan));
    SameFailing(BackOrder(events), start, fails, FailsOf(plan));
  }

  /** The schedule can be run under every plan that keeps the breaker closed. */
  ghost predicate RunsWhileClosed(s: System, events: seq<Event>, provider: string, id: nat)
    requires id < |s.breakers| && s.breakers[id].failures >= 0
  {
    forall plan :: StaysClosed(s, events, FailsOf(plan), id) ==> CanRun(s, events, plan, provider)
  }

  /** Whatever else happens in between, reloads of the same provider included, as long as the schedule can
      be run whenever the breaker stays closed. */
  lemma RunnableScheduleSafeIff(s: System, events: seq<Event>, batch: set<nat>, provider: string, id: nat)
    requires Fair(s, batch, provider, id) && Complete(events, batch, {})
    requires s.breakers[id].failures >= 0 && RunsWhileClosed(s, events, provider, id)
    ensures |OutOrder(events)| == |BackOrder(events)|
    ensures (forall plan :: CanRun(s, events, plan, provider) ==> AgreesAfter(s, events, plan, provider, id))
            <==> SafeOrder(OutOrder(events), BackOrder(events), s.breakers[id].failureThreshold,
                           s.breakers[id].failures)
  {
    ScheduleOrders(s, events, batch);
    if SafeOrder(OutOrder(events), BackOrder(events), s.breakers[id].failureThreshold, s.breakers[id].failures) {
      forall plan | CanRun(s, events, plan, provider) ensures AgreesAfter(s, events, plan, provider, id) {
        SafeScheduleAgrees(s, events, batch, plan, provider, id);
      }
    } else {
      var plan := UnsafeScheduleDiffers(s, events, batch, provider, id);
      AgreesAfterIff(s, events, batch, plan, provider, id);
    }
  }

  // ---------------------------------------------------------------- one calm run is enough

  /** The same request, up to how it ended. */
  predicate Alike(q1: Request, q2: Request) {
    && q1.provider == q2.provider && q1.breaker == q2.breaker
    && (q1.phase == q2.phase
        || (q1.phase.CountedOut? && q2.phase.CountedOut? && q1.phase.permit == q2.phase.permit))
  }

  /** Two states of one schedule under two plans, the breaker closed in both: they differ at most in the
      counters, in the breaker's failures and in how the requests `out` ended. */
  predicate InStep(s: System, t: System, out: set<nat>, provider: string, id: nat) {
    && HotReload.Named(s) && HotReload.Named(t)
    && t.current == s.current && t.reload == s.reload && t.madeFor == s.madeFor
    && id < |s.breakers| && s.madeFor[id] == provider
    && SameBreakers(s, t, id)
    && SameBut(s.requests, t.requests, out)
  }

  predicate SameBreakers(s: System, t: System, id: nat) {
    && |t.breakers| == |s.breakers| && id < |s.breakers|
    && (forall j :: 0 <= j < |s.breakers| && j != id ==> t.breakers[j] == s.breakers[j])
    && s.breakers[id].enabled && s.breakers[id].state == Closed
    && t.breakers[id].enabled && t.breakers[id].state == Closed
  }

  predicate SameBut(requests1: map<nat, Request>, requests2: map<nat, Request>, out: set<nat>) {
    && requests2.Keys == requests1.Keys
    && (forall r :: r in requests1 ==>
          Alike(requests1[r], requests2[r]) && (r !in out ==> requests2[r] == requests1[r]))
  }

  lemma PutSame(requests1: map<nat, Request>, requests2: map<nat, Request>, out: set<nat>, r: nat, q: Request)
    requires SameBut(requests1, requests2, out)
    ensures SameBut(requests1[r := q], requests2[r := q], out)
  {
  }

  lemma PutAlike(
      requests1: map<nat, Request>, requests2: map<nat, Request>, out: set<nat>, r: nat, q1: Request, q2: Request)
    requires SameBut(requests1, requests2, out) && Alike(q1, q2)
    ensures SameBut(requests1[r := q1], requests2[r := q2], out + {r})
  {
  }

  lemma DropSame(requests1: map<nat, Request>, requests2: map<nat, Request>, out: set<nat>, r: nat)
    requires SameBut(requests1, requests2, out)
    ensures SameBut(requests1 - {r}, requests2 - {r}, out) && SameBut(requests1 - {r}, requests2 - {r}, out - {r})
  {
  }

  /** A step that is possible in one is possible in the other. */
  lemma PossibleInStep(
      s: System, t: System, e: Event, calm: Plan, plan: Plan, waiting: set<nat>, out: set<nat>, provider: string,
      id: nat)
    requires InStep(s, t, out, provider, id) && Fits(e, waiting, out)
    requires Possible(s, ActionOf(e, calm)) && (e.Other? ==> Elsewhere(s, e.a, provider))
    ensures Possible(t, ActionOf(e, plan)) && (e.Other? ==> Elsewhere(t, e.a, provider))
  {
  }

  /** The breaker after one event, in a state where it is closed. */
  lemma BreakerThen(s: System, e: Event, plan: Plan, waiting: set<nat>, out: set<nat>, provider: string, id: nat)
    requires UnderWay(s, waiting, out, provider, id, FailsOf(plan)) && Fits(e, waiting, out)
    requires Possible(s, ActionOf(e, plan)) && (e.Other? ==> Elsewhere(s, e.a, provider))
    requires s.breakers[id].state == Closed
    ensures id < |Apply(s, ActionOf(e, plan)).breakers|
    ensures var next := Apply(s, ActionOf(e, plan)).breakers[id];
            next == if e.Back?
                    then Circuit.AfterFinish(s.breakers[id], Permit(false), FailsOf(plan)(e.r), plan.returnedAt(e.r))
                    else s.breakers[id]
  {
    BreakerMoves(s, ActionOf(e, plan), id);
  }

  /** The other breakers move in step. */
  lemma OtherBreakersInStep(
      s: System, t: System, e: Event, calm: Plan, plan: Plan, waiting: set<nat>, out: set<nat>, provider: string,
      id: nat, j: nat)
    requires InStep(s, t, out, provider, id) && Fits(e, waiting, out) && waiting * out == {}
    requires UnderWay(s, waiting, out, provider, id, FailsOf(calm))
    requires UnderWay(t, waiting, out, provider, id, FailsOf(plan))
    requires Possible(s, ActionOf(e, calm)) && Possible(t, ActionOf(e, plan))
    requires e.Other? ==> Elsewhere(s, e.a, provider) && (e.a.Build? ==> e.a.provider != provider)
    requires j < |s.breakers| && j != id
    ensures j < |Apply(s, ActionOf(e, calm)).breakers| && j < |Apply(t, ActionOf(e, plan)).breakers|
    ensures Apply(t, ActionOf(e, plan)).breakers[j] == Apply(s, ActionOf(e, calm)).breakers[j]
  {
    BreakerMoves(s, ActionOf(e, calm), j);
    BreakerMoves(t, ActionOf(e, plan), j);
  }

  lemma BuiltInStep(s: System, t: System, a: Action, out: set<nat>, provider: string, id: nat)
    requires InStep(s, t, out, provider, id) && a.Build? && a.provider != provider
    requires Possible(s, a) && Possible(t, a)
    ensures BuiltBreaker(t, a.provider, a.policy, t.reload.now) == BuiltBreaker(s, a.provider, a.policy, s.reload.now)
  {
  }

  lemma BreakerCount(s: System, a: Action)
    requires Possible(s, a)
    ensures |Apply(s, a).breakers| == |s.breakers| + if a.Build? then 1 else 0
    ensures a.Build? ==> Apply(s, a).breakers[|s.breakers|] == BuiltBreaker(s, a.provider, a.policy, s.reload.now)
  {
  }

  lemma BreakersInStep(
      s: System, t: System, e: Event, calm: Plan, plan: Plan, waiting: set<nat>, out: set<nat>, provider: string,
      id: nat)
    requires InStep(s, t, out, provider, id) && Fits(e, waiting, out) && waiting * out == {}
    requires UnderWay(s, waiting, out, provider, id, FailsOf(calm))
    requires UnderWay(t, waiting, out, provider, id, FailsOf(plan))
    requires Possible(s, ActionOf(e, calm)) && Possible(t, ActionOf(e, plan))
    requires e.Other? ==>
               Elsewhere(s, e.a, provider) && Elsewhere(t, e.a, provider) && (e.a.Build? ==> e.a.provider != provider)
    requires e.Back? ==> !FailsOf(calm)(e.r)
    requires id < |Apply(t, ActionOf(e, plan)).breakers|
             && Apply(t, ActionOf(e, plan)).breakers[id].state == Closed
    ensures SameBreakers(Apply(s, ActionOf(e, calm)), Apply(t, ActionOf(e, plan)), id)
  {
    var s', t' := Apply(s, ActionOf(e, calm)), Apply(t, ActionOf(e, plan));
    BreakerCount(s, ActionOf(e, calm));
    BreakerCount(t, ActionOf(e, plan));
    BreakerThen(s, e, calm, waiting, out, provider, id);
    BreakerThen(t, e, plan, waiting, out, provider, id);
    forall j | 0 <= j < |s'.breakers| && j != id ensures t'.breakers[j] == s'.breakers[j] {
      if j < |s.breakers| {
        OtherBreakersInStep(s, t, e, calm, plan, waiting, out, provider, id, j);
      } else {
        BuiltInStep(s, t, e.a, out, provider, id);
      }
    }
  }

  /** What a step does to the requests. */
  function RequestsAfter(s: System, a: Action): map<nat, Request>
    requires Possible(s, a)
  {
    match a
    case Route(r, provider) => s.requests[r := Request(provider, s.current[provider], Routed)]
    case Leave(r) => s.requests - {r}
    case AskBreaker(r, now) =>
      var q := s.requests[r];
      (match Decide(s.breakers[q.breaker], now)
       case Admitted(permit) => s.requests[r := q.(phase := Permitted(permit))]
       case Rejected(_) => s.requests - {r})
    case CountIn(r) => s.requests[r := s.requests[r].(phase := Begun(s.requests[r].phase.permit))]
    case CountOut(r, ending, _, _) =>
      s.requests[r := s.requests[r].(phase := CountedOut(s.requests[r].phase.permit, Judge(ending).failed))]
    case GiveBack(r, _) => s.requests - {r}
    case _ => s.requests
  }

  lemma RequestsMove(s: System, a: Action)
    requires Possible(s, a)
    ensures Apply(s, a).requests == RequestsAfter(s, a)
  {
  }

  lemma RequestsInStep(
      s: System, t: System, e: Event, calm: Plan, plan: Plan, waiting: set<nat>, out: set<nat>, provider: string,
      id: nat)
    requires InStep(s, t, out, provider, id) && Fits(e, waiting, out) && waiting * out == {}
    requires UnderWay(s, waiting, out, provider, id, FailsOf(calm))
    requires Possible(s, ActionOf(e, calm)) && Possible(t, ActionOf(e, plan))
    requires e.Other? ==> Elsewhere(s, e.a, provider)
    ensures SameBut(Apply(s, ActionOf(e, calm)).requests, Apply(t, ActionOf(e, plan)).requests, OutAfter(e, out))
  {
    RequestsMove(s, ActionOf(e, calm));
    RequestsMove(t, ActionOf(e, plan));
    match e {
      case Out(r) => OutInStep(s, t, r, calm, plan, out);
      case Back(r) => DropSame(s.requests, t.requests, out, r);
      case Other(a) => OtherRequestsInStep(s, t, a, out, provider, id);
    }
  }

  lemma OutInStep(s: System, t: System, r: nat, calm: Plan, plan: Plan, out: set<nat>)
    requires SameBut(s.requests, t.requests, out)
    requires Possible(s, ActionOf(Out(r), calm)) && Possible(t, ActionOf(Out(r), plan))
    requires t.requests[r] == s.requests[r]
    ensures SameBut(RequestsAfter(s, ActionOf(Out(r), calm)), RequestsAfter(t, ActionOf(Out(r), plan)), out + {r})
  {
    var q := s.requests[r];
    PutAlike(s.requests, t.requests, out, r, q.(phase := CountedOut(q.phase.permit, FailsOf(calm)(r))),
             q.(phase := CountedOut(q.phase.permit, FailsOf(plan)(r))));
  }

  lemma OtherRequestsInStep(s: System, t: System, a: Action, out: set<nat>, provider: string, id: nat)
    requires InStep(s, t, out, provider, id) && Possible(s, a) && Possible(t, a) && Elsewhere(s, a, provider)
    requires forall r :: r in out ==>
               r in s.requests && s.requests[r].provider == provider && s.requests[r].phase.CountedOut?
    ensures SameBut(RequestsAfter(s, a), RequestsAfter(t, a), out)
  {
    match a {
      case Route(r, p) => PutSame(s.requests, t.requests, out, r, Request(p, s.current[p], Routed));
      case Leave(r) => DropSame(s.requests, t.requests, out, r);
      case AskBreaker(r, now) => AskInStep(s, t, r, now, out, provider, id);
      case CountIn(r) => PutSame(s.requests, t.requests, out, r, RequestsAfter(s, a)[r]);
      case CountOut(r, _, _, _) => PutSame(s.requests, t.requests, out, r, RequestsAfter(s, a)[r]);
      case GiveBack(r, _) => DropSame(s.requests, t.requests, out, r);
      case _ =>
    }
  }

  lemma AskInStep(s: System, t: System, r: nat, now: int, out: set<nat>, provider: string, id: nat)
    requires InStep(s, t, out, provider, id) && Possible(s, AskBreaker(r, now)) && Possible(t, AskBreaker(r, now))
    requires r !in out
    ensures SameBut(RequestsAfter(s, AskBreaker(r, now)), RequestsAfter(t, AskBreaker(r, now)), out)
  {
    var q := s.requests[r];
    assert t.requests[r] == q;
    assert Decide(t.breakers[q.breaker], now) == Decide(s.breakers[q.breaker], now);
    match Decide(s.breakers[q.breaker], now) {
      case Admitted(permit) => PutSame(s.requests, t.requests, out, r, q.(phase := Permitted(permit)));
      case Rejected(_) => DropSame(s.requests, t.requests, out, r);
    }
  }

  /** What a step does to the published snapshot, the reload under way and the list of breakers. */
  lemma SnapshotsMove(s: System, a: Action)
    requires Possible(s, a)
    ensures Apply(s, a).current == if a.Publish? then s.reload.built else s.current
    ensures Apply(s, a).madeFor == if a.Build? then s.madeFor + [a.provider] else s.madeFor
    ensures Apply(s, a).reload
            == match a
               case StartReload(now) => Building(map[], now)
               case Build(p, _) => Building(s.reload.built[p := |s.breakers|], s.reload.now)
               case Publish => Idle
               case Abandon => Idle
               case _ => s.reload
  {
    match a {
      case AskBreaker(r, now) => AskKeepsSnapshots(s, r, now);
      case _ =>
    }
  }

  lemma SnapshotsInStep(
      s: System, t: System, e: Event, calm: Plan, plan: Plan, out: set<nat>, provider: string, id: nat)
    requires InStep(s, t, out, provider, id)
    requires Possible(s, ActionOf(e, calm)) && Possible(t, ActionOf(e, plan))
    ensures var (s', t') := (Apply(s, ActionOf(e, calm)), Apply(t, ActionOf(e, plan)));
            t'.current == s'.current && t'.reload == s'.reload && t'.madeFor == s'.madeFor
  {
    SnapshotsMove(s, ActionOf(e, calm));
    SnapshotsMove(t, ActionOf(e, plan));
  }

  lemma AskKeepsSnapshots(s: System, r: nat, now: int)
    requires Possible(s, AskBreaker(r, now))
    ensures var s' := Apply(s, AskBreaker(r, now));
            s'.current == s.current && s'.reload == s.reload && s'.madeFor == s.madeFor
  {
  }

  lemma StaysInStep(
      s: System, t: System, e: Event, calm: Plan, plan: Plan, waiting: set<nat>, out: set<nat>, provider: string,
      id: nat)
    requires InStep(s, t, out, provider, id) && Fits(e, waiting, out) && waiting * out == {}
    requires UnderWay(s, waiting, out, provider, id, FailsOf(calm))
    requires UnderWay(t, waiting, out, provider, id, FailsOf(plan))
    requires Possible(s, ActionOf(e, calm)) && Possible(t, ActionOf(e, plan))
    requires e.Other? ==>
               Elsewhere(s, e.a, provider) && Elsewhere(t, e.a, provider) && (e.a.Build? ==> e.a.provider != provider)
    requires e.Back? ==> !FailsOf(calm)(e.r)
    requires id < |Apply(t, ActionOf(e, plan)).breakers|
             && Apply(t, ActionOf(e, plan)).breakers[id].state == Closed
    ensures InStep(Apply(s, ActionOf(e, calm)), Apply(t, ActionOf(e, plan)), OutAfter(e, out), provider, id)
  {
    NamedStep(s, ActionOf(e, calm));
    NamedStep(t, ActionOf(e, plan));
    BreakersKept(s, ActionOf(e, calm), id);
    SnapshotsInStep(s, t, e, calm, plan, out, provider, id);
    BreakersInStep(s, t, e, calm, plan, waiting, out, provider, id);
    RequestsInStep(s, t, e, calm, plan, waiting, out, provider, id);
  }

  lemma BlockStays(first: seq<bool>, second: seq<bool>, k: int)
    requires HasFailureBlock(first, k)
    ensures HasFailureBlock(first + second, k)
  {
    var i :| FailsFrom(first, i, k);
    assert FailsFrom(first + second, i, k);
  }

  /** A closed breaker that returns one outcome more and reaches no block stays closed. */
  lemma StillClosed(b: Breaker, seen: seq<bool>, failed: bool, now: int)
    requires b.enabled && b.state == Closed && b.failures == TrailingFailures(seen) && b.failureThreshold >= 1
    requires !HasFailureBlock(seen + [failed], b.failureThreshold)
    ensures var next := Circuit.AfterFinish(b, Permit(false), failed, now);
            && next.enabled && next.state == Closed && next.failureThreshold == b.failureThreshold
            && next.failures == TrailingFailures(seen + [failed])
  {
    TailGrows(seen, failed);
    TailBelow(seen + [failed], b.failureThreshold);
  }

  /** Nothing in the schedule builds the provider again. */
  predicate LeavesGeneration(events: seq<Event>, provider: string) {
    forall i :: 0 <= i < |events| && events[i].Other? && events[i].a.Build? ==> events[i].a.provider != provider
  }

  /** The breaker is closed with the failing tail of `seen`, and what is still to come reaches no block. */
  ghost predicate Safely(t: System, events: seq<Event>, fails: Failing, id: nat, seen: seq<bool>, threshold: int) {
    && id < |t.breakers| && threshold >= 1
    && t.breakers[id].enabled && t.breakers[id].state == Closed
    && t.breakers[id].failureThreshold == threshold
    && t.breakers[id].failures == TrailingFailures(seen)
    && !HasFailureBlock(seen + Outcomes(BackOrder(events), fails), threshold)
  }

  lemma SafelyOn(
      t: System, events: seq<Event>, plan: Plan, waiting: set<nat>, out: set<nat>, provider: string, id: nat,
      seen: seq<bool>, threshold: int)
    returns (seen': seq<bool>)
    requires events != [] && Safely(t, events, FailsOf(plan), id, seen, threshold)
    requires UnderWay(t, waiting, out, provider, id, FailsOf(plan)) && Fits(events[0], waiting, out)
    requires Possible(t, ActionOf(events[0], plan)) && (events[0].Other? ==> Elsewhere(t, events[0].a, provider))
    ensures Safely(Apply(t, ActionOf(events[0], plan)), events[1..], FailsOf(plan), id, seen', threshold)
  {
    var e, rest := events[0], events[1..];
    BreakerThen(t, e, plan, waiting, out, provider, id);
    if e.Back? {
      var failed := FailsOf(plan)(e.r);
      var later := Outcomes(BackOrder(rest), FailsOf(plan));
      OutcomesFirst(e.r, BackOrder(rest), FailsOf(plan));
      Completions.Associate(seen, [failed], later);
      seen' := seen + [failed];
      if HasFailureBlock(seen', threshold) {
        BlockStays(seen', later, threshold);
      }
      StillClosed(t.breakers[id], seen, failed, plan.returnedAt(e.r));
    } else {
      seen' := seen;
    }
  }

  /** If the schedule runs without failures it runs under every plan that keeps the breaker closed. */
  lemma {:induction false} CalmRunSuffices(
      s: System, t: System, events: seq<Event>, calm: Plan, plan: Plan, waiting: set<nat>, out: set<nat>,
      provider: string, id: nat, seen: seq<bool>, threshold: int)
    requires InStep(s, t, out, provider, id) && Complete(events, waiting, out) && waiting * out == {}
    requires UnderWay(s, waiting, out, provider, id, FailsOf(calm))
    requires UnderWay(t, waiting, out, provider, id, FailsOf(plan))
    requires forall r: nat :: !FailsOf(calm)(r)
    requires CanRun(s, events, calm, provider) && LeavesGeneration(events, provider)
    requires Safely(t, events, FailsOf(plan), id, seen, threshold)
    ensures CanRun(t, events, plan, provider)
    decreases |events|
  {
    if events != [] {
      var e, rest := events[0], events[1..];
      var (waiting', out') := (WaitingAfter(e, waiting), OutAfter(e, out));
      PossibleInStep(s, t, e, calm, plan, waiting, out, provider, id);
      var seen' := SafelyOn(t, events, plan, waiting, out, provider, id, seen, threshold);
      EventStep(s, e, calm, waiting, out, provider, id);
      EventStep(t, e, plan, waiting, out, provider, id);
      UnreturnedAfter(e, waiting, out);
      StaysInStep(s, t, e, calm, plan, waiting, out, provider, id);
      assert LeavesGeneration(rest, provider);
      CalmRunSuffices(Apply(s, ActionOf(e, calm)), Apply(t, ActionOf(e, plan)), rest, calm, plan, waiting', out',
                      provider, id, seen', threshold);
    }
  }

  lemma CalmRunsWhileClosed(
      s: System, events: seq<Event>, calm: Plan, batch: set<nat>, provider: string, id: nat)
    requires Fair(s, batch, provider, id) && Complete(events, batch, {})
    requires forall r: nat :: !FailsOf(calm)(r)
    requires CanRun(s, events, calm, provider) && LeavesGeneration(events, provider)
    ensures s.breakers[id].failures >= 0 && RunsWhileClosed(s, events, provider, id)
  {
    FairBounds(s, batch, provider, id);
    FairFor(s, batch, provider, id, calm);
    var seen := AlreadyFailed(s.breakers[id].failures);
    TrailingOfAlreadyFailed(s.breakers[id].failures);
    forall plan | StaysClosed(s, events, FailsOf(plan), id) ensures CanRun(s, events, plan, provider) {
      FairFor(s, batch, provider, id, plan);
      assert InStep(s, s, {}, provider, id);
      CalmRunSuffices(s, s, events, calm, plan, batch, {}, provider, id, seen, s.breakers[id].failureThreshold);
    }
  }

  /**
   Exactly when counter and breaker agree.  Take any state with a batch of requests under way on a closed
   breaker that agrees with the provider's counters, and any complete schedule of them that can be run
   without failures, among arrivals, other providers' traffic and reloads that do not build this provider
   again.  Counter and breaker agree after it under every plan it can be run with - whatever the
   responses, transport errors, stream errors, cancellations, durations and clock readings - if and only
   if the order is safe.
   */
  lemma ScheduleSafeIff(s: System, events: seq<Event>, calm: Plan, batch: set<nat>, provider: string, id: nat)
    requires Fair(s, batch, provider, id) && Complete(events, batch, {})
    requires forall r: nat :: !FailsOf(calm)(r)
    requires CanRun(s, events, calm, provider) && LeavesGeneration(events, provider)
    ensures |OutOrder(events)| == |BackOrder(events)| && s.breakers[id].failures >= 0
    ensures (forall plan :: CanRun(s, events, plan, provider) ==> AgreesAfter(s, events, plan, provider, id))
            <==> SafeOrder(OutOrder(events), BackOrder(events), s.breakers[id].failureThreshold,
                           s.breakers[id].failures)
  {
    CalmRunsWhileClosed(s, events, calm, batch, provider, id);
    RunnableScheduleSafeIff(s, events, batch, provider, id);
  }

  /** A schedule of nothing but the batch runs under every plan. */
  lemma {:induction false} BareScheduleRuns(
      s: System, events: seq<Event>, plan: Plan, waiting: set<nat>, out: set<nat>, provider: string, id: nat)
    requires UnderWay(s, waiting, out, provider, id, FailsOf(plan)) && Complete(events, waiting, out)
    requires forall i :: 0 <= i < |events| ==> !events[i].Other?
    ensures CanRun(s, events, plan, provider)
    decreases |events|
  {
    if events != [] {
      var e := events[0];
      match e {
        case Out(r) => OutStep(s, r, plan, waiting, out, provider, id);
        case Back(r) => BackStep(s, r, plan, waiting, out, provider, id);
      }
      BareScheduleRuns(Apply(s, ActionOf(e, plan)), events[1..], plan, WaitingAfter(e, waiting), OutAfter(e, out),
                       provider, id);
    }
  }
}
