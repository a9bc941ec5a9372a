/**
 Four runs from start-up that a reader might think impossible.  Each is a concrete sequence of
 actions; HotReload, Generations and Completions say exactly when such runs happen.
 */
module Interleavings {
  import opened Circuit
  import opened ProviderMetrics
  import opened Transport
  import opened HotReload

  function Strict(): Policy { Policy(true, 1, 10) }

  function Start(policy: Policy): seq<Action> {
    [StartReload(0), Build("p", policy), Publish]
  }

  /** The state after Start. */
  function Booted(policy: Policy): System {
    System([Fresh(policy)], map["p" := 0], Idle, map[], map["p" := ZERO_COUNTERS], {}, map[], ["p"])
  }

  /** One provider, threshold 1: its first request fails at time 0 and trips the breaker until 10. */
  function Trip(): seq<Action> {
    [Route(0, "p"), AskBreaker(0, 0), CountIn(0), CountOut(0, NoResponse(false), 0, 0), GiveBack(0, 0)]
  }

  function OpenUntilTen(): Breaker { Breaker(true, Open, 1, 1, 10, 10) }

  function Tripped(): System {
    System([OpenUntilTen()], map["p" := 0], Idle, map[],
           map["p" := FinishOne(BeginOne(ZERO_COUNTERS), 0, 0, true, 0)], {}, map["p" := 1], ["p"])
  }

  /** `actions` lead from `s` to `t`. */
  predicate Leads(s: System, actions: seq<Action>, t: System) {
    Feasible(s, actions) && Run(s, actions) == t
  }

  lemma First(s: System, actions: seq<Action>, next: System, t: System)
    requires actions != [] && Possible(s, actions[0]) && Apply(s, actions[0]) == next && Leads(next, actions[1..], t)
    ensures Leads(s, actions, t)
  {
  }

  lemma Nothing(s: System)
    ensures Leads(s, [], s)
  {
  }

  lemma {:induction false} Joined(s: System, first: seq<Action>, t: System, second: seq<Action>, u: System)
    requires Leads(s, first, t) && Leads(t, second, u)
    ensures Leads(s, first + second, u)
    decreases |first|
  {
    if first == [] {
      assert first + second == second;
    } else {
      assert (first + second)[1..] == first[1..] + second;
      Joined(Apply(s, first[0]), first[1..], t, second, u);
    }
  }

  lemma NotBlank()
    ensures !IsBlank("p")
  {
    assert "p"[0] == 'p';
  }

  lemma Boots(policy: Policy)
    ensures Leads(INITIAL, Start(policy), Booted(policy))
  {
    var s1 := INITIAL.(reload := Building(map[], 0));
    var s2 := Booted(policy).(current := map[], reload := Building(map["p" := 0], 0));
    var actions := Start(policy);
    assert actions[1..] == [Build("p", policy), Publish] && actions[1..][1..] == [Publish];
    assert actions[1..][1..][1..] == [];
    Nothing(Booted(policy));
    First(s2, actions[1..][1..], Booted(policy), Booted(policy));
    First(s1, actions[1..], s2, Booted(policy));
    First(INITIAL, actions, s1, Booted(policy));
  }

  /** A request arrives at a closed breaker and is under way. */
  lemma Begins(s: System, r: nat, t: System)
    requires r !in s.requests && "p" in s.current && s.current["p"] == 0 && |s.breakers| == 1
    requires Decide(s.breakers[0], 0) == Admitted(Permit(false)) && AfterAllow(s.breakers[0], 0) == s.breakers[0]
    requires t == s.(requests := s.requests[r := Request("p", 0, Begun(Permit(false)))],
                     metrics := AfterBegin(s.metrics, "p"), begun := s.begun["p" := BegunCount(s, "p") + 1])
    ensures Leads(s, [Route(r, "p"), AskBreaker(r, 0), CountIn(r)], t)
  {
    var actions := [Route(r, "p"), AskBreaker(r, 0), CountIn(r)];
    var s1 := s.(requests := s.requests[r := Request("p", 0, Routed)]);
    var s2 := s.(requests := s.requests[r := Request("p", 0, Permitted(Permit(false)))]);
    assert actions[1..] == [AskBreaker(r, 0), CountIn(r)] && actions[1..][1..] == [CountIn(r)];
    assert actions[1..][1..][1..] == [];
    Nothing(t);
    assert Apply(s2, CountIn(r)) == t;
    First(s2, actions[1..][1..], t, t);
    assert Apply(s1, AskBreaker(r, 0)) == s2;
    First(s1, actions[1..], s2, t);
    First(s, actions, s1, t);
  }

  /** The first request fails. */
  lemma Fails()
    ensures Leads(Booted(Strict()), Trip(), Tripped())
  {
    NotBlank();
    var s0 := Booted(Strict());
    var s1 := s0.(requests := map[0 := Request("p", 0, Begun(Permit(false)))],
                  metrics := map["p" := BeginOne(ZERO_COUNTERS)], begun := map["p" := 1]);
    Begins(s0, 0, s1);
    var rest := [CountOut(0, NoResponse(false), 0, 0), GiveBack(0, 0)];
    FailedComesBack(s1, rest);
    Joined(s0, [Route(0, "p"), AskBreaker(0, 0), CountIn(0)], s1, rest, Tripped());
    assert [Route(0, "p"), AskBreaker(0, 0), CountIn(0)] + rest == Trip();
  }

  lemma FailedComesBack(s1: System, rest: seq<Action>)
    requires s1 == Booted(Strict()).(requests := map[0 := Request("p", 0, Begun(Permit(false)))],
                                     metrics := map["p" := BeginOne(ZERO_COUNTERS)], begun := map["p" := 1])
    requires rest == [CountOut(0, NoResponse(false), 0, 0), GiveBack(0, 0)]
    ensures Leads(s1, rest, Tripped())
  {
    NotBlank();
    var s2 := Tripped().(breakers := s1.breakers,
                         requests := map[0 := Request("p", 0, CountedOut(Permit(false), true))]);
    assert rest[1..] == [GiveBack(0, 0)] && rest[1..][1..] == [];
    Nothing(Tripped());
    assert Apply(s2, GiveBack(0, 0)) == Tripped();
    First(s2, rest[1..], Tripped(), Tripped());
    assert Apply(s1, rest[0]) == s2;
    First(s1, rest, s2, Tripped());
  }

  lemma TripOnceTrips()
    ensures Leads(INITIAL, Start(Strict()) + Trip(), Tripped())
  {
    Boots(Strict());
    Fails();
    Joined(INITIAL, Start(Strict()), Booted(Strict()), Trip(), Tripped());
  }

  function StrandedState(): System {
    var born := Breaker(true, HalfOpen, 1, 1, 10, 0);
    Tripped().(breakers := [OpenUntilTen(), born], bornHalfOpen := {1}, current := map["p" := 1], madeFor := ["p", "p"])
  }

  lemma Strands()
    ensures Leads(Tripped(), [StartReload(10), Build("p", Strict()), Publish], StrandedState())
  {
    var actions := [StartReload(10), Build("p", Strict()), Publish];
    var s0 := Tripped();
    var s1 := s0.(reload := Building(map[], 10));
    var s3 := StrandedState();
    var s2 := s3.(current := s0.current, reload := Building(map["p" := 1], 10));
    assert actions[1..] == [Build("p", Strict()), Publish] && actions[1..][1..] == [Publish];
    assert actions[1..][1..][1..] == [];
    Nothing(s3);
    First(s2, actions[1..][1..], s3, s3);
    assert Apply(s1, actions[1]) == s2;
    First(s1, actions[1..], s2, s3);
    First(s0, actions, s1, s3);
  }

  /** A reload made once the cooldown is over, with the very same policy, strands the provider. */
  lemma ReloadAfterCooldownStrands()
    ensures Leads(INITIAL, Start(Strict()) + Trip() + [StartReload(10), Build("p", Strict()), Publish], StrandedState())
    ensures Stranded(StrandedState(), "p")
  {
    TripOnceTrips();
    Strands();
    Joined(INITIAL, Start(Strict()) + Trip(), Tripped(), [StartReload(10), Build("p", Strict()), Publish],
           StrandedState());
  }

  function ReloadedEarly(): System {
    Tripped().(breakers := [OpenUntilTen(), OpenUntilTen()], current := map["p" := 1],
               requests := map[1 := Request("p", 0, Routed)], madeFor := ["p", "p"])
  }

  function EarlyReload(): seq<Action> {
    [Route(1, "p"), StartReload(5), Build("p", Strict()), Publish]
  }

  lemma ReloadsEarly()
    ensures Leads(Tripped(), EarlyReload(), ReloadedEarly())
  {
    var actions := EarlyReload();
    var s0 := Tripped();
    var s1 := s0.(requests := map[1 := Request("p", 0, Routed)]);
    var s2 := s1.(reload := Building(map[], 5));
    var s4 := ReloadedEarly();
    var s3 := s4.(current := s0.current, reload := Building(map["p" := 1], 5));
    assert actions[1..] == [StartReload(5), Build("p", Strict()), Publish];
    assert actions[1..][1..] == [Build("p", Strict()), Publish] && actions[1..][1..][1..] == [Publish];
    assert actions[1..][1..][1..][1..] == [];
    Nothing(s4);
    First(s3, actions[1..][1..][1..], s4, s4);
    assert Apply(s2, actions[2]) == s3;
    First(s2, actions[1..][1..], s3, s4);
    First(s1, actions[1..], s2, s4);
    First(s0, actions, s1, s4);
  }

  function TwoProbes(): seq<Action> {
    [Route(2, "p"), AskBreaker(1, 10), AskBreaker(2, 10)]
  }

  function Probing(): Breaker { OpenUntilTen().(state := HalfOpen) }

  function BothProbing(): System {
    ReloadedEarly().(breakers := [Probing(), Probing()],
                     requests := map[1 := Request("p", 0, Permitted(Permit(true))),
                                     2 := Request("p", 1, Permitted(Permit(true)))])
  }

  /** A second request has arrived, for the new breaker. */
  function BothRouted(): System {
    ReloadedEarly().(requests := map[1 := Request("p", 0, Routed), 2 := Request("p", 1, Routed)])
  }

  function OneProbing(): System {
    BothRouted().(breakers := [Probing(), OpenUntilTen()],
                  requests := map[1 := Request("p", 0, Permitted(Permit(true))), 2 := Request("p", 1, Routed)])
  }

  lemma OldProbes()
    ensures Possible(BothRouted(), AskBreaker(1, 10)) && Apply(BothRouted(), AskBreaker(1, 10)) == OneProbing()
  {
  }

  lemma NewProbes()
    ensures Possible(OneProbing(), AskBreaker(2, 10)) && Apply(OneProbing(), AskBreaker(2, 10)) == BothProbing()
  {
  }

  lemma ProbeTwice()
    ensures Leads(ReloadedEarly(), TwoProbes(), BothProbing())
  {
    var actions := TwoProbes();
    assert actions[1..] == [AskBreaker(1, 10), AskBreaker(2, 10)] && actions[1..][1..] == [AskBreaker(2, 10)];
    assert actions[1..][1..][1..] == [];
    Nothing(BothProbing());
    NewProbes();
    First(OneProbing(), actions[1..][1..], BothProbing(), BothProbing());
    OldProbes();
    First(BothRouted(), actions[1..], OneProbing(), BothProbing());
    First(ReloadedEarly(), actions, BothRouted(), BothProbing());
  }

  /** One probe is a promise per breaker, not per provider: a reload during the cooldown leaves two
      breakers for one provider, and each admits its own probe. */
  lemma TwoGenerationsTwoProbes()
    ensures Leads(INITIAL, Start(Strict()) + Trip() + EarlyReload() + TwoProbes(), BothProbing())
  {
    TripOnceTrips();
    ReloadsEarly();
    ProbeTwice();
    Joined(INITIAL, Start(Strict()) + Trip(), Tripped(), EarlyReload(), ReloadedEarly());
    Joined(INITIAL, Start(Strict()) + Trip() + EarlyReload(), ReloadedEarly(), TwoProbes(), BothProbing());
  }

  function Lenient(): Policy { Policy(true, 5, 10) }

  function TwoArrive(): seq<Action> {
    [Route(0, "p"), AskBreaker(0, 0), CountIn(0)] + [Route(1, "p"), AskBreaker(1, 0), CountIn(1)]
  }

  /** A closed breaker with threshold 5 and two requests in flight. */
  function TwoInFlight(): System {
    Booted(Lenient()).(
    requests := map[0 := Request("p", 0, Begun(Permit(false))), 1 := Request("p", 0, Begun(Permit(false)))],
    metrics := map["p" := BeginOne(BeginOne(ZERO_COUNTERS))], begun := map["p" := 2])
  }

  lemma BothBegin()
    ensures Leads(Booted(Lenient()), TwoArrive(), TwoInFlight())
  {
    NotBlank();
    var s0 := Booted(Lenient());
    var s1 := s0.(requests := map[0 := Request("p", 0, Begun(Permit(false)))],
                  metrics := map["p" := BeginOne(ZERO_COUNTERS)], begun := map["p" := 1]);
    Begins(s0, 0, s1);
    Begins(s1, 1, TwoInFlight());
    Joined(s0, [Route(0, "p"), AskBreaker(0, 0), CountIn(0)], s1,
           [Route(1, "p"), AskBreaker(1, 0), CountIn(1)], TwoInFlight());
  }

  function Overtaking(): seq<Action> {
    [CountOut(0, NoBody(200), 0, 0), CountOut(1, NoBody(500), 0, 0), GiveBack(1, 0), GiveBack(0, 0)]
  }

  function OneFailureCounted(): System {
    Booted(Lenient()).(
    metrics := map["p" := FinishOne(FinishOne(BeginOne(BeginOne(ZERO_COUNTERS)), 200, 0, false, 0), 500, 0, false, 0)],
    begun := map["p" := 2])
  }

  /** Both counted, neither given back. */
  function BothCounted(): System {
    OneFailureCounted().(requests := map[0 := Request("p", 0, CountedOut(Permit(false), false)),
                                         1 := Request("p", 0, CountedOut(Permit(false), true))])
  }

  lemma CountsBoth()
    ensures Leads(TwoInFlight(), [CountOut(0, NoBody(200), 0, 0), CountOut(1, NoBody(500), 0, 0)], BothCounted())
  {
    NotBlank();
    var actions := [CountOut(0, NoBody(200), 0, 0), CountOut(1, NoBody(500), 0, 0)];
    var s0 := TwoInFlight();
    var s1 := s0.(requests := s0.requests[0 := Request("p", 0, CountedOut(Permit(false), false))],
                  metrics := map["p" := FinishOne(BeginOne(BeginOne(ZERO_COUNTERS)), 200, 0, false, 0)]);
    assert actions[1..] == [CountOut(1, NoBody(500), 0, 0)] && actions[1..][1..] == [];
    Nothing(BothCounted());
    assert Apply(s1, actions[1]) == BothCounted();
    First(s1, actions[1..], BothCounted(), BothCounted());
    assert Apply(s0, actions[0]) == s1;
    First(s0, actions, s1, BothCounted());
  }

  lemma ReturnsBoth()
    ensures Leads(BothCounted(), [GiveBack(1, 0), GiveBack(0, 0)], OneFailureCounted())
  {
    var actions := [GiveBack(1, 0), GiveBack(0, 0)];
    var s2, s4 := BothCounted(), OneFailureCounted();
    var s3 := s4.(requests := map[0 := Request("p", 0, CountedOut(Permit(false), false))],
                  breakers := [Fresh(Lenient()).(failures := 1)]);
    assert actions[1..] == [GiveBack(0, 0)] && actions[1..][1..] == [];
    Nothing(s4);
    assert Apply(s3, GiveBack(0, 0)) == s4;
    First(s3, actions[1..], s4, s4);
    assert Apply(s2, GiveBack(1, 0)) == s3;
    First(s2, actions, s3, s4);
  }

  lemma Overtakes()
    ensures Leads(TwoInFlight(), Overtaking(), OneFailureCounted())
  {
    CountsBoth();
    ReturnsBoth();
    var first := [CountOut(0, NoBody(200), 0, 0), CountOut(1, NoBody(500), 0, 0)];
    Joined(TwoInFlight(), first, BothCounted(), [GiveBack(1, 0), GiveBack(0, 0)], OneFailureCounted());
    assert first + [GiveBack(1, 0), GiveBack(0, 0)] == Overtaking();
  }

  /** The counters and the breaker are updated in two steps, so two completions can be seen in
      opposite orders: with nothing in flight and the breaker closed they then disagree. */
  lemma CountersCanDisagree()
    ensures Leads(INITIAL, Start(Lenient()) + TwoArrive() + Overtaking(), OneFailureCounted())
    ensures var last := OneFailureCounted();
            && last.requests == map[]
            && last.breakers[0].state == Closed && last.breakers[0].failures == 0
            && Entry(last.metrics, "p").consecutiveFailures == 1
  {
    Boots(Lenient());
    BothBegin();
    Overtakes();
    Joined(INITIAL, Start(Lenient()), Booted(Lenient()), TwoArrive(), TwoInFlight());
    Joined(INITIAL, Start(Lenient()) + TwoArrive(), TwoInFlight(), Overtaking(), OneFailureCounted());
  }
}
