/**
 The request counters and the log under concurrent requests.

 Serving one request raises the total, raises its class and logs its entry in three separate atomic
 steps (internal/gateway/metrics.go, internal/gateway/logring.go); events are logged at any time.
 */
module Accounting {
  import opened LogRing
  import opened Stats
  import opened Serving
  import opened Runtime

  /** A request that has been counted and not yet logged. */
  datatype Settling = Settling(status: int, classed: bool)

  datatype State = State(tallies: Tallies, live: map<nat, Settling>, history: seq<LogEntry>)

  datatype Action =
    | CountTotal(r: nat, status: int)
    | CountClass(r: nat)
    | LogIt(r: nat, e: LogEntry)
    | LogEvent(e: LogEntry)

  predicate Possible(s: State, a: Action) {
    match a
    case CountTotal(r, status) => r !in s.live && status != 0
    case CountClass(r) => r in s.live && !s.live[r].classed
    case LogIt(r, e) => r in s.live && s.live[r].classed && e.status == s.live[r].status
    case LogEvent(e) => e.status == 0
  }

  function Apply(s: State, a: Action): State
    requires Possible(s, a)
  {
    match a
    case CountTotal(r, status) =>
      State(s.tallies.(requests := s.tallies.requests + 1), s.live[r := Settling(status, false)], s.history)
    case CountClass(r) =>
      State(Recorded(s.tallies, s.live[r].status).(requests := s.tallies.requests),
            s.live[r := s.live[r].(classed := true)], s.history)
    case LogIt(r, e) => State(s.tallies, s.live - {r}, s.history + [e])
    case LogEvent(e) => State(s.tallies, s.live, s.history + [e])
  }

  predicate Feasible(s: State, actions: seq<Action>)
    decreases |actions|
  {
    actions == [] || (Possible(s, actions[0]) && Feasible(Apply(s, actions[0]), actions[1..]))
  }

  function Run(s: State, actions: seq<Action>): State
    requires Feasible(s, actions)
    decreases |actions|
  {
    if actions == [] then s else Run(Apply(s, actions[0]), actions[1..])
  }

  datatype Class = TwoXX | FourXX | FiveXX

  function Members(k: Class): LogEntry -> bool {
    match k
    case TwoXX => StatusIn(200, 300)
    case FourXX => StatusIn(400, 500)
    case FiveXX => StatusFrom(500)
  }

  predicate InClass(k: Class, status: int) {
    match k
    case TwoXX => 200 <= status < 300
    case FourXX => 400 <= status < 500
    case FiveXX => status >= 500
  }

  function Counter(t: Tallies, k: Class): nat {
    match k
    case TwoXX => t.requests2xx
    case FourXX => t.requests4xx
    case FiveXX => t.requests5xx
  }

  function Waiting(live: map<nat, Settling>, k: Class): set<nat> {
    set r | r in live && live[r].classed && InClass(k, live[r].status)
  }

  /** The counters run ahead of the log by the requests between counting and logging, and by no more. */
  predicate Ahead(s: State, k: Class) {
    Counter(s.tallies, k) == Count(s.history, Members(k)) + |Waiting(s.live, k)|
  }

  predicate TotalAhead(s: State) {
    && s.tallies.requests == Count(s.history, Answered()) + |s.live|
    && (forall r :: r in s.live ==> s.live[r].status != 0)
  }

  lemma WaitingPut(live: map<nat, Settling>, r: nat, q: Settling, k: Class)
    ensures Waiting(live[r := q], k)
            == Waiting(live, k) - {r} + (if q.classed && InClass(k, q.status) then {r} else {})
  {
  }

  lemma LogItStep(s: State, r: nat, e: LogEntry, k: Class)
    requires Possible(s, LogIt(r, e)) && Ahead(s, k)
    ensures Ahead(Apply(s, LogIt(r, e)), k)
  {
    CountSuffixed(s.history, e, Members(k));
    assert Members(k)(e) <==> InClass(k, e.status);
    assert Waiting(s.live - {r}, k) == Waiting(s.live, k) - {r};
    if InClass(k, e.status) {
      assert r in Waiting(s.live, k);
    } else {
      assert r !in Waiting(s.live, k);
    }
  }

  lemma AheadStep(s: State, a: Action, k: Class)
    requires Possible(s, a) && Ahead(s, k)
    ensures Ahead(Apply(s, a), k)
  {
    match a {
      case CountTotal(r, status) =>
        WaitingPut(s.live, r, Settling(status, false), k);
        assert r !in Waiting(s.live, k);
      case CountClass(r) =>
        WaitingPut(s.live, r, s.live[r].(classed := true), k);
        assert r !in Waiting(s.live, k);
      case LogIt(r, e) =>
        LogItStep(s, r, e, k);
      case LogEvent(e) =>
        CountSuffixed(s.history, e, Members(k));
    }
  }

  lemma SizePut(live: map<nat, Settling>, r: nat, q: Settling)
    ensures |live[r := q]| == |live| + if r in live then 0 else 1
  {
    assert live[r := q].Keys == live.Keys + {r};
    assert |live.Keys + {r}| == |live.Keys| + if r in live then 0 else 1 by {
      if r in live {
        assert live.Keys + {r} == live.Keys;
      }
    }
    assert |live[r := q]| == |live[r := q].Keys| && |live| == |live.Keys|;
  }

  lemma SizeDrop(live: map<nat, Settling>, r: nat)
    requires r in live
    ensures |live - {r}| == |live| - 1
  {
    assert (live - {r}).Keys == live.Keys - {r};
    assert |live - {r}| == |(live - {r}).Keys| && |live| == |live.Keys|;
  }

  lemma TotalStep(s: State, a: Action)
    requires Possible(s, a) && TotalAhead(s)
    ensures TotalAhead(Apply(s, a))
  {
    match a {
      case CountTotal(r, status) =>
        SizePut(s.live, r, Settling(status, false));
      case CountClass(r) =>
        SizePut(s.live, r, s.live[r].(classed := true));
      case LogIt(r, e) =>
        CountSuffixed(s.history, e, Answered());
        assert Answered()(e) <==> e.status != 0;
        SizeDrop(s.live, r);
      case LogEvent(e) =>
        CountSuffixed(s.history, e, Answered());
        assert Answered()(e) <==> e.status != 0;
    }
  }

  /**
   Conservation of requests.  Through any interleaving of any number of requests and events, every
   counter is ahead of the log by exactly the requests still to be logged.
   */
  lemma {:induction false} CountersRunAhead(s: State, actions: seq<Action>)
    requires Feasible(s, actions) && TotalAhead(s) && forall k :: Ahead(s, k)
    ensures TotalAhead(Run(s, actions)) && forall k :: Ahead(Run(s, actions), k)
    decreases |actions|
  {
    if actions != [] {
      TotalStep(s, actions[0]);
      forall k ensures Ahead(Apply(s, actions[0]), k) {
        AheadStep(s, actions[0], k);
      }
      CountersRunAhead(Apply(s, actions[0]), actions[1..]);
    }
  }

  /** So whenever no request is being settled, counters and log agree, whatever ran before. */
  lemma BalancedWhenQuiet(s: State, actions: seq<Action>)
    requires Balanced(s.tallies, s.history) && s.live == map[] && Feasible(s, actions)
    requires Run(s, actions).live == map[]
    ensures Balanced(Run(s, actions).tallies, Run(s, actions).history)
  {
    var last := Run(s, actions);
    forall k ensures Ahead(s, k) {
      assert Waiting(s.live, k) == {};
    }
    CountersRunAhead(s, actions);
    assert Ahead(last, TwoXX) && Ahead(last, FourXX) && Ahead(last, FiveXX);
    assert forall k :: Waiting(last.live, k) == {};
  }

  /** Counting a status, classing it and logging it, one after the other. */
  function Recording(r: nat, e: LogEntry): seq<Action> {
    [CountTotal(r, e.status), CountClass(r), LogIt(r, e)]
  }

  lemma SettlingIsRecording(s: State, r: nat, e: LogEntry)
    requires r !in s.live && e.status != 0
    ensures Feasible(s, Recording(r, e))
    ensures Run(s, Recording(r, e)) == State(Recorded(s.tallies, e.status), s.live, s.history + [e])
  {
    var actions := Recording(r, e);
    var s1 := Apply(s, actions[0]);
    var s2 := Apply(s1, actions[1]);
    assert Apply(s2, actions[2]).live == s.live;
    assert actions[1..][1..] == [LogIt(r, e)];
    OneStep(s2, LogIt(r, e));
    assert Feasible(s1, actions[1..]);
  }

  /** The entry `settled` has logged. */
  function LastLogged(settled: View): LogEntry
    requires settled.history != []
  {
    settled.history[|settled.history| - 1]
  }

  /** What serving does after an exchange is such a run: it records and logs the status, or, for a
      client that has gone, only logs. */
  lemma SettledIsRun(
      v: View, p: Proxied, world: World, auth: ClientAuth, req: Request, live: map<nat, Settling>, r: nat)
    requires p.status != 0 && r !in live
    ensures var after := Settled(v, p, world, auth, req);
            var s := State(v.tallies.(upstreamErrors := after.tallies.upstreamErrors), live, v.history);
            && after.history != []
            && var e := LastLogged(after);
               var actions := if e.status == 0 then [LogEvent(e)] else Recording(r, e);
               Feasible(s, actions) && Run(s, actions) == State(after.tallies, live, after.history)
  {
    var after := Settled(v, p, world, auth, req);
    var s := State(v.tallies.(upstreamErrors := after.tallies.upstreamErrors), live, v.history);
    var e := LastLogged(after);
    if e.status == 0 {
      OneStep(s, LogEvent(e));
    } else {
      SettlingIsRecording(s, r, e);
    }
  }

  /** And so is a refusal. */
  lemma RefusalIsRun(v: View, status: int, wait: int, e: LogEntry, live: map<nat, Settling>, r: nat)
    requires e.status == status != 0 && r !in live
    ensures var after := RefusedWith(v, status, wait, e);
            var s := State(v.tallies, live, v.history);
            Feasible(s, Recording(r, e)) && Run(s, Recording(r, e)) == State(after.tallies, live, after.history)
  {
    SettlingIsRecording(State(v.tallies, live, v.history), r, e);
  }

  lemma OneStep(s: State, a: Action)
    requires Possible(s, a)
    ensures Feasible(s, [a]) && Run(s, [a]) == Apply(s, a)
  {
    assert [a][1..] == [];
    assert Run(Apply(s, a), []) == Apply(s, a);
  }
}
