/**
 What a provider's counters count.

 The completions of a provider are listed in the order they are counted, across all generations of its
 breaker, each as it ended; the counters are totals over that list.
 */
module ProviderTotals {
  import opened Streaming
  import opened ProviderMetrics
  import opened Transport
  import opened HotReload

  /** One completion: how the round trip ended, how long it took, and when it was counted. */
  datatype Finished = Finished(ending: Ending, duration: int, now: int)

  /** The completions counted for a provider along a run, in order. */
  function FinishedFor(s: System, actions: seq<Action>, provider: string): seq<Finished>
    requires Feasible(s, actions)
    decreases |actions|
  {
    if actions == [] then []
    else FinishedNow(s, actions[0], provider) + FinishedFor(Apply(s, actions[0]), actions[1..], provider)
  }

  function FinishedNow(s: System, a: Action, provider: string): seq<Finished>
    requires Possible(s, a)
  {
    if a.CountOut? && s.requests[a.r].provider == provider then [Finished(a.ending, a.duration, a.now)] else []
  }

  /** The status the provider answered with; 0 if it did not answer. */
  function AnsweredWith(f: Finished): int {
    match f.ending
    case NoResponse(_) => 0
    case NoBody(status) => status
    case BodyEnded(status, _, _) => status
  }

  function InRange(low: int, high: int): Finished -> bool {
    (f: Finished) => low <= AnsweredWith(f) < high
  }

  function AtLeast(low: int): Finished -> bool {
    (f: Finished) => AnsweredWith(f) >= low
  }

  /** The provider could not be reached, or its stream broke, while the downstream request was alive. */
  function Broke(): Finished -> bool {
    (f: Finished) =>
      match f.ending
      case NoResponse(aborted) => !aborted
      case NoBody(_) => false
      case BodyEnded(_, error, aborted) => error != NoError && !aborted
  }

  function HowMany(list: seq<Finished>, counts: Finished -> bool): nat {
    if list == [] then 0
    else HowMany(list[..|list| - 1], counts) + if counts(list[|list| - 1]) then 1 else 0
  }

  function TotalDuration(list: seq<Finished>): int {
    if list == [] then 0 else TotalDuration(list[..|list| - 1]) + list[|list| - 1].duration
  }

  /** The counters are the totals over the list: each class by the status answered, the transport errors
      by how the round trips ended, and the latest completion. */
  predicate Totals(c: Counters, list: seq<Finished>) {
    && c.requests == |list|
    && c.requests2xx == HowMany(list, InRange(200, 300))
    && c.requests4xx == HowMany(list, InRange(400, 500))
    && c.requests5xx == HowMany(list, AtLeast(500))
    && c.transportErrors == HowMany(list, Broke())
    && c.duration == TotalDuration(list)
    && Latest(c, list)
  }

  predicate Latest(c: Counters, list: seq<Finished>) {
    if list == [] then c.lastStatus == 0 && c.lastDuration == 0 && c.lastRequest == 0
    else
      var last := list[|list| - 1];
      c.lastStatus == AnsweredWith(last) && c.lastDuration == last.duration && c.lastRequest == last.now
  }

  lemma HowManyNext(list: seq<Finished>, f: Finished, counts: Finished -> bool)
    ensures HowMany(list + [f], counts) == HowMany(list, counts) + if counts(f) then 1 else 0
  {
    assert (list + [f])[..|list|] == list;
  }

  lemma DurationNext(list: seq<Finished>, f: Finished)
    ensures TotalDuration(list + [f]) == TotalDuration(list) + f.duration
  {
    assert (list + [f])[..|list|] == list;
  }

  /** Counting one more completion. */
  lemma FinishOneTotals(c: Counters, list: seq<Finished>, f: Finished)
    requires Totals(c, list)
    ensures var judged := Judge(f.ending);
            Totals(FinishOne(c, judged.status, f.duration, judged.transportError, f.now), list + [f])
  {
    HowManyNext(list, f, InRange(200, 300));
    HowManyNext(list, f, InRange(400, 500));
    HowManyNext(list, f, AtLeast(500));
    HowManyNext(list, f, Broke());
    DurationNext(list, f);
  }

  lemma TotalsIgnoreInFlight(c: Counters, c': Counters, list: seq<Finished>)
    requires Totals(c, list) && c' == c.(inFlight := c'.inFlight)
    ensures Totals(c', list)
  {
  }

  lemma EntryMoves(s: System, a: Action, provider: string)
    requires Possible(s, a) && !IsBlank(provider)
    ensures var (was, next) := (Entry(s.metrics, provider), Entry(Apply(s, a).metrics, provider));
            if a.CountOut? && s.requests[a.r].provider == provider then
              var judged := Judge(a.ending);
              next == FinishOne(was, judged.status, a.duration, judged.transportError, a.now)
            else next == was.(inFlight := next.inFlight)
  {
    match a {
      case CountIn(_) =>
      case CountOut(_, _, _, _) =>
      case Build(_, _) =>
      case _ => assert Apply(s, a).metrics == s.metrics;
    }
  }

  lemma TotalsStep(s: System, a: Action, provider: string, list: seq<Finished>)
    requires Possible(s, a) && !IsBlank(provider) && Totals(Entry(s.metrics, provider), list)
    ensures Totals(Entry(Apply(s, a).metrics, provider), list + FinishedNow(s, a, provider))
  {
    EntryMoves(s, a, provider);
    if a.CountOut? && s.requests[a.r].provider == provider {
      FinishOneTotals(Entry(s.metrics, provider), list, Finished(a.ending, a.duration, a.now));
    } else {
      assert list + [] == list;
      TotalsIgnoreInFlight(Entry(s.metrics, provider), Entry(Apply(s, a).metrics, provider), list);
    }
  }

  lemma {:induction false} TotalsAlways(s: System, actions: seq<Action>, provider: string, list: seq<Finished>)
    requires Feasible(s, actions) && !IsBlank(provider) && Totals(Entry(s.metrics, provider), list)
    ensures Totals(Entry(Run(s, actions).metrics, provider), list + FinishedFor(s, actions, provider))
    decreases |actions|
  {
    if actions == [] {
      assert list + [] == list;
    } else {
      var now := FinishedNow(s, actions[0], provider);
      var next := Apply(s, actions[0]);
      TotalsStep(s, actions[0], provider, list);
      TotalsAlways(next, actions[1..], provider, list + now);
      Associate(list, now, FinishedFor(next, actions[1..], provider));
    }
  }

  lemma Associate(a: seq<Finished>, b: seq<Finished>, c: seq<Finished>)
    ensures a + (b + c) == a + b + c
  {
  }

  /** From start-up, through any interleaving of requests and reloads, every provider's counters are the
      totals over all its completions so far. */
  lemma TotalsFromStart(actions: seq<Action>, provider: string)
    requires Feasible(INITIAL, actions) && !IsBlank(provider)
    ensures Totals(Entry(Run(INITIAL, actions).metrics, provider), FinishedFor(INITIAL, actions, provider))
  {
    TotalsAlways(INITIAL, actions, provider, []);
    assert [] + FinishedFor(INITIAL, actions, provider) == FinishedFor(INITIAL, actions, provider);
  }
}
