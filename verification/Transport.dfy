/**
 The stream-aware provider transport (internal/gateway/provider_metrics_transport.go): one permit and
 one in-flight count per admitted round trip, given back exactly once, when the response body ends.
 */
module Transport {
  import opened Common
  import opened Circuit
  import opened BreakerRuns
  import opened ProviderMetrics
  import opened Streaming

  // ---------------------------------------------------------------- how a round trip is judged

  /** What one finished round trip tells the metrics (`transportError`) and the breaker (`failed`). */
  datatype Completion = Completion(status: int, transportError: bool, failed: bool)

  /** The three ways a round trip ends.  `aborted` says whether the downstream request was gone. */
  datatype Ending =
    | NoResponse(aborted: bool)
    | NoBody(status: int)
    | BodyEnded(status: int, error: IoError, aborted: bool)

  function Judge(ending: Ending): Completion {
    match ending
    case NoResponse(aborted) => Completion(0, !aborted, !aborted)
    case NoBody(status) => Completion(status, false, status >= 500)
    case BodyEnded(status, error, aborted) =>
      var transportError := error != NoError && !aborted;
      Completion(status, transportError, transportError || status >= 500)
  }

  function RetrySeconds(retryAfter: nat): int {
    var seconds := (retryAfter + SECOND - 1) / SECOND;
    if seconds < 1 then 1 else seconds
  }

  /** The Retry-After header of a locally answered request (section 10.2.3 of RFC 9110) is the least
      whole number of seconds after which an open breaker admits: never early, and less than a
      second late. */
  lemma CircuitHeaderNeverEarly(b: Breaker, now: int)
    requires b.enabled && b.state == Open && now < b.openUntil
    ensures Decide(b, now) == Rejected(b.openUntil - now)
    ensures var h := RetrySeconds(b.openUntil - now);
            && (forall t :: t >= now + h * SECOND ==> Decide(b, t) == Admitted(Permit(true)))
            && Decide(b, now + (h - 1) * SECOND).Rejected?
  {
  }

  // ---------------------------------------------------------------- the body wrapper

  /** One call on the wrapped body, with the error the inner reader returned. */
  datatype BodyCall = ReadCall(error: IoError, aborted: bool) | CloseCall(error: IoError, aborted: bool)

  predicate Terminal(call: BodyCall) {
    call.CloseCall? || call.error != NoError
  }

  /** The error `finish` is told; only a bare io.EOF from Read counts as a normal end. */
  function EndError(call: BodyCall): IoError {
    if call.ReadCall? && call.error == Eof then NoError else call.error
  }

  /** The completions a body causes over a series of calls, `finished` being its sync.Once. */
  function Completions(status: int, finished: bool, calls: seq<BodyCall>): seq<Completion>
    decreases |calls|
  {
    if calls == [] then []
    else if finished || !Terminal(calls[0]) then Completions(status, finished, calls[1..])
    else [Judge(BodyEnded(status, EndError(calls[0]), calls[0].aborted))]
         + Completions(status, true, calls[1..])
  }

  lemma {:induction false} NoneAfterFinish(status: int, calls: seq<BodyCall>)
    ensures Completions(status, true, calls) == []
  {
    if calls != [] {
      NoneAfterFinish(status, calls[1..]);
    }
  }

  /** In any order of reads and closes the first terminal call decides, and it alone. */
  lemma {:induction false} FirstTerminalDecides(status: int, calls: seq<BodyCall>, k: nat)
    requires k < |calls| && Terminal(calls[k])
    requires forall i :: 0 <= i < k ==> !Terminal(calls[i])
    ensures Completions(status, false, calls)
            == [Judge(BodyEnded(status, EndError(calls[k]), calls[k].aborted))]
  {
    if k == 0 {
      NoneAfterFinish(status, calls[1..]);
    } else {
      FirstTerminalDecides(status, calls[1..], k - 1);
    }
  }

  /** A body completes once if it was ever read to an error or closed, and not at all otherwise. */
  lemma {:induction false} AtMostOnce(status: int, calls: seq<BodyCall>)
    ensures |Completions(status, false, calls)| == if exists i :: 0 <= i < |calls| && Terminal(calls[i]) then 1 else 0
  {
    if calls == [] {
    } else if Terminal(calls[0]) {
      NoneAfterFinish(status, calls[1..]);
    } else {
      AtMostOnce(status, calls[1..]);
      if i :| 0 <= i < |calls| && Terminal(calls[i]) {
        assert calls[1..][i - 1] == calls[i];
      }
    }
  }

  /** The calls the proxy makes on the body: the reads of the streaming loop, then the deferred Close.
      `aborted(i)` says whether the downstream request is gone at the i-th call. */
  function ProxyCalls(script: seq<Chunk>, consumed: nat, close: IoError, aborted: nat -> bool): (calls: seq<BodyCall>)
    requires consumed <= |script|
  {
    seq(consumed, i requires 0 <= i < consumed => ReadCall(script[i].error, aborted(i)))
    + [CloseCall(close, aborted(consumed))]
  }

  /** The ending of a proxied response: the read error the loop stopped at, or, when the client
      connection failed first, the result of Close. */
  function ProxyEnding(status: int, script: seq<Chunk>, consumed: nat, close: IoError, aborted: nat -> bool): Ending
    requires 1 <= consumed <= |script|
  {
    var last := script[consumed - 1].error;
    if last == NoError then BodyEnded(status, close, aborted(consumed))
    else BodyEnded(status, if last == Eof then NoError else last, aborted(consumed - 1))
  }

  /** Every proxied response completes exactly once, whatever the provider and the client do. */
  lemma ProxyCompletesOnce(status: int, script: seq<Chunk>, client: Client, close: IoError, aborted: nat -> bool)
    requires Ends(script, 0) && WriterContract(client)
    ensures var r := Copy(script, client, 0, 0);
            && 1 <= r.consumed <= |script|
            && Completions(status, false, ProxyCalls(script, r.consumed, close, aborted))
               == [Judge(ProxyEnding(status, script, r.consumed, close, aborted))]
  {
    ConsumedReads(script, client, 0, 0);
    var r := Copy(script, client, 0, 0);
    var calls := ProxyCalls(script, r.consumed, close, aborted);
    if script[r.consumed - 1].error == NoError {
      FirstTerminalDecides(status, calls, r.consumed);
    } else {
      FirstTerminalDecides(status, calls, r.consumed - 1);
    }
  }

  lemma {:induction false} ConsumedReads(script: seq<Chunk>, client: Client, pos: nat, call: nat)
    requires Ends(script, pos) && WriterContract(client)
    ensures var r := Copy(script, client, pos, call);
            && 1 <= r.consumed <= |script| - pos
            && (forall i :: pos <= i < pos + r.consumed - 1 ==> script[i].error == NoError)
            && ((r.error == Nil || r.error.ReadError?) ==> script[pos + r.consumed - 1].error != NoError)
            && (r.error == Nil ==> IsEof(script[pos + r.consumed - 1].error))
            && (r.error.ReadError? ==> !IsEof(script[pos + r.consumed - 1].error))
    decreases |script| - pos
  {
    var r := Copy(script, client, pos, call);
    var report := Streaming.Report(script, client, pos, call);
    if !report.failed && report.wrote == |script[pos].data| && script[pos].error == NoError {
      ConsumedReads(script, client, pos + 1, NextCall(script, pos, call));
    }
  }

  /**
   How the client's view and the provider's record compare, for every status, every client and every
   moment at which the downstream request may go away.  A provider is charged for a status of 500 or
   more, and otherwise exactly for an error of its stream, or of Close, met while the downstream
   request is alive.  So a clean copy is charged below 500 only when the end of file came wrapped in
   another error; a broken stream always is, unless the request had gone; and a client connection that
   fails while the stream is healthy costs the provider nothing unless Close fails too.
   */
  lemma ClientAndProviderViews(
      status: int, script: seq<Chunk>, client: Client, close: IoError, aborted: nat -> bool, r: Copied)
    requires Ends(script, 0) && WriterContract(client) && r == Copy(script, client, 0, 0)
    ensures 1 <= r.consumed <= |script|
    ensures var n := r.consumed;
            var charged := Judge(ProxyEnding(status, script, n, close, aborted)).failed;
            var last := script[n - 1].error;
            && (r.error == Nil ==> (charged <==> status >= 500 || (last == WrappedEof && !aborted(n - 1))))
            && (r.error.ReadError? ==> (charged <==> status >= 500 || !aborted(n - 1)))
            && (r.error == WriteError || r.error == ShortWrite ==>
                  (charged <==>
                     || status >= 500
                     || (last == NoError && close != NoError && !aborted(n))
                     || ((last == WrappedEof || last == OtherError) && !aborted(n - 1))))
  {
    ConsumedReads(script, client, 0, 0);
  }

  /** Failures are transport errors and statuses of 500 or more; other statuses, 4xx and 429 among them,
      are not.  A transport error is a provider that gives no response, or a stream that ends in an error,
      while the downstream request is alive. */
  lemma FailureExact(ending: Ending)
    ensures Judge(ending).transportError
            <==> !ending.NoBody? && !ending.aborted && (ending.BodyEnded? ==> ending.error != NoError)
    ensures Judge(ending).failed
            <==> Judge(ending).transportError || (!ending.NoResponse? && ending.status >= 500)
    ensures Judge(ending).status == if ending.NoResponse? then 0 else ending.status
  {
  }

  /** A downstream cancellation never counts as a transport error; it finishes as a failure exactly
      when a response of status 500 or more had begun. */
  lemma CancellationExact(ending: Ending)
    requires !ending.NoBody? ==> ending.aborted
    ensures !Judge(ending).transportError
    ensures Judge(ending).failed <==> !ending.NoResponse? && ending.status >= 500
  {
  }

  /** So a cancelled request below 500 resets the failures of a closed breaker, and as a probe closes
      it. */
  lemma CancellationHeals(b: Breaker, permit: Permit, ending: Ending, now: int)
    requires Sound(b) && !ending.NoBody? && ending.aborted && b.enabled && (permit.probe || b.state == Closed)
    ensures var after := Circuit.AfterFinish(b, permit, Judge(ending).failed, now);
            after.state == Closed && after.failures == 0
            <==> ending.NoResponse? || ending.status < 500
  {
  }

  // ---------------------------------------------------------------- metrics and breaker agree

  /** One provider whose completions are atomic: its breaker and its counters side by side. */
  datatype Paired = Paired(cell: Cell, counters: Counters, begun: nat)

  datatype Step =
    | Arrive(now: int)
    | Complete(probe: bool, ending: Ending, duration: int, now: int)

  function OpOf(step: Step): Op {
    match step
    case Arrive(now) => Ask(now)
    case Complete(probe, ending, _, now) => Done(probe, Judge(ending).failed, now)
  }

  function Advance(p: Paired, step: Step): Paired
    requires Allowed(p.cell, OpOf(step))
  {
    var cell := Next(p.cell, OpOf(step));
    match step
    case Arrive(now) =>
      if Decide(p.cell.b, now).Admitted? then Paired(cell, BeginOne(p.counters), p.begun + 1)
      else Paired(cell, p.counters, p.begun)
    case Complete(_, ending, duration, now) =>
      var c := Judge(ending);
      Paired(cell, FinishOne(p.counters, c.status, duration, c.transportError, now), p.begun)
  }

  predicate Runs(p: Paired, steps: seq<Step>)
    decreases |steps|
  {
    steps == [] || (Allowed(p.cell, OpOf(steps[0])) && Runs(Advance(p, steps[0]), steps[1..]))
  }

  function After(p: Paired, steps: seq<Step>): Paired
    requires Runs(p, steps)
    decreases |steps|
  {
    if steps == [] then p else After(Advance(p, steps[0]), steps[1..])
  }

  predicate Agree(p: Paired) {
    && OneProbe(p.cell)
    && Sound(p.cell.b)
    && (p.cell.b.enabled && p.cell.b.state == Closed ==> p.counters.consecutiveFailures == p.cell.b.failures)
    && p.counters.inFlight == p.cell.probes + p.cell.plains
    && p.begun == p.counters.inFlight + p.counters.requests
  }

  /**
   With completions taken as atomic, whenever an enabled breaker is closed its failure count is the
   provider's `consecutiveFailures`, on all three ways a round trip can end; the in-flight count is
   the number of outstanding permits, and nothing begun is lost.
   */
  lemma {:induction false} MetricsAndBreakerAgree(p: Paired, steps: seq<Step>)
    requires Agree(p) && Runs(p, steps)
    ensures Agree(After(p, steps))
    decreases |steps|
  {
    if steps != [] {
      MetricsAndBreakerAgree(Advance(p, steps[0]), steps[1..]);
    }
  }

  lemma AgreeInitially(policy: Policy)
    ensures Agree(Paired(Cell(Fresh(policy), 0, 0), ZERO_COUNTERS, 0))
  {
  }

  /** From a new breaker and zero counters, over every run. */
  lemma AlwaysAgree(policy: Policy, steps: seq<Step>)
    requires Runs(Paired(Cell(Fresh(policy), 0, 0), ZERO_COUNTERS, 0), steps)
    ensures Agree(After(Paired(Cell(Fresh(policy), 0, 0), ZERO_COUNTERS, 0), steps))
  {
    AgreeInitially(policy);
    MetricsAndBreakerAgree(Paired(Cell(Fresh(policy), 0, 0), ZERO_COUNTERS, 0), steps);
  }

  // ---------------------------------------------------------------- the transport itself

  datatype BaseResult = BaseError | BaseBare(status: int) | BaseStream(status: int)

  datatype Response =
    | CircuitOpen(retryAfterSeconds: int)
    | Failed
    | Bare(status: int)
    | Streamed(status: int, body: ProviderMetricsBody)

  /** Clock readings taken by one completion. */
  datatype Clock = Clock(elapsed: int, countedAt: int, finishedAt: int)

  function CountedIn(registry: Registry, provider: string, c: Completion, clock: Clock): Registry {
    ProviderMetrics.AfterFinish(registry, provider, c.status, clock.elapsed, c.transportError, clock.countedAt)
  }

  class ProviderMetricsBody {
    const metrics: Metrics
    const breaker: CircuitBreaker
    const provider: string
    const permit: Permit
    const status: int
    var finished: bool

    constructor (metrics: Metrics, breaker: CircuitBreaker, provider: string, permit: Permit, status: int)
      ensures this.metrics == metrics && this.breaker == breaker && this.provider == provider
      ensures this.permit == permit && this.status == status && !finished
    {
      this.metrics := metrics;
      this.breaker := breaker;
      this.provider := provider;
      this.permit := permit;
      this.status := status;
      finished := false;
    }

    /** One call's effect is exactly what Completions says of it. */
    twostate predicate Performed(calls: seq<BodyCall>, clock: Clock)
      reads this, metrics, breaker
    {
      var done := Completions(status, old(finished), calls);
      && finished == (old(finished) || exists call :: call in calls && Terminal(call))
      && |done| <= 1
      && (done == [] ==>
            metrics.providers == old(metrics.providers) && breaker.Value() == old(breaker.Value()))
      && (done != [] ==>
            && metrics.providers == CountedIn(old(metrics.providers), provider, done[0], clock)
            && breaker.Value() == Circuit.AfterFinish(old(breaker.Value()), permit, done[0].failed, clock.finishedAt))
    }

    method Read(inner: IoError, aborted: bool, clock: Clock) returns (error: IoError)
      modifies this, metrics, breaker
      ensures error == inner
      ensures Performed([ReadCall(inner, aborted)], clock)
    {
      assert Completions(status, true, []) == [];
      if inner != NoError {
        if inner == Eof {
          Finish(NoError, aborted, clock);
        } else {
          Finish(inner, aborted, clock);
        }
      }
      return inner;
    }

    method Close(inner: IoError, aborted: bool, clock: Clock) returns (error: IoError)
      modifies this, metrics, breaker
      ensures error == inner
      ensures Performed([CloseCall(inner, aborted)], clock)
    {
      assert CloseCall(inner, aborted) in [CloseCall(inner, aborted)];
      Finish(inner, aborted, clock);
      return inner;
    }

    method Finish(error: IoError, aborted: bool, clock: Clock)
      modifies this, metrics, breaker
      ensures finished
      ensures old(finished) ==>
                metrics.providers == old(metrics.providers) && breaker.Value() == old(breaker.Value())
      ensures !old(finished) ==>
                var c := Judge(BodyEnded(status, error, aborted));
                && metrics.providers == CountedIn(old(metrics.providers), provider, c, clock)
                && breaker.Value() == Circuit.AfterFinish(old(breaker.Value()), permit, c.failed, clock.finishedAt)
    {
      if finished {
        return;
      }
      finished := true;
      var transportError := error != NoError && !aborted;
      metrics.ProviderFinish(provider, status, clock.elapsed, transportError, clock.countedAt);
      breaker.Finish(permit, transportError || status >= 500, clock.finishedAt);
    }
  }

  class ProviderTransport {
    const provider: string
    const metrics: Metrics
    const breaker: CircuitBreaker

    constructor (provider: string, metrics: Metrics, breaker: CircuitBreaker)
      ensures this.provider == provider && this.metrics == metrics && this.breaker == breaker
    {
      this.provider := provider;
      this.metrics := metrics;
      this.breaker := breaker;
    }

    /** `asked` is the clock at the breaker, `base` what the inner round trip returns. */
    method RoundTrip(asked: int, base: BaseResult, aborted: bool, clock: Clock) returns (response: Response)
      modifies metrics, breaker
      ensures var before := old(breaker.Value());
              var registry := old(metrics.providers);
              match Decide(before, asked)
              case Rejected(retryAfter) =>
                && retryAfter >= 0
                && response == CircuitOpen(RetrySeconds(retryAfter))
                && breaker.Value() == before
                && metrics.providers == registry
              case Admitted(permit) =>
                var asking := AfterAllow(before, asked);
                var begun := AfterBegin(registry, provider);
                match base
                case BaseStream(status) =>
                  && breaker.Value() == asking
                  && metrics.providers == begun
                  && response.Streamed? && response.status == status
                  && fresh(response.body) && !response.body.finished
                  && response.body.metrics == metrics && response.body.breaker == breaker
                  && response.body.provider == provider && response.body.permit == permit
                  && response.body.status == status
                case _ =>
                  var c := Judge(if base.BaseError? then NoResponse(aborted) else NoBody(base.status));
                  && response == (if base.BaseError? then Failed else Bare(base.status))
                  && breaker.Value() == Circuit.AfterFinish(asking, permit, c.failed, clock.finishedAt)
                  && metrics.providers == CountedIn(begun, provider, c, clock)
    {
      var permit, allowed, retryAfter := breaker.Allow(asked);
      if !allowed {
        var seconds := (retryAfter + SECOND - 1) / SECOND;
        if seconds < 1 {
          seconds := 1;
        }
        return CircuitOpen(seconds);
      }
      metrics.ProviderBegin(provider);
      match base {
        case BaseError =>
          var providerFailure := !aborted;
          metrics.ProviderFinish(provider, 0, clock.elapsed, providerFailure, clock.countedAt);
          breaker.Finish(permit, providerFailure, clock.finishedAt);
          return Failed;
        case BaseBare(status) =>
          var failed := status >= 500;
          metrics.ProviderFinish(provider, status, clock.elapsed, false, clock.countedAt);
          breaker.Finish(permit, failed, clock.finishedAt);
          return Bare(status);
        case BaseStream(status) =>
          var body := new ProviderMetricsBody(metrics, breaker, provider, permit, status);
          return Streamed(status, body);
      }
    }
  }
}
