# GemGate: verified models of the gateway's state machines

GemGate is an HTTP reverse proxy in front of model providers. Its hard logic is a handful of
lock-protected state machines: a circuit breaker per provider, a transport that gives each permit back
once when the response body ends, hot reload that swaps in cloned breakers while old requests finish on
the old ones, a sliding-window rate limiter in memory and in Redis, the streaming loop, the log ring,
the client-address walk and the request accounting. This project models them in Dafny and proves what
they keep over whole runs.

Code that updates objects is a class whose methods are proved against functions giving the new state;
runs and interleavings of those steps are then modelled by datatypes, and the main theorems are about
them. Every lock-protected region is one atomic step. Instants and durations are integers (nanoseconds,
milliseconds for Redis). Check everything with `dafny verify dfyconfig.toml`.

| file | subject |
|---|---|
| `Circuit.dfy`, `BreakerRuns.dfy` | one circuit breaker: its methods, and all its runs |
| `Transport.dfy`, `ProviderMetrics.dfy`, `Streaming.dfy` | the provider round trip, its counters, the response loop |
| `HotReload.dfy`, `Interleavings.dfy` | requests, breakers and reloads interleaved; four surprising runs |
| `Refinement.dfy`, `ProviderTotals.dfy` | the code's round trips and reloads as such steps; what a provider's counters count |
| `Generations.dfy` | one provider's breakers across reloads, and its probes |
| `Completions.dfy`, `Orders.dfy`, `Schedules.dfy` | when a provider's counters and its breaker agree |
| `SlidingWindow.dfy`, `RedisWindow.dfy`, `RateBackend.dfy` | the rate limiter: in memory, shared, per key |
| `Runtime.dfy` | validation, runtime snapshots, what a reload may change |
| `Serving.dfy`, `Accounting.dfy` | serving one request; counters and log under concurrency |
| `LogRing.dfy`, `Stats.dfy`, `ClientAddress.dfy` | bounded history, dashboard counting, trusted proxies |
| `Common.dfy` | what several modules share |

## What the proofs found

- A reload made while a breaker is half-open, or open and past its cooldown, gives the new snapshot a
  half-open breaker that has no probe owner. It turns every request away, and every later reload that
  keeps the provider's breaker enabled clones the same state. The documentation promises one probe after
  the cooldown (README.md:250, docs/ARCHITECTURE.md:140). `BreakerRuns.CloneRecoversIff` gives the exact
  condition, `HotReload.StrandedIff` and `HotReload.StrandedStays` carry it to whole runs, and
  `Interleavings.ReloadAfterCooldownStrands` is a run from start-up that reaches it. Disabling the
  breaker in one published configuration, or a restart, clears it.
- "Exactly one half-open probe" is a promise per breaker, not per provider
  (`Interleavings.TwoGenerationsTwoProbes` is a run from start-up with two). A provider's probes number
  exactly its enabled half-open breakers not born half-open (`Generations.ProbesAreProbing`), and it
  never has two out if and only if no request asks a breaker of it that is open past its deadline while
  another of its breakers is probing (`Generations.OneProbePerProviderIff`).
- The provider's counters and its breaker are updated in two steps. If a completion is taken as one step
  they agree whenever the breaker is closed (`Transport.AlwaysAgree`); as written they can disagree with
  nothing in flight (`Interleavings.CountersCanDisagree`, from start-up). Each follows the failing tail
  of its own order: the counters that of counting, the breaker that of returning permits
  (`Completions.CountersFollowCounting`, `Completions.BreakerFollowsReturns`). So within one generation
  they agree if permits come back in the order their completions were counted, in particular if
  completions do not overlap (`Completions.FirstGenerationAgrees`, `Completions.OneByOneIsInOrder`). For
  requests under way on a closed breaker that agrees with the counters, among any arrivals, other
  providers' traffic and reloads that do not rebuild the provider, both agree afterwards under every
  response, transport error, stream error, cancellation and clock reading if and only if the last
  `failureThreshold` permits come back in the order of counting, or the threshold is one, or the breaker
  is one failure from tripping, the last `failureThreshold` - 1 permits come back in that order and the
  permit of the request counted just before them comes back first of all (`Schedules.ScheduleSafeIff`,
  with `Orders.SafeOrder`).
- The copy loop accepts any error that wraps io.EOF as a clean end, the body wrapper only io.EOF itself.
  A stream ending in a wrapped EOF is clean for the client and a failure for the provider
  (`Transport.ClientAndProviderViews`).
- A downstream cancellation finishes as a success, and so resets the failure count or closes a probed
  breaker, unless a response of status 500 or more had begun (`Transport.CancellationExact`,
  `Transport.CancellationHeals`).
- `now` is read before the window's lock. With calls up to `d` late the quota of `limit` holds over every
  interval of one minute less `d` and not a tick more; only a limit of one keeps the full minute whatever
  the clock does (`SlidingWindow.AdmissionBoundExact`).
- A rejection's retry time is a lower bound. It is exact if and only if none of the entries that must
  expire is younger than the oldest one, so always when exactly `limit` are retained, whatever the clock
  did; a limit lowered by a reload can make it too short (`SlidingWindow.RetryTight`). The rate-limit
  header can be early by less than half a second (`SlidingWindow.HeaderEarlyIff`), the circuit header
  never is.
- Three clamps are dead code: the retry clamps of both limiters and the negative prefix length in the
  trusted-proxy parser. The `inFlight > 0` guard never hides an underflow.

## Model

| member | source | states |
|---|---|---|
| Circuit.CircuitBreaker.FromPolicy | internal/gateway/circuitbreaker.go:63-76 | a new breaker admits everyone, counts from zero, and works by the policy, non-positive values meaning five failures and 30 seconds |
| Circuit.CircuitBreaker.CloneWithPolicy | internal/gateway/circuitbreaker.go:81-105 | a separate object configured by the policy that, in the eyes of its callers, carries the other over: the same verdict at every clock while that cools down, nobody admitted if it is half-open or due, a cooldown of openFor from now if its failures reach the new threshold, everyone admitted below it, a fresh start if either is disabled |
| Circuit.CircuitBreaker.Allow | internal/gateway/circuitbreaker.go:107-126 | who is admitted, with which permit, how long the others wait, and the new state |
| Circuit.CircuitBreaker.Finish | internal/gateway/circuitbreaker.go:128-162 | the whole new state for probes, late completions, successes and failures |
| Circuit.CircuitBreaker.Snapshot | internal/gateway/circuitbreaker.go:164-180 | the status report, changing nothing |
| Circuit.SoundnessKept | internal/gateway/circuitbreaker.go:63-162 | positive policy and "closed implies below the threshold" hold of new breakers and are kept by clone, allow and finish |
| Circuit.ReportForecastsAllow | internal/gateway/circuitbreaker.go:164-180 | the report says closed, open or half-open exactly as a caller of allow would experience it |
| Circuit.CloneCarriesOver | internal/gateway/circuitbreaker.go:88-104 | the same for every breaker, policy and clock |
| BreakerRuns.OneProbeAlways | internal/gateway/circuitbreaker.go:107-162 | over every legal run from such a state: half-open exactly while one probe permit is out, otherwise none |
| BreakerRuns.StuckForever | internal/gateway/circuitbreaker.go:115-122 | half-open without a probe owner stays so and rejects at every moment of every run |
| BreakerRuns.FreshRecovers | internal/gateway/circuitbreaker.go:63-76 | a new breaker, after any run whose permits are all back, admits once the cooldown is over |
| BreakerRuns.CloneRecoversIff | internal/gateway/circuitbreaker.go:92-104 | a clone has that property, and the one-probe invariant, if and only if it is not born half-open; otherwise it is stuck |
| BreakerRuns.TripsExactly | internal/gateway/circuitbreaker.go:128-162 | from any closed start: closed at the end iff the last probe did not fail and no block of threshold-many consecutive failures was counted since; while closed, failures is the trailing run |
| BreakerRuns.ClosedFollowsHistory | internal/gateway/circuitbreaker.go:128-162 | the invariant behind it, for an arbitrary history so far |
| BreakerRuns.LateCompletionsInvisible | internal/gateway/circuitbreaker.go:148-152 | erasing every ordinary completion that arrives while not closed changes neither the state nor any verdict |
| BreakerRuns.OutageSpacing | internal/gateway/circuitbreaker.go:107-146 | while never closed, every admission is a probe, none earlier than the deadline, and consecutive ones are openFor apart |
| BreakerRuns.OutageLoadBound | internal/gateway/circuitbreaker.go:107-146 | over any span of length T an outage admits at most 1 + T/openFor requests |
| BreakerRuns.CooldownAfterTrip | internal/gateway/circuitbreaker.go:157-161 | after any run, from the completion at clock t that opens the breaker until somebody is admitted: every caller before t + openFor is rejected with exactly the time left, and one from then on gets the probe |
| BreakerRuns.TripStartsCooldown | internal/gateway/circuitbreaker.go:135-140 | a failed probe and a last failure alike start that cooldown, with failures at the threshold |
| BreakerRuns.OutageFromTrip | internal/gateway/circuitbreaker.go:107-161 | until it closes, a breaker tripped at t admits only probes, the first not before t + openFor, and at most T/openFor within T of the trip |
| BreakerRuns.CloneTripsAfterExactly | internal/gateway/circuitbreaker.go:92-104 | a clone of a closed breaker below the new threshold trips after exactly the failures that are left, in a row |
| BreakerRuns.FreshTripsAfterExactly | internal/gateway/circuitbreaker.go:63-76 | a new breaker after exactly the policy's threshold, or five |
| Transport.CircuitHeaderNeverEarly | internal/gateway/provider_metrics_transport.go:40-47 | the header is the least whole number of seconds after which the open breaker admits |
| Transport.FailureExact | internal/gateway/provider_metrics_transport.go:78-107 | failures are transport errors and statuses of 500 or more, 4xx and 429 are not; a transport error is a missing response or a stream ending in an error with the downstream alive |
| Transport.FirstTerminalDecides | internal/gateway/provider_metrics_transport.go:131-151 | for any order of reads and closes, the first terminal call decides the one completion |
| Transport.AtMostOnce | internal/gateway/provider_metrics_transport.go:149-151 | one completion if any call was terminal, none otherwise |
| Transport.ProxyCompletesOnce | internal/gateway/proxy.go:65-72 | the reads of the streaming loop followed by the deferred Close complete every response exactly once, and how |
| Transport.ClientAndProviderViews | internal/gateway/provider_metrics_transport.go:102-107 | for every status, client, Close result and moment of cancellation: when the provider is charged, against whether the client's copy is clean, broken upstream or broken downstream; the wrapped-EOF gap included |
| Transport.CancellationExact | internal/gateway/provider_metrics_transport.go:104-107 | a cancelled request is never a transport error, and a failure iff a status of 500 or more had begun |
| Transport.CancellationHeals | internal/gateway/circuitbreaker.go:135-156 | otherwise, and only then, it resets a closed breaker or closes the probed one |
| Transport.MetricsAndBreakerAgree | internal/gateway/provider_metrics_transport.go:78-107 | over any run with atomic completions: closed means equal failure counts, in-flight equals outstanding permits, begun = in flight + counted |
| Transport.AlwaysAgree | internal/gateway/provider_metrics_transport.go:78-107 | the same over every run from a new breaker and zero counters |
| Transport.ProviderMetricsBody.Read | internal/gateway/provider_metrics_transport.go:131-141 | the error is passed on, and the effect is what Completions says of this call |
| Transport.ProviderMetricsBody.Close | internal/gateway/provider_metrics_transport.go:143-147 | the same for Close, which always ends the body |
| Transport.ProviderMetricsBody.Finish | internal/gateway/provider_metrics_transport.go:102-107 | counters and breaker move together on the first call and not at all afterwards |
| Transport.ProviderTransport.RoundTrip | internal/gateway/provider_metrics_transport.go:37-123 | all four outcomes: circuit open touches nothing, an error or a bare response completes at once, a stream leaves the permit with its body |
| ProviderMetrics.Metrics.Provider | internal/gateway/metrics.go:146-160 | registers a zeroed entry for an unknown name, else nothing |
| ProviderMetrics.Metrics.ProviderBegin | internal/gateway/metrics.go:103-111 | one more in flight for this name only; blank names ignored |
| ProviderMetrics.Metrics.ProviderFinish | internal/gateway/metrics.go:113-144 | every counter of this name after a completion, no other name touched |
| HotReload.StepRefines | internal/gateway/provider_metrics_transport.go:37-123 | each step of requests and reloads is, for each breaker, one legal operation or nothing |
| HotReload.RunRefines | internal/gateway/runtime.go:49-66 | any interleaving is, for each breaker of each generation, a legal run of that breaker alone, so older completions never reach a newer breaker |
| HotReload.InvAlways | internal/gateway/runtime.go:113-134 | the one-probe invariant for every breaker not born half-open, stuckness of the others, and balanced books per provider name, over all runs |
| HotReload.SafetyFromStart | internal/gateway/runtime.go:113-134 | the same spelled out for every state reachable from start-up: probe permits, in-flight counts, begun = in flight + counted across reloads |
| HotReload.NoUnderflow | internal/gateway/metrics.go:120-122 | the guard before the decrement is always true |
| HotReload.StrandedTurnsAway | internal/gateway/circuitbreaker.go:121-122 | a request routed to a stranded provider is rejected whatever the clock |
| HotReload.StrandedStays | internal/gateway/runtime.go:51-55 | through any traffic and reloads that keep the breaker enabled a stranded provider stays stranded |
| HotReload.StrandedIff | internal/gateway/runtime.go:51-55 | whatever happens between building and publishing, publishing strands a provider iff, when it was cloned, its breaker was half-open or past its cooldown and both policies are enabled |
| HotReload.NamedAlways | internal/gateway/runtime.go:56-71 | snapshots and requests refer by name only to breakers made for that name |
| Refinement.RoundTripRefines | internal/gateway/provider_metrics_transport.go:37-101 | from any state showing the same breaker and counters, RoundTrip without a stream leaves what its four steps leave, and a refusal what its one step leaves |
| Refinement.AdmittedIsSteps | internal/gateway/provider_metrics_transport.go:38-75 | asking and counting in, before any exchange |
| Refinement.CompletionIsSteps | internal/gateway/provider_metrics_transport.go:102-107 | counting out and giving the permit back, on any ending |
| Refinement.CountedInExact | internal/gateway/provider_metrics_transport.go:106 | a completion's counters show the clock readings it took, each in its place |
| Refinement.ReloadStepsRun | internal/gateway/runtime.go:31-71 | start, one build per configured provider and publish lead to the breakers the code expects, every older breaker and request left alone |
| Refinement.AbandonedStepsRun | internal/gateway/runtime.go:126-130 | a build that fails part-way registers names and changes nothing requests can see |
| Refinement.ReloadRefines | internal/gateway/runtime.go:113-134 | from any state showing the gateway's breakers and counters, a successful Reload leaves what those steps leave; any other leaves the runtime |
| ProviderTotals.TotalsFromStart | internal/gateway/metrics.go:113-144 | from start-up, through any interleaving and reloads, a provider's class counters, transport errors and durations are totals over its completions, and its last status, duration and time are those of the latest |
| ProviderTotals.FinishOneTotals | internal/gateway/metrics.go:120-138 | one completion more adds exactly itself to them |
| Generations.ReachableFromStart | internal/gateway/runtime.go:113-134 | every state reachable from start-up satisfies the invariants the results on generations assume |
| Generations.ProbesAreProbing | internal/gateway/circuitbreaker.go:115-122 | over all generations a provider's outstanding probes number exactly its enabled half-open breakers not born half-open |
| Generations.SecondProbeIff | internal/gateway/circuitbreaker.go:115-122 | a step gives a provider a second concurrent probe iff it asks a due breaker while another breaker of that provider is probing |
| Generations.OneProbePerProviderIff | internal/gateway/circuitbreaker.go:115-122 | along any run a provider never has two probes out iff no such step is taken |
| Completions.CountersFollowCounting | internal/gateway/metrics.go:139-143 | along any run consecutiveFailures is the failing tail of the outcomes in the order they were counted |
| Completions.BreakerFollowsReturns | internal/gateway/circuitbreaker.go:135-161 | along any run failures, while closed, is the failing tail in the order permits came back, probes and late completions included |
| Completions.AgreeInOrder | internal/gateway/provider_metrics_transport.go:106-107 | within one generation, permits returned in the order of counting keep both equal whenever no completion is half done |
| Completions.OneByOneIsInOrder | internal/gateway/provider_metrics_transport.go:106-107 | completions that do not overlap are in that order |
| Completions.FirstGenerationAgrees | internal/gateway/provider_metrics_transport.go:78-107 | the same from start-up, for a provider's first breaker after any earlier run |
| Orders.OrdersAgreeIff | internal/gateway/circuitbreaker.go:153-161 | two orders of the same outcomes, after any failures so far, have the same failing tail whenever no block reaches the threshold, for all outcomes, iff the orders are safe: equal in their last threshold places, or threshold one, or one failure from tripping with the last threshold - 1 places equal and the request before them first to return |
| Schedules.SafeScheduleAgrees | internal/gateway/provider_metrics_transport.go:78-107 | a safe order leaves counters and breaker in agreement under every plan: transport errors, bare responses, streams, read errors and cancellations, with any durations and clock readings |
| Schedules.UnsafeScheduleDiffers | internal/gateway/provider_metrics_transport.go:92-95 | an unsafe one leaves some plan under which the breaker stays closed and the two failing tails differ |
| Schedules.RunnableScheduleSafeIff | internal/gateway/provider_metrics_transport.go:78-107 | both directions for any steps in between, reloads of the same provider included, as long as the schedule can be run whenever the breaker stays closed |
| Schedules.CalmRunSuffices | internal/gateway/circuitbreaker.go:123-124 | within one generation a schedule that runs without failures runs under every plan that keeps the breaker closed |
| Schedules.ScheduleSafeIff | internal/gateway/provider_metrics_transport.go:78-107 | for every state with requests under way on a closed breaker that agrees with the counters, and every complete schedule of them that runs without failures, among arrivals, other traffic and reloads that do not rebuild the provider: both agree afterwards under every plan it can be run with iff the order is safe |
| Schedules.BareScheduleRuns | internal/gateway/provider_metrics_transport.go:78-107 | a schedule of nothing but those completions runs under every plan |
| Interleavings.TripOnceTrips | internal/gateway/circuitbreaker.go:157-161 | a run from start-up that ends with an open breaker |
| Interleavings.ReloadAfterCooldownStrands | internal/gateway/circuitbreaker.go:96-99 | a run from start-up in which a reload with the same policy after the cooldown strands the provider |
| Interleavings.TwoGenerationsTwoProbes | internal/gateway/runtime.go:51-55 | a run from start-up, with a reload during the cooldown, that ends with two probes of one provider out |
| Interleavings.CountersCanDisagree | internal/gateway/provider_metrics_transport.go:94-95 | a run from start-up in which two completions in opposite orders leave breaker and counters different with nothing in flight |
| SlidingWindow.RateWindow.Allow | internal/gateway/ratelimit.go:20-41 | answer and retained times for any limit, on the array shifted in place |
| SlidingWindow.RateWindow.ResetAfter | internal/gateway/ratelimit.go:43-56 | prunes, and returns the time until the oldest entry expires |
| SlidingWindow.RateWindow.Prune | internal/gateway/ratelimit.go:58-72 | exactly the expired prefix goes, the rest is shifted down in place |
| SlidingWindow.RateWindow.ShiftDown | internal/gateway/ratelimit.go:70-71 | the in-place copy leaves the suffix |
| SlidingWindow.RateWindow.SyncCompatFields | internal/gateway/ratelimit.go:74-81 | count and start follow the retained times |
| SlidingWindow.RetryClampUnreachable | internal/gateway/ratelimit.go:30-33 | a rejection always announces a positive wait, at most a minute unless the oldest entry is in the future |
| SlidingWindow.CallExact | internal/gateway/ratelimit.go:20-41 | on an ordered clock a call is admitted iff fewer than limit recorded admissions lie in the last minute, and the window is then the record filtered to it |
| SlidingWindow.WindowRefinesReference | internal/gateway/ratelimit.go:8-12 | over whole runs with varying limits the pruned window answers as a limiter that never forgets |
| SlidingWindow.AdmissionBound | internal/gateway/ratelimit.go:20-72 | with calls at most d late, no interval of a minute less d ever holds more recorded admissions than the largest limit |
| SlidingWindow.AdmissionBoundFromEmpty | internal/gateway/gateway.go:290 | the same from an empty window, where `now` is read before the lock |
| SlidingWindow.AdmissionBoundExact | internal/gateway/ratelimit.go:20-72 | for every limit and lateness d below a minute: the limit holds over every interval of a given width in every run iff the width is at most a minute less d, or at most a minute when the limit is one |
| SlidingWindow.NextAdmission | internal/gateway/ratelimit.go:28-36 | any full window, its times in order or not, rejects every call before one exact instant and admits the first call from then on |
| SlidingWindow.RetryTight | internal/gateway/ratelimit.go:29-36 | for any window the retry time is a lower bound on that instant, and equal to it iff no entry that must expire is younger than the oldest; always with exactly limit entries |
| SlidingWindow.HeaderEarlyIff | internal/gateway/gateway.go:306-308 | exactly when the rounded header is early, and by less than half a second |
| RedisWindow.MemberInjective | internal/gateway/ratelimit_redis.go:107 | members of different instances or calls never coincide, whatever the instance names contain |
| Common.DecimalRoundTrip | internal/gateway/ratelimit_redis.go:107 | the decimal text of a number stands for that number |
| RedisWindow.Store.Evaluate | internal/gateway/ratelimit_redis.go:19-40 | the script's reply and the key it leaves |
| RedisWindow.Store.OldestScore | internal/gateway/ratelimit_redis.go:29 | the lowest score of the set |
| RedisWindow.Backend.Allow | internal/gateway/ratelimit_redis.go:103-124 | no limit means no call; otherwise one new sequence number, one script run, its reply decoded |
| RedisWindow.CallOnce | internal/gateway/ratelimit_redis.go:103-124 | one call on the objects, expiry included, is one step of the cluster with its answer |
| RedisWindow.VisibleLists | internal/gateway/ratelimit_redis.go:38 | whether or not Redis dropped the expired key, what the script keeps is what the in-memory window keeps |
| RedisWindow.ScriptAgrees | internal/gateway/ratelimit_redis.go:19-40 | one call: same answer as the in-memory window, and the simulation is kept |
| RedisWindow.RedisAgrees | internal/gateway/ratelimit_redis.go:19-40 | over whole runs, any number of instances, numbers skipped for other keys, limits and expiries: same decisions and retry times as one in-memory window on the server clock |
| RedisWindow.RedisAgreesPerKey | internal/gateway/ratelimit_redis.go:103-124 | with many keys, each instance numbering all its calls in one sequence: the calls on each key get the answers of one in-memory window that saw only them |
| RedisWindow.ScriptClampUnreachable | internal/gateway/ratelimit_redis.go:30-33 | the default retry and the max(1, ...) never matter |
| RateBackend.MemoryBackend.LookUp | internal/gateway/ratelimit_backend.go:41-47 | finds or makes the key's window, all others unchanged |
| RateBackend.MemoryBackend.Charge | internal/gateway/ratelimit_backend.go:48 | updates that window only |
| RateBackend.MemoryBackend.Allow | internal/gateway/ratelimit_backend.go:37-50 | the key's answer and new window; every other key's window is the same object with the same contents |
| RateBackend.MemoryBackend.RetainKeys | internal/gateway/ratelimit_backend.go:52-60 | exactly the retained keys stay, with the same window objects |
| RateBackend.RetainedKeys | internal/gateway/ratelimit_backend.go:103-109 | the keys are the images of the tokens |
| RateBackend.KeyHasOwnWindow | internal/gateway/ratelimit_backend.go:37-60 | with lookup and update interleaved with everything else, a key every reload retains behaves as one window that saw only its own calls |
| RateBackend.DroppedStartsOver | internal/gateway/ratelimit_backend.go:52-60 | a key a reload does not retain starts over with an empty window; exactly the retained ones stay |
| RateBackend.KeyAdmissionBound | internal/gateway/runtime.go:132-135 | so such a key gets the admission bound across reloads |
| RateBackend.KeyCallsAreTokenCalls | internal/gateway/ratelimit_backend.go:116-119 | with keys injective on the tokens in use, the calls for a token's key are exactly the token's own calls |
| RateBackend.TokenAdmissionBound | internal/gateway/ratelimit_backend.go:89-109 | so each token that every reload retains is answered as by one window of its own and gets the admission bound |
| Runtime.Validate | internal/config/config.go:419-518 | accepts exactly the settings meeting the declarative conditions |
| Runtime.ValidateProviders | internal/config/config.go:424-477 | names non-empty and unique, default present, enabled circuits positive |
| Runtime.ValidateClients | internal/config/config.go:479-507 | some enabled client, enabled tokens distinct and non-blank, operations token apart |
| Runtime.ValidTokens | internal/gateway/runtime.go:78-84 | in a snapshot of valid settings tokens are one to one with enabled clients and exclude the operations token |
| Runtime.ValidProvidersCounted | internal/config/config.go:424-461 | valid providers have names of their own: one breaker each |
| Runtime.ValidCircuitsAsConfigured | internal/gateway/runtime.go:94-111 | with valid settings an enabled circuit has exactly the threshold and cooldown configured |
| Runtime.ValidateHotReload | internal/gateway/runtime.go:156-176 | accepts iff no pinned setting differs |
| Runtime.BuildRuntimeSnapshot | internal/gateway/runtime.go:31-92 | fails iff some provider does not build or the default is missing; otherwise the configured providers, all registered, with new breakers configured by their settings and carrying over the previous ones in the eyes of their callers; counters untouched |
| Runtime.BuildBreaker | internal/gateway/runtime.go:49-55 | a new object, configured by the provider's settings, carrying over the previous breaker of that name if there was one |
| Runtime.Gateway.Reload | internal/gateway/runtime.go:113-144 | publishes iff the configuration differs, pins nothing and builds; then every provider in both snapshots keeps its verdict as CarriesOver says, exactly the windows of the new tokens' keys stay, and the log is resized and announced in; otherwise the runtime and the windows are identical and a refusal is logged |
| Runtime.Gateway.RetainTokens | internal/gateway/ratelimit_backend.go:103-109 | exactly the windows of the given tokens' keys stay, the same objects |
| Runtime.New | internal/gateway/gateway.go:97-134 | start-up succeeds iff the limiter and the settings build, with the invariant established |
| Runtime.ReloadsKeepSettings | internal/gateway/runtime.go:113-176 | over any run of reload requests with validated settings the pinned settings are those of start-up and the settings in force are one valid candidate |
| Streaming.CopyAndFlush | internal/gateway/http_helpers.go:105-131 | output, count, error and reads consumed are those of Copy |
| Streaming.CopyDeliversAll | internal/gateway/http_helpers.go:109-130 | if every write succeeds the client has exactly the bytes read, those delivered with EOF or an error included |
| Streaming.CopyStopsAtFirstFailure | internal/gateway/http_helpers.go:117-122 | at the first failed or short write: everything before it, what that write took, and nothing after |
| Streaming.CopyNilIff | internal/gateway/http_helpers.go:124-129 | no error iff EOF was reached with every byte written; the output is always a prefix |
| Serving.ResolveExact | internal/gateway/proxy.go:91-107 | a path /providers/name/... goes to that provider or is 404, and no route leads outside the snapshot |
| Serving.UnknownClientGets401 | internal/gateway/gateway.go:277-286 | a provider request without a known token: 401, authFailures, one entry, nothing forwarded |
| Serving.LimitedClientGets429 | internal/gateway/gateway.go:302-313 | a client over its limit: 429 with the limiter's wait, rateLimited, one entry, nothing forwarded |
| Serving.LimiterDownGets503 | internal/gateway/gateway.go:291-299 | a limiter that cannot answer and does not fail open: 503, backendErrors, one entry |
| Serving.BadRouteAnswered | internal/gateway/proxy.go:91-107 | a path under /providers/ without a name: 400; an unknown name: 404; no upstream contacted |
| Serving.UnreachedAnswered | internal/gateway/proxy.go:15-64 | let through to the provider its path goes to, the default one outside /providers/: 413, 400, 500 or 502 by cause |
| Serving.ProviderResponseRelayed | internal/gateway/proxy.go:60-88 | and if it is reached, its own status and exactly the bytes the client took, counted and logged unless the client has gone |
| Serving.OperationsAnswered | internal/gateway/gateway.go:233-275 | operational paths answer the operations token, or clients if there is none, or everyone for open health; 401 otherwise |
| Serving.OptionsAnswered | internal/gateway/gateway.go:243-247 | other preflights: 204 and no trace |
| Serving.OperationsKeptApart | internal/gateway/operations_auth.go:9-19 | with a dedicated operations token no bearer is both client and operator |
| Serving.Accounts.RecordStatus | internal/gateway/metrics.go:297-307 | total and class move by one |
| Serving.Accounts.Proxy | internal/gateway/proxy.go:15-89 | status, bytes and whether a response started, on every error path and for every stream |
| Serving.Accounts.ServeHTTP | internal/gateway/gateway.go:226-349 | counters, log and statuses sent after any request, with counters and log in balance again |
| Serving.Accounts.Dashboard | internal/tui/stats.go:40-118 | counters = what the dashboard shows from the ring + what has been pushed out of it, in total and per class |
| Serving.CountedAsSent | internal/gateway/gateway.go:315-348 | every accounted request not abandoned by its client is sent exactly one status, and that status is counted and logged; an abandoned one is counted nowhere |
| Serving.ServingKeepsBalance | internal/gateway/gateway.go:249-348 | each counter equals the number of log entries of its class; in-flight returns to its value |
| Accounting.CountersRunAhead | internal/gateway/metrics.go:297-307 | over any interleaving each counter is ahead of the log by exactly the requests still to be logged |
| Accounting.SettledIsRun | internal/gateway/gateway.go:330-348 | what serving does after an exchange is such a run of counting and logging steps |
| Accounting.RefusalIsRun | internal/gateway/gateway.go:302-313 | and so is a refusal |
| Accounting.BalancedWhenQuiet | internal/gateway/gateway.go:330-348 | whenever nothing is being settled, counters and log agree |
| LogRing.LogRing.Add | internal/gateway/logring.go:38-53 | the normalised entry is appended, the oldest dropped when full, in place |
| LogRing.LogRing.Resize | internal/gateway/logring.go:55-75 | the latest entries that fit the new limit stay |
| LogRing.LogRing.Snapshot | internal/gateway/logring.go:77-83 | a fresh array with the contents |
| LogRing.NormalizedIsComplete | internal/gateway/logring.go:39-44 | an entry is stored with a time and a level, and otherwise as it came |
| LogRing.RingRefinesHistory | internal/gateway/logring.go:38-75 | after any run the ring is a suffix of everything added, of the length the limits dictate |
| LogRing.RingWithoutResize | internal/gateway/logring.go:38-53 | without a resize it holds the last min(limit, number added) |
| LogRing.SnapshotIsStable | internal/gateway/logring.go:77-83 | no later run of Add and Resize changes a snapshot |
| ClientAddress.ClampUnreachable | internal/config/config.go:634-637 | a masked mapped prefix is at least 96 bits long |
| ClientAddress.ParseTrustedProxies | internal/config/config.go:609-647 | fails iff an entry is unacceptable; otherwise each normal form once |
| ClientAddress.NormalizedTrustsSame | internal/config/config.go:609-647 | the normalised list trusts exactly the unmapped addresses its entries denote |
| ClientAddress.TrustedProxy | internal/gateway/trusted_proxy.go:75-83 | whether some prefix contains the unmapped address |
| ClientAddress.ParseForwardedChain | internal/gateway/trusted_proxy.go:54-73 | valid iff every piece of every header line is an address; then all of them unmapped, in order |
| ClientAddress.FlattenInOrder | internal/gateway/trusted_proxy.go:59-71 | pieces keep their order across header lines |
| ClientAddress.ResolveClientIP | internal/gateway/trusted_proxy.go:12-36 | peer, chain walk or X-Real-IP, by which case |
| ClientAddress.ClientIsRightmostUntrusted | internal/gateway/trusted_proxy.go:21-27 | the walk ends at the rightmost untrusted address |
| ClientAddress.ClientIsLeftmostIfAllTrusted | internal/gateway/trusted_proxy.go:23-27 | or at the leftmost if all are trusted |
| ClientAddress.PrependingIsHarmless | internal/gateway/trusted_proxy.go:21-27 | addresses prepended by a client do not matter once the chain has an untrusted one |
| ClientAddress.PrependingWins | internal/gateway/trusted_proxy.go:23-27 | without one, and with the rest of the prepended addresses trusted, the first prepended address comes out |
| Stats.Percentile | internal/tui/stats.go:120-131 | an element with p percent of the values at or below it and fewer below; zero for no values, the minimum for p below 1 |
| Stats.NearestRankUnique | internal/tui/stats.go:120-131 | those two inequalities leave one value |
| Stats.RankInBounds | internal/tui/stats.go:126-130 | the index stays in bounds for every p up to 100 |
| Stats.UnderOwnName | internal/tui/stats.go:77-88 | a client with a name of its own is counted under it; only nameless ones are pooled |
| Stats.Summarize | internal/tui/stats.go:40-90 | class counts, per-client and per-route requests and errors, each breakdown adding up to the total |

## Left out

- Network, TLS, listeners, `http.Client` and its redirects and timeouts: the base round trip returns an arbitrary error, bare response or body script.
- OpenTelemetry spans and propagation: they do not touch the state modelled.
- Building the Redis client at start-up: the library's verdict is a field of the settings.
- Loading YAML, environment and secret files, and parsing of URLs, durations, byte sizes and addresses: configurations, tokens and addresses arrive parsed, and verdicts of such code are fields of the inputs.
- SHA-256 key derivation: a function from tokens to keys. The per-key results hold for any function, the per-token ones for one that is injective on the tokens in use.
- The contents of a provider entry other than its breaker (URL, key, headers, client), the CORS policy of a snapshot, and preflight handling.
- Which of several configuration errors is reported, and their texts.
- Which error a rejected reload logs: its text is an input.
- Decoding errors of the Redis reply and connection errors: one verdict, `LimiterDown`, with its fail-open branch in `Serving`.
- A Redis server clock that runs backwards, as after a failover: the agreement is for a nondecreasing clock.
- `prepareBody` and `parseBytes`: their outcome is a verdict.
- Header copying and filtering, redaction, Prometheus text, health and readiness bodies, request ids: set lookups and formatting.
- Other fields of `summarize` (last minute, trend, latencies, success rate) and all rendering.
- Statuses outside 100 to 999, on which WriteHeader panics.
- Fixed-width integers: counters are unbounded and times do not saturate.
- Weak memory and mutex internals, and goroutine scheduling within a locked region.
- ProviderMetrics.Metrics.Provider: entries are values in a map, not shared pointers; an entry is never removed, so no reader can tell.
- Stats.Percentile: requires p at most 100, since the code indexes past the end above it; its one caller passes 95.
- LogRing.LogRing.Resize: the new array always has the limit as its length, where the code reaches the same contents by two allocation paths.
- SlidingWindow.RateWindow.Append: the growth factor of append is one of many.
- Streaming.CopyAndFlush: flushing after each write is not modelled, having no effect on the bytes; the script of reads is finite and ends with an error or an end of file.
- BreakerRuns.OutageLoadBound: assumes that a probe is not given back at a clock reading before its admission.
