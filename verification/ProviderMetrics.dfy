/** Per-provider counters (internal/gateway/metrics.go).  Durations are nanoseconds. */
module ProviderMetrics {
  datatype Counters = Counters(
    requests: nat,
    requests2xx: nat,
    requests4xx: nat,
    requests5xx: nat,
    transportErrors: nat,
    inFlight: int,
    duration: int,
    lastDuration: int,
    lastStatus: int,
    lastRequest: int,
    consecutiveFailures: nat)

  const ZERO_COUNTERS: Counters := Counters(0, 0, 0, 0, 0, 0, 0, 0, 0, 0, 0)

  type Registry = map<string, Counters>

  /** Unicode white space, as strings.TrimSpace strips it. */
  predicate IsSpace(c: char) {
    || c in "\t\n\r "
    || c in ['\U{0B}', '\U{0C}', '\U{85}', '\U{A0}', '\U{1680}']
    || '\U{2000}' <= c <= '\U{200A}'
    || c in ['\U{2028}', '\U{2029}', '\U{202F}', '\U{205F}', '\U{3000}']
  }

  /** strings.TrimSpace(s) == "" */
  predicate IsBlank(s: string) {
    forall i :: 0 <= i < |s| ==> IsSpace(s[i])
  }

  function Entry(registry: Registry, name: string): Counters {
    if name in registry then registry[name] else ZERO_COUNTERS
  }

  function Registered(registry: Registry, name: string): Registry {
    if name in registry then registry else registry[name := ZERO_COUNTERS]
  }

  function BeginOne(c: Counters): Counters {
    c.(inFlight := c.inFlight + 1)
  }

  function FinishOne(c: Counters, status: int, duration: int, transportError: bool, now: int): Counters {
    Counters(
      c.requests + 1,
      if 200 <= status < 300 then c.requests2xx + 1 else c.requests2xx,
      if 400 <= status < 500 then c.requests4xx + 1 else c.requests4xx,
      if status >= 500 then c.requests5xx + 1 else c.requests5xx,
      if transportError then c.transportErrors + 1 else c.transportErrors,
      if c.inFlight > 0 then c.inFlight - 1 else c.inFlight,
      c.duration + duration,
      duration,
      status,
      now,
      if transportError || status >= 500 then c.consecutiveFailures + 1 else 0)
  }

  function AfterBegin(registry: Registry, name: string): Registry {
    if IsBlank(name) then registry else registry[name := BeginOne(Entry(registry, name))]
  }

  function AfterFinish(
      registry: Registry, name: string, status: int, duration: int, transportError: bool, now: int): Registry {
    if IsBlank(name) then registry
    else registry[name := FinishOne(Entry(registry, name), status, duration, transportError, now)]
  }

  /** Entries are only ever added, so a map of counter values stands for the map of pointers. */
  class Metrics {
    var providers: Registry

    constructor ()
      ensures providers == map[]
    {
      providers := map[];
    }

    method Provider(name: string)
      modifies this
      ensures providers == Registered(old(providers), name)
    {
      if name in providers {
        return;
      }
      providers := providers[name := ZERO_COUNTERS];
    }

    method ProviderBegin(name: string)
      modifies this
      ensures providers == AfterBegin(old(providers), name)
    {
      if IsBlank(name) {
        return;
      }
      Provider(name);
      var p := providers[name];
      providers := providers[name := p.(inFlight := p.inFlight + 1)];
    }

    method ProviderFinish(name: string, status: int, duration: int, transportError: bool, now: int)
      modifies this
      ensures providers == AfterFinish(old(providers), name, status, duration, transportError, now)
    {
      if IsBlank(name) {
        return;
      }
      Provider(name);
      var p := providers[name];
      if p.inFlight > 0 {
        p := p.(inFlight := p.inFlight - 1);
      }
      p := p.(requests := p.requests + 1,
              duration := p.duration + duration,
              lastDuration := duration,
              lastStatus := status,
              lastRequest := now);
      if 200 <= status < 300 {
        p := p.(requests2xx := p.requests2xx + 1);
      } else if 400 <= status < 500 {
        p := p.(requests4xx := p.requests4xx + 1);
      } else if status >= 500 {
        p := p.(requests5xx := p.requests5xx + 1);
      }
      if transportError {
        p := p.(transportErrors := p.transportErrors + 1);
      }
      if transportError || status >= 500 {
        p := p.(consecutiveFailures := p.consecutiveFailures + 1);
      } else {
        p := p.(consecutiveFailures := 0);
      }
      providers := providers[name := p];
    }
  }
}
