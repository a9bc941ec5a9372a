/**
 Validated configurations, runtime snapshots and hot reload (internal/config/config.go,
 internal/gateway/runtime.go, internal/gateway/gateway.go).

 A configuration arrives parsed.  Verdicts of foreign code on one provider entry are fields of that
 entry: `acceptable` for the checks validate makes of it alone (name pattern, catalogue lookup, API
 key, base URL, header names), `buildable` for the two checks buildRuntimeSnapshot repeats.
 */
module Runtime {
  import opened Common
  import opened Circuit
  import opened ProviderMetrics
  import B = RateBackend
  import L = LogRing
  import W = SlidingWindow

  datatype ProviderConfig = ProviderConfig(name: string, acceptable: bool, buildable: bool)

  datatype ClientConfig = ClientConfig(name: string, token: string, enabled: bool, rateLimitRPM: int)

  datatype RateLimitSettings = RateLimitSettings(
    backend: string, url: string, keyPrefix: string, timeout: string, failOpen: bool)

  datatype Telemetry = Telemetry(
    enabled: bool, endpoint: string, serviceName: string, sampleRatio: real, environment: string,
    propagateUpstream: bool)

  /** `rest` stands for the sections compared as a whole but not otherwise modelled. */
  datatype Config = Config(
    listen: string,
    publicHealth: bool,
    providers: seq<ProviderConfig>,
    defaultProvider: string,
    operationsToken: string,
    clients: seq<ClientConfig>,
    rateLimit: RateLimitSettings,
    telemetry: Telemetry,
    recentLogs: int,
    rest: string)

  datatype CircuitRuntime = CircuitRuntime(enabled: bool, failureThreshold: int, openFor: int)

  datatype Settings = Settings(
    config: Config,
    readTimeout: int,
    writeTimeout: int,
    idleTimeout: int,
    circuits: map<string, CircuitRuntime>,
    requestBodyLimit: int,
    corsAcceptable: bool,
    rateLimitAcceptable: bool,
    redisClientBuilds: bool)

  // ---------------------------------------------------------------- validation

  predicate CircuitAcceptable(rt: Settings, name: string) {
    name in rt.circuits && rt.circuits[name].enabled ==>
      rt.circuits[name].failureThreshold > 0 && rt.circuits[name].openFor > 0
  }

  predicate ProvidersValid(rt: Settings) {
    var ps := rt.config.providers;
    && (forall i :: 0 <= i < |ps| ==> ps[i].name != "" && ps[i].acceptable && CircuitAcceptable(rt, ps[i].name))
    && (forall i, j :: 0 <= i < j < |ps| ==> ps[i].name != ps[j].name)
    && (exists i :: 0 <= i < |ps| && ps[i].name == rt.config.defaultProvider)
  }

  predicate ClientAcceptable(c: ClientConfig) {
    c.enabled ==> !IsBlank(c.name) && !IsBlank(c.token) && c.rateLimitRPM >= 0
  }

  predicate TokensDistinct(clients: seq<ClientConfig>) {
    forall i, j :: 0 <= i < j < |clients| && clients[i].enabled && clients[j].enabled ==>
      clients[i].token != clients[j].token
  }

  predicate ClientsValid(config: Config) {
    && (forall i :: 0 <= i < |config.clients| ==> ClientAcceptable(config.clients[i]))
    && TokensDistinct(config.clients)
    && (exists i :: 0 <= i < |config.clients| && config.clients[i].enabled)
    && (config.operationsToken != "" ==> !HasToken(config.clients, config.operationsToken))
  }

  predicate HasToken(clients: seq<ClientConfig>, token: string) {
    exists i :: 0 <= i < |clients| && clients[i].enabled && clients[i].token == token
  }

  predicate ValidSettings(rt: Settings) {
    && ProvidersValid(rt)
    && ClientsValid(rt.config)
    && rt.requestBodyLimit >= 0
    && rt.corsAcceptable
    && rt.rateLimitAcceptable
  }

  datatype ConfigError =
    | NoError
    | NoProviders
    | BadProvider(name: string)
    | DuplicateProvider(name: string)
    | BadCircuit(name: string)
    | UnknownDefault
    | BadClient(name: string)
    | DuplicateToken(name: string)
    | NoClients
    | OperationsTokenShared
    | BadLimit

  /** The two loops with their `seen` sets decide exactly the declarative conditions. */
  method Validate(rt: Settings) returns (error: ConfigError)
    ensures error == NoError <==> ValidSettings(rt)
    ensures error == NoError <==>
              && ProvidersValid(rt) && ClientsValid(rt.config)
              && rt.requestBodyLimit >= 0 && rt.corsAcceptable && rt.rateLimitAcceptable
  {
    var config := rt.config;
    if |config.providers| == 0 {
      return NoProviders;
    }
    error := ValidateProviders(rt);
    if error != NoError {
      return;
    }
    error := ValidateClients(config);
    if error != NoError {
      return;
    }
    if rt.requestBodyLimit < 0 || !rt.corsAcceptable || !rt.rateLimitAcceptable {
      return BadLimit;
    }
  }

  method ValidateProviders(rt: Settings) returns (error: ConfigError)
    ensures error == NoError <==> ProvidersValid(rt)
  {
    var ps := rt.config.providers;
    var seen: set<string> := {};
    var defaultFound := false;
    for n := 0 to |ps|
      invariant seen == set i | 0 <= i < n :: ps[i].name
      invariant defaultFound <==> exists i :: 0 <= i < n && ps[i].name == rt.config.defaultProvider
      invariant forall i :: 0 <= i < n ==>
                  ps[i].name != "" && ps[i].acceptable && CircuitAcceptable(rt, ps[i].name)
      invariant forall i, j :: 0 <= i < j < n ==> ps[i].name != ps[j].name
    {
      var p := ps[n];
      if p.name == "" {
        return BadProvider(p.name);
      }
      if p.name in seen {
        return DuplicateProvider(p.name);
      }
      seen := seen + {p.name};
      if p.name == rt.config.defaultProvider {
        defaultFound := true;
      }
      if !p.acceptable {
        return BadProvider(p.name);
      }
      if p.name in rt.circuits && rt.circuits[p.name].enabled {
        if rt.circuits[p.name].failureThreshold <= 0 || rt.circuits[p.name].openFor <= 0 {
          return BadCircuit(p.name);
        }
      }
    }
    return if defaultFound then NoError else UnknownDefault;
  }

  method ValidateClients(config: Config) returns (error: ConfigError)
    ensures error == NoError <==> ClientsValid(config)
  {
    var cs := config.clients;
    var active := 0;
    var seen: set<string> := {};
    for n := 0 to |cs|
      invariant forall token :: token in seen <==> exists i :: 0 <= i < n && cs[i].enabled && cs[i].token == token
      invariant active > 0 <==> exists i :: 0 <= i < n && cs[i].enabled
      invariant active >= 0
      invariant forall i :: 0 <= i < n ==> ClientAcceptable(cs[i])
      invariant TokensDistinct(cs[..n])
    {
      var c := cs[n];
      DistinctNext(cs, n);
      if c.enabled {
        if IsBlank(c.name) || IsBlank(c.token) {
          return BadClient(c.name);
        }
        if c.token in seen {
          return DuplicateToken(c.name);
        }
        if c.rateLimitRPM < 0 {
          return BadClient(c.name);
        }
        seen := seen + {c.token};
        active := active + 1;
      }
    }
    assert cs[..|cs|] == cs;
    if active == 0 {
      return NoClients;
    }
    if config.operationsToken != "" && config.operationsToken in seen {
      return OperationsTokenShared;
    }
    return NoError;
  }

  lemma DistinctNext(cs: seq<ClientConfig>, n: nat)
    requires n < |cs| && TokensDistinct(cs[..n])
    ensures TokensDistinct(cs[..n + 1])
            <==> (cs[n].enabled ==> forall i :: 0 <= i < n && cs[i].enabled ==> cs[i].token != cs[n].token)
  {
    var (before, after) := (cs[..n], cs[..n + 1]);
    assert forall i :: 0 <= i < n ==> before[i] == after[i] == cs[i];
    assert after[n] == cs[n];
  }

  // ---------------------------------------------------------------- tokens of a snapshot

  datatype ClientAuth = ClientAuth(name: string, rateLimitRPM: int)

  /** The token table: enabled clients in order, a later one replacing an earlier one. */
  function TokenTable(clients: seq<ClientConfig>): map<string, ClientAuth> {
    if clients == [] then map[]
    else
      var c := clients[|clients| - 1];
      var before := TokenTable(clients[..|clients| - 1]);
      if c.enabled then before[c.token := ClientAuth(c.name, c.rateLimitRPM)] else before
  }

  function EnabledCount(clients: seq<ClientConfig>): nat {
    if clients == [] then 0
    else EnabledCount(clients[..|clients| - 1]) + if clients[|clients| - 1].enabled then 1 else 0
  }

  lemma HasTokenLast(clients: seq<ClientConfig>, token: string)
    requires clients != []
    ensures var n := |clients| - 1;
            HasToken(clients, token)
            <==> HasToken(clients[..n], token) || (clients[n].enabled && clients[n].token == token)
  {
    var n := |clients| - 1;
    if i :| 0 <= i < |clients| && clients[i].enabled && clients[i].token == token && i < n {
      assert clients[..n][i] == clients[i];
    }
    if i :| 0 <= i < n && clients[..n][i].enabled && clients[..n][i].token == token {
      assert clients[i] == clients[..n][i];
    }
  }

  lemma {:induction false} TokenTableKeys(clients: seq<ClientConfig>, token: string)
    ensures token in TokenTable(clients) <==> HasToken(clients, token)
  {
    if clients != [] {
      HasTokenLast(clients, token);
      TokenTableKeys(clients[..|clients| - 1], token);
    }
  }

  lemma {:induction false} TokenTableSize(clients: seq<ClientConfig>)
    requires TokensDistinct(clients)
    ensures |TokenTable(clients)| == EnabledCount(clients)
  {
    if clients != [] {
      var n := |clients| - 1;
      TokenTableSize(clients[..n]);
      TokenTableKeys(clients[..n], clients[n].token);
    }
  }

  lemma {:induction false} TokenTableEntry(clients: seq<ClientConfig>, i: nat)
    requires TokensDistinct(clients) && i < |clients| && clients[i].enabled
    ensures clients[i].token in TokenTable(clients)
    ensures TokenTable(clients)[clients[i].token] == ClientAuth(clients[i].name, clients[i].rateLimitRPM)
    decreases |clients|
  {
    if i < |clients| - 1 {
      TokenTableEntry(clients[..|clients| - 1], i);
    }
  }

  /** In a snapshot of valid settings tokens correspond one to one with enabled clients, and a
      non-empty operations token opens none of them. */
  lemma ValidTokens(rt: Settings)
    requires ValidSettings(rt)
    ensures |TokenTable(rt.config.clients)| == EnabledCount(rt.config.clients)
    ensures forall i :: 0 <= i < |rt.config.clients| && rt.config.clients[i].enabled ==>
              var c := rt.config.clients[i];
              && c.token in TokenTable(rt.config.clients)
              && TokenTable(rt.config.clients)[c.token] == ClientAuth(c.name, c.rateLimitRPM)
              && !IsBlank(c.name) && !IsBlank(c.token) && c.rateLimitRPM >= 0
    ensures rt.config.operationsToken != "" ==> rt.config.operationsToken !in TokenTable(rt.config.clients)
  {
    var clients := rt.config.clients;
    TokenTableSize(clients);
    TokenTableKeys(clients, rt.config.operationsToken);
    forall i | 0 <= i < |clients| && clients[i].enabled
      ensures && clients[i].token in TokenTable(clients)
              && TokenTable(clients)[clients[i].token] == ClientAuth(clients[i].name, clients[i].rateLimitRPM) {
      TokenTableEntry(clients, i);
    }
  }

  // ---------------------------------------------------------------- what a reload may change

  /** The settings that are fixed for the life of the process. */
  datatype Pinned = Pinned(
    listen: string, readTimeout: int, writeTimeout: int, idleTimeout: int,
    rateLimit: RateLimitSettings, telemetry: Telemetry)

  function PinnedOf(rt: Settings): Pinned {
    Pinned(rt.config.listen, rt.readTimeout, rt.writeTimeout, rt.idleTimeout, rt.config.rateLimit, rt.config.telemetry)
  }

  datatype HotReloadError = Reloadable | ListenChanged | TimeoutChanged | RateLimitChanged | TelemetryChanged

  method ValidateHotReload(current: Settings, next: Settings) returns (error: HotReloadError)
    ensures error == Reloadable <==> PinnedOf(current) == PinnedOf(next)
    ensures error == Reloadable <==>
              && current.config.listen == next.config.listen
              && current.readTimeout == next.readTimeout
              && current.writeTimeout == next.writeTimeout
              && current.idleTimeout == next.idleTimeout
              && current.config.rateLimit == next.config.rateLimit
              && current.config.telemetry == next.config.telemetry
  {
    if current.config.listen != next.config.listen {
      return ListenChanged;
    }
    if current.readTimeout != next.readTimeout {
      return TimeoutChanged;
    }
    if current.writeTimeout != next.writeTimeout {
      return TimeoutChanged;
    }
    if current.idleTimeout != next.idleTimeout {
      return TimeoutChanged;
    }
    if current.config.rateLimit != next.config.rateLimit {
      return RateLimitChanged;
    }
    if current.config.telemetry != next.config.telemetry {
      return TelemetryChanged;
    }
    return Reloadable;
  }

  function CircuitPolicyFor(rt: Settings, name: string): Policy {
    if name !in rt.circuits then Policy(true, DEFAULT_FAILURE_THRESHOLD, DEFAULT_OPEN_FOR)
    else
      var c := rt.circuits[name];
      Policy(c.enabled,
             if c.failureThreshold <= 0 then DEFAULT_FAILURE_THRESHOLD else c.failureThreshold,
             if c.openFor <= 0 then DEFAULT_OPEN_FOR else c.openFor)
  }

  // ---------------------------------------------------------------- snapshots

  datatype Snapshot = Snapshot(
    cfg: Settings,
    providers: map<string, CircuitBreaker>,
    defaultProvider: CircuitBreaker,
    tokens: map<string, ClientAuth>,
    operationsToken: string)

  predicate Buildable(config: Config) {
    && (forall i :: 0 <= i < |config.providers| ==> config.providers[i].buildable)
    && IsProvider(config, config.defaultProvider)
  }

  predicate IsProvider(config: Config, name: string) {
    exists i :: 0 <= i < |config.providers| && config.providers[i].name == name
  }

  /** The names of the first n providers. */
  function NamesUpTo(ps: seq<ProviderConfig>, n: nat): set<string>
    requires n <= |ps|
  {
    if n == 0 then {} else NamesUpTo(ps, n - 1) + {ps[n - 1].name}
  }

  /** They are the names of the configured providers. */
  lemma {:induction false} NamesExact(ps: seq<ProviderConfig>, n: nat, name: string)
    requires n <= |ps|
    ensures name in NamesUpTo(ps, n) <==> exists i :: 0 <= i < n && ps[i].name == name
  {
    if n > 0 {
      NamesExact(ps, n - 1, name);
    }
  }

  /** What every published snapshot satisfies. */
  ghost predicate SnapshotOk(s: Snapshot) {
    && s.providers.Keys == NamesUpTo(s.cfg.config.providers, |s.cfg.config.providers|)
    && OneEach(s.providers)
    && s.cfg.config.defaultProvider in s.providers
    && s.defaultProvider == s.providers[s.cfg.config.defaultProvider]
    && s.tokens == TokenTable(s.cfg.config.clients)
    && s.operationsToken == s.cfg.config.operationsToken
  }

  /** Providers do not share a breaker. */
  ghost predicate OneEach(providers: map<string, CircuitBreaker>) {
    forall n1, n2 :: n1 in providers && n2 in providers && n1 != n2 ==> providers[n1] != providers[n2]
  }

  /** The values of a snapshot's breakers. */
  ghost function BreakersOf(previous: Option<Snapshot>): map<string, Breaker>
    reads if previous.Some? then previous.value.providers.Values else {}
  {
    if previous == None then map[]
    else map name | name in previous.value.providers :: previous.value.providers[name].Value()
  }

  /** What the breaker of one provider must start as: a clone of the previous snapshot's breaker of that
      name if there was one. */
  function Expected(rt: Settings, name: string, previous: map<string, Breaker>, now: int): Breaker {
    if name in previous then Clone(previous[name], CircuitPolicyFor(rt, name), now)
    else Fresh(CircuitPolicyFor(rt, name))
  }

  /** The breaker of a provider works by that provider's circuit settings, by the defaults if it has
      none. */
  predicate ConfiguredAs(b: Breaker, rt: Settings, name: string) {
    if name in rt.circuits then
      Configured(b, Policy(rt.circuits[name].enabled, rt.circuits[name].failureThreshold, rt.circuits[name].openFor))
    else b.enabled && b.failureThreshold == 5 && b.openFor == 30 * SECOND
  }

  /** What a reload at `now` owes one provider: a breaker configured as its settings say, carrying over the
      breaker `before` had for it, or starting afresh if there was none. */
  ghost predicate Carried(rt: Settings, name: string, before: map<string, Breaker>, b: Breaker, now: int) {
    && ConfiguredAs(b, rt, name)
    && if name in before then CarriesOver(before[name], b, now) else StartsAfresh(b)
  }

  /** The same for a whole snapshot. */
  ghost predicate AllCarried(rt: Settings, before: map<string, Breaker>, after: map<string, Breaker>, now: int) {
    forall name :: name in after ==> Carried(rt, name, before, after[name], now)
  }

  lemma ExpectedIsCarried(rt: Settings, name: string, before: map<string, Breaker>, now: int)
    ensures Carried(rt, name, before, Expected(rt, name, before, now), now)
  {
    FreshMeans(CircuitPolicyFor(rt, name));
    if name in before {
      CloneCarriesOver(before[name], CircuitPolicyFor(rt, name), now);
    }
  }

  /** The values of a snapshot built from settings: the configured providers, each as expected. */
  predicate IsBuild(rt: Settings, before: map<string, Breaker>, after: map<string, Breaker>, now: int) {
    && after.Keys == NamesUpTo(rt.config.providers, |rt.config.providers|)
    && (forall name :: name in after ==> after[name] == Expected(rt, name, before, now))
  }

  lemma AllExpectedCarried(rt: Settings, before: map<string, Breaker>, after: map<string, Breaker>, now: int)
    requires IsBuild(rt, before, after, now)
    ensures AllCarried(rt, before, after, now)
  {
    forall name | name in after ensures Carried(rt, name, before, after[name], now) {
      ExpectedIsCarried(rt, name, before, now);
    }
  }

  /** Validated providers have names of their own, so a snapshot holds one breaker for each. */
  lemma {:induction false} ValidProvidersCounted(rt: Settings, n: nat)
    requires ProvidersValid(rt) && n <= |rt.config.providers|
    ensures |NamesUpTo(rt.config.providers, n)| == n
    ensures forall i :: 0 <= i < n ==> rt.config.providers[i].name != "" && rt.config.providers[i].acceptable
  {
    if n > 0 {
      ValidProvidersCounted(rt, n - 1);
      NamesExact(rt.config.providers, n - 1, rt.config.providers[n - 1].name);
    }
  }

  /** Validated settings are never replaced by defaults: an enabled circuit's breaker has exactly the
      threshold and the cooldown configured. */
  lemma ValidCircuitsAsConfigured(rt: Settings, name: string, b: Breaker)
    requires ValidSettings(rt) && IsProvider(rt.config, name) && ConfiguredAs(b, rt, name)
    requires name in rt.circuits && rt.circuits[name].enabled
    ensures b.enabled && b.failureThreshold == rt.circuits[name].failureThreshold
    ensures b.openFor == rt.circuits[name].openFor
  {
  }

  /** The breakers of a new snapshot are new objects with the expected values. */
  twostate predicate BuiltFrom(
      new providers: map<string, CircuitBreaker>, rt: Settings, previous: map<string, Breaker>, now: int)
    reads providers.Values
  {
    forall name :: name in providers ==>
      fresh(providers[name]) && providers[name].Value() == Expected(rt, name, previous, now)
  }

  /** Registering provider names adds zeroed entries and leaves every counter as it was. */
  predicate OnlyRegistered(before: Registry, after: Registry, config: Config) {
    && (forall name :: name in before ==> name in after && after[name] == before[name])
    && (forall name :: name in after && name !in before ==> after[name] == ZERO_COUNTERS && IsProvider(config, name))
  }

  /** The registry after the first n providers were registered. */
  function RegisteredUpTo(before: Registry, ps: seq<ProviderConfig>, n: nat): Registry
    requires n <= |ps|
  {
    if n == 0 then before else Registered(RegisteredUpTo(before, ps, n - 1), ps[n - 1].name)
  }

  lemma {:induction false} OnlyRegisteredUpTo(before: Registry, config: Config, n: nat)
    requires n <= |config.providers|
    ensures OnlyRegistered(before, RegisteredUpTo(before, config.providers, n), config)
  {
    if n > 0 {
      OnlyRegisteredUpTo(before, config, n - 1);
      assert IsProvider(config, config.providers[n - 1].name);
    }
  }

  lemma {:induction false} AllRegistered(before: Registry, ps: seq<ProviderConfig>, n: nat)
    requires n <= |ps|
    ensures NamesUpTo(ps, n) <= RegisteredUpTo(before, ps, n).Keys
  {
    if n > 0 {
      AllRegistered(before, ps, n - 1);
    }
  }

  method BuildRuntimeSnapshot(metrics: Metrics, rt: Settings, previous: Option<Snapshot>, now: int)
    returns (result: Option<Snapshot>)
    modifies metrics
    ensures OnlyRegistered(old(metrics.providers), metrics.providers, rt.config)
    ensures result.Some? <==> Buildable(rt.config)
    ensures result.Some? ==>
              && result.value.cfg == rt
              && SnapshotOk(result.value)
              && BuiltFrom(result.value.providers, rt, old(BreakersOf(previous)), now)
              && IsBuild(rt, old(BreakersOf(previous)), BreakersOf(result), now)
              && AllCarried(rt, old(BreakersOf(previous)), BreakersOf(result), now)
              && result.value.providers.Keys <= metrics.providers.Keys
              && metrics.providers == RegisteredUpTo(old(metrics.providers), rt.config.providers, |rt.config.providers|)
  {
    NamesExact(rt.config.providers, |rt.config.providers|, rt.config.defaultProvider);
    var providers, done := BuildProviders(metrics, rt, previous, now);
    OnlyRegisteredUpTo(old(metrics.providers), rt.config, done);
    BuildableExact(rt.config.providers, |rt.config.providers|);
    if providers == None || rt.config.defaultProvider !in providers.value {
      return None;
    }
    AllRegistered(old(metrics.providers), rt.config.providers, done);
    var tokens := BuildTokens(rt.config.clients);
    result := Some(Snapshot(rt, providers.value, providers.value[rt.config.defaultProvider], tokens,
                            rt.config.operationsToken));
    AllExpectedCarried(rt, old(BreakersOf(previous)), BreakersOf(result), now);
  }

  method BuildProviders(metrics: Metrics, rt: Settings, previous: Option<Snapshot>, now: int)
    returns (result: Option<map<string, CircuitBreaker>>, ghost done: nat)
    modifies metrics
    ensures done <= |rt.config.providers|
    ensures metrics.providers == RegisteredUpTo(old(metrics.providers), rt.config.providers, done)
    ensures result.Some? ==> done == |rt.config.providers|
    ensures result == None ==> done < |rt.config.providers| && !rt.config.providers[done].buildable
    ensures result.Some? ==> BuildableUpTo(rt.config.providers, |rt.config.providers|)
    ensures result.Some? ==> result.value.Keys == NamesUpTo(rt.config.providers, |rt.config.providers|)
    ensures result.Some? ==> OneEach(result.value) && BuiltFrom(result.value, rt, old(BreakersOf(previous)), now)
  {
    var ps := rt.config.providers;
    var providers: map<string, CircuitBreaker> := map[];
    ghost var before := BreakersOf(previous);
    for n := 0 to |ps|
      invariant metrics.providers == RegisteredUpTo(old(metrics.providers), ps, n)
      invariant BuildableUpTo(ps, n)
      invariant providers.Keys == NamesUpTo(ps, n)
      invariant OneEach(providers)
      invariant BuiltFrom(providers, rt, before, now)
      invariant BreakersOf(previous) == before
    {
      if !ps[n].buildable {
        return None, n;
      }
      var breaker := BuildProvider(metrics, rt, ps[n].name, previous, now);
      OneMore(providers, ps[n].name, breaker);
      providers := providers[ps[n].name := breaker];
    }
    return Some(providers), |ps|;
  }

  predicate BuildableUpTo(ps: seq<ProviderConfig>, n: nat)
    requires n <= |ps|
  {
    n == 0 || (BuildableUpTo(ps, n - 1) && ps[n - 1].buildable)
  }

  lemma {:induction false} BuildableExact(ps: seq<ProviderConfig>, n: nat)
    requires n <= |ps|
    ensures BuildableUpTo(ps, n) <==> forall i :: 0 <= i < n ==> ps[i].buildable
  {
    if n > 0 {
      BuildableExact(ps, n - 1);
    }
  }

  method BuildProvider(metrics: Metrics, rt: Settings, name: string, previous: Option<Snapshot>, now: int)
    returns (breaker: CircuitBreaker)
    modifies metrics
    ensures metrics.providers == Registered(old(metrics.providers), name)
    ensures fresh(breaker) && breaker.Value() == Expected(rt, name, BreakersOf(previous), now)
    ensures BreakersOf(previous) == old(BreakersOf(previous))
  {
    metrics.Provider(name);
    breaker := BuildBreaker(rt, name, previous, now);
  }

  lemma OneMore(providers: map<string, CircuitBreaker>, name: string, breaker: CircuitBreaker)
    requires OneEach(providers) && forall n :: n in providers ==> providers[n] != breaker
    ensures OneEach(providers[name := breaker])
  {
  }

  method BuildBreaker(
      rt: Settings, name: string, previous: Option<Snapshot>, now: int) returns (breaker: CircuitBreaker)
    ensures fresh(breaker) && breaker.Value() == Expected(rt, name, BreakersOf(previous), now)
    ensures Carried(rt, name, BreakersOf(previous), breaker.Value(), now)
    ensures BreakersOf(previous) == old(BreakersOf(previous))
  {
    ExpectedIsCarried(rt, name, BreakersOf(previous), now);
    var policy := CircuitPolicyFor(rt, name);
    breaker := new CircuitBreaker.FromPolicy(policy);
    if previous.Some? && name in previous.value.providers {
      breaker := CircuitBreaker.CloneWithPolicy(previous.value.providers[name], policy, now);
    }
  }

  method BuildTokens(clients: seq<ClientConfig>) returns (tokens: map<string, ClientAuth>)
    ensures tokens == TokenTable(clients)
  {
    tokens := map[];
    for n := 0 to |clients|
      invariant tokens == TokenTable(clients[..n])
    {
      var c := clients[n];
      assert clients[..n + 1][..n] == clients[..n];
      if c.enabled {
        tokens := tokens[c.token := ClientAuth(c.name, c.rateLimitRPM)];
      }
    }
    assert clients[..|clients|] == clients;
  }

  /** The settings in force after one reload request: the candidate if it differs, changes no pinned
      setting and builds; otherwise the current ones. */
  function AfterReload(current: Settings, rt: Settings): Settings {
    if current.config != rt.config && PinnedOf(current) == PinnedOf(rt) && Buildable(rt.config) then rt else current
  }

  datatype ReloadResult = Unchanged | Refused | Reloaded(providers: nat, clients: nat)

  function ReloadAnnounced(next: Snapshot, now: int): L.LogEntry {
    L.NO_ENTRY.(time := now, level := "info", client := "system",
                message := "config reloaded atomically: " + Decimal(|next.providers|) + " providers, "
                + Decimal(|next.tokens|) + " enabled clients")
  }

  function ReloadRejected(errorText: string): L.LogEntry {
    L.NO_ENTRY.(level := "error", client := "system", message := "config reload rejected: " + errorText)
  }

  class Gateway {
    var runtime: Snapshot
    const metrics: Metrics
    const rateLimits: B.MemoryBackend
    const logs: L.LogRing
    const rateKey: string -> string
    ghost const pinned: Pinned

    /** Holds after start-up and after every reload, hence of every snapshot a request can read. */
    ghost predicate Valid()
      reads this
    {
      PinnedOf(runtime.cfg) == pinned && SnapshotOk(runtime)
    }

    constructor (
        initial: Snapshot, metrics: Metrics, rateLimits: B.MemoryBackend, logs: L.LogRing, rateKey: string -> string)
      requires SnapshotOk(initial)
      ensures Valid() && runtime == initial && pinned == PinnedOf(initial.cfg)
      ensures this.metrics == metrics && this.rateLimits == rateLimits && this.logs == logs && this.rateKey == rateKey
    {
      this.runtime := initial;
      this.metrics := metrics;
      this.rateLimits := rateLimits;
      this.logs := logs;
      this.rateKey := rateKey;
      this.pinned := PinnedOf(initial.cfg);
    }

    /** The windows of the keys of these tokens, the same objects; all others are gone. */
    ghost function KeptWindows(windows: map<string, W.RateWindow>, tokens: map<string, ClientAuth>)
      : map<string, W.RateWindow>
    {
      map key | key in windows && KeyOfSome(tokens, key) :: windows[key]
    }

    ghost predicate KeyOfSome(tokens: map<string, ClientAuth>, key: string) {
      exists token :: token in tokens && rateKey(token) == key
    }

    method RetainTokens(tokens: map<string, ClientAuth>)
      requires rateLimits.Valid()
      modifies rateLimits
      ensures rateLimits.Valid()
      ensures rateLimits.windows == KeptWindows(old(rateLimits.windows), tokens)
      ensures forall key :: key in rateLimits.windows <==>
                key in old(rateLimits.windows) && exists token :: token in tokens && rateKey(token) == key
      ensures forall key :: key in rateLimits.windows ==> rateLimits.windows[key] == old(rateLimits.windows)[key]
    {
      var keys := B.RetainedKeys(tokens.Keys, rateKey);
      assert forall key :: key in keys <==> KeyOfSome(tokens, key);
      rateLimits.RetainKeys(keys);
    }

    /** The second half of Reload, once the new snapshot is built. */
    method Publish(next: Snapshot, loggedAt: int) returns (result: ReloadResult)
      requires rateLimits.Valid() && logs.Valid()
      modifies this`runtime, rateLimits, logs, logs.entries
      ensures rateLimits.Valid() && logs.Valid() && runtime == next
      ensures result == Reloaded(|next.providers|, |next.tokens|)
      ensures rateLimits.windows == KeptWindows(old(rateLimits.windows), next.tokens)
      ensures var limit := L.EffectiveLimit(next.cfg.config.recentLogs);
              && logs.limit == limit
              && logs.Contents() == L.Added(L.Resized(old(logs.Contents()), limit), limit,
                                            L.Normalized(ReloadAnnounced(next, loggedAt), loggedAt))
    {
      runtime := next;
      RetainTokens(next.tokens);
      Announce(next, loggedAt);
      return Reloaded(|next.providers|, |next.tokens|);
    }

    /** Resize the log and announce the new snapshot in it. */
    method Announce(next: Snapshot, loggedAt: int)
      requires logs.Valid()
      modifies logs, logs.entries
      ensures logs.Valid() && (logs.entries == old(logs.entries) || fresh(logs.entries))
      ensures var limit := L.EffectiveLimit(next.cfg.config.recentLogs);
              && logs.limit == limit
              && logs.Contents() == L.Added(L.Resized(old(logs.Contents()), limit), limit,
                                            L.Normalized(ReloadAnnounced(next, loggedAt), loggedAt))
    {
      logs.Resize(next.cfg.config.recentLogs);
      logs.Add(ReloadAnnounced(next, loggedAt), loggedAt);
    }

    method RecordFailure(errorText: string, loggedAt: int)
      requires logs.Valid()
      modifies logs`len, logs.entries
      ensures logs.Valid()
      ensures logs.Contents()
              == L.Added(old(logs.Contents()), logs.limit, L.Normalized(ReloadRejected(errorText), loggedAt))
    {
      logs.Add(ReloadRejected(errorText), loggedAt);
    }

    /** What a reload leaves of the log: nothing new, a rejection, or the announcement in the resized
        ring. */
    ghost predicate Logged(
        before: seq<L.LogEntry>, limit: nat, after: seq<L.LogEntry>, limit': nat,
        result: ReloadResult, errorText: string, loggedAt: int)
      requires limit > 0 && limit' > 0
      reads this
    {
      match result
      case Unchanged => after == before && limit' == limit
      case Refused =>
        && limit' == limit
        && after == L.Added(before, limit, L.Normalized(ReloadRejected(errorText), loggedAt))
      case Reloaded(providers, clients) =>
        && ReloadAnnounced(runtime, loggedAt).message
           == "config reloaded atomically: " + Decimal(providers) + " providers, " + Decimal(clients)
              + " enabled clients"
        && limit' == L.EffectiveLimit(runtime.cfg.config.recentLogs)
        && after == L.Added(L.Resized(before, limit'), limit',
                            L.Normalized(ReloadAnnounced(runtime, loggedAt), loggedAt))
    }

    /**
     Publish a new snapshot or change nothing that requests can see.  No breaker of an older snapshot
     and no window is written; a client whose token is in the new snapshot keeps its window object.
     `errorText` stands for the text of the error, if there is one.
     */
    method Reload(rt: Settings, now: int, loggedAt: int, errorText: string) returns (result: ReloadResult)
      requires Valid() && rateLimits.Valid() && logs.Valid()
      modifies this`runtime, metrics, rateLimits, logs, logs.entries
      ensures Valid() && rateLimits.Valid() && logs.Valid()
      ensures OnlyRegistered(old(metrics.providers), metrics.providers, rt.config)
      ensures runtime.cfg == AfterReload(old(runtime.cfg), rt)
      ensures result.Reloaded? <==>
                && old(runtime.cfg.config) != rt.config
                && PinnedOf(old(runtime.cfg)) == PinnedOf(rt)
                && Buildable(rt.config)
      ensures result == Unchanged <==> old(runtime.cfg.config) == rt.config
      ensures !result.Reloaded? ==> runtime == old(runtime) && rateLimits.windows == old(rateLimits.windows)
      ensures result.Reloaded? ==>
                && runtime.cfg == rt
                && BuiltFrom(runtime.providers, rt, old(BreakersOf(Some(runtime))), now)
                && IsBuild(rt, old(BreakersOf(Some(runtime))), BreakersOf(Some(runtime)), now)
                && AllCarried(rt, old(BreakersOf(Some(runtime))), BreakersOf(Some(runtime)), now)
                && runtime.providers.Keys <= metrics.providers.Keys
                && metrics.providers
                   == RegisteredUpTo(old(metrics.providers), rt.config.providers, |rt.config.providers|)
                && result == Reloaded(|runtime.providers|, |runtime.tokens|)
                && rateLimits.windows == KeptWindows(old(rateLimits.windows), runtime.tokens)
      ensures Logged(old(logs.Contents()), old(logs.limit), logs.Contents(), logs.limit, result, errorText, loggedAt)
    {
      if runtime.cfg.config == rt.config {
        return Unchanged;
      }
      var next := Prepare(rt, now);
      result := Adopt(next, loggedAt, errorText);
    }

    /** The second half: publish what was built, or record the failure. */
    method Adopt(next: Option<Snapshot>, loggedAt: int, errorText: string) returns (result: ReloadResult)
      requires rateLimits.Valid() && logs.Valid()
      modifies this`runtime, rateLimits, logs, logs.entries
      ensures rateLimits.Valid() && logs.Valid()
      ensures next == None ==>
                result == Refused && runtime == old(runtime) && rateLimits.windows == old(rateLimits.windows)
      ensures next.Some? ==>
                && result == Reloaded(|runtime.providers|, |runtime.tokens|)
                && runtime == next.value
                && (forall name :: name in next.value.providers ==>
                      next.value.providers[name].Value() == old(next.value.providers[name].Value()))
                && BreakersOf(next) == old(BreakersOf(next))
                && rateLimits.windows == KeptWindows(old(rateLimits.windows), runtime.tokens)
      ensures Logged(old(logs.Contents()), old(logs.limit), logs.Contents(), logs.limit, result, errorText, loggedAt)
    {
      if next == None {
        RecordFailure(errorText, loggedAt);
        return Refused;
      }
      result := Publish(next.value, loggedAt);
    }

    /** The first half of Reload: check that nothing pinned changes, and build. */
    method Prepare(rt: Settings, now: int) returns (next: Option<Snapshot>)
      requires rateLimits.Valid() && logs.Valid()
      modifies metrics
      ensures rateLimits.Valid() && logs.Valid() && logs.Contents() == old(logs.Contents())
      ensures OnlyRegistered(old(metrics.providers), metrics.providers, rt.config)
      ensures next.Some? <==> PinnedOf(runtime.cfg) == PinnedOf(rt) && Buildable(rt.config)
      ensures next.Some? ==>
                && next.value.cfg == rt
                && SnapshotOk(next.value)
                && BuiltFrom(next.value.providers, rt, old(BreakersOf(Some(runtime))), now)
                && IsBuild(rt, old(BreakersOf(Some(runtime))), BreakersOf(next), now)
                && AllCarried(rt, old(BreakersOf(Some(runtime))), BreakersOf(next), now)
                && next.value.providers.Keys <= metrics.providers.Keys
                && metrics.providers
                   == RegisteredUpTo(old(metrics.providers), rt.config.providers, |rt.config.providers|)
    {
      var error := ValidateHotReload(runtime.cfg, rt);
      if error != Reloadable {
        return None;
      }
      next := BuildRuntimeSnapshot(metrics, rt, Some(runtime), now);
    }
  }

  /** newRateLimitManager; `redisClientBuilds` is the Redis library's verdict on the URL. */
  predicate LimiterBuilds(rt: Settings) {
    || rt.config.rateLimit.backend == ""
    || rt.config.rateLimit.backend == "memory"
    || (rt.config.rateLimit.backend == "redis" && rt.redisClientBuilds)
  }

  /** Start-up: the limiter, then the same build with no previous snapshot. */
  method New(rt: Settings, now: int, rateKey: string -> string) returns (result: Option<Gateway>)
    ensures result.Some? <==> LimiterBuilds(rt) && Buildable(rt.config)
    ensures result.Some? ==>
              var backend := rt.config.rateLimit.backend;
              backend == "" || backend == "memory" || (backend == "redis" && rt.redisClientBuilds)
    ensures result.Some? ==>
              && result.value.Valid() && result.value.rateLimits.Valid()
              && result.value.runtime.cfg == rt && result.value.pinned == PinnedOf(rt)
              && BuiltFrom(result.value.runtime.providers, rt, map[], now)
              && AllCarried(rt, map[], BreakersOf(Some(result.value.runtime)), now)
              && result.value.logs.Valid() && result.value.logs.Contents() == []
  {
    if !LimiterBuilds(rt) {
      return None;
    }
    var rateLimits := new B.MemoryBackend();
    var metrics := new Metrics();
    var initial := BuildRuntimeSnapshot(metrics, rt, None, now);
    if initial == None {
      return None;
    }
    var gateway := Assemble(initial.value, metrics, rateLimits, rateKey);
    return Some(gateway);
  }

  method Assemble(initial: Snapshot, metrics: Metrics, rateLimits: B.MemoryBackend, rateKey: string -> string)
    returns (gateway: Gateway)
    requires SnapshotOk(initial) && rateLimits.Valid()
    modifies rateLimits
    ensures gateway.Valid() && gateway.runtime == initial && gateway.pinned == PinnedOf(initial.cfg)
    ensures gateway.rateLimits == rateLimits && rateLimits.Valid()
    ensures gateway.logs.Valid() && gateway.logs.Contents() == []
    ensures BreakersOf(Some(initial)) == old(BreakersOf(Some(initial)))
    ensures forall name :: name in initial.providers ==>
              initial.providers[name].Value() == old(initial.providers[name].Value())
  {
    var logs := new L.LogRing(initial.cfg.config.recentLogs);
    gateway := new Gateway(initial, metrics, rateLimits, logs, rateKey);
    gateway.RetainTokens(initial.tokens);
  }

  // ---------------------------------------------------------------- whole runs of reloads

  /** The settings in force after a series of reload requests. */
  function InForce(current: Settings, requests: seq<Settings>): Settings
    decreases |requests|
  {
    if requests == [] then current
    else InForce(AfterReload(current, requests[0]), requests[1..])
  }

  /**
   Over any run of reloads of validated configurations, accepted or not: the pinned settings are those
   given at start-up, the settings in force are always one validated candidate as a whole, and so the
   default provider exists and the token table is one to one and excludes the operations token.
   */
  lemma {:induction false} ReloadsKeepSettings(current: Settings, requests: seq<Settings>)
    requires ValidSettings(current)
    requires forall i :: 0 <= i < |requests| ==> ValidSettings(requests[i])
    ensures var last := InForce(current, requests);
            && PinnedOf(last) == PinnedOf(current)
            && last.config.listen == current.config.listen
            && last.readTimeout == current.readTimeout
            && last.writeTimeout == current.writeTimeout
            && last.idleTimeout == current.idleTimeout
            && last.config.rateLimit == current.config.rateLimit
            && last.config.telemetry == current.config.telemetry
            && (last == current || last in requests)
            && ValidSettings(last)
            && IsProvider(last.config, last.config.defaultProvider)
            && |TokenTable(last.config.clients)| == EnabledCount(last.config.clients)
            && (last.config.operationsToken != "" ==> last.config.operationsToken !in TokenTable(last.config.clients))
    decreases |requests|
  {
    if requests == [] {
      ValidTokens(current);
    } else {
      ReloadsKeepSettings(AfterReload(current, requests[0]), requests[1..]);
    }
  }
}
