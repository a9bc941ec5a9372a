/**
 The per-provider circuit breaker (internal/gateway/circuitbreaker.go).

 Instants and durations are nanoseconds; instants count from Go's zero time, so ZERO_TIME
 is `time.Time{}`.  The functions below give the effect of each lock-protected method on the
 breaker's value; the class updates its fields step by step and is proved against them.
 */
module Circuit {
  import opened Common
  const DEFAULT_FAILURE_THRESHOLD: int := 5
  const DEFAULT_OPEN_FOR: int := 30 * SECOND
  const ZERO_TIME: int := 0

  datatype State = Closed | Open | HalfOpen

  datatype Policy = Policy(enabled: bool, failureThreshold: int, openFor: int)

  datatype Permit = Permit(probe: bool)

  datatype Verdict = Admitted(permit: Permit) | Rejected(retryAfter: int)

  /** The value of a breaker's fields. */
  datatype Breaker = Breaker(
    enabled: bool,
    state: State,
    failures: int,
    failureThreshold: int,
    openFor: int,
    openUntil: int)

  datatype Report = Disabled | Report(state: State, failures: int, retryAfter: int)

  function Fresh(policy: Policy): Breaker {
    Breaker(
      policy.enabled,
      Closed,
      0,
      if policy.failureThreshold <= 0 then DEFAULT_FAILURE_THRESHOLD else policy.failureThreshold,
      if policy.openFor <= 0 then DEFAULT_OPEN_FOR else policy.openFor,
      ZERO_TIME)
  }

  function Clone(previous: Breaker, policy: Policy, now: int): Breaker {
    var next := Fresh(policy);
    if !next.enabled || !previous.enabled then
      next
    else if previous.state == Open && now >= previous.openUntil then
      next.(state := HalfOpen, failures := previous.failures, openUntil := ZERO_TIME)
    else if previous.state == Closed && previous.failures >= next.failureThreshold then
      next.(state := Open, failures := previous.failures, openUntil := now + next.openFor)
    else
      next.(state := previous.state, failures := previous.failures, openUntil := previous.openUntil)
  }

  function Decide(b: Breaker, now: int): Verdict {
    if !b.enabled || b.state == Closed then Admitted(Permit(false))
    else if b.state == HalfOpen then Rejected(SECOND)
    else if now < b.openUntil then Rejected(b.openUntil - now)
    else Admitted(Permit(true))
  }

  function AfterAllow(b: Breaker, now: int): Breaker {
    if b.enabled && b.state == Open && now >= b.openUntil then b.(state := HalfOpen) else b
  }

  function AfterFinish(b: Breaker, permit: Permit, failed: bool, now: int): Breaker {
    if !b.enabled then b
    else if permit.probe && failed then
      b.(state := Open, failures := b.failureThreshold, openUntil := now + b.openFor)
    else if permit.probe then
      b.(state := Closed, failures := 0, openUntil := ZERO_TIME)
    else if b.state != Closed then b
    else if !failed then b.(failures := 0)
    else if b.failures + 1 >= b.failureThreshold then
      b.(state := Open, failures := b.failures + 1, openUntil := now + b.openFor)
    else b.(failures := b.failures + 1)
  }

  function Inspect(b: Breaker, now: int): Report {
    if !b.enabled then Disabled
    else if b.state == Open && now < b.openUntil then Report(Open, b.failures, b.openUntil - now)
    else if b.state == Open then Report(HalfOpen, b.failures, 0)
    else Report(b.state, b.failures, 0)
  }

  /** What every breaker the gateway builds satisfies: positive policy, and a closed breaker
      still below its threshold. */
  predicate Sound(b: Breaker) {
    && b.failureThreshold > 0
    && b.openFor > 0
    && b.failures >= 0
    && (b.state == Closed ==> b.failures < b.failureThreshold)
  }

  /** Soundness is established by construction, carried through cloning under any new policy,
      and kept by every operation. */
  lemma SoundnessKept(b: Breaker, policy: Policy, permit: Permit, failed: bool, now: int)
    ensures Sound(Fresh(policy))
    ensures Sound(b) ==> Sound(Clone(b, policy, now))
    ensures Sound(b) ==> Sound(AfterAllow(b, now))
    ensures Sound(b) ==> Sound(AfterFinish(b, permit, failed, now))
  {
  }

  /** The status report is a faithful forecast: it says closed or disabled exactly when a
      caller would get an ordinary permit, open with the remaining wait exactly when a caller
      would be turned away with that wait, and half_open otherwise. */
  lemma ReportForecastsAllow(b: Breaker, now: int)
    ensures (Inspect(b, now).Disabled? || Inspect(b, now).state == Closed)
            <==> Decide(b, now) == Admitted(Permit(false))
    ensures Inspect(b, now).Report? && Inspect(b, now).state == Open
            ==> Decide(b, now) == Rejected(Inspect(b, now).retryAfter) && Inspect(b, now).retryAfter > 0
    ensures Inspect(b, now).Report? && Inspect(b, now).state == HalfOpen
            ==> Decide(b, now) == Admitted(Permit(true)) || Decide(b, now) == Rejected(SECOND)
    ensures Inspect(b, now).Report? ==> b.enabled && Inspect(b, now).failures == b.failures
  {
  }

  // ---------------------------------------------------------------- what a policy and a clone mean

  /** The breaker works by the policy; values that are not positive mean five failures and 30 seconds. */
  predicate Configured(b: Breaker, policy: Policy) {
    && b.enabled == policy.enabled
    && (policy.failureThreshold > 0 ==> b.failureThreshold == policy.failureThreshold)
    && (policy.failureThreshold <= 0 ==> b.failureThreshold == 5)
    && (policy.openFor > 0 ==> b.openFor == policy.openFor)
    && (policy.openFor <= 0 ==> b.openFor == 30 * SECOND)
  }

  /** Every caller before `due` is turned away with exactly the time left, and a probe goes out from then
      on. */
  ghost predicate CoolsDownUntil(b: Breaker, due: int) {
    && (forall t :: t < due ==> Decide(b, t) == Rejected(due - t))
    && (forall t :: t >= due ==> Decide(b, t) == Admitted(Permit(true)))
  }

  ghost predicate AdmitsEveryone(b: Breaker) {
    forall t :: Decide(b, t) == Admitted(Permit(false))
  }

  ghost predicate AdmitsNobody(b: Breaker) {
    forall t :: Decide(b, t) == Rejected(SECOND)
  }

  /** A new breaker admits everyone and starts counting at zero. */
  ghost predicate StartsAfresh(b: Breaker) {
    AdmitsEveryone(b) && b.failures == 0 && (b.enabled ==> b.state == Closed)
  }

  /**
   What a reload at `now` makes of a breaker `b`, said by what callers of `next` see.  If either policy is
   disabled it starts afresh.  Otherwise the failures are carried over, and: a breaker still cooling down
   answers as before, one that is half-open or due admits nobody, a closed one at or above the new
   threshold starts a new cooldown at `now`, and one below it admits everyone.
   */
  ghost predicate CarriesOver(b: Breaker, next: Breaker, now: int) {
    if !b.enabled || !next.enabled then StartsAfresh(next)
    else
      && next.failures == b.failures
      && (b.state == Open && now < b.openUntil ==> forall t :: Decide(next, t) == Decide(b, t))
      && (b.state == HalfOpen || (b.state == Open && now >= b.openUntil) ==> AdmitsNobody(next))
      && (b.state == Closed && b.failures >= next.failureThreshold ==> CoolsDownUntil(next, now + next.openFor))
      && (b.state == Closed && b.failures < next.failureThreshold ==> AdmitsEveryone(next))
  }

  lemma FreshMeans(policy: Policy)
    ensures Configured(Fresh(policy), policy) && StartsAfresh(Fresh(policy))
  {
  }

  lemma CloneCarriesOver(b: Breaker, policy: Policy, now: int)
    ensures Configured(Clone(b, policy, now), policy) && CarriesOver(b, Clone(b, policy, now), now)
  {
  }

  class CircuitBreaker {
    var enabled: bool
    var state: State
    var failures: int
    var failureThreshold: int
    var openFor: int
    var openUntil: int

    function Value(): Breaker
      reads this
    {
      Breaker(enabled, state, failures, failureThreshold, openFor, openUntil)
    }

    constructor FromPolicy(policy: Policy)
      ensures Value() == Fresh(policy) && Configured(Value(), policy) && StartsAfresh(Value())
    {
      enabled := policy.enabled;
      state := Closed;
      failures := 0;
      failureThreshold := policy.failureThreshold;
      openFor := policy.openFor;
      openUntil := ZERO_TIME;
      new;
      if policy.failureThreshold <= 0 {
        failureThreshold := DEFAULT_FAILURE_THRESHOLD;
      }
      if policy.openFor <= 0 {
        openFor := DEFAULT_OPEN_FOR;
      }
    }

    /** The new object is separate from `b`, and `b` is left as it was. */
    static method CloneWithPolicy(b: CircuitBreaker?, policy: Policy, now: int) returns (next: CircuitBreaker)
      ensures fresh(next)
      ensures next.Value() == if b == null then Fresh(policy) else Clone(b.Value(), policy, now)
      ensures Configured(next.Value(), policy)
      ensures b == null ==> StartsAfresh(next.Value())
      ensures b != null ==> CarriesOver(b.Value(), next.Value(), now)
    {
      FreshMeans(policy);
      if b != null {
        CloneCarriesOver(b.Value(), policy, now);
      }
      next := new CircuitBreaker.FromPolicy(policy);
      if b == null || !next.enabled || !b.enabled {
        return;
      }
      next.state := b.state;
      next.failures := b.failures;
      next.openUntil := b.openUntil;
      if next.state == Open && now >= next.openUntil {
        next.state := HalfOpen;
        next.openUntil := ZERO_TIME;
      }
      if next.state == Closed && next.failures >= next.failureThreshold {
        next.state := Open;
        next.openUntil := now + next.openFor;
      }
    }

    method Allow(now: int) returns (permit: Permit, ok: bool, retryAfter: int)
      modifies this
      ensures Value() == AfterAllow(old(Value()), now)
      ensures ok <==> Decide(old(Value()), now).Admitted?
      ensures ok ==> Decide(old(Value()), now) == Admitted(permit) && retryAfter == 0
      ensures !ok ==> Decide(old(Value()), now) == Rejected(retryAfter) && !permit.probe
    {
      if !enabled {
        return Permit(false), true, 0;
      }
      match state {
        case Open =>
          if now < openUntil {
            return Permit(false), false, openUntil - now;
          }
          state := HalfOpen;
          return Permit(true), true, 0;
        case HalfOpen =>
          return Permit(false), false, SECOND;
        case Closed =>
          return Permit(false), true, 0;
      }
    }

    method Finish(permit: Permit, failed: bool, now: int)
      modifies this
      ensures Value() == AfterFinish(old(Value()), permit, failed, now)
    {
      if !enabled {
        return;
      }
      if permit.probe {
        if failed {
          state := Open;
          failures := failureThreshold;
          openUntil := now + openFor;
          return;
        }
        state := Closed;
        failures := 0;
        openUntil := ZERO_TIME;
        return;
      }
      if state != Closed {
        return;
      }
      if !failed {
        failures := 0;
        return;
      }
      failures := failures + 1;
      if failures >= failureThreshold {
        state := Open;
        openUntil := now + openFor;
      }
    }

    method Snapshot(now: int) returns (report: Report)
      ensures report == Inspect(Value(), now)
    {
      if !enabled {
        return Disabled;
      }
      var shown := state;
      var retry := 0;
      if shown == Open {
        if now < openUntil {
          retry := openUntil - now;
        } else {
          shown := HalfOpen;
        }
      }
      return Report(shown, failures, retry);
    }
  }
}
