/**
 Whole runs of one breaker object.  A cell is the breaker together with the permits it has
 issued and not yet got back; a run is any legal sequence of `allow` and `finish` calls.
 */
module BreakerRuns {
  import opened Common
  import opened Circuit

  datatype Op = Ask(now: int) | Done(probe: bool, failed: bool, now: int)

  datatype Cell = Cell(b: Breaker, probes: nat, plains: nat)

  /** A permit can only be given back while it is outstanding. */
  predicate Allowed(c: Cell, op: Op) {
    op.Done? ==> if op.probe then c.probes > 0 else c.plains > 0
  }

  function Next(c: Cell, op: Op): Cell
    requires Allowed(c, op)
  {
    match op
    case Ask(now) =>
      (match Decide(c.b, now)
       case Rejected(_) => c.(b := AfterAllow(c.b, now))
       case Admitted(permit) =>
         if permit.probe then Cell(AfterAllow(c.b, now), c.probes + 1, c.plains)
         else Cell(AfterAllow(c.b, now), c.probes, c.plains + 1))
    case Done(probe, failed, now) =>
      if probe then Cell(AfterFinish(c.b, Permit(true), failed, now), c.probes - 1, c.plains)
      else Cell(AfterFinish(c.b, Permit(false), failed, now), c.probes, c.plains - 1)
  }

  predicate Legal(c: Cell, ops: seq<Op>)
    decreases |ops|
  {
    ops == [] || (Allowed(c, ops[0]) && Legal(Next(c, ops[0]), ops[1..]))
  }

  function Exec(c: Cell, ops: seq<Op>): Cell
    requires Legal(c, ops)
    decreases |ops|
  {
    if ops == [] then c else Exec(Next(c, ops[0]), ops[1..])
  }

  /** Runs compose. */
  lemma {:induction false} ExecAppend(c: Cell, first: seq<Op>, second: seq<Op>)
    requires Legal(c, first)
    ensures Legal(c, first + second) <==> Legal(Exec(c, first), second)
    ensures Legal(c, first + second) ==> Exec(c, first + second) == Exec(Exec(c, first), second)
    decreases |first|
  {
    if first == [] {
      assert first + second == second;
    } else {
      assert (first + second)[1..] == first[1..] + second;
      ExecAppend(Next(c, first[0]), first[1..], second);
    }
  }

  // ---------------------------------------------------------------- one probe at a time

  /** An enabled breaker is half-open exactly while one probe permit is outstanding; otherwise
      there is none. */
  predicate OneProbe(c: Cell) {
    c.probes == if c.b.enabled && c.b.state == HalfOpen then 1 else 0
  }

  /** Half-open with nobody holding the probe permit. */
  predicate Stuck(c: Cell) {
    c.b.enabled && c.b.state == HalfOpen && c.probes == 0
  }

  lemma {:induction false} OneProbeAlways(c: Cell, ops: seq<Op>)
    requires OneProbe(c) && Sound(c.b) && Legal(c, ops)
    ensures OneProbe(Exec(c, ops)) && Sound(Exec(c, ops).b)
    ensures Exec(c, ops).b.enabled == c.b.enabled
    ensures Exec(c, ops).b.failureThreshold == c.b.failureThreshold
    ensures Exec(c, ops).b.openFor == c.b.openFor
    decreases |ops|
  {
    if ops != [] {
      OneProbeAlways(Next(c, ops[0]), ops[1..]);
    }
  }

  /** A stuck breaker never recovers by itself: whatever is asked or given back, it stays half-open
      with no probe out, and every single request to it is turned away. */
  lemma {:induction false} StuckForever(c: Cell, ops: seq<Op>)
    requires Stuck(c) && Legal(c, ops)
    ensures Stuck(Exec(c, ops))
    ensures forall i, now :: 0 <= i <= |ops| && Legal(c, ops[..i]) ==>
              Decide(Exec(c, ops[..i]).b, now) == Rejected(SECOND)
    decreases |ops|
  {
    forall i, now | 0 <= i <= |ops| && Legal(c, ops[..i])
      ensures Decide(Exec(c, ops[..i]).b, now) == Rejected(SECOND)
    {
      if i > 0 {
        assert ops[..i][1..] == ops[1..][..i - 1];
        StuckForever(Next(c, ops[0]), ops[1..]);
      }
    }
    if ops != [] {
      StuckForever(Next(c, ops[0]), ops[1..]);
    }
  }

  /** When `cloneWithPolicy` makes a half-open breaker.  Its caller can evaluate this before the call. */
  predicate BornHalfOpen(previous: Breaker, policy: Policy, now: int) {
    && policy.enabled
    && previous.enabled
    && (previous.state == HalfOpen || (previous.state == Open && now >= previous.openUntil))
  }

  /** The intent of half-open: after any run that has got all its permits back, a request arriving
      once the cooldown is over is admitted. */
  ghost predicate RecoversAfterCooldown(c: Cell) {
    forall ops, now ::
      Legal(c, ops) && Exec(c, ops).probes == 0 && Exec(c, ops).plains == 0 && now >= Exec(c, ops).b.openUntil
      ==> Decide(Exec(c, ops).b, now).Admitted?
  }

  /** A newly built breaker always recovers. */
  lemma FreshRecovers(policy: Policy)
    ensures OneProbe(Cell(Fresh(policy), 0, 0))
    ensures RecoversAfterCooldown(Cell(Fresh(policy), 0, 0))
  {
    OneProbeRecovers(Cell(Fresh(policy), 0, 0));
  }

  /** A clone recovers if and only if it was not born half-open; a clone born half-open is stuck. */
  lemma CloneRecoversIff(previous: Breaker, policy: Policy, now: int)
    requires Sound(previous)
    ensures var c := Cell(Clone(previous, policy, now), 0, 0);
            && (RecoversAfterCooldown(c) <==> !BornHalfOpen(previous, policy, now))
            && (Stuck(c) <==> BornHalfOpen(previous, policy, now))
            && (OneProbe(c) <==> !BornHalfOpen(previous, policy, now))
  {
    var c := Cell(Clone(previous, policy, now), 0, 0);
    if BornHalfOpen(previous, policy, now) {
      assert Legal(c, []) && Exec(c, []) == c;
      assert !Decide(Exec(c, []).b, c.b.openUntil).Admitted?;
    } else {
      OneProbeRecovers(c);
    }
  }

  lemma OneProbeRecovers(c: Cell)
    requires OneProbe(c) && Sound(c.b)
    ensures RecoversAfterCooldown(c)
  {
    forall ops, now |
      Legal(c, ops) && Exec(c, ops).probes == 0 && Exec(c, ops).plains == 0 && now >= Exec(c, ops).b.openUntil
      ensures Decide(Exec(c, ops).b, now).Admitted?
    {
      OneProbeAlways(c, ops);
    }
  }

  // ---------------------------------------------------------------- when the breaker trips

  /** `k` consecutive failures somewhere in a list of outcomes. */
  ghost predicate HasFailureBlock(outcomes: seq<bool>, k: int) {
    exists i :: FailsFrom(outcomes, i, k)
  }

  ghost predicate FailsFrom(outcomes: seq<bool>, i: int, k: int) {
    0 <= i <= |outcomes| - k && forall j :: i <= j < i + k ==> outcomes[j]
  }

  /** The number of failures at the end of a list of outcomes. */
  ghost function TrailingFailures(outcomes: seq<bool>): (n: nat)
    ensures n <= |outcomes|
    ensures forall j :: |outcomes| - n <= j < |outcomes| ==> outcomes[j]
    ensures n < |outcomes| ==> !outcomes[|outcomes| - n - 1]
  {
    if outcomes == [] || !outcomes[|outcomes| - 1] then 0
    else 1 + TrailingFailures(outcomes[..|outcomes| - 1])
  }

  lemma BlockGrows(outcomes: seq<bool>, failed: bool, k: int)
    requires k > 0
    ensures HasFailureBlock(outcomes + [failed], k)
            <==> HasFailureBlock(outcomes, k) || TrailingFailures(outcomes + [failed]) >= k
    ensures TrailingFailures(outcomes + [failed]) == if failed then TrailingFailures(outcomes) + 1 else 0
  {
    var more := outcomes + [failed];
    assert more[..|more| - 1] == outcomes;
    if HasFailureBlock(outcomes, k) {
      var i :| FailsFrom(outcomes, i, k);
      assert FailsFrom(more, i, k);
    }
    var n := TrailingFailures(more);
    if n >= k {
      assert FailsFrom(more, |more| - k, k);
    }
    if HasFailureBlock(more, k) {
      var i :| FailsFrom(more, i, k);
      if i + k <= |outcomes| {
        forall j | i <= j < i + k ensures outcomes[j] {
          assert more[j];
        }
        assert FailsFrom(outcomes, i, k);
      } else {
        assert forall j :: |more| - k <= j < |more| ==> more[j];
      }
    }
  }

  /** The outcomes of ordinary requests that count against the breaker: those given back since the
      last probe came back, on top of `start` from before the run. */
  ghost function Counted(start: seq<bool>, ops: seq<Op>): seq<bool>
    decreases |ops|
  {
    if ops == [] then start
    else Counted(match ops[0]
                 case Ask(_) => start
                 case Done(probe, failed, _) => if probe then [] else start + [failed],
                 ops[1..])
  }

  /** Whether the last probe to come back failed (`start` if none did). */
  function LastProbeFailed(start: bool, ops: seq<Op>): bool
    decreases |ops|
  {
    if ops == [] then start
    else LastProbeFailed(if ops[0].Done? && ops[0].probe then ops[0].failed else start, ops[1..])
  }

  function AlreadyFailed(n: nat): (outcomes: seq<bool>) {
    seq(n, _ => true)
  }

  lemma {:induction false} TrailingOfAlreadyFailed(n: nat)
    ensures TrailingFailures(AlreadyFailed(n)) == n
  {
    if n > 0 {
      assert AlreadyFailed(n)[..n - 1] == AlreadyFailed(n - 1);
      TrailingOfAlreadyFailed(n - 1);
    }
  }

  lemma {:induction false} ClosedFollowsHistory(c: Cell, ops: seq<Op>, seen: seq<bool>, probeFailed: bool)
    requires c.b.enabled && OneProbe(c) && Sound(c.b) && Legal(c, ops)
    requires c.b.state == Closed <==> !probeFailed && !HasFailureBlock(seen, c.b.failureThreshold)
    requires c.b.state == Closed ==> c.b.failures == TrailingFailures(seen)
    ensures var last := Exec(c, ops);
            && (last.b.state == Closed
                <==> !LastProbeFailed(probeFailed, ops)
                     && !HasFailureBlock(Counted(seen, ops), c.b.failureThreshold))
            && (last.b.state == Closed ==> last.b.failures == TrailingFailures(Counted(seen, ops)))
    decreases |ops|
  {
    if ops != [] {
      var next := Next(c, ops[0]);
      match ops[0] {
        case Ask(_) => ClosedFollowsHistory(next, ops[1..], seen, probeFailed);
        case Done(probe, failed, _) =>
          if probe {
            assert !HasFailureBlock([], c.b.failureThreshold);
            ClosedFollowsHistory(next, ops[1..], [], failed);
          } else {
            BlockGrows(seen, failed, c.b.failureThreshold);
            ClosedFollowsHistory(next, ops[1..], seen + [failed], probeFailed);
          }
      }
    }
  }

  /**
   Trip exactness.  Start from any enabled breaker that is closed (fresh, or a clone carrying some
   failures over) and run anything.  The breaker is closed at the end if and only if the last probe
   to come back, if any, succeeded, and the ordinary outcomes since then nowhere contain
   `failureThreshold` failures in a row; while closed, `failures` is the length of the failing tail
   of those outcomes and is below the threshold.
   */
  lemma TripsExactly(c: Cell, ops: seq<Op>)
    requires c.b.enabled && c.b.state == Closed && c.probes == 0 && Sound(c.b) && Legal(c, ops)
    ensures var counted := Counted(AlreadyFailed(c.b.failures), ops);
            var last := Exec(c, ops).b;
            && (last.state == Closed
                <==> !LastProbeFailed(false, ops) && !HasFailureBlock(counted, c.b.failureThreshold))
            && (last.state == Closed ==> last.failures == TrailingFailures(counted) < c.b.failureThreshold)
  {
    TrailingOfAlreadyFailed(c.b.failures);
    OneProbeAlways(c, ops);
    ClosedFollowsHistory(c, ops, AlreadyFailed(c.b.failures), false);
  }

  /** Drop every ordinary permit that comes back while the breaker is not closed. */
  function WithoutLate(b: Breaker, ops: seq<Op>): seq<Op>
    decreases |ops|
  {
    if ops == [] then []
    else if ops[0].Done? && !ops[0].probe && b.enabled && b.state != Closed then WithoutLate(b, ops[1..])
    else [ops[0]] + WithoutLate(Effect(b, ops[0]), ops[1..])
  }

  function Effect(b: Breaker, op: Op): Breaker {
    match op
    case Ask(now) => AfterAllow(b, now)
    case Done(probe, failed, now) => AfterFinish(b, Permit(probe), failed, now)
  }

  function Effects(b: Breaker, ops: seq<Op>): Breaker
    decreases |ops|
  {
    if ops == [] then b else Effects(Effect(b, ops[0]), ops[1..])
  }

  /** The verdicts given along a run, in order. */
  function Verdicts(b: Breaker, ops: seq<Op>): seq<Verdict>
    decreases |ops|
  {
    if ops == [] then []
    else (if ops[0].Ask? then [Decide(b, ops[0].now)] else []) + Verdicts(Effect(b, ops[0]), ops[1..])
  }

  /** Late completions are invisible: erasing them changes neither the breaker nor any verdict. */
  lemma {:induction false} LateCompletionsInvisible(b: Breaker, ops: seq<Op>)
    ensures Effects(b, WithoutLate(b, ops)) == Effects(b, ops)
    ensures Verdicts(b, WithoutLate(b, ops)) == Verdicts(b, ops)
    decreases |ops|
  {
    if ops == [] {
    } else if ops[0].Done? && !ops[0].probe && b.enabled && b.state != Closed {
      assert Effect(b, ops[0]) == b;
      LateCompletionsInvisible(b, ops[1..]);
    } else {
      var rest := WithoutLate(Effect(b, ops[0]), ops[1..]);
      assert ([ops[0]] + rest)[1..] == rest;
      LateCompletionsInvisible(Effect(b, ops[0]), ops[1..]);
    }
  }

  // ---------------------------------------------------------------- load during an outage

  function Admits(c: Cell, op: Op): bool {
    op.Ask? && Decide(c.b, op.now).Admitted?
  }

  /** The times at which a run admits a request. */
  function Admissions(c: Cell, ops: seq<Op>): seq<int>
    requires Legal(c, ops)
    decreases |ops|
  {
    if ops == [] then []
    else (if Admits(c, ops[0]) then [ops[0].now] else []) + Admissions(Next(c, ops[0]), ops[1..])
  }

  /** The breaker is never closed along the run, and no probe comes back earlier than it was admitted
      (`last` is the admission time of the probe outstanding at the start). */
  predicate Outage(c: Cell, last: int, ops: seq<Op>)
    requires Legal(c, ops)
    decreases |ops|
  {
    && c.b.state != Closed
    && (ops == [] ||
        (&& (ops[0].Done? && ops[0].probe ==> ops[0].now >= last)
         && Outage(Next(c, ops[0]), if Admits(c, ops[0]) then ops[0].now else last, ops[1..])))
  }

  /** Every admission is a probe. */
  predicate OnlyProbesAdmitted(c: Cell, ops: seq<Op>)
    requires Legal(c, ops)
    decreases |ops|
  {
    ops == [] ||
    (&& (Admits(c, ops[0]) ==> Decide(c.b, ops[0].now) == Admitted(Permit(true)))
     && OnlyProbesAdmitted(Next(c, ops[0]), ops[1..]))
  }

  ghost predicate SpacedBy(times: seq<int>, gap: int) {
    forall i :: 0 < i < |times| ==> times[i] - times[i - 1] >= gap
  }

  /** The earliest time the next probe can be admitted. */
  function Earliest(c: Cell, last: int): int {
    if c.b.state == HalfOpen then last + c.b.openFor else c.b.openUntil
  }

  lemma {:induction false} OutageSpacing(c: Cell, last: int, ops: seq<Op>)
    requires c.b.enabled && OneProbe(c) && Sound(c.b) && Legal(c, ops) && Outage(c, last, ops)
    ensures OnlyProbesAdmitted(c, ops)
    ensures Admissions(c, ops) != [] ==> Admissions(c, ops)[0] >= Earliest(c, last)
    ensures SpacedBy(Admissions(c, ops), c.b.openFor)
    decreases |ops|
  {
    if ops != [] {
      var next := Next(c, ops[0]);
      OneProbeAlways(c, [ops[0]]);
      assert Exec(next, []) == next;
      OutageSpacing(next, if Admits(c, ops[0]) then ops[0].now else last, ops[1..]);
    }
  }

  /** The times that lie in [from, from + length], in order. */
  function Within(times: seq<int>, from: int, length: nat): (inside: seq<int>)
    ensures forall i :: 0 <= i < |inside| ==> from <= inside[i] <= from + length
  {
    if times == [] then []
    else
      var n := |times| - 1;
      Within(times[..n], from, length) + (if from <= times[n] <= from + length then [times[n]] else [])
  }

  /**
   Outage load bound.  From the moment a breaker is open (or half-open with its probe out, admitted
   at `last`) until it next closes, every request it admits is a probe, consecutive probes are at
   least `openFor` apart, and so any span [from, from + length] sees at most 1 + length/openFor of
   them.  No order between different requests' clocks is assumed.
   */
  lemma OutageLoadBound(c: Cell, last: int, ops: seq<Op>, from: int, length: nat)
    requires c.b.enabled && OneProbe(c) && Sound(c.b) && Legal(c, ops) && Outage(c, last, ops)
    ensures OnlyProbesAdmitted(c, ops)
    ensures Admissions(c, ops) != [] ==> Admissions(c, ops)[0] >= Earliest(c, last)
    ensures SpacedBy(Admissions(c, ops), c.b.openFor)
    ensures |Within(Admissions(c, ops), from, length)| <= 1 + length / c.b.openFor
  {
    OutageSpacing(c, last, ops);
    WithinSpaced(Admissions(c, ops), c.b.openFor, from, length);
    SpacedCount(Within(Admissions(c, ops), from, length), c.b.openFor, from, length);
  }

  /** Leaving out times keeps them spaced. */
  lemma {:induction false} WithinSpaced(times: seq<int>, gap: int, from: int, length: nat)
    requires gap > 0 && SpacedBy(times, gap)
    ensures var inside := Within(times, from, length);
            && SpacedBy(inside, gap)
            && (inside != [] ==> times != [] && inside[|inside| - 1] <= times[|times| - 1])
  {
    if times != [] {
      var front := times[..|times| - 1];
      WithinSpaced(front, gap, from, length);
      assert front != [] ==> times[|times| - 1] - front[|front| - 1] >= gap;
      var inside := Within(times, from, length);
      forall i | 0 < i < |inside| ensures inside[i] - inside[i - 1] >= gap {
        assert inside[i - 1] == Within(front, from, length)[i - 1];
      }
    }
  }

  // ---------------------------------------------------------------- from the tripping completion on

  /** `op`, given back in `c`, opens the breaker: the last failure a closed one takes, or a failed probe. */
  predicate Trips(c: Cell, op: Op) {
    && op.Done? && Allowed(c, op)
    && c.b.enabled && c.b.state != Open && Next(c, op).b.state == Open
  }

  /** The instant an op carries. */
  function Instant(op: Op): int {
    op.now
  }

  /** Nobody is admitted along the run. */
  predicate AdmitsNone(c: Cell, ops: seq<Op>)
    requires Legal(c, ops)
    decreases |ops|
  {
    ops == [] || (!Admits(c, ops[0]) && AdmitsNone(Next(c, ops[0]), ops[1..]))
  }

  /** The cooldown starts at the completion: from a trip at t every caller before t + openFor is told to
      wait exactly that much longer, and the next one is a probe. */
  lemma TripStartsCooldown(c: Cell, op: Op)
    requires OneProbe(c) && Sound(c.b) && Trips(c, op)
    ensures CoolsDownUntil(Next(c, op).b, Instant(op) + c.b.openFor)
    ensures Next(c, op).b.failures == c.b.failureThreshold
  {
  }

  /** And it stays so, whatever is asked and given back, until the first probe goes out. */
  lemma {:induction false} CooldownHolds(c: Cell, ops: seq<Op>, due: int)
    requires c.b.enabled && c.b.state == Open && OneProbe(c) && Sound(c.b) && CoolsDownUntil(c.b, due)
    requires Legal(c, ops) && AdmitsNone(c, ops)
    ensures Exec(c, ops).b == c.b && CoolsDownUntil(Exec(c, ops).b, due)
    decreases |ops|
  {
    if ops != [] {
      assert Decide(c.b, due) == Admitted(Permit(true));
      CooldownHolds(Next(c, ops[0]), ops[1..], due);
    }
  }

  /**
   The whole cooldown.  Take any run from a sound breaker, any completion at the end of it that opens the
   breaker, given back at clock t, and anything after it until somebody is admitted: every caller below
   t + openFor is rejected with exactly the time left, and a caller from then on gets the probe.
   */
  lemma CooldownAfterTrip(c: Cell, before: seq<Op>, op: Op, later: seq<Op>)
    requires OneProbe(c) && Sound(c.b) && Legal(c, before) && Trips(Exec(c, before), op)
    requires Legal(Next(Exec(c, before), op), later) && AdmitsNone(Next(Exec(c, before), op), later)
    ensures CoolsDownUntil(Exec(Next(Exec(c, before), op), later).b, Instant(op) + c.b.openFor)
  {
    OneProbeAlways(c, before);
    var at := Exec(c, before);
    TripStartsCooldown(at, op);
    OneProbeAlways(at, [op]);
    assert Exec(Next(at, op), []) == Next(at, op);
    CooldownHolds(Next(at, op), later, Instant(op) + c.b.openFor);
  }

  /**
   The load of an outage counted from the trip.  Until it closes again, a breaker tripped at clock t
   admits only probes, the first not before t + openFor, and at most length/openFor within any length
   from t on.
   */
  lemma OutageFromTrip(c: Cell, before: seq<Op>, op: Op, ops: seq<Op>, length: nat)
    requires OneProbe(c) && Sound(c.b) && Legal(c, before) && Trips(Exec(c, before), op)
    requires var tripped := Next(Exec(c, before), op);
             Legal(tripped, ops) && Outage(tripped, Instant(op), ops)
    ensures var tripped := Next(Exec(c, before), op);
            var admitted := Admissions(tripped, ops);
            && OnlyProbesAdmitted(tripped, ops)
            && (admitted != [] ==> admitted[0] >= Instant(op) + c.b.openFor)
            && SpacedBy(admitted, c.b.openFor)
            && |Within(admitted, Instant(op), length)| <= length / c.b.openFor
  {
    var at := Exec(c, before);
    var tripped := Next(at, op);
    OneProbeAlways(c, before);
    OneProbeAlways(at, [op]);
    assert Exec(tripped, []) == tripped;
    TripStartsCooldown(at, op);
    assert Decide(tripped.b, tripped.b.openUntil) == Admitted(Permit(true));
    assert Decide(tripped.b, Instant(op) + c.b.openFor) == Admitted(Permit(true));
    OutageSpacing(tripped, Instant(op), ops);
    AfterStart(Admissions(tripped, ops), c.b.openFor, Instant(op), length);
  }

  /** Times spaced from a start on, the start not counted. */
  lemma AfterStart(times: seq<int>, gap: int, start: int, length: nat)
    requires gap > 0 && SpacedBy(times, gap) && (times != [] ==> times[0] >= start + gap)
    ensures |Within(times, start, length)| <= length / gap
  {
    var inside := Within(times, start, length);
    WithinSpaced(times, gap, start, length);
    WithinFirst(times, gap, start, length);
    SpacedCount([start] + inside, gap, start, length);
  }

  lemma {:induction false} WithinFirst(times: seq<int>, gap: int, start: int, length: nat)
    requires gap > 0 && SpacedBy(times, gap) && (times != [] ==> times[0] >= start + gap)
    ensures Within(times, start, length) != [] ==> Within(times, start, length)[0] >= start + gap
  {
    if times != [] {
      var n := |times| - 1;
      WithinFirst(times[..n], gap, start, length);
      SpacedSpan(times, gap);
      MultiplesGrow(n, gap);
    }
  }

  lemma MultiplesGrow(n: nat, gap: int)
    requires gap > 0
    ensures n * gap >= 0
  {
  }

  /** Ordinary completions that all fail. */
  function AllFail(times: seq<int>): (ops: seq<Op>)
    ensures |ops| == |times|
    ensures forall i :: 0 <= i < |times| ==> ops[i] == Done(false, true, times[i])
  {
    seq(|times|, i requires 0 <= i < |times| => Done(false, true, times[i]))
  }

  /** A closed breaker with some failures counted trips after exactly as many more in a row as are left to
      the threshold. */
  lemma {:induction false} TripsAfterExactly(c: Cell, times: seq<int>)
    requires c.b.enabled && c.b.state == Closed && Sound(c.b) && |times| <= c.plains
    ensures Legal(c, AllFail(times))
    ensures Exec(c, AllFail(times)).b.state == Closed <==> |times| < c.b.failureThreshold - c.b.failures
    decreases |times|
  {
    if times != [] {
      assert AllFail(times)[1..] == AllFail(times[1..]);
      var next := Next(c, AllFail(times)[0]);
      if next.b.state == Closed {
        TripsAfterExactly(next, times[1..]);
      } else {
        StaysOpen(next, times[1..]);
      }
    }
  }

  lemma {:induction false} StaysOpen(c: Cell, times: seq<int>)
    requires c.b.enabled && c.b.state == Open && |times| <= c.plains
    ensures Legal(c, AllFail(times)) && Exec(c, AllFail(times)).b == c.b
    decreases |times|
  {
    if times != [] {
      assert AllFail(times)[1..] == AllFail(times[1..]);
      StaysOpen(Next(c, AllFail(times)[0]), times[1..]);
    }
  }

  /** A new breaker trips after its threshold of failures in a row, and a clone of a closed breaker below
      the new threshold after the failures that are left. */
  lemma CloneTripsAfterExactly(previous: Breaker, policy: Policy, now: int, plains: nat, times: seq<int>)
    requires Sound(previous) && previous.enabled && previous.state == Closed && policy.enabled && |times| <= plains
    requires previous.failures < Fresh(policy).failureThreshold
    ensures var c := Cell(Clone(previous, policy, now), 0, plains);
            && Legal(c, AllFail(times))
            && (Exec(c, AllFail(times)).b.state == Closed
                <==> |times| < c.b.failureThreshold - previous.failures)
  {
    SoundnessKept(previous, policy, Permit(false), false, now);
    CloneCarriesOver(previous, policy, now);
    TripsAfterExactly(Cell(Clone(previous, policy, now), 0, plains), times);
  }

  lemma FreshTripsAfterExactly(policy: Policy, plains: nat, times: seq<int>)
    requires policy.enabled && |times| <= plains
    ensures var c := Cell(Fresh(policy), 0, plains);
            && Legal(c, AllFail(times))
            && (Exec(c, AllFail(times)).b.state == Closed
                <==> |times| < if policy.failureThreshold > 0 then policy.failureThreshold else 5)
  {
    FreshMeans(policy);
    TripsAfterExactly(Cell(Fresh(policy), 0, plains), times);
  }

  lemma SpacedCount(times: seq<int>, gap: int, from: int, length: nat)
    requires gap > 0 && SpacedBy(times, gap)
    requires forall t :: t in times ==> from <= t <= from + length
    ensures |times| <= 1 + length / gap
  {
    if times != [] {
      SpacedSpan(times, gap);
      assert times[0] in times && times[|times| - 1] in times;
      MultipleBelowQuotient(|times| - 1, gap, length);
    } else {
      MultipleBelowQuotient(0, gap, length);
    }
  }

  lemma {:induction false} SpacedSpan(times: seq<int>, gap: int)
    requires times != [] && SpacedBy(times, gap)
    ensures times[|times| - 1] - times[0] >= (|times| - 1) * gap
  {
    var n := |times|;
    if n > 1 {
      SpacedSpan(times[..n - 1], gap);
      assert (n - 1) * gap == (n - 2) * gap + gap;
    }
  }

  lemma MultipleBelowQuotient(m: nat, gap: int, length: nat)
    requires gap > 0 && m * gap <= length
    ensures m <= length / gap
  {
    var q := length / gap;
    assert length < q * gap + gap;
    assert q * gap + gap == (q + 1) * gap;
    if m > q {
      ProductsOrdered(q + 1, m, gap);
    }
  }
}
