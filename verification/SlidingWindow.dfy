/**
 The in-memory sliding window (internal/gateway/ratelimit.go).

 Instants are integers in any unit; `span` is one minute in that unit.  The functions describe the
 effect on the slice of retained timestamps; the class works on an array in place.
 */
module SlidingWindow {
  import opened Common
  const MINUTE: int := 60 * SECOND

  datatype Answer = Answer(allowed: bool, retryAfter: int)

  /** How many entries from position `i` on are at or before the cutoff, up to the first that is not. */
  function StaleTo(window: seq<int>, cutoff: int, i: nat): (first: nat)
    requires i <= |window|
    ensures i <= first <= |window|
    ensures forall k :: i <= k < first ==> window[k] <= cutoff
    ensures first < |window| ==> window[first] > cutoff
    decreases |window| - i
  {
    if i < |window| && window[i] <= cutoff then StaleTo(window, cutoff, i + 1) else i
  }

  function Pruned(window: seq<int>, cutoff: int): seq<int> {
    window[StaleTo(window, cutoff, 0)..]
  }

  lemma PrunedFirst(window: seq<int>, cutoff: int)
    ensures Pruned(window, cutoff) != [] ==> Pruned(window, cutoff)[0] > cutoff
  {
  }

  function AllowAnswer(window: seq<int>, limit: int, now: int, span: int): Answer {
    var kept := Pruned(window, now - span);
    if limit <= 0 || |kept| < limit then Answer(true, 0)
    else
      var reset := span - (now - kept[0]);
      Answer(false, if reset < 0 then 0 else reset)
  }

  function AfterAllow(window: seq<int>, limit: int, now: int, span: int): seq<int> {
    var kept := Pruned(window, now - span);
    if limit <= 0 then window
    else if |kept| >= limit then kept
    else kept + [now]
  }

  /** The clamp of the retry time at zero is unreachable, whatever the clock did: a rejection always
      announces a positive wait, at most a minute unless the oldest entry lies in the future. */
  lemma RetryClampUnreachable(window: seq<int>, limit: int, now: int, span: int)
    requires !AllowAnswer(window, limit, now, span).allowed
    ensures var kept := Pruned(window, now - span);
            && kept != []
            && AllowAnswer(window, limit, now, span).retryAfter == kept[0] + span - now
            && 0 < kept[0] + span - now
            && (kept[0] <= now ==> kept[0] + span - now <= span)
  {
  }

  // ---------------------------------------------------------------- runs and their reference

  datatype Call = Call(limit: int, now: int)

  /** The window beside everything it ever recorded. */
  datatype Ledger = Ledger(window: seq<int>, recorded: seq<int>)

  const EMPTY: Ledger := Ledger([], [])

  function Step(l: Ledger, call: Call, span: int): Ledger {
    var kept := Pruned(l.window, call.now - span);
    if call.limit <= 0 then l
    else if |kept| < call.limit then Ledger(kept + [call.now], l.recorded + [call.now])
    else Ledger(kept, l.recorded)
  }

  /** A step is one call of `allow`; it is recorded when a limit was in force and it was admitted. */
  lemma StepIsAllow(l: Ledger, call: Call, span: int)
    ensures Step(l, call, span).window == AfterAllow(l.window, call.limit, call.now, span)
    ensures var records := call.limit > 0 && AllowAnswer(l.window, call.limit, call.now, span).allowed;
            Step(l, call, span).recorded == if records then l.recorded + [call.now] else l.recorded
  {
  }

  function Run(l: Ledger, calls: seq<Call>, span: int): Ledger
    decreases |calls|
  {
    if calls == [] then l else Run(Step(l, calls[0], span), calls[1..], span)
  }

  /** The events of a history in (after, upTo], in order. */
  function Recent(history: seq<int>, after: int, upTo: int): (recent: seq<int>)
    ensures |recent| <= |history|
  {
    if history == [] then []
    else
      var last := history[|history| - 1];
      Recent(history[..|history| - 1], after, upTo) + (if after < last <= upTo then [last] else [])
  }

  /** `window` is the end of `history`, and what precedes it is at or before `cutoff`. */
  predicate TailAfter(window: seq<int>, history: seq<int>, cutoff: int) {
    var k := |history| - |window|;
    && 0 <= k
    && (forall i :: 0 <= i < |window| ==> window[i] == history[k + i])
    && (forall i :: 0 <= i < k ==> history[i] <= cutoff)
  }

  lemma {:induction false} RecentIsTail(window: seq<int>, history: seq<int>, after: int, upTo: int)
    requires TailAfter(window, history, after)
    requires forall i :: 0 <= i < |window| ==> after < window[i] <= upTo
    ensures Recent(history, after, upTo) == window
    decreases |history|
  {
    if history != [] {
      var n, m := |history| - 1, |window| - 1;
      if window == [] {
        RecentIsTail([], history[..n], after, upTo);
      } else {
        RecentIsTail(window[..m], history[..n], after, upTo);
        assert window == window[..m] + [window[m]];
      }
    }
  }

  lemma {:induction false} RecentWithinTail(window: seq<int>, history: seq<int>, after: int, upTo: int)
    requires TailAfter(window, history, after)
    ensures |Recent(history, after, upTo)| <= |window|
    decreases |history|
  {
    if history != [] {
      var n, m := |history| - 1, |window| - 1;
      RecentWithinTail(if window == [] then [] else window[..m], history[..n], after, upTo);
    }
  }

  lemma RecordedMore(history: seq<int>, now: int, after: int, upTo: int)
    ensures Recent(history + [now], after, upTo)
            == Recent(history, after, upTo) + (if after < now <= upTo then [now] else [])
  {
    assert (history + [now])[..|history|] == history;
  }

  lemma PrunedTail(window: seq<int>, history: seq<int>, cutoff: int, newCutoff: int, both: int)
    requires TailAfter(window, history, cutoff) && cutoff <= both && newCutoff <= both
    ensures TailAfter(Pruned(window, newCutoff), history, both)
  {
    var first := StaleTo(window, newCutoff, 0);
    var k := |history| - |window|;
    forall i | k <= i < k + first ensures history[i] <= newCutoff {
      assert history[i] == window[i - k];
    }
  }

  predicate Sorted(history: seq<int>) {
    forall i, j :: 0 <= i < j < |history| ==> history[i] <= history[j]
  }

  function Later(a: int, b: int): int { if a < b then b else a }

  /** The window is the end of the record, and what fell off is at least a span older than `latest`. */
  predicate Keeps(l: Ledger, latest: int, span: int) {
    TailAfter(l.window, l.recorded, latest - span)
  }

  lemma KeptTail(l: Ledger, now: int, latest: int, span: int)
    requires Keeps(l, latest, span)
    ensures TailAfter(Pruned(l.window, now - span), l.recorded, Later(latest, now) - span)
  {
    PrunedTail(l.window, l.recorded, latest - span, now - span, Later(latest, now) - span);
  }

  lemma KeepsStep(l: Ledger, call: Call, latest: int, span: int)
    requires Keeps(l, latest, span)
    ensures Keeps(Step(l, call, span), Later(latest, call.now), span)
  {
    if call.limit > 0 {
      KeptTail(l, call.now, latest, span);
      TailStep(Pruned(l.window, call.now - span), l, call, span, Later(latest, call.now) - span);
    }
  }

  lemma TailStep(kept: seq<int>, l: Ledger, call: Call, span: int, cutoff: int)
    requires call.limit > 0 && kept == Pruned(l.window, call.now - span)
    requires TailAfter(kept, l.recorded, cutoff)
    ensures TailAfter(Step(l, call, span).window, Step(l, call, span).recorded, cutoff)
  {
    var next := Step(l, call, span);
    if |kept| < call.limit {
      assert next == Ledger(kept + [call.now], l.recorded + [call.now]);
    } else {
      assert next == Ledger(kept, l.recorded);
    }
  }

  // ---------------------------------------------------------------- exactness

  predicate Nondecreasing(latest: int, calls: seq<Call>)
    decreases |calls|
  {
    calls == [] || (latest <= calls[0].now && Nondecreasing(calls[0].now, calls[1..]))
  }

  /** What an ordered clock guarantees of a ledger at time `latest`. */
  predicate Ordered(l: Ledger, latest: int, span: int) {
    && Keeps(l, latest, span)
    && Sorted(l.recorded)
    && forall i :: 0 <= i < |l.recorded| ==> l.recorded[i] <= latest
  }

  lemma KeptIsRecent(l: Ledger, now: int, latest: int, span: int)
    requires Ordered(l, latest, span) && latest <= now
    ensures Pruned(l.window, now - span) == Recent(l.recorded, now - span, now)
  {
    var kept := Pruned(l.window, now - span);
    KeptTail(l, now, latest, span);
    SortedTailAfter(kept, l.recorded, now - span, now);
    RecentIsTail(kept, l.recorded, now - span, now);
  }

  lemma SortedTailAfter(window: seq<int>, history: seq<int>, after: int, upTo: int)
    requires TailAfter(window, history, after) && Sorted(history)
    requires window != [] ==> window[0] > after
    requires forall i :: 0 <= i < |history| ==> history[i] <= upTo
    ensures forall i :: 0 <= i < |window| ==> after < window[i] <= upTo
  {
    var k := |history| - |window|;
    forall i | 0 <= i < |window| ensures after < window[i] <= upTo {
      assert window[0] == history[k] && window[i] == history[k + i];
    }
  }

  /**
   Exactness of one call on an ordered clock: it is admitted if and only if it is unlimited or fewer
   than `limit` recorded admissions lie in the last minute, and afterwards the window is exactly the
   record filtered to the last minute.
   */
  lemma CallExact(l: Ledger, call: Call, latest: int, span: int)
    requires span > 0 && Ordered(l, latest, span) && latest <= call.now
    ensures AllowAnswer(l.window, call.limit, call.now, span).allowed
            <==> call.limit <= 0 || |Recent(l.recorded, call.now - span, call.now)| < call.limit
    ensures Ordered(Step(l, call, span), call.now, span)
    ensures call.limit > 0 ==>
              Step(l, call, span).window == Recent(Step(l, call, span).recorded, call.now - span, call.now)
  {
    KeptIsRecent(l, call.now, latest, span);
    OrderedStep(l, call, latest, span);
    if call.limit > 0 {
      WindowIsRecent(l, call, latest, span);
    }
  }

  lemma OrderedStep(l: Ledger, call: Call, latest: int, span: int)
    requires Ordered(l, latest, span) && latest <= call.now
    ensures Ordered(Step(l, call, span), call.now, span)
  {
    KeepsStep(l, call, latest, span);
  }

  lemma WindowIsRecent(l: Ledger, call: Call, latest: int, span: int)
    requires span > 0 && Ordered(l, latest, span) && latest <= call.now && call.limit > 0
    ensures Step(l, call, span).window == Recent(Step(l, call, span).recorded, call.now - span, call.now)
  {
    KeptIsRecent(l, call.now, latest, span);
    StepWindow(l, Pruned(l.window, call.now - span), call, span);
    RecordedNow(l.recorded, call.now - span, call.now);
  }

  lemma RecordedNow(recorded: seq<int>, after: int, now: int)
    requires after < now
    ensures Recent(recorded + [now], after, now) == Recent(recorded, after, now) + [now]
  {
    RecordedMore(recorded, now, after, now);
  }

  lemma StepWindow(l: Ledger, kept: seq<int>, call: Call, span: int)
    requires kept == Pruned(l.window, call.now - span) && call.limit > 0
    ensures Step(l, call, span)
            == if |kept| < call.limit then Ledger(kept + [call.now], l.recorded + [call.now])
              else Ledger(kept, l.recorded)
  {
  }

  /** The limiter that never forgets: it counts the whole record over the last minute. */
  predicate ReferenceAllows(recorded: seq<int>, call: Call, span: int) {
    call.limit <= 0 || |Recent(recorded, call.now - span, call.now)| < call.limit
  }

  function ReferenceRecord(recorded: seq<int>, call: Call, span: int): seq<int> {
    if call.limit > 0 && ReferenceAllows(recorded, call, span) then recorded + [call.now] else recorded
  }

  function ReferenceAnswers(recorded: seq<int>, calls: seq<Call>, span: int): seq<bool>
    decreases |calls|
  {
    if calls == [] then []
    else [ReferenceAllows(recorded, calls[0], span)]
         + ReferenceAnswers(ReferenceRecord(recorded, calls[0], span), calls[1..], span)
  }

  function Answers(l: Ledger, calls: seq<Call>, span: int): seq<bool>
    decreases |calls|
  {
    if calls == [] then []
    else [AllowAnswer(l.window, calls[0].limit, calls[0].now, span).allowed]
         + Answers(Step(l, calls[0], span), calls[1..], span)
  }

  lemma CallAnswersLikeReference(l: Ledger, call: Call, latest: int, span: int)
    requires span > 0 && Ordered(l, latest, span) && latest <= call.now
    ensures AllowAnswer(l.window, call.limit, call.now, span).allowed == ReferenceAllows(l.recorded, call, span)
  {
    KeptIsRecent(l, call.now, latest, span);
  }

  lemma CallRecordsLikeReference(l: Ledger, call: Call, latest: int, span: int)
    requires Ordered(l, latest, span) && latest <= call.now
    ensures Step(l, call, span).recorded == ReferenceRecord(l.recorded, call, span)
  {
    KeptIsRecent(l, call.now, latest, span);
  }

  /** On an ordered clock, with any limits varying call by call, the pruned window answers every call
      exactly as the limiter that never forgets. */
  lemma {:induction false} WindowRefinesReference(l: Ledger, calls: seq<Call>, latest: int, span: int)
    requires span > 0 && Ordered(l, latest, span) && Nondecreasing(latest, calls)
    ensures Answers(l, calls, span) == ReferenceAnswers(l.recorded, calls, span)
    decreases |calls|
  {
    if calls != [] {
      var next := Step(l, calls[0], span);
      CallAnswersLikeReference(l, calls[0], latest, span);
      CallRecordsLikeReference(l, calls[0], latest, span);
      OrderedStep(l, calls[0], latest, span);
      WindowRefinesReference(next, calls[1..], calls[0].now, span);
    }
  }

  // ---------------------------------------------------------------- clocks read out of order

  /** No call is stamped more than `d` before the largest stamp already seen. */
  predicate LateByAtMost(latest: int, calls: seq<Call>, d: int)
    decreases |calls|
  {
    calls == [] || (latest - d <= calls[0].now && LateByAtMost(Later(latest, calls[0].now), calls[1..], d))
  }

  predicate LimitsAtMost(calls: seq<Call>, most: int) {
    forall i :: 0 <= i < |calls| ==> calls[i].limit <= most
  }

  ghost predicate Bounded(recorded: seq<int>, width: int, most: int) {
    forall x :: AtMostEndingAt(recorded, width, most, x)
  }

  ghost predicate AtMostEndingAt(recorded: seq<int>, width: int, most: int, x: int) {
    |Recent(recorded, x - width, x)| <= most
  }

  lemma AdmissionBoundStep(l: Ledger, call: Call, latest: int, d: int, most: int, span: int)
    requires d >= 0 && call.limit <= most && latest - d <= call.now
    requires Keeps(l, latest, span) && Bounded(l.recorded, span - d, most)
    ensures Bounded(Step(l, call, span).recorded, span - d, most)
  {
    var kept := Pruned(l.window, call.now - span);
    if call.limit > 0 && |kept| < call.limit {
      KeptTail(l, call.now, latest, span);
      RecordedBounded(kept, l.recorded, call.now, Later(latest, call.now) - span, span - d, call.limit, most);
      StepWindow(l, kept, call, span);
    }
  }

  lemma RecordedBounded(kept: seq<int>, recorded: seq<int>, now: int, cutoff: int, width: int, limit: int, most: int)
    requires TailAfter(kept, recorded, cutoff) && cutoff <= now - width
    requires |kept| < limit <= most && Bounded(recorded, width, most)
    ensures Bounded(recorded + [now], width, most)
  {
    forall x ensures AtMostEndingAt(recorded + [now], width, most, x) {
      assert AtMostEndingAt(recorded, width, most, x);
      RecordedMore(recorded, now, x - width, x);
      if x - width < now <= x {
        assert TailAfter(kept, recorded, x - width);
        RecentWithinTail(kept, recorded, x - width, x);
      }
    }
  }

  /**
   Admission bound under reordered clocks.  `now` is read before the lock is taken, so calls can
   arrive out of order.  If none is late by more than `d`, then over the whole run no interval of
   length span - d holds more recorded admissions than the largest limit in force.  With d = 0 this
   is the one-minute guarantee.
   */
  lemma {:induction false} AdmissionBound(l: Ledger, calls: seq<Call>, latest: int, d: int, most: int, span: int)
    requires d >= 0 && LimitsAtMost(calls, most) && LateByAtMost(latest, calls, d)
    requires Keeps(l, latest, span) && Bounded(l.recorded, span - d, most)
    ensures Bounded(Run(l, calls, span).recorded, span - d, most)
    decreases |calls|
  {
    if calls != [] {
      AdmissionBoundStep(l, calls[0], latest, d, most, span);
      KeepsStep(l, calls[0], latest, span);
      AdmissionBound(Step(l, calls[0], span), calls[1..], Later(latest, calls[0].now), d, most, span);
    }
  }

  /** For a window starting empty the bound needs no further hypothesis. */
  lemma AdmissionBoundFromEmpty(calls: seq<Call>, latest: int, d: int, most: nat, span: int)
    requires d >= 0 && LimitsAtMost(calls, most) && LateByAtMost(latest, calls, d)
    ensures Bounded(Run(EMPTY, calls, span).recorded, span - d, most)
  {
    var width := span - d;
    forall x ensures AtMostEndingAt(EMPTY.recorded, width, most, x) {
      assert Recent([], x - width, x) == [];
    }
    AdmissionBound(EMPTY, calls, latest, d, most, span);
  }

  // ---------------------------------------------------------------- exactly how wide the guarantee is

  /** What a limiter with limits up to `most` promises when no call is late by more than `d`: over
      every run, every interval of length `width` holds at most `most` recorded admissions. */
  ghost predicate Guaranteed(width: int, most: int, d: int, span: int) {
    forall calls, latest ::
      LateByAtMost(latest, calls, d) && LimitsAtMost(calls, most) ==>
        Bounded(Run(EMPTY, calls, span).recorded, width, most)
  }

  /**
   The guarantee, exactly.  With a limit of one a call is only admitted after its predecessor has
   expired by its own clock, so the full span is guaranteed however late calls are; with a larger
   limit the guarantee is a span less the lateness.  Neither is a tick more.
   */
  lemma AdmissionBoundExact(width: int, most: int, d: int, span: int)
    requires most >= 1 && 0 <= d < span
    ensures Guaranteed(width, most, d, span) <==> width <= if most == 1 then span else span - d
  {
    var exact := if most == 1 then span else span - d;
    if width <= exact {
      forall calls, latest | LateByAtMost(latest, calls, d) && LimitsAtMost(calls, most)
        ensures Bounded(Run(EMPTY, calls, span).recorded, width, most)
      {
        if most == 1 {
          SingleAdmissions(calls, span);
        } else {
          AdmissionBoundFromEmpty(calls, latest, d, most, span);
        }
        NarrowerBounded(Run(EMPTY, calls, span).recorded, exact, width, most);
      }
    } else if most == 1 {
      TwoAdmissions(width, d, span);
    } else {
      LateAdmissions(width, most, d, span);
    }
  }

  lemma {:induction false} NarrowerRecent(history: seq<int>, after: int, later: int, upTo: int)
    requires after <= later
    ensures |Recent(history, later, upTo)| <= |Recent(history, after, upTo)|
  {
    if history != [] {
      NarrowerRecent(history[..|history| - 1], after, later, upTo);
    }
  }

  lemma NarrowerBounded(history: seq<int>, width: int, narrower: int, most: int)
    requires Bounded(history, width, most) && narrower <= width
    ensures Bounded(history, narrower, most)
  {
    forall x ensures AtMostEndingAt(history, narrower, most, x) {
      assert AtMostEndingAt(history, width, most, x);
      NarrowerRecent(history, x - width, x - narrower, x);
    }
  }

  /** With limits of at most one the window is the last admission, and admissions are a span apart. */
  ghost predicate OneSlot(l: Ledger, span: int) {
    && Spaced(l.recorded, span)
    && l.window == if l.recorded == [] then [] else [l.recorded[|l.recorded| - 1]]
  }

  ghost predicate Spaced(history: seq<int>, span: int) {
    forall i, j :: 0 <= i < j < |history| ==> history[j] - history[i] >= span
  }

  lemma SpacedMore(history: seq<int>, now: int, span: int)
    requires span > 0 && Spaced(history, span)
    requires history != [] ==> now - history[|history| - 1] >= span
    ensures Spaced(history + [now], span)
  {
    forall i | 0 <= i < |history| ensures now - history[i] >= span {
      var n := |history| - 1;
      assert i < n ==> history[n] - history[i] >= span;
    }
  }

  lemma OneSlotStep(l: Ledger, call: Call, span: int)
    requires span > 0 && call.limit <= 1 && OneSlot(l, span)
    ensures OneSlot(Step(l, call, span), span)
  {
    if call.limit == 1 {
      if l.recorded == [] || l.recorded[|l.recorded| - 1] <= call.now - span {
        StepOnEmpty(l, 1, call.now, span);
        SpacedMore(l.recorded, call.now, span);
      } else {
        assert StaleTo(l.window, call.now - span, 0) == 0;
        assert Step(l, call, span) == l;
      }
    }
  }

  lemma {:induction false} OneSlotRun(l: Ledger, calls: seq<Call>, span: int)
    requires span > 0 && LimitsAtMost(calls, 1) && OneSlot(l, span)
    ensures OneSlot(Run(l, calls, span), span)
    decreases |calls|
  {
    if calls != [] {
      OneSlotStep(l, calls[0], span);
      OneSlotRun(Step(l, calls[0], span), calls[1..], span);
    }
  }

  lemma {:induction false} NoneRecent(history: seq<int>, after: int, upTo: int)
    requires forall i :: 0 <= i < |history| ==> history[i] <= after
    ensures Recent(history, after, upTo) == []
  {
    if history != [] {
      NoneRecent(history[..|history| - 1], after, upTo);
    }
  }

  lemma SpacedFront(history: seq<int>, front: seq<int>, span: int)
    requires history != [] && front == history[..|history| - 1] && Spaced(history, span)
    ensures Spaced(front, span)
    ensures forall i :: 0 <= i < |front| ==> front[i] <= history[|history| - 1] - span
  {
    var last := history[|history| - 1];
    assert forall i :: 0 <= i < |front| ==> last - history[i] >= span;
  }

  lemma {:induction false} SpacedRecent(history: seq<int>, span: int, x: int)
    requires Spaced(history, span)
    ensures |Recent(history, x - span, x)| <= 1
  {
    if history != [] {
      var front := history[..|history| - 1];
      SpacedFront(history, front, span);
      if x - span < history[|history| - 1] <= x {
        NoneRecent(front, x - span, x);
      } else {
        SpacedRecent(front, span, x);
      }
    }
  }

  lemma SingleAdmissions(calls: seq<Call>, span: int)
    requires span > 0 && LimitsAtMost(calls, 1)
    ensures Bounded(Run(EMPTY, calls, span).recorded, span, 1)
  {
    OneSlotRun(EMPTY, calls, span);
    var recorded := Run(EMPTY, calls, span).recorded;
    forall x ensures AtMostEndingAt(recorded, span, 1, x) {
      SpacedRecent(recorded, span, x);
    }
  }

  /** `k` calls at one instant. */
  function Burst(limit: int, now: int, k: nat): seq<Call>
    decreases k
  {
    if k == 0 then [] else [Call(limit, now)] + Burst(limit, now, k - 1)
  }

  lemma {:induction false} RunAppend(l: Ledger, first: seq<Call>, second: seq<Call>, span: int)
    ensures Run(l, first + second, span) == Run(Run(l, first, span), second, span)
    decreases |first|
  {
    if first == [] {
      assert first + second == second;
    } else {
      assert (first + second)[1..] == first[1..] + second;
      RunAppend(Step(l, first[0], span), first[1..], second, span);
    }
  }

  /** A window whose entries all lie in [low, high]. */
  predicate Between(window: seq<int>, low: int, high: int) {
    forall i :: 0 <= i < |window| ==> low <= window[i] <= high
  }

  /** One more admission into a window that has room and of which nothing has expired. */
  lemma OneAdmitted(l: Ledger, limit: int, now: int, low: int, high: int, after: int, upTo: int, span: int)
    requires span > 0 && |l.window| < limit
    requires Between(l.window, low, high) && now - span < low <= now <= high
    ensures var next := Step(l, Call(limit, now), span);
            && |next.window| == |l.window| + 1 && Between(next.window, low, high)
            && |Recent(next.recorded, after, upTo)|
               == |Recent(l.recorded, after, upTo)| + if after < now <= upTo then 1 else 0
  {
    assert StaleTo(l.window, now - span, 0) == 0;
    assert Step(l, Call(limit, now), span) == Ledger(l.window + [now], l.recorded + [now]);
    RecordedMore(l.recorded, now, after, upTo);
  }

  /** A burst that fits under the limit is all admitted. */
  lemma {:induction false} BurstAdmitted(
      l: Ledger, limit: int, now: int, k: nat, low: int, high: int, after: int, upTo: int, span: int)
    requires span > 0 && |l.window| + k <= limit
    requires Between(l.window, low, high) && now - span < low <= now <= high
    ensures var last := Run(l, Burst(limit, now, k), span);
            && |last.window| == |l.window| + k && Between(last.window, low, high)
            && |Recent(last.recorded, after, upTo)|
               == |Recent(l.recorded, after, upTo)| + if after < now <= upTo then k else 0
    decreases k
  {
    if k > 0 {
      OneAdmitted(l, limit, now, low, high, after, upTo, span);
      assert Burst(limit, now, k)[1..] == Burst(limit, now, k - 1);
      BurstAdmitted(Step(l, Call(limit, now), span), limit, now, k - 1, low, high, after, upTo, span);
    }
  }

  lemma RunThrough(
      l: Ledger, calls: seq<Call>, first: seq<Call>, full: Ledger, call: Call, one: Ledger, second: seq<Call>,
      last: Ledger, span: int)
    requires calls == first + ([call] + second)
    requires Run(l, first, span) == full && Step(full, call, span) == one && Run(one, second, span) == last
    ensures Run(l, calls, span) == last
  {
    RunAppend(l, first, [call] + second, span);
    RunOne(full, call, second, span);
  }

  lemma {:induction false} BurstLate(latest: int, limit: int, now: int, k: nat, rest: seq<Call>, d: int)
    requires d >= 0 && k > 0 && latest - d <= now && LateByAtMost(Later(latest, now), rest, d)
    ensures LateByAtMost(latest, Burst(limit, now, k) + rest, d)
    decreases k
  {
    var calls := Burst(limit, now, k) + rest;
    assert calls[0] == Call(limit, now) && calls[1..] == Burst(limit, now, k - 1) + rest;
    if k == 1 {
      assert calls[1..] == rest;
    } else {
      BurstLate(Later(latest, now), limit, now, k - 1, rest, d);
    }
  }

  lemma {:induction false} BurstLimits(limit: int, now: int, k: nat)
    ensures forall i :: 0 <= i < |Burst(limit, now, k)| ==> Burst(limit, now, k)[i].limit == limit
    decreases k
  {
    if k > 0 {
      BurstLimits(limit, now, k - 1);
    }
  }

  lemma StepOnEmpty(l: Ledger, limit: int, now: int, span: int)
    requires limit >= 1 && forall i :: 0 <= i < |l.window| ==> l.window[i] <= now - span
    ensures Step(l, Call(limit, now), span) == Ledger([now], l.recorded + [now])
  {
    assert Pruned(l.window, now - span) == [];
  }

  lemma RunOne(l: Ledger, call: Call, rest: seq<Call>, span: int)
    ensures Run(l, [call] + rest, span) == Run(Step(l, call, span), rest, span)
  {
    assert ([call] + rest)[1..] == rest;
  }

  lemma LateOne(latest: int, call: Call, rest: seq<Call>, d: int)
    requires latest - d <= call.now && LateByAtMost(Later(latest, call.now), rest, d)
    ensures LateByAtMost(latest, [call] + rest, d)
  {
    assert ([call] + rest)[1..] == rest;
  }

  function TwoCalls(span: int): seq<Call> {
    [Call(1, 0)] + ([Call(1, span)] + [])
  }

  lemma TwoCallsAdmitted(span: int)
    requires span > 0
    ensures Run(EMPTY, TwoCalls(span), span).recorded == [] + [0] + [span]
  {
    RunOne(EMPTY, Call(1, 0), [Call(1, span)] + [], span);
    StepOnEmpty(EMPTY, 1, 0, span);
    var one := Ledger([0], [] + [0]);
    RunOne(one, Call(1, span), [], span);
    StepOnEmpty(one, 1, span, span);
  }

  lemma TwoCallsLate(d: int, span: int)
    requires 0 <= d < span
    ensures LateByAtMost(0, TwoCalls(span), d)
  {
    LateOne(0, Call(1, span), [], d);
    LateOne(0, Call(1, 0), [Call(1, span)] + [], d);
  }

  /** Two admissions exactly a span apart. */
  lemma TwoAdmissions(width: int, d: int, span: int)
    requires 0 <= d < span < width
    ensures !Guaranteed(width, 1, d, span)
  {
    TwoCallsAdmitted(span);
    TwoCallsLate(d, span);
    RecordedMore([], 0, span - width, span);
    RecordedMore([] + [0], span, span - width, span);
    Refutes(TwoCalls(span), 0, Run(EMPTY, TwoCalls(span), span), width, 1, d, span, span);
  }

  /** A full burst expires under a fast clock, and calls up to `d` late are then admitted beside it. */
  function LateCalls(most: int, d: int, span: int): seq<Call>
    requires most >= 2
  {
    Burst(most, 0, most) + ([Call(most, span)] + Burst(most, span - d, most - 1))
  }

  lemma LateCallsLate(most: int, d: int, span: int)
    requires most >= 2 && 0 <= d < span
    ensures LateByAtMost(0, LateCalls(most, d, span), d)
  {
    var tail := Burst(most, span - d, most - 1);
    BurstLate(span, most, span - d, most - 1, [], d);
    assert tail + [] == tail;
    LateOne(0, Call(most, span), tail, d);
    BurstLate(0, most, 0, most, [Call(most, span)] + tail, d);
  }

  lemma LateCallsLimited(most: int, d: int, span: int)
    requires most >= 2
    ensures LimitsAtMost(LateCalls(most, d, span), most)
  {
    BurstLimits(most, 0, most);
    BurstLimits(most, span - d, most - 1);
  }

  lemma FirstBurst(most: int, after: int, upTo: int, span: int) returns (full: Ledger)
    requires most >= 1 && span > 0 && after < 0 <= upTo
    ensures Run(EMPTY, Burst(most, 0, most), span) == full
    ensures Between(full.window, 0, 0) && |Recent(full.recorded, after, upTo)| == most
  {
    BurstAdmitted(EMPTY, most, 0, most, 0, 0, after, upTo, span);
    full := Run(EMPTY, Burst(most, 0, most), span);
  }

  lemma FastCall(full: Ledger, most: int, after: int, upTo: int, span: int) returns (one: Ledger)
    requires most >= 1 && span > 0 && Between(full.window, 0, 0)
    ensures Step(full, Call(most, span), span) == one
    ensures one.window == [span] && |Recent(one.recorded, after, upTo)| >= |Recent(full.recorded, after, upTo)|
  {
    StepOnEmpty(full, most, span, span);
    RecordedMore(full.recorded, span, after, upTo);
    one := Ledger([span], full.recorded + [span]);
  }

  lemma SecondBurst(one: Ledger, most: int, d: int, after: int, span: int) returns (last: Ledger)
    requires most >= 1 && 0 <= d < span && after < 0 && one.window == [span]
    ensures Run(one, Burst(most, span - d, most - 1), span) == last
    ensures |Recent(last.recorded, after, span - d)| == |Recent(one.recorded, after, span - d)| + (most - 1)
  {
    BurstAdmitted(one, most, span - d, most - 1, span - d, span, after, span - d, span);
    last := Run(one, Burst(most, span - d, most - 1), span);
  }

  /** The early burst and the late calls fall in one interval a tick longer than the guarantee. */
  lemma LateCallsAdmitted(most: int, d: int, span: int, after: int) returns (last: Ledger)
    requires most >= 2 && 0 <= d < span && after < 0
    ensures Run(EMPTY, LateCalls(most, d, span), span) == last
    ensures |Recent(last.recorded, after, span - d)| >= most + (most - 1)
  {
    var full := FirstBurst(most, after, span - d, span);
    var one := FastCall(full, most, after, span - d, span);
    last := SecondBurst(one, most, d, after, span);
    RunThrough(EMPTY, LateCalls(most, d, span), Burst(most, 0, most), full, Call(most, span), one,
               Burst(most, span - d, most - 1), last, span);
  }

  lemma LateAdmissions(width: int, most: int, d: int, span: int)
    requires most >= 2 && 0 <= d < span && span - d < width
    ensures !Guaranteed(width, most, d, span)
  {
    LateCallsLate(most, d, span);
    LateCallsLimited(most, d, span);
    var last := LateCallsAdmitted(most, d, span, span - d - width);
    Refutes(LateCalls(most, d, span), 0, last, width, most, d, span - d, span);
  }

  /** One run with too many admissions in one interval. */
  lemma Refutes(calls: seq<Call>, latest: int, last: Ledger, width: int, most: int, d: int, x: int, span: int)
    requires LateByAtMost(latest, calls, d) && LimitsAtMost(calls, most)
    requires Run(EMPTY, calls, span) == last && |Recent(last.recorded, x - width, x)| > most
    ensures !Guaranteed(width, most, d, span)
  {
    assert !AtMostEndingAt(last.recorded, width, most, x);
    assert !Bounded(last.recorded, width, most);
  }

  // ---------------------------------------------------------------- when to retry

  function AfterCalls(window: seq<int>, limit: int, times: seq<int>, span: int): seq<int>
    decreases |times|
  {
    if times == [] then window
    else AfterCalls(AfterAllow(window, limit, times[0], span), limit, times[1..], span)
  }

  predicate AllRejected(window: seq<int>, limit: int, times: seq<int>, span: int)
    decreases |times|
  {
    times == [] ||
    (&& !AllowAnswer(window, limit, times[0], span).allowed
     && AllRejected(AfterAllow(window, limit, times[0], span), limit, times[1..], span))
  }

  lemma SortedPrune(window: seq<int>, cutoff: int, j: nat)
    requires Sorted(window) && j < |window|
    ensures StaleTo(window, cutoff, 0) <= j <==> window[j] > cutoff
  {
  }

  function Max(s: seq<int>): (m: int)
    requires s != []
    ensures exists i :: 0 <= i < |s| && s[i] == m
    ensures forall i :: 0 <= i < |s| ==> s[i] <= m
  {
    if |s| == 1 then s[0]
    else
      var n := |s| - 1;
      var front := Max(s[..n]);
      if front < s[n] then s[n] else front
  }

  /** The entry that must expire before a window of at least `limit` entries admits again: pruning
      stops at the first live entry, so it is the youngest of all but the last limit - 1. */
  function MustExpire(window: seq<int>, limit: int): int
    requires 0 < limit <= |window|
  {
    Max(window[..|window| - limit + 1])
  }

  lemma MustExpireExact(window: seq<int>, limit: int, cutoff: int)
    requires 0 < limit <= |window|
    ensures |Pruned(window, cutoff)| >= limit <==> MustExpire(window, limit) > cutoff
  {
    var first := StaleTo(window, cutoff, 0);
    var front := window[..|window| - limit + 1];
    var i :| 0 <= i < |front| && front[i] == Max(front);
    if first < |front| {
      assert front[first] == window[first];
    } else {
      assert front[i] == window[i];
    }
  }

  /** Dropping leading entries below the maximum keeps the maximum. */
  lemma MaxOfTail(s: seq<int>, first: nat)
    requires first < |s| && forall i :: 0 <= i < first ==> s[i] < Max(s)
    ensures Max(s[first..]) == Max(s)
  {
    var i :| 0 <= i < |s| && s[i] == Max(s);
    assert s[first..][i - first] == Max(s);
    var j :| 0 <= j < |s[first..]| && s[first..][j] == Max(s[first..]);
    assert s[first + j] == Max(s[first..]);
  }

  /** Rejected calls only drop what has expired, and never the entry that must expire. */
  lemma RejectedKeepsMustExpire(window: seq<int>, limit: int, cutoff: int)
    requires 0 < limit <= |window| && MustExpire(window, limit) > cutoff
    ensures limit <= |Pruned(window, cutoff)|
    ensures MustExpire(Pruned(window, cutoff), limit) == MustExpire(window, limit)
  {
    MustExpireExact(window, limit, cutoff);
    var first := StaleTo(window, cutoff, 0);
    var front := window[..|window| - limit + 1];
    assert forall i :: 0 <= i < first ==> front[i] == window[i] <= cutoff;
    MaxOfTail(front, first);
    SameFront(window, limit, first);
  }

  lemma SameFront(window: seq<int>, limit: int, first: nat)
    requires 0 < limit && first + limit <= |window|
    ensures window[..|window| - limit + 1][first..] == window[first..][..|window| - first - limit + 1]
  {
  }

  /**
   When a full window opens again, whatever the clock did before.  Take a window of at least `limit`
   entries and keep calling with that limit: every call is rejected, and changes nothing but what has
   expired, until the instant MustExpire + span, and the first call from then on is admitted.
   */
  lemma {:induction false} NextAdmission(window: seq<int>, limit: int, due: int, times: seq<int>, t: int, span: int)
    requires 0 < limit <= |window| && due == MustExpire(window, limit)
    requires forall i :: 0 <= i < |times| ==> times[i] < due + span
    ensures AllRejected(window, limit, times, span)
    ensures AllowAnswer(AfterCalls(window, limit, times, span), limit, t, span).allowed <==> t >= due + span
    decreases |times|
  {
    if times == [] {
      MustExpireExact(window, limit, t - span);
    } else {
      RejectedCall(window, limit, times[0], span);
      NextAdmission(AfterAllow(window, limit, times[0], span), limit, due, times[1..], t, span);
    }
  }

  lemma RejectedCall(window: seq<int>, limit: int, now: int, span: int)
    requires 0 < limit <= |window| && now < MustExpire(window, limit) + span
    ensures !AllowAnswer(window, limit, now, span).allowed
    ensures var next := AfterAllow(window, limit, now, span);
            limit <= |next| && MustExpire(next, limit) == MustExpire(window, limit)
  {
    RejectedKeepsMustExpire(window, limit, now - span);
    RejectedAfter(window, limit, now, span);
  }

  lemma RejectedAfter(window: seq<int>, limit: int, now: int, span: int)
    requires 0 < limit <= |Pruned(window, now - span)|
    ensures !AllowAnswer(window, limit, now, span).allowed
    ensures AfterAllow(window, limit, now, span) == Pruned(window, now - span)
  {
  }

  /** The instant at which the window a rejection leaves admits again. */
  function Reopens(window: seq<int>, limit: int, now: int, span: int): int
    requires !AllowAnswer(window, limit, now, span).allowed
  {
    MustExpire(Pruned(window, now - span), limit) + span
  }

  /**
   The retry time of a rejection at `now`, for any window and any clock, is a lower bound on the next
   admission under the same limit.  It is the exact instant if and only if no entry that must expire is
   younger than the oldest retained one; in particular whenever exactly `limit` entries are retained.
   (A limit lowered by a reload can leave more.)
   */
  lemma RetryTight(window: seq<int>, limit: int, now: int, times: seq<int>, t: int, span: int)
    requires !AllowAnswer(window, limit, now, span).allowed
    requires forall i :: 0 <= i < |times| ==> times[i] < Reopens(window, limit, now, span)
    ensures var kept := Pruned(window, now - span);
            var retry := AllowAnswer(window, limit, now, span).retryAfter;
            var left := AfterCalls(AfterAllow(window, limit, now, span), limit, times, span);
            && AllRejected(AfterAllow(window, limit, now, span), limit, times, span)
            && (AllowAnswer(left, limit, t, span).allowed <==> t >= Reopens(window, limit, now, span))
            && now + retry <= Reopens(window, limit, now, span)
            && (now + retry == Reopens(window, limit, now, span) <==> MustExpire(kept, limit) == kept[0])
            && (|kept| == limit ==> now + retry == Reopens(window, limit, now, span))
  {
    NextAdmission(Pruned(window, now - span), limit, Reopens(window, limit, now, span) - span, times, t, span);
    RetryIsOldest(window, limit, now, span);
  }

  lemma RetryIsOldest(window: seq<int>, limit: int, now: int, span: int)
    requires !AllowAnswer(window, limit, now, span).allowed
    ensures var kept := Pruned(window, now - span);
            && kept != []
            && now + AllowAnswer(window, limit, now, span).retryAfter == kept[0] + span
            && kept[0] <= MustExpire(kept, limit)
            && (|kept| == limit ==> kept[0] == MustExpire(kept, limit))
  {
    RetryClampUnreachable(window, limit, now, span);
    var kept := Pruned(window, now - span);
    var front := kept[..|kept| - limit + 1];
    assert front[0] == kept[0];
    var i :| 0 <= i < |front| && front[i] == Max(front);
  }

  /** The Retry-After header (section 10.2.3 of RFC 9110) is the retry time rounded to the nearest
      second, halves up, and at least 1. */
  function HeaderSeconds(retryAfter: int): int
    requires retryAfter > 0
  {
    var rest := retryAfter % SECOND;
    var rounded := if rest + rest < SECOND then retryAfter - rest else retryAfter + SECOND - rest;
    if rounded / SECOND < 1 then 1 else rounded / SECOND
  }

  /** It is early by less than half a second, and early at all exactly when the retry time is at least
      a second and its fraction is below one half but not zero. */
  lemma HeaderEarlyIff(retryAfter: int)
    requires retryAfter > 0
    ensures var h := HeaderSeconds(retryAfter) * SECOND;
            && 2 * (retryAfter - h) < SECOND
            && (h < retryAfter <==>
                  retryAfter >= SECOND && 0 < retryAfter % SECOND && 2 * (retryAfter % SECOND) < SECOND)
            && (h > retryAfter + SECOND / 2 ==> HeaderSeconds(retryAfter) == 1)
  {
  }

  // ---------------------------------------------------------------- the object

  class RateWindow {
    var start: int
    var count: nat
    var requests: array<int>
    var len: nat

    /** The slice in use; `count` and `start` are kept in step with it. */
    predicate Valid()
      reads this, requests
    {
      && len <= requests.Length
      && count == len
      && start == (if len == 0 then 0 else requests[0])
    }

    function Contents(): seq<int>
      reads this, requests
      requires len <= requests.Length
    {
      requests[..len]
    }

    constructor ()
      ensures Valid() && fresh(requests) && Contents() == []
    {
      start := 0;
      count := 0;
      requests := new int[0];
      len := 0;
    }

    method Allow(limit: int, now: int) returns (allowed: bool, retryAfter: int)
      requires Valid()
      modifies this, requests
      ensures Valid() && (requests == old(requests) || fresh(requests))
      ensures Answer(allowed, retryAfter) == AllowAnswer(old(Contents()), limit, now, MINUTE)
      ensures Contents() == AfterAllow(old(Contents()), limit, now, MINUTE)
    {
      if limit <= 0 {
        return true, 0;
      }
      ghost var kept := Pruned(Contents(), now - MINUTE);
      Prune(now);
      assert len == |kept| && (len > 0 ==> requests[0] == kept[0]);
      if len >= limit {
        var reset := MINUTE - (now - requests[0]);
        if reset < 0 {
          reset := 0;
        }
        SyncCompatFields();
        return false, reset;
      }
      Append(now);
      SyncCompatFields();
      assert Contents() == kept + [now];
      return true, 0;
    }

    method ResetAfter(now: int) returns (reset: int)
      requires Valid()
      modifies this, requests
      ensures Valid() && requests == old(requests)
      ensures Contents() == Pruned(old(Contents()), now - MINUTE)
      ensures reset == if Contents() == [] then 0 else Contents()[0] + MINUTE - now
    {
      PrunedFirst(Contents(), now - MINUTE);
      ghost var kept := Pruned(Contents(), now - MINUTE);
      Prune(now);
      SyncCompatFields();
      if len == 0 {
        return 0;
      }
      assert requests[0] == kept[0];
      reset := MINUTE - (now - requests[0]);
      if reset < 0 {
        return 0;
      }
    }

    /** Drop the expired prefix and shift the rest down in place. */
    method Prune(now: int)
      requires len <= requests.Length
      modifies this`len, requests
      ensures len <= requests.Length
      ensures Contents() == Pruned(old(Contents()), now - MINUTE)
    {
      if len == 0 {
        return;
      }
      var cutoff := now - MINUTE;
      var first := 0;
      while first < len && !(requests[first] > cutoff)
        invariant first <= len
        invariant StaleTo(Contents(), cutoff, 0) == StaleTo(Contents(), cutoff, first)
      {
        first := first + 1;
      }
      if first == 0 {
        return;
      }
      ShiftDown(first);
    }

    /** copy(requests, requests[first:]) and reslice. */
    method ShiftDown(first: nat)
      requires first <= len <= requests.Length
      modifies this`len, requests
      ensures len == old(len) - first
      ensures Contents() == old(Contents())[first..]
    {
      ghost var was := requests[..];
      var i := 0;
      while i < len - first
        invariant len == old(len) && 0 <= i <= len - first
        invariant forall k :: 0 <= k < i ==> requests[k] == was[k + first]
        invariant forall k :: i <= k < len ==> requests[k] == was[k]
      {
        requests[i] := requests[i + first];
        i := i + 1;
      }
      len := len - first;
      assert forall k :: 0 <= k < len ==> Contents()[k] == was[..old(len)][first..][k];
    }

    /** append: grow the backing array when it is full. */
    method Append(now: int)
      requires len <= requests.Length
      modifies this`len, this`requests, requests
      ensures len <= requests.Length && (requests == old(requests) || fresh(requests))
      ensures Contents() == old(Contents()) + [now]
    {
      if len == requests.Length {
        var grown := new int[2 * len + 1];
        forall i | 0 <= i < len {
          grown[i] := requests[i];
        }
        requests := grown;
      }
      requests[len] := now;
      len := len + 1;
    }

    method SyncCompatFields()
      requires len <= requests.Length
      modifies this`count, this`start
      ensures Valid()
    {
      count := len;
      if len == 0 {
        start := 0;
        return;
      }
      start := requests[0];
    }
  }
}
