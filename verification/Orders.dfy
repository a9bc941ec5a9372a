/**
 Two orders of the same outcomes.

 A breaker follows the order in which permits come back, the counters the order in which completions
 are counted.  SafeOrder says exactly when the two failing tails agree, whichever requests fail.
 */
module Orders {
  import opened BreakerRuns

  /** Which requests fail. */
  type Failing = nat -> bool

  function Outcomes(order: seq<nat>, fails: Failing): (outcomes: seq<bool>)
    ensures |outcomes| == |order|
    ensures forall i :: 0 <= i < |order| ==> outcomes[i] == fails(order[i])
  {
    seq(|order|, i requires 0 <= i < |order| => fails(order[i]))
  }

  predicate Distinct(order: seq<nat>) {
    forall i, j :: 0 <= i < j < |order| ==> order[i] != order[j]
  }

  /** Two orders of the same requests. */
  ghost predicate SameRequests(order1: seq<nat>, order2: seq<nat>) {
    && |order1| == |order2|
    && Distinct(order1) && Distinct(order2)
    && (forall r :: r in order1 <==> r in order2)
  }

  /** The two orders agree on their last `k` places. */
  predicate SameLast(order1: seq<nat>, order2: seq<nat>, k: int)
    requires |order1| == |order2|
  {
    forall i :: 0 <= i < |order1| && |order1| - k <= i ==> order1[i] == order2[i]
  }

  /** A failing tail is determined by where it starts. */
  lemma {:induction false} TailIs(outcomes: seq<bool>, n: nat)
    requires n <= |outcomes|
    requires forall i :: |outcomes| - n <= i < |outcomes| ==> outcomes[i]
    requires n < |outcomes| ==> !outcomes[|outcomes| - n - 1]
    ensures TrailingFailures(outcomes) == n
  {
    if n > 0 {
      TailIs(outcomes[..|outcomes| - 1], n - 1);
    }
  }

  /** The outcomes in some order, after `start` failures from before. */
  function OutcomesAfter(start: nat, order: seq<nat>, fails: Failing): (outcomes: seq<bool>)
    ensures |outcomes| == start + |order|
    ensures forall i :: 0 <= i < start ==> outcomes[i]
    ensures forall i :: start <= i < start + |order| ==> outcomes[i] == fails(order[i - start])
  {
    AlreadyFailed(start) + Outcomes(order, fails)
  }

  /**
   The safe orders, for a breaker with `start` failures counted.  The last `threshold` permits come back
   in the order of counting; or the threshold is one, and nothing may have failed; or the breaker is one
   failure from tripping, the last `threshold` - 1 permits come back in the order of counting, and the
   first permit to come back is that of the request counted just before those.
   */
  predicate SafeOrder(counted: seq<nat>, returned: seq<nat>, threshold: int, start: nat)
    requires |counted| == |returned|
  {
    || threshold == 1
    || SameLast(counted, returned, threshold)
    || (&& start == threshold - 1
        && 0 < threshold <= |counted|
        && SameLast(counted, returned, threshold - 1)
        && returned[0] == counted[|counted| - threshold])
  }

  lemma SafeOrderAgrees(counted: seq<nat>, returned: seq<nat>, threshold: int, start: nat, fails: Failing)
    requires SameRequests(counted, returned) && 0 <= start < threshold
    requires SafeOrder(counted, returned, threshold, start)
    requires !HasFailureBlock(OutcomesAfter(start, returned, fails), threshold)
    ensures TrailingFailures(OutcomesAfter(start, counted, fails))
            == TrailingFailures(OutcomesAfter(start, returned, fails))
  {
    if threshold == 1 {
      NoFailures(counted, returned, fails);
      TailIs(OutcomesAfter(0, counted, fails), 0);
      TailIs(OutcomesAfter(0, returned, fails), 0);
    } else if SameLast(counted, returned, threshold) {
      SameLastAgrees(counted, returned, threshold, start, fails);
    } else {
      OneFromTrippingAgrees(counted, returned, threshold, start, fails);
    }
  }

  lemma TailBelow(outcomes: seq<bool>, threshold: int)
    requires threshold >= 1 && !HasFailureBlock(outcomes, threshold)
    ensures TrailingFailures(outcomes) < threshold
  {
    assert !FailsFrom(outcomes, |outcomes| - threshold, threshold);
  }

  lemma SameLastAgrees(counted: seq<nat>, returned: seq<nat>, threshold: int, start: nat, fails: Failing)
    requires |counted| == |returned| && threshold >= 1 && SameLast(counted, returned, threshold)
    requires !HasFailureBlock(OutcomesAfter(start, returned, fails), threshold)
    ensures TrailingFailures(OutcomesAfter(start, counted, fails))
            == TrailingFailures(OutcomesAfter(start, returned, fails))
  {
    var outs, backs := OutcomesAfter(start, counted, fails), OutcomesAfter(start, returned, fails);
    var m := TrailingFailures(backs);
    TailBelow(backs, threshold);
    assert forall i :: 0 <= i < |backs| && |backs| - threshold <= i ==> outs[i] == backs[i];
    TailIs(outs, m);
  }

  lemma OneFromTrippingAgrees(counted: seq<nat>, returned: seq<nat>, threshold: int, start: nat, fails: Failing)
    requires |counted| == |returned| && 2 <= threshold <= |counted| && start == threshold - 1
    requires SameLast(counted, returned, threshold - 1) && returned[0] == counted[|counted| - threshold]
    requires !HasFailureBlock(OutcomesAfter(start, returned, fails), threshold)
    ensures TrailingFailures(OutcomesAfter(start, counted, fails))
            == TrailingFailures(OutcomesAfter(start, returned, fails))
  {
    var outs, backs := OutcomesAfter(start, counted, fails), OutcomesAfter(start, returned, fails);
    var before := |counted| - threshold;
    FirstSucceeds(returned, threshold, fails);
    TailBelow(backs, threshold);
    SameOutcomes(counted, returned, threshold - 1, start, fails);
    assert outs[start + before] == fails(counted[before]);
    SameTail(outs, backs, threshold);
  }

  /** Equal last places give equal last outcomes. */
  lemma SameOutcomes(counted: seq<nat>, returned: seq<nat>, k: int, start: nat, fails: Failing)
    requires |counted| == |returned| && 0 <= k <= |counted| && SameLast(counted, returned, k)
    ensures var (outs, backs) := (OutcomesAfter(start, counted, fails), OutcomesAfter(start, returned, fails));
            forall i :: |backs| - k <= i < |backs| ==> outs[i] == backs[i]
  {
    var outs, backs := OutcomesAfter(start, counted, fails), OutcomesAfter(start, returned, fails);
    forall i | |backs| - k <= i < |backs| ensures outs[i] == backs[i] {
      assert counted[i - start] == returned[i - start];
    }
  }

  /** One failure from tripping, a breaker that never trips has had a success first. */
  lemma FirstSucceeds(returned: seq<nat>, threshold: int, fails: Failing)
    requires threshold >= 1 && returned != []
    requires !HasFailureBlock(OutcomesAfter(threshold - 1, returned, fails), threshold)
    ensures !fails(returned[0])
  {
    assert !FailsFrom(OutcomesAfter(threshold - 1, returned, fails), 0, threshold);
  }

  lemma SameTail(outs: seq<bool>, backs: seq<bool>, threshold: int)
    requires |outs| == |backs| && 1 <= threshold <= |outs| && TrailingFailures(backs) < threshold
    requires forall i :: |backs| - (threshold - 1) <= i < |backs| ==> outs[i] == backs[i]
    requires !outs[|outs| - threshold]
    ensures TrailingFailures(outs) == TrailingFailures(backs)
  {
    TailIs(outs, TrailingFailures(backs));
  }

  lemma NoFailures(counted: seq<nat>, returned: seq<nat>, fails: Failing)
    requires SameRequests(counted, returned) && !HasFailureBlock(OutcomesAfter(0, returned, fails), 1)
    ensures forall i :: 0 <= i < |counted| ==> !fails(counted[i])
    ensures forall i :: 0 <= i < |returned| ==> !fails(returned[i])
  {
    forall j | 0 <= j < |returned| ensures !fails(returned[j]) {
      assert !FailsFrom(OutcomesAfter(0, returned, fails), j, 1);
    }
    forall i | 0 <= i < |counted| ensures !fails(counted[i]) {
      assert counted[i] in returned;
    }
  }

  /** The last place at which two orders differ. */
  lemma {:induction false} LastDifference(order1: seq<nat>, order2: seq<nat>, k: int) returns (last: nat)
    requires |order1| == |order2| && !SameLast(order1, order2, k)
    ensures last < |order1| && |order1| - k <= last && order1[last] != order2[last]
    ensures forall i :: last < i < |order1| ==> order1[i] == order2[i]
  {
    var n := |order1|;
    last := n - 1;
    while order1[last] == order2[last]
      invariant last < n && n - k <= last
      invariant forall i :: last < i < n ==> order1[i] == order2[i]
      invariant exists i :: 0 <= i <= last && n - k <= i && order1[i] != order2[i]
      decreases last
    {
      last := last - 1;
    }
  }

  /** The outcomes that tell two orders apart: all those after their last difference fail, and so does
      the request counted there. */
  function Telling(counted: seq<nat>, last: nat): Failing
    requires last < |counted|
  {
    r => r in counted[last..]
  }

  lemma SameElement(order: seq<nat>, i: nat, j: nat)
    requires Distinct(order) && i < |order| && j < |order|
    ensures order[i] == order[j] <==> i == j
  {
  }

  lemma InTail(counted: seq<nat>, last: nat, i: nat)
    requires Distinct(counted) && last < |counted| && i < |counted|
    ensures Telling(counted, last)(counted[i]) <==> i >= last
  {
    if i >= last {
      assert counted[last..][i - last] == counted[i];
    } else {
      forall j | 0 <= j < |counted[last..]| ensures counted[last..][j] != counted[i] {
        SameElement(counted, last + j, i);
      }
    }
  }

  lemma TellingTail(order: seq<nat>, last: nat, start: nat)
    requires Distinct(order) && 0 < last < |order|
    ensures TrailingFailures(OutcomesAfter(start, order, Telling(order, last))) == |order| - last
    ensures forall i :: 0 <= i < |order| ==> (Telling(order, last)(order[i]) <==> i >= last)
  {
    forall i | 0 <= i < |order| ensures Telling(order, last)(order[i]) <==> i >= last {
      InTail(order, last, i);
    }
    TailIs(OutcomesAfter(start, order, Telling(order, last)), |order| - last);
  }

  /** In the other order exactly one request before the difference fails, the one at the difference
      does not, and those after it do. */
  lemma TellingReturned(counted: seq<nat>, returned: seq<nat>, last: nat) returns (early: nat)
    requires SameRequests(counted, returned) && last < |counted| && counted[last] != returned[last]
    requires forall i :: last < i < |counted| ==> counted[i] == returned[i]
    ensures early < last && returned[early] == counted[last]
    ensures forall i :: 0 <= i < |returned| ==>
              (Telling(counted, last)(returned[i]) <==> i == early || i > last)
  {
    assert counted[last] in returned;
    early :| 0 <= early < |returned| && returned[early] == counted[last];
    SameElement(counted, early, last);
    forall i | 0 <= i < |returned|
      ensures Telling(counted, last)(returned[i]) <==> i == early || i > last
    {
      assert returned[i] in counted;
      var j :| 0 <= j < |counted| && counted[j] == returned[i];
      InTail(counted, last, j);
      SameElement(returned, i, early);
      SameElement(returned, i, j);
      SameElement(counted, i, j);
      SameElement(counted, j, last);
    }
  }

  /** One failure before `last`, none at it, failures after it: no long block if the tail is short and
      the early failure does not complete one with the start. */
  lemma NoLongBlock(outcomes: seq<bool>, start: nat, early: nat, last: nat, threshold: int)
    requires threshold >= 2 && start < threshold && start <= early < last < |outcomes| && |outcomes| - last <= threshold
    requires forall i :: 0 <= i < |outcomes| ==> (outcomes[i] <==> i < start || i == early || i > last)
    requires early > start || start + 1 < threshold
    ensures !HasFailureBlock(outcomes, threshold)
    ensures TrailingFailures(outcomes) == |outcomes| - last - 1
  {
    forall i ensures !FailsFrom(outcomes, i, threshold) {
      if 0 <= i <= |outcomes| - threshold {
        var gap := if i + threshold > last then last
                   else if early > start && i <= start then start
                   else if early == start && i <= start + 1 then start + 1
                   else if i == early then i + 1
                   else i;
        assert i <= gap < i + threshold && !outcomes[gap];
      }
    }
    TailIs(outcomes, |outcomes| - last - 1);
  }

  /** Only the start and a short tail fail. */
  lemma NoBlockButTail(outcomes: seq<bool>, start: nat, last: nat, threshold: int)
    requires start < last < |outcomes| && start < threshold && |outcomes| - last < threshold
    requires forall i :: 0 <= i < |outcomes| ==> (outcomes[i] <==> i < start || i >= last)
    ensures !HasFailureBlock(outcomes, threshold)
  {
    forall i ensures !FailsFrom(outcomes, i, threshold) {
      if 0 <= i <= |outcomes| - threshold {
        var gap := if i <= start then start else i;
        assert i <= gap < i + threshold && !outcomes[gap];
      }
    }
  }

  /** Fail the request counted at the last difference, and all after it. */
  lemma FailCounted(counted: seq<nat>, returned: seq<nat>, last: nat, early: nat, threshold: int, start: nat)
    requires SameRequests(counted, returned) && 2 <= threshold && start < threshold && early < last < |counted|
    requires |counted| - last <= threshold && (early > 0 || start + 1 < threshold)
    requires forall i :: 0 <= i < |returned| ==> (Telling(counted, last)(returned[i]) <==> i == early || i > last)
    ensures var fails := Telling(counted, last);
            && !HasFailureBlock(OutcomesAfter(start, returned, fails), threshold)
            && TrailingFailures(OutcomesAfter(start, counted, fails))
               != TrailingFailures(OutcomesAfter(start, returned, fails))
  {
    TellingTail(counted, last, start);
    NoLongBlock(OutcomesAfter(start, returned, Telling(counted, last)), start, start + early, start + last, threshold);
  }

  /** Or fail the one returned there, and all after it. */
  lemma FailReturned(counted: seq<nat>, returned: seq<nat>, last: nat, threshold: int, start: nat)
    requires SameRequests(counted, returned) && start < threshold && 0 < last < |counted|
    requires |counted| - last < threshold && counted[last] != returned[last]
    requires forall i :: last < i < |counted| ==> counted[i] == returned[i]
    ensures var fails := Telling(returned, last);
            && !HasFailureBlock(OutcomesAfter(start, returned, fails), threshold)
            && TrailingFailures(OutcomesAfter(start, counted, fails))
               != TrailingFailures(OutcomesAfter(start, returned, fails))
  {
    TellingTail(returned, last, start);
    TailOnly(returned, last, threshold, start, Telling(returned, last));
    var early := TellingReturned(returned, counted, last);
    OtherTail(counted, last, early, start, Telling(returned, last));
  }

  lemma TailOnly(order: seq<nat>, last: nat, threshold: int, start: nat, fails: Failing)
    requires start < threshold && 0 < last < |order| && |order| - last < threshold
    requires forall i :: 0 <= i < |order| ==> (fails(order[i]) <==> i >= last)
    ensures !HasFailureBlock(OutcomesAfter(start, order, fails), threshold)
  {
    NoBlockButTail(OutcomesAfter(start, order, fails), start, start + last, threshold);
  }

  lemma OtherTail(order: seq<nat>, last: nat, early: nat, start: nat, fails: Failing)
    requires early < last < |order|
    requires forall i :: 0 <= i < |order| ==> (fails(order[i]) <==> i == early || i > last)
    ensures TrailingFailures(OutcomesAfter(start, order, fails)) == |order| - last - 1
  {
    TailIs(OutcomesAfter(start, order, fails), |order| - last - 1);
  }

  /** Necessary: orders that are not safe are told apart by some outcomes under which the breaker stays
      closed. */
  lemma DifferenceTells(counted: seq<nat>, returned: seq<nat>, threshold: int, start: nat) returns (fails: Failing)
    requires SameRequests(counted, returned) && 0 <= start < threshold
    requires !SafeOrder(counted, returned, threshold, start)
    ensures !HasFailureBlock(OutcomesAfter(start, returned, fails), threshold)
    ensures TrailingFailures(OutcomesAfter(start, counted, fails))
            != TrailingFailures(OutcomesAfter(start, returned, fails))
  {
    var last := LastDifference(counted, returned, threshold);
    var early := TellingReturned(counted, returned, last);
    if early > 0 || start + 1 < threshold {
      fails := Telling(counted, last);
      FailCounted(counted, returned, last, early, threshold, start);
    } else {
      InTail(counted, last, last);
      OneShort(counted, returned, threshold, start, last);
      fails := Telling(returned, last);
      FailReturned(counted, returned, last, threshold, start);
    }
  }

  /** When the first permit to come back is that of the last difference and one failure is left, a
      difference a full threshold from the end is safe. */
  lemma OneShort(counted: seq<nat>, returned: seq<nat>, threshold: int, start: nat, last: nat)
    requires |counted| == |returned| && last < |counted| && |counted| - threshold <= last && start + 1 == threshold
    requires forall i :: last < i < |counted| ==> counted[i] == returned[i]
    requires returned[0] == counted[last] && !SafeOrder(counted, returned, threshold, start)
    ensures |counted| - last < threshold
  {
  }

  /** The order of counting and the order of return are interchangeable for a breaker that stays closed,
      whatever the outcomes, exactly when they are safe. */
  lemma OrdersAgreeIff(counted: seq<nat>, returned: seq<nat>, threshold: int, start: nat)
    requires SameRequests(counted, returned) && 0 <= start < threshold
    ensures (forall fails: Failing :: !HasFailureBlock(OutcomesAfter(start, returned, fails), threshold) ==>
               TrailingFailures(OutcomesAfter(start, counted, fails))
                 == TrailingFailures(OutcomesAfter(start, returned, fails)))
            <==> SafeOrder(counted, returned, threshold, start)
  {
    if SafeOrder(counted, returned, threshold, start) {
      forall fails: Failing | !HasFailureBlock(OutcomesAfter(start, returned, fails), threshold)
        ensures TrailingFailures(OutcomesAfter(start, counted, fails))
                == TrailingFailures(OutcomesAfter(start, returned, fails)) {
        SafeOrderAgrees(counted, returned, threshold, start, fails);
      }
    } else {
      var fails := DifferenceTells(counted, returned, threshold, start);
    }
  }
}
