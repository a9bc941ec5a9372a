/**
 The shared sliding window (internal/gateway/ratelimit_redis.go): a Lua script over one Redis sorted
 set, called by any number of gateway instances.

 Redis keeps a sorted set as a finite map from member to score; script time is the server's clock in
 milliseconds.  A key past its expiry may be dropped by the server at any moment.
 */
module RedisWindow {
  import opened Common
  import W = SlidingWindow

  const WINDOW_MS: int := 60000
  const TTL_MS: int := 61000

  function Nanoseconds(milliseconds: int): int {
    milliseconds * 1_000_000
  }

  // ---------------------------------------------------------------- members

  function Member(instance: string, n: nat): string {
    instance + ":" + Decimal(n)
  }

  lemma DigitInjective(a: nat, b: nat)
    requires a < 10 && b < 10 && Digit(a) == Digit(b)
    ensures a == b
  {
  }

  lemma {:induction false} DecimalInjective(a: nat, b: nat)
    requires Decimal(a) == Decimal(b)
    ensures a == b
  {
    var last := |Decimal(a)| - 1;
    if a < 10 {
      DigitInjective(a, b);
    } else {
      assert Decimal(a)[..last] == Decimal(a / 10) && Decimal(b)[..last] == Decimal(b / 10);
      assert Decimal(a)[last] == Digit(a % 10) && Decimal(b)[last] == Digit(b % 10);
      DecimalInjective(a / 10, b / 10);
      DigitInjective(a % 10, b % 10);
    }
  }

  /** Members of different instances, or of different calls of one instance, never coincide, whatever
      characters the instance names contain. */
  lemma MemberInjective(i1: string, n1: nat, i2: string, n2: nat)
    requires Member(i1, n1) == Member(i2, n2)
    ensures i1 == i2 && n1 == n2
  {
    var m := Member(i1, n1);
    LastColon(i1, n1);
    LastColon(i2, n2);
    assert |i1| == |i2|;
    assert m[..|i1|] == i1 && m[..|i2|] == i2;
    assert m[|i1| + 1..] == Decimal(n1) && m[|i2| + 1..] == Decimal(n2);
    DecimalInjective(n1, n2);
  }

  lemma LastColon(instance: string, n: nat)
    ensures var m := Member(instance, n);
            |instance| < |m| && m[|instance|] == ':' && forall k :: |instance| < k < |m| ==> m[k] != ':'
  {
    var m := Member(instance, n);
    forall k | |instance| < k < |m| ensures m[k] != ':' {
      assert m[k] == Decimal(n)[k - |instance| - 1];
    }
  }

  // ---------------------------------------------------------------- the script

  type SortedSet = map<string, int>

  datatype Key = Key(items: SortedSet, expireAt: int)

  datatype Reply = Reply(admitted: int, retry: int)

  /** The lowest score, which ZRANGE key 0 0 WITHSCORES reports. */
  ghost predicate IsLowest(items: SortedSet, member: string) {
    member in items && forall m :: m in items ==> items[member] <= items[m]
  }

  lemma {:induction false} LowestExists(items: SortedSet)
    requires items != map[]
    ensures exists member :: IsLowest(items, member)
    decreases |items|
  {
    var m :| m in items;
    var rest := items - {m};
    if rest == map[] {
      assert forall k :: k in items && k != m ==> k in rest;
      assert IsLowest(items, m);
    } else {
      assert rest.Keys == items.Keys - {m};
      LowestExists(rest);
      var low :| IsLowest(rest, low);
      var best := if items[m] <= items[low] then m else low;
      forall k | k in items ensures items[best] <= items[k] {
        if k != m {
          assert k in rest;
        }
      }
      assert IsLowest(items, best);
    }
  }

  ghost function LowestScore(items: SortedSet): int
    requires items != map[]
  {
    LowestExists(items);
    var member :| IsLowest(items, member);
    items[member]
  }

  function Unexpired(items: SortedSet, cutoff: int): SortedSet {
    map m | m in items && items[m] > cutoff :: items[m]
  }

  ghost function ScriptReply(items: SortedSet, limit: int, now: int): Reply {
    var kept := Unexpired(items, now - WINDOW_MS);
    if |kept| < limit then Reply(1, 0)
    else if kept == map[] then Reply(0, 1)
    else
      var left := WINDOW_MS - (now - LowestScore(kept));
      Reply(0, if left < 1 then 1 else left)
  }

  function AfterScript(items: SortedSet, limit: int, member: string, now: int): Key {
    var kept := Unexpired(items, now - WINDOW_MS);
    Key(if |kept| < limit then kept[member := now] else kept, now + TTL_MS)
  }

  /** One Redis key, the script's commands and the script. */
  class Store {
    var items: SortedSet
    var expireAt: int

    function Value(): Key
      reads this
    {
      Key(items, expireAt)
    }

    constructor ()
      ensures items == map[]
    {
      items := map[];
      expireAt := 0;
    }

    /** The server drops the key; it may do so only once the key has expired. */
    method Expire(now: int)
      requires now >= expireAt
      modifies this
      ensures items == map[] && expireAt == old(expireAt)
    {
      items := map[];
    }

    method ZRemRangeByScore(cutoff: int)
      modifies this
      ensures items == Unexpired(old(items), cutoff) && expireAt == old(expireAt)
    {
      items := map m | m in items && items[m] > cutoff :: items[m];
    }

    method OldestScore() returns (score: int)
      requires items != map[]
      ensures score == LowestScore(items)
    {
      LowestExists(items);
      var members := items.Keys;
      var first :| first in members;
      score := items[first];
      members := members - {first};
      while members != {}
        invariant members <= items.Keys
        invariant exists m :: m in items && items[m] == score
        invariant forall m :: m in items && m !in members ==> score <= items[m]
        decreases |members|
      {
        var m :| m in members;
        if items[m] < score {
          score := items[m];
        }
        members := members - {m};
      }
    }

    method Evaluate(limit: int, member: string, now: int) returns (reply: Reply)
      modifies this
      ensures reply == ScriptReply(old(items), limit, now)
      ensures Value() == AfterScript(old(items), limit, member, now)
    {
      var cutoff := now - WINDOW_MS;
      ZRemRangeByScore(cutoff);
      var count := |items|;
      if count >= limit {
        var retry := 1;
        if items != map[] {
          var oldest := OldestScore();
          retry := WINDOW_MS - (now - oldest);
          if retry < 1 {
            retry := 1;
          }
        }
        expireAt := now + TTL_MS;
        return Reply(0, retry);
      }
      items := items[member := now];
      expireAt := now + TTL_MS;
      return Reply(1, 0);
    }
  }

  /** redisRateLimitBackend.Allow, as far as Redis answers. */
  function DecisionOf(reply: Reply): W.Answer {
    W.Answer(reply.admitted == 1, Nanoseconds(reply.retry))
  }

  class Backend {
    const instance: string
    var issued: nat

    constructor (instance: string)
      ensures this.instance == instance && issued == 0
    {
      this.instance := instance;
      issued := 0;
    }

    method Allow(store: Store, limit: int, now: int) returns (decision: W.Answer)
      modifies this, store
      ensures limit <= 0 ==>
                decision == W.Answer(true, 0) && issued == old(issued) && store.Value() == old(store.Value())
      ensures limit > 0 ==>
                && decision == DecisionOf(ScriptReply(old(store.items), limit, now))
                && issued == old(issued) + 1
                && store.Value() == AfterScript(old(store.items), limit, Member(instance, issued), now)
    {
      if limit <= 0 {
        return W.Answer(true, 0);
      }
      issued := issued + 1;
      var reply := store.Evaluate(limit, Member(instance, issued), now);
      return DecisionOf(reply);
    }
  }

  // ---------------------------------------------------------------- both windows agree

  /** One call on a key from some instance.  `dropped` says the server dropped the expired key just before;
      `skipped` counts the numbers the instance used up on other keys since its last limited call on this
      one, for it numbers all its calls in one sequence. */
  datatype Call = Call(instance: string, limit: int, now: int, dropped: bool, skipped: nat)

  datatype Cluster = Cluster(key: Key, issued: map<string, nat>)

  const NEW_CLUSTER: Cluster := Cluster(Key(map[], 0), map[])

  function Issued(c: Cluster, instance: string): nat {
    if instance in c.issued then c.issued[instance] else 0
  }

  function Visible(c: Cluster, call: Call): SortedSet {
    if call.dropped then map[] else c.key.items
  }

  predicate Plausible(c: Cluster, call: Call) {
    call.dropped ==> call.now >= c.key.expireAt
  }

  ghost function RedisAnswer(c: Cluster, call: Call): W.Answer {
    if call.limit <= 0 then W.Answer(true, 0) else DecisionOf(ScriptReply(Visible(c, call), call.limit, call.now))
  }

  function NextNumber(c: Cluster, call: Call): nat {
    Issued(c, call.instance) + call.skipped + 1
  }

  function RedisStep(c: Cluster, call: Call): Cluster {
    if call.limit <= 0 then c
    else
      var n := NextNumber(c, call);
      Cluster(AfterScript(Visible(c, call), call.limit, Member(call.instance, n), call.now),
              c.issued[call.instance := n])
  }

  /** The sorted set lists the window: `order` names the member holding each timestamp. */
  ghost predicate Lists(items: SortedSet, order: seq<string>, window: seq<int>) {
    && |order| == |window| == |items|
    && (forall i :: 0 <= i < |order| ==> order[i] in items && items[order[i]] == window[i])
    && (forall i, j :: 0 <= i < j < |order| ==> order[i] != order[j])
    && (forall m :: m in items ==> m in order)
  }

  ghost predicate AllIssued(c: Cluster) {
    forall m :: m in c.key.items ==> WasIssued(c, m)
  }

  ghost predicate WasIssued(c: Cluster, m: string) {
    exists instance, n: nat :: m == Member(instance, n) && n <= Issued(c, instance)
  }

  /** One call as the objects see it, the server dropping the expired key first if it does. */
  method CallOnce(store: Store, backend: Backend, call: Call, ghost c: Cluster) returns (decision: W.Answer)
    requires c.key == store.Value() && backend.issued == Issued(c, backend.instance) + call.skipped
    requires call.instance == backend.instance && Plausible(c, call)
    modifies store, backend
    ensures decision == RedisAnswer(c, call)
    ensures store.Value() == RedisStep(c, call).key
    ensures backend.issued
            == if call.limit <= 0 then old(backend.issued) else Issued(RedisStep(c, call), backend.instance)
  {
    if call.dropped && call.limit > 0 {
      store.Expire(call.now);
    }
    decision := backend.Allow(store, call.limit, call.now);
  }

  /** The simulation: same timestamps, in time order, none ahead of the clock, and the key's expiry far
      enough away. */
  ghost predicate Simulates(key: Key, order: seq<string>, window: seq<int>, latest: int) {
    && Lists(key.items, order, window)
    && W.Sorted(window)
    && (forall i :: 0 <= i < |window| ==> window[i] <= latest && window[i] + TTL_MS <= key.expireAt)
  }

  lemma NextMemberIsNew(c: Cluster, call: Call)
    requires AllIssued(c)
    ensures Member(call.instance, NextNumber(c, call)) !in c.key.items
  {
    var m := Member(call.instance, NextNumber(c, call));
    if m in c.key.items {
      assert WasIssued(c, m);
      var i, n: nat :| m == Member(i, n) && n <= Issued(c, i);
      MemberInjective(call.instance, NextNumber(c, call), i, n);
    }
  }

  lemma {:induction false} SizeOfList(keys: set<string>, order: seq<string>)
    requires forall i :: 0 <= i < |order| ==> order[i] in keys
    requires forall i, j :: 0 <= i < j < |order| ==> order[i] != order[j]
    requires forall m :: m in keys ==> m in order
    ensures |keys| == |order|
    decreases |order|
  {
    if order == [] {
      assert keys == {};
    } else {
      var n := |order| - 1;
      forall m | m in keys - {order[n]} ensures m in order[..n] {
        var i :| 0 <= i < |order| && order[i] == m;
        assert order[..n][i] == m;
      }
      SizeOfList(keys - {order[n]}, order[..n]);
    }
  }

  /** ZREMRANGEBYSCORE removes exactly the prefix the in-memory window drops. */
  lemma PruneLists(items: SortedSet, order: seq<string>, window: seq<int>, cutoff: int)
    requires Lists(items, order, window) && W.Sorted(window)
    ensures Lists(Unexpired(items, cutoff), order[W.StaleTo(window, cutoff, 0)..], W.Pruned(window, cutoff))
  {
    var first := W.StaleTo(window, cutoff, 0);
    forall i | 0 <= i < |window| ensures window[i] > cutoff <==> i >= first {
      W.SortedPrune(window, cutoff, i);
    }
    SuffixLists(items, order, window, cutoff, first, order[first..]);
  }

  lemma SuffixLists(items: SortedSet, order: seq<string>, window: seq<int>, cutoff: int, first: nat, rest: seq<string>)
    requires Lists(items, order, window) && first <= |order| && rest == order[first..]
    requires forall i :: 0 <= i < |window| ==> (window[i] > cutoff <==> i >= first)
    ensures Lists(Unexpired(items, cutoff), rest, window[first..])
  {
    forall m | m in Unexpired(items, cutoff) ensures m in rest {
      var i :| 0 <= i < |order| && order[i] == m;
      assert rest[i - first] == m;
    }
    SizeOfList(Unexpired(items, cutoff).Keys, rest);
  }

  lemma LowestIsFirst(items: SortedSet, order: seq<string>, window: seq<int>)
    requires Lists(items, order, window) && W.Sorted(window) && items != map[]
    ensures LowestScore(items) == window[0]
  {
    LowestExists(items);
    var member :| IsLowest(items, member) && items[member] == LowestScore(items);
    var i :| 0 <= i < |order| && order[i] == member;
    assert items[order[0]] == window[0] <= window[i];
  }

  lemma AppendLists(items: SortedSet, order: seq<string>, window: seq<int>, member: string, now: int)
    requires Lists(items, order, window) && member !in items
    ensures Lists(items[member := now], order + [member], window + [now])
  {
    var items', order' := items[member := now], order + [member];
    forall m | m in items' ensures m in order' {
      if m == member {
        assert order'[|order|] == member;
      } else {
        var i :| 0 <= i < |order| && order[i] == m;
        assert order'[i] == m;
      }
    }
  }

  /** Expiry never costs an event still in the window: whether or not the key was dropped, what the
      script keeps is what the in-memory window keeps. */
  lemma VisibleLists(key: Key, dropped: bool, order: seq<string>, window: seq<int>, latest: int, now: int)
    returns (kept: seq<string>)
    requires Simulates(key, order, window, latest) && (dropped ==> now >= key.expireAt)
    ensures Lists(Unexpired(if dropped then map[] else key.items, now - WINDOW_MS), kept,
                  W.Pruned(window, now - WINDOW_MS))
  {
    var cutoff := now - WINDOW_MS;
    if dropped {
      assert forall i :: 0 <= i < |window| ==> window[i] <= cutoff;
      kept := [];
      assert Unexpired(map[], cutoff) == map[];
    } else {
      PruneLists(key.items, order, window, cutoff);
      kept := order[W.StaleTo(window, cutoff, 0)..];
    }
  }

  lemma SameReply(items: SortedSet, kept: seq<string>, window: seq<int>, limit: int, now: int)
    requires limit > 0 && W.Sorted(window)
    requires Lists(Unexpired(items, now - WINDOW_MS), kept, W.Pruned(window, now - WINDOW_MS))
    ensures var a := W.AllowAnswer(window, limit, now, WINDOW_MS);
            DecisionOf(ScriptReply(items, limit, now)) == W.Answer(a.allowed, Nanoseconds(a.retryAfter))
  {
    var remaining := Unexpired(items, now - WINDOW_MS);
    if |remaining| >= limit {
      PruneSorted(window, now - WINDOW_MS);
      LowestIsFirst(remaining, kept, W.Pruned(window, now - WINDOW_MS));
      W.RetryClampUnreachable(window, limit, now, WINDOW_MS);
    }
  }

  lemma PruneSorted(window: seq<int>, cutoff: int)
    requires W.Sorted(window)
    ensures W.Sorted(W.Pruned(window, cutoff))
  {
  }

  /** One call of the script keeps the simulation, given a member not in use. */
  lemma SimulationStep(
      items: SortedSet, kept: seq<string>, window: seq<int>, limit: int, member: string, latest: int, now: int)
    returns (order: seq<string>)
    requires limit > 0 && member !in items && latest <= now
    requires W.Sorted(window) && forall i :: 0 <= i < |window| ==> window[i] <= latest
    requires Lists(Unexpired(items, now - WINDOW_MS), kept, W.Pruned(window, now - WINDOW_MS))
    ensures Simulates(AfterScript(items, limit, member, now), order, W.AfterAllow(window, limit, now, WINDOW_MS), now)
  {
    order := ListsStep(items, kept, W.Pruned(window, now - WINDOW_MS), limit, member, now);
    TimesStep(window, limit, latest, now);
  }

  lemma ListsStep(items: SortedSet, kept: seq<string>, window: seq<int>, limit: int, member: string, now: int)
    returns (order: seq<string>)
    requires limit > 0 && member !in items
    requires Lists(Unexpired(items, now - WINDOW_MS), kept, window)
    ensures Lists(AfterScript(items, limit, member, now).items, order,
                  if |window| < limit then window + [now] else window)
  {
    var remaining := Unexpired(items, now - WINDOW_MS);
    if |remaining| < limit {
      AppendLists(remaining, kept, window, member, now);
      order := kept + [member];
    } else {
      order := kept;
    }
  }

  lemma TimesStep(window: seq<int>, limit: int, latest: int, now: int)
    requires W.Sorted(window) && latest <= now && limit > 0
    requires forall i :: 0 <= i < |window| ==> window[i] <= latest
    ensures var next := W.AfterAllow(window, limit, now, WINDOW_MS);
            && W.Sorted(next)
            && forall i :: 0 <= i < |next| ==> next[i] <= now
  {
    var kept := W.Pruned(window, now - WINDOW_MS);
    assert W.Sorted(kept) && forall i :: 0 <= i < |kept| ==> kept[i] <= now;
  }

  lemma StillIssued(c: Cluster, call: Call)
    requires AllIssued(c) && call.limit > 0
    ensures AllIssued(RedisStep(c, call))
  {
    var c' := RedisStep(c, call);
    forall m | m in c'.key.items ensures WasIssued(c', m) {
      if m in c.key.items {
        assert WasIssued(c, m);
        var i, n: nat :| m == Member(i, n) && n <= Issued(c, i);
        assert n <= Issued(c', i);
      } else {
        assert m == Member(call.instance, Issued(c', call.instance));
      }
    }
  }

  // ---------------------------------------------------------------- runs, in nanoseconds

  function Nanos(window: seq<int>): (scaled: seq<int>)
    ensures |scaled| == |window|
    ensures forall i :: 0 <= i < |window| ==> scaled[i] == Nanoseconds(window[i])
  {
    seq(|window|, i requires 0 <= i < |window| => Nanoseconds(window[i]))
  }

  lemma {:induction false} ScaleStale(window: seq<int>, cutoff: int, i: nat)
    requires i <= |window|
    ensures W.StaleTo(Nanos(window), Nanoseconds(cutoff), i) == W.StaleTo(window, cutoff, i)
    decreases |window| - i
  {
    if i < |window| {
      ScaleStale(window, cutoff, i + 1);
    }
  }

  /** The unit does not matter: a minute is the same minute in milliseconds and nanoseconds. */
  lemma ScaleAllow(window: seq<int>, limit: int, now: int)
    ensures var a := W.AllowAnswer(window, limit, now, WINDOW_MS);
            W.AllowAnswer(Nanos(window), limit, Nanoseconds(now), W.MINUTE)
            == W.Answer(a.allowed, Nanoseconds(a.retryAfter))
    ensures W.AfterAllow(Nanos(window), limit, Nanoseconds(now), W.MINUTE)
            == Nanos(W.AfterAllow(window, limit, now, WINDOW_MS))
  {
    var cutoff := now - WINDOW_MS;
    assert W.MINUTE == Nanoseconds(WINDOW_MS);
    ScaleStale(window, cutoff, 0);
    assert W.Pruned(Nanos(window), Nanoseconds(cutoff)) == Nanos(W.Pruned(window, cutoff));
    assert Nanos(W.Pruned(window, cutoff) + [now]) == Nanos(W.Pruned(window, cutoff)) + [Nanoseconds(now)];
  }

  ghost function RedisAnswers(c: Cluster, calls: seq<Call>): seq<W.Answer>
    decreases |calls|
  {
    if calls == [] then [] else [RedisAnswer(c, calls[0])] + RedisAnswers(RedisStep(c, calls[0]), calls[1..])
  }

  function MemoryAnswers(window: seq<int>, calls: seq<Call>): seq<W.Answer>
    decreases |calls|
  {
    if calls == [] then []
    else
      var now := Nanoseconds(calls[0].now);
      [W.AllowAnswer(window, calls[0].limit, now, W.MINUTE)]
      + MemoryAnswers(W.AfterAllow(window, calls[0].limit, now, W.MINUTE), calls[1..])
  }

  predicate PlausibleRun(c: Cluster, latest: int, calls: seq<Call>)
    decreases |calls|
  {
    calls == [] ||
    (&& latest <= calls[0].now
     && Plausible(c, calls[0])
     && PlausibleRun(RedisStep(c, calls[0]), calls[0].now, calls[1..]))
  }

  lemma {:induction false} RedisAgreesFrom(
      c: Cluster, order: seq<string>, window: seq<int>, latest: int, calls: seq<Call>)
    requires Simulates(c.key, order, window, latest) && AllIssued(c) && PlausibleRun(c, latest, calls)
    ensures RedisAnswers(c, calls) == MemoryAnswers(Nanos(window), calls)
    decreases |calls|
  {
    if calls != [] {
      var call := calls[0];
      var order' := CallAgrees(c, order, window, latest, call);
      var next := W.AfterAllow(window, call.limit, call.now, WINDOW_MS);
      ScaleAllow(window, call.limit, call.now);
      RedisAgreesFrom(RedisStep(c, call), order', next, call.now, calls[1..]);
    }
  }

  lemma CallAgrees(c: Cluster, order: seq<string>, window: seq<int>, latest: int, call: Call)
    returns (order': seq<string>)
    requires Simulates(c.key, order, window, latest) && AllIssued(c) && Plausible(c, call) && latest <= call.now
    ensures var a := W.AllowAnswer(window, call.limit, call.now, WINDOW_MS);
            RedisAnswer(c, call) == W.Answer(a.allowed, Nanoseconds(a.retryAfter))
    ensures Simulates(RedisStep(c, call).key, order', W.AfterAllow(window, call.limit, call.now, WINDOW_MS), call.now)
    ensures AllIssued(RedisStep(c, call))
  {
    order' := order;
    if call.limit > 0 {
      var member := Member(call.instance, NextNumber(c, call));
      assert member !in c.key.items && AllIssued(RedisStep(c, call)) by {
        NextMemberIsNew(c, call);
        StillIssued(c, call);
      }
      order' := ScriptAgrees(c.key, call.dropped, order, window, latest, call.limit, member, call.now);
    }
  }

  lemma ScriptAgrees(
      key: Key, dropped: bool, order: seq<string>, window: seq<int>, latest: int, limit: int, member: string, now: int)
    returns (order': seq<string>)
    requires Simulates(key, order, window, latest) && (dropped ==> now >= key.expireAt) && latest <= now
    requires limit > 0 && member !in key.items
    ensures var a := W.AllowAnswer(window, limit, now, WINDOW_MS);
            DecisionOf(ScriptReply(if dropped then map[] else key.items, limit, now))
            == W.Answer(a.allowed, Nanoseconds(a.retryAfter))
    ensures Simulates(AfterScript(if dropped then map[] else key.items, limit, member, now), order',
                      W.AfterAllow(window, limit, now, WINDOW_MS), now)
  {
    var items: SortedSet := if dropped then map[] else key.items;
    var kept := VisibleLists(key, dropped, order, window, latest, now);
    SameReply(items, kept, window, limit, now);
    order' := SimulationStep(items, kept, window, limit, member, latest, now);
  }

  /**
   Redis and memory agree.  For any number of instances, any limits call by call and any moments at
   which Redis drops the expired key, the shared script gives on a nondecreasing server clock the same
   decisions and the same retry times as one in-memory window reading that clock.
   */
  lemma RedisAgrees(latest: int, calls: seq<Call>)
    requires PlausibleRun(NEW_CLUSTER, latest, calls)
    ensures RedisAnswers(NEW_CLUSTER, calls) == MemoryAnswers([], calls)
  {
    assert Nanos([]) == [];
    RedisAgreesFrom(NEW_CLUSTER, [], [], latest, calls);
  }

  // ---------------------------------------------------------------- many keys

  datatype FleetCall = FleetCall(key: string, instance: string, limit: int, now: int, dropped: bool)

  /** Every key of the server, and the one sequence of each instance. */
  datatype Fleet = Fleet(keys: map<string, Key>, issued: map<string, nat>)

  const NEW_FLEET: Fleet := Fleet(map[], map[])

  function KeyOf(f: Fleet, key: string): Key {
    if key in f.keys then f.keys[key] else NEW_CLUSTER.key
  }

  /** What a call sees: its own key, and how far its instance has numbered. */
  function ClusterOf(f: Fleet, key: string): Cluster {
    Cluster(KeyOf(f, key), f.issued)
  }

  function CallOf(call: FleetCall, skipped: nat): Call {
    Call(call.instance, call.limit, call.now, call.dropped, skipped)
  }

  ghost function FleetAnswer(f: Fleet, call: FleetCall): W.Answer {
    RedisAnswer(ClusterOf(f, call.key), CallOf(call, 0))
  }

  function FleetStep(f: Fleet, call: FleetCall): Fleet {
    if call.limit <= 0 then f
    else
      var after := RedisStep(ClusterOf(f, call.key), CallOf(call, 0));
      Fleet(f.keys[call.key := after.key], after.issued)
  }

  /** Ordered server time, and keys dropped only once expired. */
  predicate FleetPlausible(f: Fleet, latest: int, calls: seq<FleetCall>)
    decreases |calls|
  {
    calls == [] ||
    (&& latest <= calls[0].now
     && (calls[0].dropped ==> calls[0].now >= KeyOf(f, calls[0].key).expireAt)
     && FleetPlausible(FleetStep(f, calls[0]), calls[0].now, calls[1..]))
  }

  /** The answers to the calls on one key. */
  ghost function AnswersOn(f: Fleet, calls: seq<FleetCall>, key: string): seq<W.Answer>
    decreases |calls|
  {
    if calls == [] then []
    else
      (if calls[0].key == key then [FleetAnswer(f, calls[0])] else [])
      + AnswersOn(FleetStep(f, calls[0]), calls[1..], key)
  }

  /** One key's view of the numbering: behind every instance's by what it spent on other keys. */
  predicate Behind(c: Cluster, f: Fleet, key: string) {
    && c.key == KeyOf(f, key)
    && (forall i :: i in c.issued ==> c.issued[i] <= FleetIssued(f, i))
  }

  function FleetIssued(f: Fleet, instance: string): nat {
    if instance in f.issued then f.issued[instance] else 0
  }

  /** A call as its key sees it. */
  function OwnCall(c: Cluster, f: Fleet, call: FleetCall): Call
    requires Behind(c, f, call.key)
  {
    assert Issued(c, call.instance) <= FleetIssued(f, call.instance);
    CallOf(call, FleetIssued(f, call.instance) - Issued(c, call.instance))
  }

  /** The calls on one key, with the numbers skipped in between. */
  function CallsOn(c: Cluster, f: Fleet, calls: seq<FleetCall>, key: string): seq<Call>
    requires Behind(c, f, key)
    decreases |calls|
  {
    if calls == [] then []
    else if calls[0].key == key then
      OwnStep(c, f, calls[0]);
      var own := OwnCall(c, f, calls[0]);
      [own] + CallsOn(RedisStep(c, own), FleetStep(f, calls[0]), calls[1..], key)
    else
      OtherKeyStep(c, f, calls[0], key);
      CallsOn(c, FleetStep(f, calls[0]), calls[1..], key)
  }

  lemma OwnStep(c: Cluster, f: Fleet, call: FleetCall)
    requires Behind(c, f, call.key)
    ensures Behind(RedisStep(c, OwnCall(c, f, call)), FleetStep(f, call), call.key)
    ensures RedisAnswer(c, OwnCall(c, f, call)) == FleetAnswer(f, call)
  {
    assert NextNumber(c, OwnCall(c, f, call)) == NextNumber(ClusterOf(f, call.key), CallOf(call, 0));
  }

  lemma OtherKeyStep(c: Cluster, f: Fleet, call: FleetCall, key: string)
    requires Behind(c, f, key) && call.key != key
    ensures Behind(c, FleetStep(f, call), key)
  {
  }

  lemma PlausibleEarlier(c: Cluster, latest: int, earlier: int, calls: seq<Call>)
    requires PlausibleRun(c, latest, calls) && earlier <= latest
    ensures PlausibleRun(c, earlier, calls)
  {
  }

  /** Calls on other keys leave one key a plausible run of its own, with the same answers. */
  lemma {:induction false} FleetProjects(c: Cluster, f: Fleet, latest: int, calls: seq<FleetCall>, key: string)
    requires Behind(c, f, key) && FleetPlausible(f, latest, calls)
    ensures PlausibleRun(c, latest, CallsOn(c, f, calls, key))
    ensures RedisAnswers(c, CallsOn(c, f, calls, key)) == AnswersOn(f, calls, key)
    decreases |calls|
  {
    if calls != [] {
      var call, rest := calls[0], calls[1..];
      var f' := FleetStep(f, call);
      if call.key == key {
        OwnStep(c, f, call);
        FleetProjects(RedisStep(c, OwnCall(c, f, call)), f', call.now, rest, key);
        OwnProjects(c, f, latest, calls, key);
      } else {
        OtherKeyStep(c, f, call, key);
        FleetProjects(c, f', call.now, rest, key);
        OtherProjects(c, f, latest, calls, key);
      }
    }
  }

  lemma OwnProjects(c: Cluster, f: Fleet, latest: int, calls: seq<FleetCall>, key: string)
    requires Behind(c, f, key) && calls != [] && calls[0].key == key && FleetPlausible(f, latest, calls)
    requires var (own, f') := (OwnCall(c, f, calls[0]), FleetStep(f, calls[0]));
             && Behind(RedisStep(c, own), f', key)
             && PlausibleRun(RedisStep(c, own), calls[0].now, CallsOn(RedisStep(c, own), f', calls[1..], key))
             && RedisAnswers(RedisStep(c, own), CallsOn(RedisStep(c, own), f', calls[1..], key))
                == AnswersOn(f', calls[1..], key)
    ensures PlausibleRun(c, latest, CallsOn(c, f, calls, key))
    ensures RedisAnswers(c, CallsOn(c, f, calls, key)) == AnswersOn(f, calls, key)
  {
    var own := OwnCall(c, f, calls[0]);
    OwnStep(c, f, calls[0]);
    OneMoreCall(c, own, latest, CallsOn(RedisStep(c, own), FleetStep(f, calls[0]), calls[1..], key));
  }

  lemma OtherProjects(c: Cluster, f: Fleet, latest: int, calls: seq<FleetCall>, key: string)
    requires Behind(c, f, key) && calls != [] && calls[0].key != key && FleetPlausible(f, latest, calls)
    requires var f' := FleetStep(f, calls[0]);
             && Behind(c, f', key)
             && PlausibleRun(c, calls[0].now, CallsOn(c, f', calls[1..], key))
             && RedisAnswers(c, CallsOn(c, f', calls[1..], key)) == AnswersOn(f', calls[1..], key)
    ensures PlausibleRun(c, latest, CallsOn(c, f, calls, key))
    ensures RedisAnswers(c, CallsOn(c, f, calls, key)) == AnswersOn(f, calls, key)
  {
    var f' := FleetStep(f, calls[0]);
    PlausibleEarlier(c, calls[0].now, latest, CallsOn(c, f', calls[1..], key));
    assert [] + AnswersOn(f', calls[1..], key) == AnswersOn(f', calls[1..], key);
  }

  lemma OneMoreCall(c: Cluster, call: Call, latest: int, rest: seq<Call>)
    requires latest <= call.now && Plausible(c, call) && PlausibleRun(RedisStep(c, call), call.now, rest)
    ensures PlausibleRun(c, latest, [call] + rest)
    ensures RedisAnswers(c, [call] + rest) == [RedisAnswer(c, call)] + RedisAnswers(RedisStep(c, call), rest)
  {
    assert ([call] + rest)[1..] == rest;
  }

  /**
   Redis and memory agree, key by key.  Any number of instances call on any number of keys, each instance
   numbering all its calls in one sequence: the calls on one key get the decisions and retry times of one
   in-memory window that saw only them.
   */
  lemma RedisAgreesPerKey(latest: int, calls: seq<FleetCall>, key: string)
    requires FleetPlausible(NEW_FLEET, latest, calls)
    ensures Behind(NEW_CLUSTER, NEW_FLEET, key)
    ensures AnswersOn(NEW_FLEET, calls, key) == MemoryAnswers([], CallsOn(NEW_CLUSTER, NEW_FLEET, calls, key))
  {
    FleetProjects(NEW_CLUSTER, NEW_FLEET, latest, calls, key);
    RedisAgrees(latest, CallsOn(NEW_CLUSTER, NEW_FLEET, calls, key));
  }

  /** Every rejection comes from a non-empty set and announces at least a millisecond by itself: the
      script's default retry and its max(1, ...) never matter, whatever the clock did. */
  lemma ScriptClampUnreachable(items: SortedSet, limit: int, now: int)
    requires limit > 0 && ScriptReply(items, limit, now).admitted == 0
    ensures var kept := Unexpired(items, now - WINDOW_MS);
            && kept != map[]
            && ScriptReply(items, limit, now).retry == WINDOW_MS - (now - LowestScore(kept)) >= 1
  {
    var kept := Unexpired(items, now - WINDOW_MS);
    LowestExists(kept);
    var member :| IsLowest(kept, member) && kept[member] == LowestScore(kept);
    assert kept[member] > now - WINDOW_MS;
  }
}
