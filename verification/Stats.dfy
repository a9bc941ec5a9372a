/** The counting behind the dashboard (internal/tui/stats.go).  Durations are nanoseconds. */
module Stats {
  import opened Common
  import opened ProviderMetrics
  import opened LogRing

  // ---------------------------------------------------------------- nearest-rank percentile

  /** The sorted copy sort.Slice produces; for integers under < it is unique. */
  function Insert(x: int, sorted: seq<int>): seq<int> {
    if sorted == [] || sorted[|sorted| - 1] <= x then sorted + [x]
    else Insert(x, sorted[..|sorted| - 1]) + [sorted[|sorted| - 1]]
  }

  function Sorted(values: seq<int>): seq<int> {
    if values == [] then [] else Insert(values[|values| - 1], Sorted(values[..|values| - 1]))
  }

  predicate IsSorted(s: seq<int>) {
    forall i, j :: 0 <= i < j < |s| ==> s[i] <= s[j]
  }

  function CountAtMost(s: seq<int>, x: int): nat {
    if s == [] then 0 else CountAtMost(s[..|s| - 1], x) + if s[|s| - 1] <= x then 1 else 0
  }

  lemma CountSnoc(s: seq<int>, y: int, x: int)
    ensures CountAtMost(s + [y], x) == CountAtMost(s, x) + if y <= x then 1 else 0
  {
    assert (s + [y])[..|s|] == s;
  }

  /** Inserting keeps the list sorted, ending in the larger of the old last element and `y`. */
  lemma {:induction false} InsertSorts(y: int, sorted: seq<int>)
    requires IsSorted(sorted)
    ensures |Insert(y, sorted)| == |sorted| + 1
    ensures IsSorted(Insert(y, sorted))
    ensures Insert(y, sorted)[|sorted|]
         == if sorted == [] || sorted[|sorted| - 1] <= y then y else sorted[|sorted| - 1]
    decreases |sorted|
  {
    if sorted != [] && sorted[|sorted| - 1] > y {
      var n := |sorted| - 1;
      var front := sorted[..n];
      InsertSorts(y, front);
      assert Insert(y, front)[n] <= sorted[n];
    }
  }

  lemma {:induction false} InsertKeeps(y: int, sorted: seq<int>)
    ensures multiset(Insert(y, sorted)) == multiset(sorted) + multiset{y}
    decreases |sorted|
  {
    if sorted != [] && sorted[|sorted| - 1] > y {
      var front, last := sorted[..|sorted| - 1], sorted[|sorted| - 1];
      InsertKeeps(y, front);
      MultisetSnoc(sorted);
      var inserted := Insert(y, sorted);
      assert inserted[..|inserted| - 1] == Insert(y, front) && inserted[|inserted| - 1] == last;
      MultisetSnoc(inserted);
    }
  }

  lemma {:induction false} InsertCounts(y: int, sorted: seq<int>, x: int)
    ensures CountAtMost(Insert(y, sorted), x) == CountAtMost(sorted, x) + if y <= x then 1 else 0
    decreases |sorted|
  {
    if sorted == [] || sorted[|sorted| - 1] <= y {
      CountSnoc(sorted, y, x);
    } else {
      var n := |sorted| - 1;
      InsertCounts(y, sorted[..n], x);
      CountSnoc(Insert(y, sorted[..n]), sorted[n], x);
    }
  }

  lemma {:induction false} SortedSorts(values: seq<int>)
    ensures IsSorted(Sorted(values)) && |Sorted(values)| == |values|
  {
    if values != [] {
      SortedSorts(values[..|values| - 1]);
      InsertSorts(values[|values| - 1], Sorted(values[..|values| - 1]));
    }
  }

  lemma {:induction false} SortedKeeps(values: seq<int>)
    ensures multiset(Sorted(values)) == multiset(values)
  {
    if values != [] {
      var n := |values| - 1;
      SortedKeeps(values[..n]);
      InsertKeeps(values[n], Sorted(values[..n]));
      MultisetSnoc(values);
    }
  }

  lemma MultisetSnoc(values: seq<int>)
    requires values != []
    ensures multiset(values) == multiset(values[..|values| - 1]) + multiset{values[|values| - 1]}
  {
    assert values == values[..|values| - 1] + [values[|values| - 1]];
  }

  lemma {:induction false} SortedCounts(values: seq<int>, x: int)
    ensures CountAtMost(Sorted(values), x) == CountAtMost(values, x)
  {
    if values != [] {
      var n := |values| - 1;
      SortedCounts(values[..n], x);
      InsertCounts(values[n], Sorted(values[..n]), x);
    }
  }

  predicate Ranked(s: seq<int>, k: nat)
    requires k < |s|
  {
    CountAtMost(s, s[k]) >= k + 1 && CountAtMost(s, s[k] - 1) <= k
  }

  /** In a sorted list at least k + 1 elements are at most the k-th, and at most k are below it. */
  lemma {:induction false} RankCounts(s: seq<int>, k: nat)
    requires IsSorted(s) && k < |s|
    ensures Ranked(s, k)
    decreases |s|
  {
    var n := |s| - 1;
    if k == n {
      CountWhole(s[..n], s[k]);
      CountBounded(s[..n], s[k] - 1);
    } else {
      RankCounts(s[..n], k);
    }
  }

  lemma {:induction false} CountWhole(s: seq<int>, x: int)
    requires forall i :: 0 <= i < |s| ==> s[i] <= x
    ensures CountAtMost(s, x) == |s|
  {
    if s != [] {
      CountWhole(s[..|s| - 1], x);
    }
  }

  lemma {:induction false} CountBounded(s: seq<int>, x: int)
    ensures CountAtMost(s, x) <= |s|
  {
    if s != [] {
      CountBounded(s[..|s| - 1], x);
    }
  }

  lemma {:induction false} CountMonotone(s: seq<int>, x: int, y: int)
    requires x <= y
    ensures CountAtMost(s, x) <= CountAtMost(s, y)
  {
    if s != [] {
      CountMonotone(s[..|s| - 1], x, y);
    }
  }

  /** `r` is the nearest-rank p-th percentile: p percent of the values are at most r, and fewer are
      below it. */
  predicate IsNearestRank(values: seq<int>, p: int, r: int) {
    && r in values
    && 100 * CountAtMost(values, r) >= p * |values|
    && 100 * CountAtMost(values, r - 1) < p * |values|
  }

  /** Both inequalities together leave one value. */
  lemma NearestRankUnique(values: seq<int>, p: int, r1: int, r2: int)
    requires IsNearestRank(values, p, r1) && IsNearestRank(values, p, r2)
    ensures r1 == r2
  {
    if r1 < r2 {
      CountMonotone(values, r1, r2 - 1);
    } else if r2 < r1 {
      CountMonotone(values, r2, r1 - 1);
    }
  }

  /** The index percentile picks, counted from 1. */
  function RankIndex(n: nat, p: int): (idx: int) {
    var idx := TruncatedHundredth(n * p + 99);
    if idx <= 0 then 1 else idx
  }

  /** It stays in bounds, and it is the rank p percent of n rounds up to. */
  lemma RankInBounds(n: nat, p: int)
    requires n >= 1 && p <= 100
    ensures 1 <= RankIndex(n, p) <= n
    ensures p >= 1 ==> 100 * RankIndex(n, p) >= p * n > 100 * (RankIndex(n, p) - 1)
    ensures p < 1 ==> RankIndex(n, p) == 1
  {
    var m := n * p;
    assert m == p * n;
    if p >= 1 {
      ProductsOrdered(1, p, n);
      ProductsOrdered(p, 100, n);
      RoundedUp(m);
    } else {
      ProductsOrdered(p, 0, n);
    }
  }

  lemma RoundedUp(m: int)
    requires m >= 1
    ensures 100 * TruncatedHundredth(m + 99) >= m > 100 * (TruncatedHundredth(m + 99) - 1)
  {
  }

  lemma SortedFrom(values: seq<int>, k: nat)
    requires k < |Sorted(values)|
    ensures Sorted(values)[k] in values
  {
    var r := Sorted(values)[k];
    SortedKeeps(values);
    assert multiset(values)[r] == multiset(Sorted(values))[r] > 0;
  }

  /** How many values lie at or below, and below, the element sorting leaves at index `k`. */
  lemma PickedElement(values: seq<int>, k: nat)
    requires k < |values|
    ensures |Sorted(values)| == |values|
    ensures CountAtMost(values, Sorted(values)[k]) >= k + 1
    ensures CountAtMost(values, Sorted(values)[k] - 1) <= k
  {
    SortedRank(values, k);
    SortedCounts(values, Sorted(values)[k]);
    SortedCounts(values, Sorted(values)[k] - 1);
  }

  lemma SortedRank(values: seq<int>, k: nat)
    requires k < |values|
    ensures |Sorted(values)| == |values| && Ranked(Sorted(values), k)
  {
    SortedSorts(values);
    RankCounts(Sorted(values), k);
  }

  /** Above 100 the source would index past the end; at or below 0 it returns the minimum. */
  method Percentile(values: seq<int>, p: int) returns (r: int)
    requires p <= 100
    ensures values == [] ==> r == 0
    ensures values != [] && p >= 1 ==> IsNearestRank(values, p, r)
    ensures values != [] && p < 1 ==> r in values && CountAtMost(values, r - 1) == 0
  {
    if |values| == 0 {
      return 0;
    }
    SortedSorts(values);
    var cp := Sorted(values);
    RankInBounds(|cp|, p);
    var idx := TruncatedHundredth(|cp| * p + 99);
    if idx <= 0 {
      idx := 1;
    }
    r := cp[idx - 1];
    SortedFrom(values, idx - 1);
    PickedElement(values, idx - 1);
  }

  /** Go's x / 100, which truncates toward zero. */
  function TruncatedHundredth(x: int): int {
    if x >= 0 then x / 100 else -(-x / 100)
  }

  // ---------------------------------------------------------------- request counts

  datatype Tally = Tally(requests: nat, errors: nat)

  datatype Summary = Summary(
    requests: nat, twoXX: nat, fourXX: nat, fiveXX: nat,
    clients: map<string, Tally>, routes: map<string, Tally>)

  function SafeText(v: string, fallback: string): string {
    if IsBlank(v) then fallback else v
  }

  function TallyOf(m: map<string, Tally>, key: string): Tally {
    if key in m then m[key] else Tally(0, 0)
  }

  /** The requests of all keys together. */
  ghost function Total(keys: set<string>, m: map<string, Tally>): nat {
    if keys == {} then 0
    else
      var key :| key in keys;
      TallyOf(m, key).requests + Total(keys - {key}, m)
  }

  lemma {:induction false} TotalSplit(keys: set<string>, m: map<string, Tally>, key: string)
    requires key in keys
    ensures Total(keys, m) == TallyOf(m, key).requests + Total(keys - {key}, m)
    decreases |keys|
  {
    var picked :| picked in keys && Total(keys, m) == TallyOf(m, picked).requests + Total(keys - {picked}, m);
    if picked != key {
      TotalSplit(keys - {picked}, m, key);
      TotalSplit(keys - {key}, m, picked);
      assert keys - {picked} - {key} == keys - {key} - {picked};
    }
  }

  lemma {:induction false} TotalElsewhere(keys: set<string>, m: map<string, Tally>, key: string, t: Tally)
    requires key !in keys
    ensures Total(keys, m[key := t]) == Total(keys, m)
    decreases |keys|
  {
    if keys != {} {
      var picked :| picked in keys;
      TotalSplit(keys, m, picked);
      TotalSplit(keys, m[key := t], picked);
      TotalElsewhere(keys - {picked}, m, key, t);
    }
  }

  /** One more request under one key is one more request in all. */
  lemma TotalGrows(m: map<string, Tally>, key: string, t: Tally)
    requires t.requests == TallyOf(m, key).requests + 1
    ensures Total(m[key := t].Keys, m[key := t]) == Total(m.Keys, m) + 1
  {
    var m' := m[key := t];
    TotalSplit(m'.Keys, m', key);
    TotalElsewhere(m'.Keys - {key}, m, key, t);
    if key in m {
      TotalSplit(m.Keys, m, key);
      assert m'.Keys - {key} == m.Keys - {key};
    } else {
      assert m'.Keys - {key} == m.Keys;
    }
  }

  function Bumped(t: Tally, status: int): Tally {
    Tally(t.requests + 1, if status >= 400 then t.errors + 1 else t.errors)
  }

  function Count(logs: seq<LogEntry>, counts: LogEntry -> bool): nat {
    if logs == [] then 0
    else Count(logs[..|logs| - 1], counts) + if counts(logs[|logs| - 1]) then 1 else 0
  }

  lemma CountNext(logs: seq<LogEntry>, n: nat, counts: LogEntry -> bool)
    requires n < |logs|
    ensures Count(logs[..n + 1], counts) == Count(logs[..n], counts) + if counts(logs[n]) then 1 else 0
  {
    assert logs[..n + 1][..n] == logs[..n];
  }

  /** A logged request has a status; other entries are events. */
  function Answered(): LogEntry -> bool {
    (e: LogEntry) => e.status != 0
  }

  function StatusIn(low: int, high: int): LogEntry -> bool {
    (e: LogEntry) => low <= e.status < high
  }

  function StatusFrom(low: int): LogEntry -> bool {
    (e: LogEntry) => e.status >= low
  }

  function Under(key: string, failed: bool, keyOf: LogEntry -> string): LogEntry -> bool {
    (e: LogEntry) => e.status != 0 && (failed ==> e.status >= 400) && keyOf(e) == key
  }

  /** `m` breaks the requests among `logs` down by `keyOf`: each key has its own requests and errors,
      and no request is lost or counted twice. */
  ghost predicate BreaksDown(m: map<string, Tally>, logs: seq<LogEntry>, keyOf: LogEntry -> string) {
    && (forall key :: TallyOf(m, key).requests == Count(logs, Under(key, false, keyOf)))
    && (forall key :: TallyOf(m, key).errors == Count(logs, Under(key, true, keyOf)))
    && Total(m.Keys, m) == Count(logs, Answered())
  }

  lemma NothingYet(keyOf: LogEntry -> string)
    ensures BreaksDown(map[], [], keyOf)
  {
  }

  lemma BreakdownNext(
      m: map<string, Tally>, logs: seq<LogEntry>, n: nat, keyOf: LogEntry -> string, m': map<string, Tally>)
    requires n < |logs| && BreaksDown(m, logs[..n], keyOf)
    requires var e := logs[n];
             m' == if e.status == 0 then m else m[keyOf(e) := Bumped(TallyOf(m, keyOf(e)), e.status)]
    ensures BreaksDown(m', logs[..n + 1], keyOf)
  {
    var e := logs[n];
    CountNext(logs, n, Answered());
    forall key ensures TallyOf(m', key).requests == Count(logs[..n + 1], Under(key, false, keyOf)) {
      CountNext(logs, n, Under(key, false, keyOf));
    }
    forall key ensures TallyOf(m', key).errors == Count(logs[..n + 1], Under(key, true, keyOf)) {
      CountNext(logs, n, Under(key, true, keyOf));
    }
    if e.status != 0 {
      TotalGrows(m, keyOf(e), Bumped(TallyOf(m, keyOf(e)), e.status));
    }
  }

  /** The counters summarize keeps by status class. */
  predicate Classified(out: Summary, logs: seq<LogEntry>) {
    && out.requests == Count(logs, Answered())
    && out.twoXX == Count(logs, StatusIn(200, 300))
    && out.fourXX == Count(logs, StatusIn(400, 500))
    && out.fiveXX == Count(logs, StatusFrom(500))
  }

  lemma ClassesNext(logs: seq<LogEntry>, n: nat)
    requires n < |logs|
    ensures var e := logs[n]; var (before, after) := (logs[..n], logs[..n + 1]);
      && Count(after, Answered()) == Count(before, Answered()) + (if e.status != 0 then 1 else 0)
      && Count(after, StatusIn(200, 300))
         == Count(before, StatusIn(200, 300)) + (if 200 <= e.status < 300 then 1 else 0)
      && Count(after, StatusIn(400, 500))
         == Count(before, StatusIn(400, 500)) + (if 400 <= e.status < 500 then 1 else 0)
      && Count(after, StatusFrom(500)) == Count(before, StatusFrom(500)) + (if e.status >= 500 then 1 else 0)
  {
    CountNext(logs, n, Answered());
    CountNext(logs, n, StatusIn(200, 300));
    CountNext(logs, n, StatusIn(400, 500));
    CountNext(logs, n, StatusFrom(500));
  }

  function ClientOf(): LogEntry -> string {
    (e: LogEntry) => SafeText(e.client, "unknown")
  }

  function RouteOf(routeKey: string -> string): LogEntry -> string {
    (e: LogEntry) => routeKey(e.path)
  }

  /** The counting part of summarize; `routeKey` groups paths.  Every request is under one client and
      one route, so both breakdowns add up to the total. */
  method Summarize(logs: seq<LogEntry>, routeKey: string -> string) returns (out: Summary)
    ensures Classified(out, logs)
    ensures BreaksDown(out.clients, logs, ClientOf())
    ensures BreaksDown(out.routes, logs, RouteOf(routeKey))
    ensures Total(out.clients.Keys, out.clients) == out.requests == Total(out.routes.Keys, out.routes)
    ensures forall name :: !IsBlank(name) && name != "unknown" ==>
              TallyOf(out.clients, name).requests == Count(logs, FromClient(name))
  {
    out := Summary(0, 0, 0, 0, map[], map[]);
    NothingYet(ClientOf());
    NothingYet(RouteOf(routeKey));
    assert logs[..0] == [];
    for n := 0 to |logs|
      invariant Classified(out, logs[..n])
      invariant BreaksDown(out.clients, logs[..n], ClientOf())
      invariant BreaksDown(out.routes, logs[..n], RouteOf(routeKey))
    {
      var before := out;
      out := CountRequest(out, logs[n], routeKey);
      ClassesNext(logs, n);
      BreakdownNext(before.clients, logs, n, ClientOf(), out.clients);
      BreakdownNext(before.routes, logs, n, RouteOf(routeKey), out.routes);
    }
    assert logs[..|logs|] == logs;
    forall name | !IsBlank(name) && name != "unknown"
      ensures TallyOf(out.clients, name).requests == Count(logs, FromClient(name)) {
      UnderOwnName(logs, name);
    }
  }

  /** The requests of one client, by the name in the log. */
  function FromClient(name: string): LogEntry -> bool {
    (e: LogEntry) => e.status != 0 && e.client == name
  }

  /** A client with a name of its own is counted under it; only nameless ones are pooled as unknown. */
  lemma {:induction false} UnderOwnName(logs: seq<LogEntry>, name: string)
    requires !IsBlank(name) && name != "unknown"
    ensures Count(logs, Under(name, false, ClientOf())) == Count(logs, FromClient(name))
  {
    if logs != [] {
      UnderOwnName(logs[..|logs| - 1], name);
      var e := logs[|logs| - 1];
      assert Under(name, false, ClientOf())(e) <==> FromClient(name)(e);
    }
  }

  /** One turn of the loop: an entry without a status is an event and is passed over. */
  method CountRequest(before: Summary, e: LogEntry, routeKey: string -> string) returns (out: Summary)
    ensures out.requests == before.requests + if e.status != 0 then 1 else 0
    ensures out.twoXX == before.twoXX + if 200 <= e.status < 300 then 1 else 0
    ensures out.fourXX == before.fourXX + if 400 <= e.status < 500 then 1 else 0
    ensures out.fiveXX == before.fiveXX + if e.status >= 500 then 1 else 0
    ensures var name := SafeText(e.client, "unknown");
            out.clients == if e.status == 0 then before.clients
                           else before.clients[name := Bumped(TallyOf(before.clients, name), e.status)]
    ensures var route := routeKey(e.path);
            out.routes == if e.status == 0 then before.routes
                          else before.routes[route := Bumped(TallyOf(before.routes, route), e.status)]
  {
    out := before;
    if e.status == 0 {
      return;
    }
    out := out.(requests := out.requests + 1);
    if 200 <= e.status < 300 {
      out := out.(twoXX := out.twoXX + 1);
    } else if 400 <= e.status < 500 {
      out := out.(fourXX := out.fourXX + 1);
    } else if e.status >= 500 {
      out := out.(fiveXX := out.fiveXX + 1);
    }
    var name := SafeText(e.client, "unknown");
    var cs := TallyOf(out.clients, name);
    cs := cs.(requests := cs.requests + 1);
    if e.status >= 400 {
      cs := cs.(errors := cs.errors + 1);
    }
    out := out.(clients := out.clients[name := cs]);
    var route := routeKey(e.path);
    var rs := TallyOf(out.routes, route);
    rs := rs.(requests := rs.requests + 1);
    if e.status >= 400 {
      rs := rs.(errors := rs.errors + 1);
    }
    out := out.(routes := out.routes[route := rs]);
  }
}
