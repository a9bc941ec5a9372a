/** The bounded request log (internal/gateway/logring.go). */
module LogRing {
  const DEFAULT_LIMIT: nat := 300

  /** `time` 0 is the zero time; an entry without a status is an event, not an answered request. */
  datatype LogEntry = LogEntry(
    time: int, level: string, client: string, provider: string, path: string, status: int, bytes: int,
    message: string)

  const NO_ENTRY: LogEntry := LogEntry(0, "", "", "", "", 0, 0, "")

  function Normalized(e: LogEntry, now: int): LogEntry {
    e.(time := if e.time == 0 then now else e.time, level := if e.level == "" then "info" else e.level)
  }

  /** Entries are stored complete, and otherwise as they came. */
  lemma NormalizedIsComplete(e: LogEntry, now: int)
    ensures var stored := Normalized(e, now);
            && (e.time != 0 ==> stored.time == e.time) && (e.time == 0 ==> stored.time == now)
            && (e.level != "" ==> stored.level == e.level) && (e.level == "" ==> stored.level == "info")
            && stored.client == e.client && stored.provider == e.provider && stored.path == e.path
            && stored.status == e.status && stored.bytes == e.bytes && stored.message == e.message
  {
  }

  function EffectiveLimit(limit: int): nat {
    if limit <= 0 then DEFAULT_LIMIT else limit
  }

  function Added(entries: seq<LogEntry>, limit: nat, e: LogEntry): seq<LogEntry>
    requires limit > 0
  {
    if |entries| >= limit then entries[1..] + [e] else entries + [e]
  }

  function Resized(entries: seq<LogEntry>, limit: nat): seq<LogEntry> {
    if |entries| > limit then entries[|entries| - limit..] else entries
  }

  // ---------------------------------------------------------------- history

  datatype Op = Add(e: LogEntry) | Resize(limit: int)

  function LimitAfter(limit: nat, op: Op): nat {
    match op
    case Add(_) => limit
    case Resize(newLimit) => EffectiveLimit(newLimit)
  }

  function EntriesAfter(entries: seq<LogEntry>, limit: nat, op: Op): seq<LogEntry>
    requires limit > 0
  {
    match op
    case Add(e) => Added(entries, limit, e)
    case Resize(newLimit) => Resized(entries, EffectiveLimit(newLimit))
  }

  function Run(entries: seq<LogEntry>, limit: nat, ops: seq<Op>): seq<LogEntry>
    requires limit > 0
    decreases |ops|
  {
    if ops == [] then entries
    else Run(EntriesAfter(entries, limit, ops[0]), LimitAfter(limit, ops[0]), ops[1..])
  }

  /** Everything ever added, in order. */
  function History(before: seq<LogEntry>, ops: seq<Op>): seq<LogEntry>
    decreases |ops|
  {
    if ops == [] then before
    else History(if ops[0].Add? then before + [ops[0].e] else before, ops[1..])
  }

  /** The number of entries kept, from the operations' kinds and limits alone. */
  function KeptCount(n: nat, limit: nat, ops: seq<Op>): nat
    decreases |ops|
  {
    if ops == [] then n
    else
      var limit' := LimitAfter(limit, ops[0]);
      var wanted := if ops[0].Add? then n + 1 else n;
      KeptCount(if wanted < limit' then wanted else limit', limit', ops[1..])
  }

  predicate Suffix(entries: seq<LogEntry>, history: seq<LogEntry>) {
    |entries| <= |history| && entries == history[|history| - |entries|..]
  }

  lemma StepKeepsSuffix(entries: seq<LogEntry>, limit: nat, op: Op, history: seq<LogEntry>)
    requires 0 < limit && |entries| <= limit && Suffix(entries, history)
    ensures var history' := if op.Add? then history + [op.e] else history;
            var entries' := EntriesAfter(entries, limit, op);
            && Suffix(entries', history')
            && |entries'| <= LimitAfter(limit, op)
            && |entries'| == KeptCount(|entries|, limit, [op])
  {
    assert [op][1..] == [];
  }

  /**
   The ring refines its history: after any run of Add and Resize it holds, in order, exactly the last
   entries added, as many as the running minimum of the count and the limits allows.
   */
  lemma {:induction false} RingRefinesHistory(
      entries: seq<LogEntry>, limit: nat, ops: seq<Op>, history: seq<LogEntry>)
    requires 0 < limit && |entries| <= limit && Suffix(entries, history)
    ensures Suffix(Run(entries, limit, ops), History(history, ops))
    ensures |Run(entries, limit, ops)| == KeptCount(|entries|, limit, ops)
    decreases |ops|
  {
    if ops != [] {
      StepKeepsSuffix(entries, limit, ops[0], history);
      assert KeptCount(|entries|, limit, [ops[0]])
             == |EntriesAfter(entries, limit, ops[0])|;
      assert [ops[0]][1..] == [];
      RingRefinesHistory(EntriesAfter(entries, limit, ops[0]), LimitAfter(limit, ops[0]), ops[1..],
                         if ops[0].Add? then history + [ops[0].e] else history);
    }
  }

  /** Without a resize the ring holds the last min(limit, number added). */
  lemma {:induction false} RingWithoutResize(limit: nat, added: nat, n: nat, ops: seq<Op>)
    requires 0 < limit && n == (if added < limit then added else limit)
    requires forall i :: 0 <= i < |ops| ==> ops[i].Add?
    ensures KeptCount(n, limit, ops) == if added + |ops| < limit then added + |ops| else limit
    decreases |ops|
  {
    if ops != [] {
      RingWithoutResize(limit, added + 1, if n + 1 < limit then n + 1 else limit, ops[1..]);
    }
  }

  // ---------------------------------------------------------------- the object

  class LogRing {
    var entries: array<LogEntry>
    var len: nat
    var limit: nat

    /** The slice's capacity is the limit, so append never reallocates. */
    predicate Valid()
      reads this
    {
      0 < limit == entries.Length && len <= limit
    }

    function Contents(): seq<LogEntry>
      reads this, entries
      requires Valid()
    {
      entries[..len]
    }

    constructor (limit: int)
      ensures Valid() && fresh(entries) && this.limit == EffectiveLimit(limit) && Contents() == []
    {
      var capacity := EffectiveLimit(limit);
      this.limit := capacity;
      entries := new LogEntry[capacity](_ => NO_ENTRY);
      len := 0;
    }

    method Add(e: LogEntry, now: int)
      requires Valid()
      modifies this`len, entries
      ensures Valid()
      ensures Contents() == Added(old(Contents()), limit, Normalized(e, now))
    {
      var entry := e;
      if entry.time == 0 {
        entry := entry.(time := now);
      }
      if entry.level == "" {
        entry := entry.(level := "info");
      }
      if len >= limit {
        ShiftOne();
        entries[len - 1] := entry;
        assert Contents() == old(Contents())[1..] + [entry];
        return;
      }
      entries[len] := entry;
      len := len + 1;
      assert Contents() == old(Contents()) + [entry];
    }

    /** copy(entries, entries[1:]) */
    method ShiftOne()
      requires Valid() && len > 0
      modifies entries
      ensures forall k :: 0 <= k < len - 1 ==> entries[k] == old(entries[k + 1])
    {
      var i := 0;
      while i < len - 1
        invariant 0 <= i <= len - 1
        invariant forall k :: 0 <= k < i ==> entries[k] == old(entries[k + 1])
        invariant forall k :: i <= k < len ==> entries[k] == old(entries[k])
      {
        entries[i] := entries[i + 1];
        i := i + 1;
      }
    }

    method Resize(newLimit: int)
      requires Valid()
      modifies this
      ensures Valid() && limit == EffectiveLimit(newLimit)
      ensures Contents() == Resized(old(Contents()), EffectiveLimit(newLimit))
      ensures entries == old(entries) || fresh(entries)
    {
      var capacity := EffectiveLimit(newLimit);
      if capacity == limit {
        return;
      }
      var start := if len > capacity then len - capacity else 0;
      var kept := new LogEntry[capacity](_ => NO_ENTRY);
      forall i | 0 <= i < len - start {
        kept[i] := entries[start + i];
      }
      entries := kept;
      len := len - start;
      limit := capacity;
    }

    /** The snapshot is a new array: no later Add or Resize can write to it, since they write only
        to the ring and to the array the ring owns. */
    method Snapshot() returns (out: array<LogEntry>)
      requires Valid()
      ensures fresh(out) && out[..] == Contents()
    {
      out := new LogEntry[len](_ => NO_ENTRY);
      forall i | 0 <= i < len {
        out[i] := entries[i];
      }
    }
  }

  /** A snapshot taken before any run of Add and Resize is the same after it. */
  method SnapshotIsStable(ring: LogRing, later: seq<Op>, now: int) returns (out: array<LogEntry>)
    requires ring.Valid()
    modifies ring, ring.entries
    ensures fresh(out) && out[..] == old(ring.Contents())
    ensures ring.Valid()
  {
    out := ring.Snapshot();
    for i := 0 to |later|
      invariant ring.Valid() && (ring.entries == old(ring.entries) || fresh(ring.entries))
      invariant out != ring.entries && out[..] == old(ring.Contents())
    {
      match later[i] {
        case Add(e) => ring.Add(e, now);
        case Resize(limit) => ring.Resize(limit);
      }
    }
  }
}
