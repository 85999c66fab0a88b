/**
 internal/health/tracker.go: a ring buffer of call outcomes for each provider.
 The ring refines the plain history: it always holds the last N outcomes.
 Times are integers, ZERO_TIME being Go's zero time; averages are reals.
 */
module Health {
  import opened Wrappers

  const ZERO_TIME := 0

  /** `category` is a taxonomy category, "" on success; `latency` is in nanoseconds. */
  datatype Outcome = Outcome(success: bool, latency: int, timestamp: int, category: string)

  datatype Snapshot = Snapshot(
    provider: string, total: nat, successes: nat, failures: nat, successRate: real, avgLatencyMS: real,
    lastSuccess: int, lastFailure: int, lastError: string, windowSize: nat)

  // ---------------------------------------------------------------------
  // The window

  /** The last n outcomes of a history, oldest first. */
  function LastN(history: seq<Outcome>, n: nat): seq<Outcome> {
    if |history| <= n then history else history[|history| - n..]
  }

  /** One outcome more: only the window so far matters. */
  lemma {:induction false} WindowStep(history: seq<Outcome>, o: Outcome, n: nat)
    requires n >= 1
    ensures LastN(LastN(history, n) + [o], n) == LastN(history + [o], n)
  {
  }

  lemma {:induction false} WindowAdd(window: seq<Outcome>, o: Outcome, n: nat)
    requires 1 <= n && |window| <= n
    ensures LastN(window + [o], n) == (if |window| == n then window[1..] else window) + [o]
  {
  }

  class Ring {
    const buf: array<Outcome>
    var head: nat
    var size: nat
    /** The entries, oldest first. */
    ghost var contents: seq<Outcome>

    ghost predicate Valid()
      reads this, buf
    {
      && buf.Length >= 1 && head < buf.Length && size <= buf.Length && |contents| == size
      && forall i :: 0 <= i < size ==> contents[i] == buf[Slot(head, size, buf.Length, i)]
    }

    constructor (windowSize: nat)
      requires windowSize >= 1
      ensures Valid() && fresh(buf) && buf.Length == windowSize && contents == []
    {
      buf := new Outcome[windowSize];
      head, size, contents := 0, 0, [];
    }

    method Add(o: Outcome)
      requires Valid()
      modifies this, buf
      ensures Valid() && contents == LastN(old(contents) + [o], buf.Length)
    {
      WrapOnce(head + 1, buf.Length);
      WindowAdd(contents, o, buf.Length);
      ghost var was, head0, size0 := contents, head, size;
      ghost var drop := if size == buf.Length then 1 else 0;
      contents := contents[drop..] + [o];
      buf[head] := o;
      head := (head + 1) % buf.Length;
      if size < buf.Length {
        size := size + 1;
      }
      forall i | 0 <= i < size
        ensures contents[i] == buf[Slot(head, size, buf.Length, i)]
      {
        SlotStays(head0, size0, buf.Length, head, drop, i);
        assert i < size0 - drop ==> contents[i] == was[i + drop];
      }
    }

    /** `Add` on the window of a history. */
    method Extend(ghost history: seq<Outcome>, o: Outcome)
      requires Valid() && contents == LastN(history, buf.Length)
      modifies this, buf
      ensures Valid() && contents == LastN(history + [o], buf.Length)
    {
      WindowStep(history, o, buf.Length);
      Add(o);
    }

    method Entries() returns (out: seq<Outcome>)
      requires Valid()
      ensures out == contents
    {
      if size == 0 { return []; }
      var res := new Outcome[size];
      var cap := buf.Length;
      var start := (head - size + cap) % cap;
      for i := 0 to size
        invariant forall j :: 0 <= j < i ==> res[j] == contents[j]
      {
        SlotFrom(head, size, cap, i);
        var o := buf[(start + i) % cap];
        assert o == contents[i];
        res[i] := o;
      }
      out := res[..];
    }
  }

  /** The position of entry i in a ring of n, entry 0 being the oldest. */
  function Slot(head: nat, size: nat, n: nat, i: nat): (k: nat)
    requires head < n && i < size <= n
    ensures k < n
  {
    var a := head + n - size + i;
    if a < n then a else a - n
  }

  /**
   An add to a ring of n moves the head to `next`, and drops the oldest entry of a full one. It writes the
   slot of the newest entry; the entries that stay keep theirs.
   */
  lemma {:induction false} SlotStays(head: nat, size: nat, n: nat, next: nat, drop: nat, i: nat)
    requires head < n && size <= n && next == (if head + 1 == n then 0 else head + 1)
    requires drop == (if size == n then 1 else 0) && i <= size - drop
    ensures i < size - drop ==>
      Slot(next, size + 1 - drop, n, i) == Slot(head, size, n, i + drop) != head
    ensures i == size - drop ==> Slot(next, size + 1 - drop, n, i) == head
  {
  }

  lemma {:induction false} WrapOnce(a: nat, n: nat)
    requires n > 0 && a < 2 * n
    ensures a % n == if a < n then a else a - n
  {
  }

  /** The position that the modular arithmetic of `entries` computes. */
  lemma {:induction false} SlotFrom(head: nat, size: nat, n: nat, i: nat)
    requires head < n && i < size <= n
    ensures ((head - size + n) % n + i) % n == Slot(head, size, n, i)
  {
    WrapOnce(head - size + n, n);
    WrapOnce((head - size + n) % n + i, n);
  }

  // ---------------------------------------------------------------------
  // Snapshots

  function Count(entries: seq<Outcome>, success: bool): nat {
    if entries == [] then 0
    else
      var n := |entries| - 1;
      Count(entries[..n], success) + (if entries[n].success == success then 1 else 0)
  }

  /** Go's Duration.Milliseconds: nanoseconds, truncated toward zero. */
  function Milliseconds(d: int): int {
    if d >= 0 then d / 1_000_000 else -((-d) / 1_000_000)
  }

  function LatencySum(entries: seq<Outcome>): int {
    if entries == [] then 0
    else
      var n := |entries| - 1;
      LatencySum(entries[..n]) + (if entries[n].success then Milliseconds(entries[n].latency) else 0)
  }

  /** The newest outcome of a kind: its timestamp and category, the earliest of equals, none before ZERO_TIME. */
  function Newest(entries: seq<Outcome>, success: bool): (r: (int, string)) {
    if entries == [] then (ZERO_TIME, "")
    else
      var n := |entries| - 1;
      var before, o := Newest(entries[..n], success), entries[n];
      if o.success == success && o.timestamp > before.0 then (o.timestamp, o.category) else before
  }

  function SnapshotOf(provider: string, windowSize: nat, entries: seq<Outcome>): Snapshot {
    var good := Count(entries, true);
    Snapshot(provider, |entries|, good, Count(entries, false),
             if entries == [] then -1.0 else good as real / |entries| as real,
             if good == 0 then -1.0 else LatencySum(entries) as real / good as real,
             Newest(entries, true).0, Newest(entries, false).0, Newest(entries, false).1, windowSize)
  }

  lemma {:induction false} EmptySnapshot(provider: string, windowSize: nat)
    ensures SnapshotOf(provider, windowSize, LastN([], windowSize))
         == Snapshot(provider, 0, 0, 0, -1.0, -1.0, ZERO_TIME, ZERO_TIME, "", windowSize)
  {
  }

  method BuildSnapshot(provider: string, windowSize: nat, entries: seq<Outcome>) returns (s: Snapshot)
    ensures s == SnapshotOf(provider, windowSize, entries)
  {
    s := Snapshot(provider, 0, 0, 0, -1.0, -1.0, ZERO_TIME, ZERO_TIME, "", windowSize);
    if |entries| == 0 { return; }
    var successes, failures, latencySum: int := 0, 0, 0;
    var lastSuccess, lastFailure, lastError := ZERO_TIME, ZERO_TIME, "";
    for i := 0 to |entries|
      invariant successes == Count(entries[..i], true) && failures == Count(entries[..i], false)
      invariant latencySum == LatencySum(entries[..i])
      invariant lastSuccess == Newest(entries[..i], true).0
      invariant (lastFailure, lastError) == Newest(entries[..i], false)
    {
      var o := entries[i];
      assert entries[..i + 1][..i] == entries[..i];
      if o.success {
        successes := successes + 1;
        latencySum := latencySum + Milliseconds(o.latency);
        if o.timestamp > lastSuccess { lastSuccess := o.timestamp; }
      } else {
        failures := failures + 1;
        if o.timestamp > lastFailure { lastFailure, lastError := o.timestamp, o.category; }
      }
    }
    assert entries[..|entries|] == entries;
    var rate := successes as real / |entries| as real;
    var avg := -1.0;
    if successes > 0 { avg := latencySum as real / successes as real; }
    s := Snapshot(provider, |entries|, successes, failures, rate, avg, lastSuccess, lastFailure, lastError, windowSize);
  }

  lemma {:induction false} CountsAddUp(entries: seq<Outcome>)
    ensures Count(entries, true) + Count(entries, false) == |entries|
  {
    if entries != [] { CountsAddUp(entries[..|entries| - 1]); }
  }

  /** `lastError` is the category of the failure with the newest timestamp, the earliest one of several. */
  lemma {:induction false} NewestIsNewest(entries: seq<Outcome>, success: bool, j: nat)
    requires j < |entries| && entries[j].success == success && entries[j].timestamp > ZERO_TIME
    requires forall i :: 0 <= i < |entries| && entries[i].success == success ==>
      if i < j then entries[i].timestamp < entries[j].timestamp else entries[i].timestamp <= entries[j].timestamp
    ensures Newest(entries, success) == (entries[j].timestamp, entries[j].category)
  {
    var n := |entries| - 1;
    if j < n {
      NewestIsNewest(entries[..n], success, j);
    } else {
      OlderThan(entries[..n], success, entries[j].timestamp);
    }
  }

  lemma {:induction false} OlderThan(entries: seq<Outcome>, success: bool, t: int)
    requires t > ZERO_TIME
    requires forall i :: 0 <= i < |entries| && entries[i].success == success ==> entries[i].timestamp < t
    ensures Newest(entries, success).0 < t
  {
    if entries != [] { OlderThan(entries[..|entries| - 1], success, t); }
  }

  /** Without a failure after the zero time there is no last error. */
  lemma {:induction false} NoFailureNoError(entries: seq<Outcome>, success: bool)
    requires forall i :: 0 <= i < |entries| && entries[i].success == success ==> entries[i].timestamp <= ZERO_TIME
    ensures Newest(entries, success) == (ZERO_TIME, "")
  {
    if entries != [] { NoFailureNoError(entries[..|entries| - 1], success); }
  }

  // ---------------------------------------------------------------------
  // The snapshot in the entries' own terms

  /** The entries with this outcome. */
  function Those(entries: seq<Outcome>, success: bool): set<nat> {
    set i | 0 <= i < |entries| && entries[i].success == success
  }

  lemma {:induction false} CountIsThose(entries: seq<Outcome>, success: bool)
    ensures Count(entries, success) == |Those(entries, success)|
  {
    if entries != [] {
      var n := |entries| - 1;
      CountIsThose(entries[..n], success);
      assert Those(entries, success)
          == Those(entries[..n], success) + if entries[n].success == success then {n} else {};
    }
  }

  /** The milliseconds of the successes from entry i on. */
  function MillisFrom(entries: seq<Outcome>, i: nat): int
    requires i <= |entries|
    decreases |entries| - i
  {
    if i == |entries| then 0
    else (if entries[i].success then Milliseconds(entries[i].latency) else 0) + MillisFrom(entries, i + 1)
  }

  lemma {:induction false} LatencyFrom(entries: seq<Outcome>, i: nat)
    requires i <= |entries|
    ensures LatencySum(entries) == LatencySum(entries[..i]) + MillisFrom(entries, i)
    decreases |entries| - i
  {
    if i == |entries| {
      assert entries[..i] == entries;
    } else {
      LatencyFrom(entries, i + 1);
      assert entries[..i + 1][..i] == entries[..i];
    }
  }

  /** Whole milliseconds: what is left over is less than one, and has the sign of the duration. */
  lemma {:induction false} MillisecondsInFull(d: int)
    ensures var left := d - 1_000_000 * Milliseconds(d);
      -1_000_000 < left < 1_000_000 && (d >= 0 ==> left >= 0) && (d <= 0 ==> left <= 0)
  {
  }

  /** The snapshot, field by field: the counts and the newest entry of either kind, */
  lemma {:induction false} SnapshotInFull(provider: string, windowSize: nat, entries: seq<Outcome>)
    ensures var s := SnapshotOf(provider, windowSize, entries);
      && s.provider == provider && s.windowSize == windowSize && s.total == |entries|
      && s.successes == |Those(entries, true)| && s.failures == |Those(entries, false)|
      && s.lastSuccess == Newest(entries, true).0
      && s.lastFailure == Newest(entries, false).0 && s.lastError == Newest(entries, false).1
  {
    CountIsThose(entries, true);
    CountIsThose(entries, false);
  }

  /** the rate of the successes among all entries, */
  lemma {:induction false} RateInFull(provider: string, windowSize: nat, entries: seq<Outcome>)
    ensures var s := SnapshotOf(provider, windowSize, entries);
      && (entries == [] ==> s.successRate == -1.0)
      && (entries != [] ==> s.successRate == |Those(entries, true)| as real / |entries| as real)
  {
    CountIsThose(entries, true);
  }

  /** and the average latency of the successes alone. */
  lemma {:induction false} LatencyInFull(provider: string, windowSize: nat, entries: seq<Outcome>)
    ensures var s, good := SnapshotOf(provider, windowSize, entries), |Those(entries, true)|;
      && (good == 0 ==> s.avgLatencyMS == -1.0)
      && (good > 0 ==> s.avgLatencyMS == MillisFrom(entries, 0) as real / good as real)
  {
    CountIsThose(entries, true);
    LatencyFrom(entries, 0);
    assert entries[..0] == [];
  }

  /** The window: the whole history while it fits, and then its last n outcomes, in order. */
  lemma {:induction false} LastNInFull(history: seq<Outcome>, n: nat, i: nat)
    requires i < |LastN(history, n)|
    ensures |LastN(history, n)| == if |history| < n then |history| else n
    ensures LastN(history, n)[i] == history[|history| - |LastN(history, n)| + i]
  {
  }

  // ---------------------------------------------------------------------
  // The tracker

  class Tracker {
    const windowSize: nat
    var rings: map<string, Ring>
    /** Every outcome ever recorded, by provider. */
    ghost var history: map<string, seq<Outcome>>

    ghost predicate Valid()
      reads this, set p | p in rings :: rings[p], set p | p in rings :: rings[p].buf
    {
      && windowSize >= 1 && history.Keys == rings.Keys
      && (forall p, q :: p in rings && q in rings && p != q ==> rings[p] != rings[q] && rings[p].buf != rings[q].buf)
      && (forall p :: p in rings ==>
            rings[p].Valid() && rings[p].buf.Length == windowSize && rings[p].contents == LastN(history[p], windowSize))
    }

    constructor (windowSize: int)
      ensures Valid() && history == map[]
      ensures this.windowSize == if windowSize < 1 then 1 else windowSize
    {
      this.windowSize := if windowSize < 1 then 1 else windowSize;
      rings, history := map[], map[];
    }

    /** All outcomes of a provider, none if it was never recorded. */
    ghost function HistoryOf(provider: string): seq<Outcome>
      reads this
    {
      if provider in history then history[provider] else []
    }

    method Record(provider: string, o: Outcome)
      requires Valid()
      modifies this, set p | p in rings :: rings[p], set p | p in rings :: rings[p].buf
      ensures Valid()
      ensures history == old(history)[provider := old(HistoryOf(provider)) + [o]]
    {
      if provider !in rings {
        AddRing(provider);
      }
      AddTo(provider, o);
    }

    method AddRing(provider: string)
      requires Valid() && provider !in rings
      modifies this
      ensures Valid() && provider in rings && fresh(rings[provider]) && fresh(rings[provider].buf)
      ensures rings == old(rings)[provider := rings[provider]]
      ensures history == old(history)[provider := []]
    {
      var r := new Ring(windowSize);
      rings := rings[provider := r];
      history := history[provider := []];
    }

    method AddTo(provider: string, o: Outcome)
      requires Valid() && provider in rings
      modifies `history, rings[provider], rings[provider].buf
      ensures Valid()
      ensures history == old(history)[provider := old(history)[provider] + [o]]
    {
      rings[provider].Extend(history[provider], o);
      history := history[provider := history[provider] + [o]];
    }

    /** The snapshot of a provider is the one of its last `windowSize` outcomes. */
    method TakeSnapshot(provider: string) returns (s: Snapshot)
      requires Valid()
      ensures s == SnapshotOf(provider, windowSize, LastN(HistoryOf(provider), windowSize))
    {
      if provider !in rings {
        EmptySnapshot(provider, windowSize);
        return Snapshot(provider, 0, 0, 0, -1.0, -1.0, ZERO_TIME, ZERO_TIME, "", windowSize);
      }
      var entries := rings[provider].Entries();
      s := BuildSnapshot(provider, windowSize, entries);
    }
  }
}
