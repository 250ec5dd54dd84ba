/** The health history's ring buffer and its hourly aggregation (api/v1/status.go). */
module HealthHistory {
  import opened Sums

  /** The timestamp is in seconds, the latency in microseconds. */
  datatype HealthRecord = HealthRecord(timestamp: int, provider: string, status: string, latency: int)

  const MAX_HISTORY_RECORDS := 10080

  function Kept(n: nat): nat {
    if n < MAX_HISTORY_RECORDS then n else MAX_HISTORY_RECORDS
  }

  /** The last m records of a log, the newest c of them first. */
  function Turned(log: seq<HealthRecord>, m: nat, c: nat): seq<HealthRecord>
    requires c <= m <= |log|
  {
    log[|log| - c..] + log[|log| - m..|log| - c]
  }

  lemma TurnedKeepsAll(log: seq<HealthRecord>, m: nat, c: nat)
    requires c <= m <= |log|
    ensures |Turned(log, m, c)| == m && multiset(Turned(log, m, c)) == multiset(log[|log| - m..])
  {
    assert log[|log| - m..] == log[|log| - m..|log| - c] + log[|log| - c..];
  }

  /** The last records of a log, turned so that the newest one ends at the write position. */
  function Rotated(log: seq<HealthRecord>): seq<HealthRecord> {
    if |log| < MAX_HISTORY_RECORDS then log else Turned(log, MAX_HISTORY_RECORDS, |log| % MAX_HISTORY_RECORDS)
  }

  lemma RotatedIsTheLast(log: seq<HealthRecord>)
    ensures |Rotated(log)| == Kept(|log|)
    ensures multiset(Rotated(log)) == multiset(log[|log| - Kept(|log|)..])
  {
    if |log| < MAX_HISTORY_RECORDS {
      assert log[0..] == log;
    } else {
      TurnedKeepsAll(log, MAX_HISTORY_RECORDS, |log| % MAX_HISTORY_RECORDS);
    }
  }

  /** The number of the record in slot i after n appends. */
  function Occupant(n: nat, i: nat): nat
    requires i < MAX_HISTORY_RECORDS <= n
  {
    var c := n % MAX_HISTORY_RECORDS;
    if i < c then n - c + i else n - c - MAX_HISTORY_RECORDS + i
  }

  lemma OccupantsSlot(n: nat, i: nat)
    requires i < MAX_HISTORY_RECORDS <= n
    ensures Occupant(n, i) % MAX_HISTORY_RECORDS == i && Occupant(n, i) < n <= Occupant(n, i) + MAX_HISTORY_RECORDS
  {
  }

  lemma RotatedAt(log: seq<HealthRecord>, i: nat)
    requires i < MAX_HISTORY_RECORDS <= |log|
    ensures |Rotated(log)| == MAX_HISTORY_RECORDS
    ensures Occupant(|log|, i) < |log| && Rotated(log)[i] == log[Occupant(|log|, i)]
  {
  }

  // ---- The ring buffer ------------------------------------------------------------------------

  class StatusHandler {
    var history: seq<HealthRecord>
    var historyIdx: nat
    ghost var log: seq<HealthRecord>   // every record ever appended

    /** Record k sits at slot k mod 10080 until record k + 10080 takes the slot. */
    ghost predicate Valid()
      reads this
    {
      && historyIdx == |log|
      && |history| == Kept(|log|)
      && forall k | 0 <= k < |log| && |log| <= k + MAX_HISTORY_RECORDS :: history[k % MAX_HISTORY_RECORDS] == log[k]
    }

    constructor ()
      ensures Valid() && log == []
    {
      history, historyIdx, log := [], 0, [];
    }

    method AppendHistory(r: HealthRecord)
      requires Valid()
      modifies this
      ensures Valid() && log == old(log) + [r]
    {
      if |history| < MAX_HISTORY_RECORDS {
        history := history + [r];
      } else {
        history := history[historyIdx % MAX_HISTORY_RECORDS := r];
      }
      historyIdx := historyIdx + 1;
      log := log + [r];
    }

    /** One round of checks: a record for each provider. */
    method CheckAll(round: seq<HealthRecord>)
      requires Valid()
      modifies this
      ensures Valid() && log == old(log) + round
    {
      for i := 0 to |round|
        invariant Valid() && log == old(log) + round[..i]
      {
        AppendHistory(round[i]);
        assert round[..i + 1] == round[..i] + [round[i]];
      }
      assert round[..|round|] == round;
    }

    lemma HistoryIsRotated()
      requires Valid()
      ensures history == Rotated(log)
    {
      if |log| < MAX_HISTORY_RECORDS {
        forall i | 0 <= i < |log| ensures history[i] == log[i] {
          assert i % MAX_HISTORY_RECORDS == i;
        }
      } else {
        forall i | 0 <= i < MAX_HISTORY_RECORDS
          ensures |Rotated(log)| == MAX_HISTORY_RECORDS && history[i] == Rotated(log)[i]
        {
          OccupantsSlot(|log|, i);
          RotatedAt(log, i);
        }
        RotatedIsTheLast(log);
      }
    }

    /** The history holds exactly the last min(n, 10080) records. */
    lemma HistoryIsTheLast()
      requires Valid()
      ensures |history| == if |log| < 10080 then |log| else 10080
      ensures multiset(history) == multiset(log[|log| - |history|..])
    {
      HistoryIsRotated();
      RotatedIsTheLast(log);
    }
  }

  // ---- How far back the history reaches -----------------------------------------------------------
  //
  // With p providers, record k belongs to round k / p.

  /** Record k is among those kept after n appends. */
  predicate IsKept(n: nat, k: nat) {
    n - Kept(n) <= k < n
  }

  /** After r rounds of p records, round j is kept as a whole. */
  ghost predicate RoundIsKept(r: nat, p: nat, j: nat) {
    forall k | j * p <= k < (j + 1) * p :: IsKept(r * p, k)
  }

  lemma MulGrows(a: int, b: int, p: nat)
    requires a <= b
    ensures a * p <= b * p
  {
  }

  /** A round is kept as long as its first record is. */
  lemma FirstRecordDecides(r: nat, p: nat, j: nat)
    requires p >= 1 && j < r
    ensures RoundIsKept(r, p, j) <==> (r - j) * p <= MAX_HISTORY_RECORDS
  {
    MulGrows(j + 1, r, p);
    MulGrows(j, j + 1, p);
    assert (r - j) * p == r * p - j * p;
    assert j * p < (j + 1) * p;
    if RoundIsKept(r, p, j) {
      assert IsKept(r * p, j * p);
    }
  }

  lemma QuotientBound(x: nat, p: nat)
    requires p >= 1
    ensures x * p <= MAX_HISTORY_RECORDS <==> x <= MAX_HISTORY_RECORDS / p
  {
    var q := MAX_HISTORY_RECORDS / p;
    assert q * p <= MAX_HISTORY_RECORDS < (q + 1) * p;
    if x <= q {
      MulGrows(x, q, p);
    } else {
      MulGrows(q + 1, x, p);
    }
  }

  /** After r rounds with p providers, the rounds kept whole are the last 10080 / p. */
  lemma LastRoundsAreKept(r: nat, p: nat, j: nat)
    requires p >= 1 && j < r
    ensures RoundIsKept(r, p, j) <==> r - j <= MAX_HISTORY_RECORDS / p
  {
    FirstRecordDecides(r, p, j);
    QuotientBound(r - j, p);
  }

  /** The oldest record kept belongs to the round ceil(10080 / p) rounds ago. */
  lemma OldestRoundKept(r: nat, p: nat)
    requires p >= 1 && r * p >= MAX_HISTORY_RECORDS
    ensures var oldest := r * p - Kept(r * p);
      IsKept(r * p, oldest) && r - oldest / p == (MAX_HISTORY_RECORDS + p - 1) / p
  {
    var q, rem := (MAX_HISTORY_RECORDS + p - 1) / p, (MAX_HISTORY_RECORDS + p - 1) % p;
    var oldest := r * p - MAX_HISTORY_RECORDS;
    assert MAX_HISTORY_RECORDS + p - 1 == q * p + rem;
    assert oldest == (r - q) * p + (p - 1 - rem);
    var d, m := oldest / p, oldest % p;
    assert (d - (r - q)) * p == p - 1 - rem - m;
    if d > r - q {
      MulGrows(1, d - (r - q), p);
    } else if d < r - q {
      MulGrows(1, r - q - d, p);
    }
  }

  /**
   The history is meant to reach back 10080 rounds, a week at one round a minute.  Once
   that many rounds have been made it does so exactly when there is at most one provider.
   With none there is nothing to keep.
   */
  lemma WeekIsKeptIff(r: nat, p: nat)
    requires r >= MAX_HISTORY_RECORDS
    ensures (forall j | r - MAX_HISTORY_RECORDS <= j < r :: RoundIsKept(r, p, j)) <==> p <= 1
  {
    if p == 0 {
      assert forall j: nat :: j * p == 0;
    } else {
      var first := r - MAX_HISTORY_RECORDS;
      FirstRecordDecides(r, p, first);
      if p == 1 {
        forall j | first <= j < r ensures RoundIsKept(r, p, j) {
          LastRoundsAreKept(r, p, j);
        }
      } else {
        MulGrows(2, p, MAX_HISTORY_RECORDS);
        assert MAX_HISTORY_RECORDS * p >= 2 * MAX_HISTORY_RECORDS;
      }
    }
  }

  // ---- Aggregation ------------------------------------------------------------------------------

  datatype HourKey = HourKey(provider: string, hour: int)

  datatype HourStats = HourStats(total: nat, up: nat, sum: int)

  const SECONDS_PER_HOUR := 3600

  function KeyOf(r: HealthRecord): HourKey {
    HourKey(r.provider, r.timestamp / SECONDS_PER_HOUR)
  }

  /** What the first n records add up to for one provider and hour. */
  function StatsUpTo(records: seq<HealthRecord>, key: HourKey, n: nat): (s: HourStats)
    requires n <= |records|
    ensures s.up <= s.total <= n
  {
    if n == 0 then HourStats(0, 0, 0)
    else
      var s, r := StatsUpTo(records, key, n - 1), records[n - 1];
      if KeyOf(r) != key then s
      else HourStats(s.total + 1, s.up + (if r.status == "up" then 1 else 0), s.sum + r.latency)
  }

  ghost predicate BucketsAre(buckets: map<HourKey, HourStats>, records: seq<HealthRecord>, n: nat)
    requires n <= |records|
  {
    && (forall key | key in buckets :: buckets[key] == StatsUpTo(records, key, n) && buckets[key].total > 0)
    && (forall i | 0 <= i < n :: KeyOf(records[i]) in buckets)
  }

  lemma {:induction false} NoRecordNoStats(records: seq<HealthRecord>, key: HourKey, n: nat)
    requires n <= |records| && forall i | 0 <= i < n :: KeyOf(records[i]) != key
    ensures StatsUpTo(records, key, n) == HourStats(0, 0, 0)
  {
    if n > 0 {
      NoRecordNoStats(records, key, n - 1);
    }
  }

  ghost predicate FallsInto(r: HealthRecord, key: HourKey) {
    r.provider == key.provider && 3600 * key.hour <= r.timestamp < 3600 * (key.hour + 1)
  }

  lemma KeyMeaning(r: HealthRecord, key: HourKey)
    ensures KeyOf(r) == key <==> FallsInto(r, key)
  {
  }

  /**
   Of the records of this provider and hour, the statistics count all, count those that
   were up, and add up the latencies, each by itself.
   */
  lemma {:induction false} StatsAreSums(records: seq<HealthRecord>, key: HourKey, n: nat)
    requires n <= |records|
    ensures StatsUpTo(records, key, n).total == SumUpTo(r => if FallsInto(r, key) then 1 else 0, records, n)
    ensures StatsUpTo(records, key, n).up ==
            SumUpTo((r: HealthRecord) => if FallsInto(r, key) && r.status == "up" then 1 else 0, records, n)
    ensures StatsUpTo(records, key, n).sum ==
            SumUpTo((r: HealthRecord) => if FallsInto(r, key) then r.latency else 0, records, n)
  {
    if n > 0 {
      StatsAreSums(records, key, n - 1);
      KeyMeaning(records[n - 1], key);
    }
  }

  lemma BucketsAreOfRecords(buckets: map<HourKey, HourStats>, records: seq<HealthRecord>, key: HourKey)
    requires BucketsAre(buckets, records, |records|)
    ensures key in buckets <==> exists i :: 0 <= i < |records| && FallsInto(records[i], key)
  {
    forall i | 0 <= i < |records| ensures KeyOf(records[i]) == key <==> FallsInto(records[i], key) {
      KeyMeaning(records[i], key);
    }
    if forall i | 0 <= i < |records| :: KeyOf(records[i]) != key {
      NoRecordNoStats(records, key, |records|);
    }
  }

  /** There is a bucket for a provider and hour exactly when a record falls into it. */
  method Aggregate(records: seq<HealthRecord>) returns (buckets: map<HourKey, HourStats>)
    ensures BucketsAre(buckets, records, |records|)
  {
    buckets := map[];
    for n := 0 to |records|
      invariant BucketsAre(buckets, records, n)
    {
      var r := records[n];
      var key := KeyOf(r);
      if key !in buckets {
        NoRecordNoStats(records, key, n);
        buckets := buckets[key := HourStats(0, 0, 0)];
      }
      var b := buckets[key];
      buckets := buckets[key := HourStats(b.total + 1, if r.status == "up" then b.up + 1 else b.up, b.sum + r.latency)];
    }
  }

  // ---- The buckets partition the history ------------------------------------------------------------

  /** Keys listed in any order, as iteration over a Go map does. */
  ghost predicate Lists(keys: seq<HourKey>, buckets: map<HourKey, HourStats>) {
    && (forall i, j | 0 <= i < j < |keys| :: keys[i] != keys[j])
    && (forall key :: key in keys <==> key in buckets)
  }

  ghost function TotalsUpTo(records: seq<HealthRecord>, n: nat, keys: seq<HourKey>, m: nat): nat
    requires n <= |records| && m <= |keys|
  {
    if m == 0 then 0 else TotalsUpTo(records, n, keys, m - 1) + StatsUpTo(records, keys[m - 1], n).total
  }

  /** One more record adds one to its own key's total, wherever the key is listed. */
  lemma {:induction false} OneMoreRecord(records: seq<HealthRecord>, n: nat, keys: seq<HourKey>, m: nat)
    requires n < |records| && m <= |keys|
    requires forall i, j | 0 <= i < j < m :: keys[i] != keys[j]
    ensures TotalsUpTo(records, n + 1, keys, m) ==
            TotalsUpTo(records, n, keys, m) + if KeyOf(records[n]) in keys[..m] then 1 else 0
  {
    if m > 0 {
      OneMoreRecord(records, n, keys, m - 1);
      assert keys[..m] == keys[..m - 1] + [keys[m - 1]];
      if keys[m - 1] == KeyOf(records[n]) {
        assert KeyOf(records[n]) !in keys[..m - 1];
      }
    }
  }

  lemma {:induction false} NoRecordsNoTotals(records: seq<HealthRecord>, keys: seq<HourKey>, m: nat)
    requires m <= |keys|
    ensures TotalsUpTo(records, 0, keys, m) == 0
  {
    if m > 0 {
      NoRecordsNoTotals(records, keys, m - 1);
    }
  }

  lemma {:induction false} TotalsAddUp(records: seq<HealthRecord>, n: nat, keys: seq<HourKey>)
    requires n <= |records|
    requires forall i, j | 0 <= i < j < |keys| :: keys[i] != keys[j]
    requires forall i | 0 <= i < n :: KeyOf(records[i]) in keys
    ensures TotalsUpTo(records, n, keys, |keys|) == n
  {
    if n == 0 {
      NoRecordsNoTotals(records, keys, |keys|);
    } else {
      TotalsAddUp(records, n - 1, keys);
      OneMoreRecord(records, n - 1, keys, |keys|);
      assert keys[..|keys|] == keys;
    }
  }

  /** In whatever order the buckets are listed, their totals add up to the length of the history. */
  lemma BucketsPartition(records: seq<HealthRecord>, buckets: map<HourKey, HourStats>, keys: seq<HourKey>)
    requires BucketsAre(buckets, records, |records|) && Lists(keys, buckets)
    ensures TotalsUpTo(records, |records|, keys, |keys|) == |records|
    ensures forall key | key in buckets :: buckets[key].up <= buckets[key].total
  {
    TotalsAddUp(records, |records|, keys);
  }
}
