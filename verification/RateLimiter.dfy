/**
 The in-memory sliding-window limiter (api/middleware/ratelimit.go).

 Each key has a slice of admission times that is filtered in place: the survivors
 are written to the front of the very array that is still being read.
 */
module RateLimiting {
  import opened Sums

  type Time = int

  // ---- The history and the rule ------------------------------------------------

  datatype Call = Call(key: string, at: Time, admitted: bool)

  /** The calls so far, latest outermost. */
  datatype History = Start | After(past: History, last: Call)

  /** How many calls of the key were admitted in the half-open interval (lo, hi]. */
  ghost function InWindow(log: History, key: string, lo: Time, hi: Time): nat {
    match log
    case Start => 0
    case After(past, c) =>
      InWindow(past, key, lo, hi) + if c.key == key && c.admitted && lo < c.at <= hi then 1 else 0
  }

  /** The calls of a log, in order. */
  ghost function CallsOf(log: History): seq<Call> {
    match log
    case Start => []
    case After(past, c) => CallsOf(past) + [c]
  }

  /** Each admitted call of the key counts once in every window that it falls into, and no other call counts. */
  lemma {:induction false} InWindowIsSum(log: History, key: string, lo: Time, hi: Time)
    ensures InWindow(log, key, lo, hi) ==
            Sum((c: Call) => if c.key == key && c.admitted && lo < c.at && c.at <= hi then 1 else 0, CallsOf(log))
  {
    if log.After? {
      InWindowIsSum(log.past, key, lo, hi);
      SumAppend((c: Call) => if c.key == key && c.admitted && lo < c.at && c.at <= hi then 1 else 0,
                CallsOf(log.past), log.last);
    }
  }

  ghost predicate NotAfter(log: History, now: Time) {
    log.After? ==> log.last.at <= now && NotAfter(log.past, now)
  }

  /** The sliding-window rule. */
  ghost predicate Admits(limit: int, window: int, log: History, key: string, now: Time) {
    InWindow(log, key, now - window, now) < limit
  }

  /** The clock was monotone and every call was decided by the rule on the calls before it. */
  ghost predicate Faithful(limit: int, window: int, log: History) {
    log.After? ==>
      && Faithful(limit, window, log.past)
      && NotAfter(log.past, log.last.at)
      && (log.last.admitted <==> Admits(limit, window, log.past, log.last.key, log.last.at))
  }

  lemma {:induction false} NotAfterLater(log: History, now: Time, later: Time)
    requires NotAfter(log, now) && now <= later
    ensures NotAfter(log, later)
  {
    if log.After? {
      NotAfterLater(log.past, now, later);
    }
  }

  lemma {:induction false} NarrowerWindow(log: History, key: string, lo: Time, hi: Time, lo': Time, hi': Time)
    requires lo' <= lo && NotAfter(log, hi')
    ensures InWindow(log, key, lo, hi) <= InWindow(log, key, lo', hi')
  {
    if log.After? {
      NarrowerWindow(log.past, key, lo, hi, lo', hi');
    }
  }

  /** No window of this length, wherever it ends, ever holds more than `limit` admissions. */
  lemma {:induction false} NoWindowOverflows(limit: int, window: int, log: History, key: string, t: Time)
    requires Faithful(limit, window, log)
    ensures InWindow(log, key, t - window, t) <= if limit < 0 then 0 else limit
  {
    if log.After? {
      NoWindowOverflows(limit, window, log.past, key, t);
      var c := log.last;
      if c.key == key && c.admitted && t - window < c.at <= t {
        NarrowerWindow(log.past, key, t - window, t, c.at - window, c.at);
      }
    }
  }

  // ---- Slices of times -----------------------------------------------------------

  /** Those of the first n times that are later than the cutoff, in order. */
  function LiveAmong(times: seq<Time>, cutoff: Time, n: nat): seq<Time>
    requires n <= |times|
  {
    if n == 0 then []
    else if times[n - 1] > cutoff then LiveAmong(times, cutoff, n - 1) + [times[n - 1]]
    else LiveAmong(times, cutoff, n - 1)
  }

  function Live(times: seq<Time>, cutoff: Time): seq<Time> {
    LiveAmong(times, cutoff, |times|)
  }

  ghost function Later(cutoff: Time): Time -> int {
    t => if t > cutoff then 1 else 0
  }

  /** How many times are later than the cutoff. */
  ghost function CountAfter(times: seq<Time>, cutoff: Time): int {
    Sum(Later(cutoff), times)
  }

  lemma {:induction false} LiveCounts(times: seq<Time>, cutoff: Time, later: Time, n: nat)
    requires cutoff <= later && n <= |times|
    ensures |LiveAmong(times, cutoff, n)| == SumUpTo(Later(cutoff), times, n)
    ensures CountAfter(LiveAmong(times, cutoff, n), later) == SumUpTo(Later(later), times, n)
  {
    if n > 0 {
      LiveCounts(times, cutoff, later, n - 1);
      SumAppend(Later(later), LiveAmong(times, cutoff, n - 1), times[n - 1]);
    }
  }

  /** How many admissions of the key are later than the cutoff. */
  ghost function AdmittedAfter(log: History, key: string, cutoff: Time): nat {
    match log
    case Start => 0
    case After(past, c) =>
      AdmittedAfter(past, key, cutoff) + if c.key == key && c.admitted && c.at > cutoff then 1 else 0
  }

  lemma {:induction false} AdmittedAfterIsWindow(log: History, key: string, cutoff: Time, now: Time)
    requires NotAfter(log, now)
    ensures AdmittedAfter(log, key, cutoff) == InWindow(log, key, cutoff, now)
  {
    if log.After? {
      AdmittedAfterIsWindow(log.past, key, cutoff, now);
    }
  }

  /**
   What a stored slice has to be: not the whole history of its key, only right about
   every cutoff from `since` on.
   */
  ghost predicate Tracks(times: seq<Time>, log: History, key: string, since: Time) {
    forall c | c >= since :: CountAfter(times, c) == AdmittedAfter(log, key, c)
  }

  lemma FilteringTracks(times: seq<Time>, log: History, key: string, since: Time, cutoff: Time)
    requires Tracks(times, log, key, since) && since <= cutoff
    ensures Tracks(Live(times, cutoff), log, key, cutoff)
    ensures |Live(times, cutoff)| == AdmittedAfter(log, key, cutoff)
  {
    LiveCounts(times, cutoff, cutoff, |times|);
    forall c | c >= cutoff
      ensures CountAfter(Live(times, cutoff), c) == AdmittedAfter(log, key, c)
    {
      LiveCounts(times, cutoff, c, |times|);
    }
  }

  lemma AdmittingTracks(times: seq<Time>, log: History, key: string, since: Time, now: Time)
    requires Tracks(times, log, key, since)
    ensures Tracks(times + [now], After(log, Call(key, now, true)), key, since)
  {
    forall c | c >= since
      ensures CountAfter(times + [now], c) == AdmittedAfter(After(log, Call(key, now, true)), key, c)
    {
      SumAppend(Later(c), times, now);
    }
  }

  /** A call that admits nothing for this key leaves its slice right, now and later. */
  lemma OtherCallsTrack(times: seq<Time>, log: History, c: Call, key: string, since: Time, later: Time)
    requires Tracks(times, log, key, since) && since <= later
    requires c.key != key || !c.admitted
    ensures Tracks(times, After(log, c), key, later)
  {
    forall cutoff | cutoff >= later
      ensures CountAfter(times, cutoff) == AdmittedAfter(After(log, c), key, cutoff)
    {
    }
  }

  /**
   Filtering with `reqs[:0]` and append: the write index never passes the read index,
   so every entry is still there when it is read.
   */
  method FilterInPlace(a: array<Time>, n: nat, cutoff: Time) returns (m: nat)
    requires n <= a.Length
    modifies a
    ensures m <= n
    ensures a[..m] == Live(old(a[..n]), cutoff)
  {
    m := 0;
    var i := 0;
    ghost var was := a[..n];
    while i < n
      invariant 0 <= m <= i <= n
      invariant forall j | i <= j < n :: a[j] == was[j]
      invariant a[..m] == LiveAmong(was, cutoff, i)
    {
      var t := a[i];
      if t > cutoff {
        a[m] := t;
        m := m + 1;
      }
      i := i + 1;
    }
  }

  /** The filter on one key's slice: its array is rewritten from the front and cut. */
  method Filter(reqs: seq<Time>, cutoff: Time) returns (valid: seq<Time>)
    ensures valid == Live(reqs, cutoff)
  {
    var backing := new Time[|reqs|](i requires 0 <= i < |reqs| => reqs[i]);
    assert backing[..|reqs|] == reqs;
    var m := FilterInPlace(backing, |reqs|, cutoff);
    valid := backing[..m];
  }

  // ---- All keys together -----------------------------------------------------------

  type Store = map<string, seq<Time>>

  ghost function Times(store: Store, key: string): seq<Time> {
    if key in store then store[key] else []
  }

  /** Every key's times are right about every cutoff from `since` on. */
  ghost predicate AllTrack(store: Store, log: History, since: Time) {
    forall key :: Tracks(Times(store, key), log, key, since)
  }

  /** The store after one decision: expire, then append if admitted. */
  ghost function Decided(store: Store, key: string, cutoff: Time, now: Time, ok: bool): Store {
    var live := Live(Times(store, key), cutoff);
    store[key := if ok then live + [now] else live]
  }

  lemma DecisionTracks(store: Store, log: History, key: string, since: Time, cutoff: Time, now: Time, ok: bool)
    requires AllTrack(store, log, since) && since <= cutoff
    ensures AllTrack(Decided(store, key, cutoff, now, ok), After(log, Call(key, now, ok)), cutoff)
  {
    var after, c := Decided(store, key, cutoff, now, ok), Call(key, now, ok);
    forall k
      ensures Tracks(Times(after, k), After(log, c), k, cutoff)
    {
      if k != key {
        OtherCallsTrack(Times(store, k), log, c, k, since, cutoff);
      } else {
        var live := Live(Times(store, key), cutoff);
        FilteringTracks(Times(store, key), log, key, since, cutoff);
        if ok {
          AdmittingTracks(live, log, key, cutoff, now);
        } else {
          OtherCallsTrack(live, log, c, key, cutoff, cutoff);
        }
      }
    }
  }

  ghost function WithoutExpired(store: Store, key: string, cutoff: Time): Store {
    var live := Live(Times(store, key), cutoff);
    if live == [] then store - {key} else store[key := live]
  }

  /** Cleanup half done: the keys still to do are as they were, the rest is filtered. */
  ghost predicate Cleaned(before: Store, after: Store, todo: set<string>, cutoff: Time) {
    && todo <= after.Keys <= before.Keys
    && (forall k | k in todo :: after[k] == before[k])
    && (forall k | k !in todo :: Times(after, k) == Live(Times(before, k), cutoff))
    && (forall k | k in after && k !in todo :: after[k] != [])
  }

  lemma CleanedStep(before: Store, after: Store, todo: set<string>, key: string, cutoff: Time)
    requires Cleaned(before, after, todo, cutoff) && key in todo
    ensures Cleaned(before, WithoutExpired(after, key, cutoff), todo - {key}, cutoff)
  {
    var next := WithoutExpired(after, key, cutoff);
    forall k | k !in todo - {key}
      ensures Times(next, k) == Live(Times(before, k), cutoff)
    {
      assert k != key ==> Times(next, k) == Times(after, k);
    }
  }

  /** Cleanup drops only what no later decision can see. */
  lemma CleaningTracks(store: Store, after: Store, log: History, since: Time, cutoff: Time)
    requires AllTrack(store, log, since) && since <= cutoff
    requires Cleaned(store, after, {}, cutoff)
    ensures AllTrack(after, log, cutoff)
  {
    forall k
      ensures Tracks(Times(after, k), log, k, cutoff)
    {
      FilteringTracks(Times(store, k), log, k, since, cutoff);
    }
  }

  // ---- The limiter ------------------------------------------------------------------

  class SimpleRateLimiter {
    const limit: int
    const window: int
    var requests: Store
    ghost var log: History
    ghost var clock: Time

    ghost predicate Valid()
      reads this
    {
      && Faithful(limit, window, log) && NotAfter(log, clock)
      && AllTrack(requests, log, clock - window)
    }

    constructor (limit: int, window: int, ghost now: Time)
      ensures Valid() && log == Start && clock == now && requests == map[]
      ensures this.limit == limit && this.window == window
    {
      this.limit, this.window := limit, window;
      requests := map[];
      log, clock := Start, now;
    }

    method Allow(key: string, now: Time) returns (ok: bool)
      requires Valid() && clock <= now
      modifies this
      ensures Valid() && clock == now
      ensures log == After(old(log), Call(key, now, ok))
      ensures ok <==> InWindow(old(log), key, now - window, now) < limit
      ensures requests == Decided(old(requests), key, now - window, now, ok)
    {
      NotAfterLater(log, clock, now);
      AdmittedAfterIsWindow(log, key, now - window, now);
      FilteringTracks(Times(requests, key), log, key, clock - window, now - window);

      var reqs := if key in requests then requests[key] else [];
      var valid := Filter(reqs, now - window);
      ok := |valid| < limit;
      DecisionTracks(requests, log, key, clock - window, now - window, now, ok);
      requests := requests[key := if ok then valid + [now] else valid];
      log, clock := After(log, Call(key, now, ok)), now;
    }

    /** One pass of the background cleanup: it decides nothing and changes no decision. */
    method Cleanup(now: Time)
      requires Valid() && clock <= now
      modifies this
      ensures Valid() && clock == now
      ensures log == old(log)
      ensures Cleaned(old(requests), requests, {}, now - window)
      ensures forall k | k in requests :: k in old(requests) && requests[k] != []
    {
      NotAfterLater(log, clock, now);
      requests := CleanAll(requests, now - window);
      CleaningTracks(old(requests), requests, log, clock - window, now - window);
      clock := now;
    }
  }

  /** The cleanup loop, over the keys in any order. */
  method CleanAll(requests: Store, cutoff: Time) returns (after: Store)
    ensures Cleaned(requests, after, {}, cutoff)
  {
    after := requests;
    var todo := requests.Keys;
    while todo != {}
      invariant Cleaned(requests, after, todo, cutoff)
      decreases todo
    {
      var key :| key in todo;
      CleanedStep(requests, after, todo, key, cutoff);
      after := CleanKey(after, key, cutoff);
      todo := todo - {key};
    }
  }

  /** Filter one key's slice; delete the key if nothing is left. */
  method CleanKey(requests: Store, key: string, cutoff: Time) returns (after: Store)
    requires key in requests
    ensures after == WithoutExpired(requests, key, cutoff)
  {
    var valid := Filter(requests[key], cutoff);
    after := if |valid| == 0 then requests - {key} else requests[key := valid];
  }

  /**
   How the limiter's decisions depend on the past: only the admissions of the same key
   in the last window matter, so a log with any other calls removed decides the same.
   */
  lemma {:induction false} OtherKeysDoNotMatter(log: History, key: string, lo: Time, hi: Time)
    ensures InWindow(log, key, lo, hi) == InWindow(OnlyKey(log, key), key, lo, hi)
  {
    if log.After? {
      OtherKeysDoNotMatter(log.past, key, lo, hi);
    }
  }

  ghost function OnlyKey(log: History, key: string): History {
    match log
    case Start => Start
    case After(past, c) => if c.key == key then After(OnlyKey(past, key), c) else OnlyKey(past, key)
  }

  /** Each key's own calls follow the rule by themselves. */
  lemma {:induction false} FaithfulForEachKey(limit: int, window: int, log: History, key: string)
    requires Faithful(limit, window, log)
    ensures Faithful(limit, window, OnlyKey(log, key))
    ensures forall now :: NotAfter(log, now) ==> NotAfter(OnlyKey(log, key), now)
  {
    if log.After? {
      FaithfulForEachKey(limit, window, log.past, key);
      var c := log.last;
      OtherKeysDoNotMatter(log.past, key, c.at - window, c.at);
    }
  }
}
