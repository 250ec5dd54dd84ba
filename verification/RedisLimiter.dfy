/**
 The Redis sliding-window limiter (api/middleware/redis_ratelimit.go).

 A key is a sorted set whose members are their own scores, the admission times in
 microseconds; it is shown here as the sequence of its members in rank order.  One
 decision is a pipeline (remove expired, count, add, expire) and, when over the limit,
 a second command that removes the highest-ranked member.
 */
module RedisRateLimiting {
  import opened RateLimiting
  import opened Wrappers

  type Micros = int
  type Nanos = int

  const SECOND: Nanos := 1_000_000_000

  // ---- Sorted-set commands -------------------------------------------------------------

  /** Rank order, no member twice. */
  ghost predicate Ranked(members: seq<Micros>) {
    forall i, j | 0 <= i < j < |members| :: members[i] < members[j]
  }

  /** ZADD of a member whose score is itself. */
  function ZAdd(members: seq<Micros>, m: Micros): (r: seq<Micros>)
    ensures |members| <= |r| <= |members| + 1 && r != []
    ensures r[|r| - 1] == if members == [] || members[|members| - 1] < m then m else members[|members| - 1]
  {
    if members == [] || members[|members| - 1] < m then members + [m]
    else if members[|members| - 1] == m then members
    else ZAdd(members[..|members| - 1], m) + [members[|members| - 1]]
  }

  lemma {:induction false} ZAddKeepsRanks(members: seq<Micros>, m: Micros)
    requires Ranked(members)
    ensures Ranked(ZAdd(members, m))
  {
    if members != [] && m < members[|members| - 1] {
      var n := |members| - 1;
      ZAddKeepsRanks(members[..n], m);
      var older := ZAdd(members[..n], m);
      forall i | 0 <= i < |older| ensures older[i] < members[n] {
        assert older[i] <= older[|older| - 1];
      }
    }
  }

  /** ZADD adds this member and nothing else, once. */
  lemma {:induction false} ZAddMeaning(members: seq<Micros>, m: Micros, x: Micros)
    requires Ranked(members)
    ensures x in ZAdd(members, m) <==> x in members || x == m
    ensures |ZAdd(members, m)| == |members| <==> m in members
  {
    if members != [] {
      var n := |members| - 1;
      assert members == members[..n] + [members[n]];
      if m < members[n] {
        ZAddMeaning(members[..n], m, x);
      } else if members[n] < m {
        assert m !in members;
      }
    }
  }

  /** ZREMRANGEBYRANK key -1 -1. */
  function RemoveTop(members: seq<Micros>): seq<Micros> {
    if members == [] then [] else members[..|members| - 1]
  }

  /** ZREMRANGEBYSCORE key -inf `hi` leaves Live(members, hi), still in rank order. */
  lemma {:induction false} PruningKeepsRanks(members: seq<Micros>, hi: Micros, n: nat)
    requires Ranked(members) && n <= |members|
    ensures Ranked(LiveAmong(members, hi, n))
    ensures |LiveAmong(members, hi, n)| <= n
    ensures forall m | m in LiveAmong(members, hi, n) ::
      m > hi && exists i :: 0 <= i < n && members[i] == m
  {
    if n > 0 {
      PruningKeepsRanks(members, hi, n - 1);
      if members[n - 1] > hi {
        var older := LiveAmong(members, hi, n - 1);
        forall i | 0 <= i < |older|
          ensures older[i] < members[n - 1]
        {
          assert older[i] in older;
        }
      }
    }
  }

  // ---- One caller after the other --------------------------------------------------------

  datatype ZSet = ZSet(members: seq<Micros>, expireAt: Nanos)

  /** The microsecond cutoff of a decision: the clock reading is rounded down. */
  function Cutoff(now: Nanos, window: Nanos): Micros {
    (now - window) / 1000
  }

  /** Calls at strictly increasing times. */
  ghost predicate Increasing(log: History) {
    log.After? ==> Increasing(log.past) && (log.past.After? ==> log.past.last.at < log.last.at)
  }

  lemma {:induction false} IncreasingBound(log: History)
    requires Increasing(log) && log.After?
    ensures NotAfter(log, log.last.at)
  {
    if log.past.After? {
      IncreasingBound(log.past);
      NotAfterLater(log.past, log.past.last.at, log.last.at);
    }
  }

  lemma {:induction false} NothingAfterTheEnd(log: History, key: string, now: Micros, cutoff: Micros)
    requires NotAfter(log, now) && now <= cutoff
    ensures AdmittedAfter(log, key, cutoff) == 0
  {
    if log.After? {
      NothingAfterTheEnd(log.past, key, now, cutoff);
    }
  }

  /**
   The calls made for a key, in microseconds, and the clock reading at the latest of them.
   They are orderly as long as each came in a later microsecond than the one before and
   Redis failed none of their commands.
   */
  datatype Calls = Calls(log: History, last: Nanos, orderly: bool)

  /**
   How a key's sorted set stands to the calls made for the key.  The set may hold dead
   entries, and the key itself may already have expired.
   */
  ghost predicate Represents(z: Option<ZSet>, calls: Calls, key: string, window: Nanos) {
    && Increasing(calls.log)
    && (z.None? <==> calls.log == Start)
    && (z.Some? ==>
          && calls.log.last.at == calls.last / 1000
          && z.value.expireAt == calls.last + window + SECOND
          && Ranked(z.value.members)
          && (forall i | 0 <= i < |z.value.members| :: z.value.members[i] <= calls.log.last.at)
          && Tracks(z.value.members, calls.log, key, Cutoff(calls.last, window)))
  }

  /** What Redis shows of a key at a given time. */
  function Visible(z: Option<ZSet>, now: Nanos): seq<Micros> {
    if z.None? || z.value.expireAt <= now then [] else z.value.members
  }

  /** Whether or not the key has expired, what is left after pruning counts the window's admissions. */
  lemma PruningIsExact(z: Option<ZSet>, calls: Calls, key: string, window: Nanos, now: Nanos)
    requires Represents(z, calls, key, window)
    requires calls.log.After? ==> calls.last <= now
    ensures var kept := Live(Visible(z, now), Cutoff(now, window));
            && Ranked(kept)
            && |kept| == AdmittedAfter(calls.log, key, Cutoff(now, window))
            && Tracks(kept, calls.log, key, Cutoff(now, window))
            && forall i | 0 <= i < |kept| :: calls.log.After? && kept[i] <= calls.log.last.at
  {
    var cutoff := Cutoff(now, window);
    if z.None? {
      FilteringTracks([], calls.log, key, cutoff, cutoff);
    } else if z.value.expireAt <= now {
      IncreasingBound(calls.log);
      forall c | c >= cutoff
        ensures CountAfter([], c) == AdmittedAfter(calls.log, key, c)
      {
        NothingAfterTheEnd(calls.log, key, calls.log.last.at, c);
      }
      FilteringTracks([], calls.log, key, cutoff, cutoff);
    } else {
      var members := z.value.members;
      FilteringTracks(members, calls.log, key, Cutoff(calls.last, window), cutoff);
      PruningKeepsRanks(members, cutoff, |members|);
      var kept := Live(members, cutoff);
      forall i | 0 <= i < |kept|
        ensures kept[i] <= calls.log.last.at
      {
        assert kept[i] in kept;
      }
    }
  }

  /** A member newer than all others goes to the top, and an undo takes exactly it away. */
  lemma NewestGoesOnTop(kept: seq<Micros>, now: Micros)
    requires forall i | 0 <= i < |kept| :: kept[i] < now
    ensures ZAdd(kept, now) == kept + [now]
    ensures RemoveTop(ZAdd(kept, now)) == kept
  {
  }

  /** What Redis did with the commands of one decision. */
  datatype Fate =
    | Fine
    | UndoFailed                      // the removal of a denied entry failed, which is ignored
    | PipelineFailed(applied: bool)   // the caller got an error, whether or not the commands took effect

  /** What a decision counts. */
  function Pruned(z: Option<ZSet>, now: Nanos, window: Nanos): (kept: seq<Micros>)
    requires z.Some? ==> Ranked(z.value.members)
    ensures Ranked(kept)
  {
    PruningKeepsRanks(Visible(z, now), Cutoff(now, window), |Visible(z, now)|);
    Live(Visible(z, now), Cutoff(now, window))
  }

  function AfterDecision(z: Option<ZSet>, now: Nanos, window: Nanos, ok: bool): ZSet
    requires z.Some? ==> Ranked(z.value.members)
  {
    ZSet(Left(Pruned(z, now, window), now / 1000, !ok), now + window + SECOND)
  }

  /** The set after a decision, with the undo or without. */
  function Left(kept: seq<Micros>, m: Micros, undone: bool): seq<Micros> {
    if undone then RemoveTop(ZAdd(kept, m)) else ZAdd(kept, m)
  }

  /** Whether a call's own command has taken the highest entry away. */
  predicate Undone(fate: Fate, ok: bool) {
    fate.Fine? && !ok
  }

  /** What any call leaves of its key. */
  function AfterCall(z: Option<ZSet>, now: Nanos, window: Nanos, fate: Fate, ok: bool): Option<ZSet>
    requires z.Some? ==> Ranked(z.value.members)
  {
    if fate == PipelineFailed(false) then z else Some(AfterDecision(z, now, window, !Undone(fate, ok)))
  }

  lemma LeftKeepsRanks(kept: seq<Micros>, m: Micros, undone: bool)
    requires Ranked(kept)
    ensures Ranked(Left(kept, m, undone))
  {
    ZAddKeepsRanks(kept, m);
  }

  lemma AfterCallKeepsRanks(z: Option<ZSet>, now: Nanos, window: Nanos, fate: Fate, ok: bool)
    requires z.Some? ==> Ranked(z.value.members)
    ensures AfterCall(z, now, window, fate, ok).Some? ==> Ranked(AfterCall(z, now, window, fate, ok).value.members)
  {
    LeftKeepsRanks(Pruned(z, now, window), now / 1000, Undone(fate, ok));
  }

  /** The commands of one decision on one key, in order; with an error the caller is let through. */
  method Decide(limit: int, window: Nanos, now: Nanos, z: Option<ZSet>, fate: Fate)
    returns (ok: bool, after: Option<ZSet>)
    requires z.Some? ==> Ranked(z.value.members)
    ensures fate.PipelineFailed? ==> ok
    ensures !fate.PipelineFailed? ==> (ok <==> |Pruned(z, now, window)| < limit)
    ensures after == AfterCall(z, now, window, fate, ok)
  {
    var members := Pruned(z, now, window);
    var count := |members|;
    members := ZAdd(members, now / 1000);
    if fate.PipelineFailed? {
      return true, if fate.applied then Some(ZSet(members, now + window + SECOND)) else z;
    }
    ok := count < limit;
    if !ok && fate.Fine? {
      members := RemoveTop(members);
    }
    after := Some(ZSet(members, now + window + SECOND));
  }

  lemma {:induction false} EntryIsAdded(members: seq<Micros>, m: Micros)
    ensures m in ZAdd(members, m)
  {
    if members != [] && m < members[|members| - 1] {
      EntryIsAdded(members[..|members| - 1], m);
    }
  }

  /** The call's own entry is left, unless it was undone; and then it is gone, if it was the newest. */
  lemma LeftMeaning(kept: seq<Micros>, m: Micros)
    ensures m in Left(kept, m, false)
    ensures AllEarlier(kept, m) ==> Left(kept, m, true) == kept
  {
    EntryIsAdded(kept, m);
    if AllEarlier(kept, m) {
      NewestGoesOnTop(kept, m);
    }
  }

  /** A call that is let in leaves its entry also when it got an error, and so does a denied one whose undo failed. */
  lemma AfterCallMeaning(z: Option<ZSet>, now: Nanos, window: Nanos, fate: Fate, ok: bool)
    requires z.Some? ==> Ranked(z.value.members)
    ensures AfterCall(z, now, window, fate, ok) ==
      if fate == PipelineFailed(false) then z
      else Some(ZSet(Left(Pruned(z, now, window), now / 1000, fate.Fine? && !ok), now + window + 1_000_000_000))
  {
  }

  predicate AllEarlier(members: seq<Micros>, m: Micros) {
    forall i | 0 <= i < |members| :: members[i] < m
  }

  predicate InOrder(calls: Calls, now: Nanos) {
    calls.log.After? ==> calls.last / 1000 < now / 1000
  }

  lemma NewestKeepsRanks(kept: seq<Micros>, now: Micros)
    requires Ranked(kept) && forall i | 0 <= i < |kept| :: kept[i] < now
    ensures Ranked(kept + [now]) && forall i | 0 <= i < |kept + [now]| :: (kept + [now])[i] <= now
  {
  }

  lemma AdmittedRepresents(window: Nanos, key: string, now: Nanos, kept: seq<Micros>, calls: Calls)
    requires Increasing(calls.log) && Ranked(kept) && InOrder(calls, now)
    requires calls.log.After? ==> calls.log.last.at == calls.last / 1000
    requires forall i | 0 <= i < |kept| :: kept[i] < now / 1000
    requires Tracks(kept, calls.log, key, Cutoff(now, window))
    ensures Represents(Some(ZSet(kept + [now / 1000], now + window + SECOND)),
                       Calls(After(calls.log, Call(key, now / 1000, true)), now, true), key, window)
  {
    NewestKeepsRanks(kept, now / 1000);
    AdmittingTracks(kept, calls.log, key, Cutoff(now, window), now / 1000);
  }

  lemma DeniedRepresents(window: Nanos, key: string, now: Nanos, kept: seq<Micros>, calls: Calls)
    requires Increasing(calls.log) && Ranked(kept) && InOrder(calls, now)
    requires calls.log.After? ==> calls.log.last.at == calls.last / 1000
    requires forall i | 0 <= i < |kept| :: kept[i] < now / 1000
    requires Tracks(kept, calls.log, key, Cutoff(now, window))
    ensures Represents(Some(ZSet(kept, now + window + SECOND)),
                       Calls(After(calls.log, Call(key, now / 1000, false)), now, true), key, window)
  {
    OtherCallsTrack(kept, calls.log, Call(key, now / 1000, false), key, Cutoff(now, window), Cutoff(now, window));
  }

  lemma NewestIsLeft(kept: seq<Micros>, m: Micros)
    requires forall i | 0 <= i < |kept| :: kept[i] < m
    ensures Left(kept, m, false) == kept + [m] && Left(kept, m, true) == kept
  {
    NewestGoesOnTop(kept, m);
  }

  lemma LeftRepresents(window: Nanos, key: string, now: Nanos, kept: seq<Micros>, calls: Calls, ok: bool)
    requires Increasing(calls.log) && Ranked(kept) && InOrder(calls, now)
    requires calls.log.After? ==> calls.log.last.at == calls.last / 1000
    requires forall i | 0 <= i < |kept| :: kept[i] < now / 1000
    requires Tracks(kept, calls.log, key, Cutoff(now, window))
    ensures Represents(Some(ZSet(Left(kept, now / 1000, !ok), now + window + SECOND)),
                       Calls(After(calls.log, Call(key, now / 1000, ok)), now, true), key, window)
  {
    NewestIsLeft(kept, now / 1000);
    if ok {
      AdmittedRepresents(window, key, now, kept, calls);
    } else {
      DeniedRepresents(window, key, now, kept, calls);
    }
  }

  lemma DecisionRepresents(window: Nanos, key: string, now: Nanos, z: Option<ZSet>, calls: Calls, ok: bool)
    requires Represents(z, calls, key, window) && (z.Some? ==> Ranked(z.value.members)) && InOrder(calls, now)
    ensures |Pruned(z, now, window)| == AdmittedAfter(calls.log, key, Cutoff(now, window))
    ensures Represents(Some(AfterDecision(z, now, window, ok)),
                       Calls(After(calls.log, Call(key, now / 1000, ok)), now, true), key, window)
  {
    PruningIsExact(z, calls, key, window, now);
    LeftRepresents(window, key, now, Pruned(z, now, window), calls, ok);
  }

  /**
   With a window of whole microseconds the Redis rule is the in-memory rule on the
   clock rounded down to microseconds.
   */
  lemma SameRuleInMicroseconds(limit: int, micros: Micros, log: History, key: string, now: Nanos)
    requires NotAfter(log, now / 1000)
    ensures AdmittedAfter(log, key, Cutoff(now, 1000 * micros)) < limit
       <==> Admits(limit, micros, log, key, now / 1000)
  {
    assert Cutoff(now, 1000 * micros) == now / 1000 - micros;
    AdmittedAfterIsWindow(log, key, now / 1000 - micros, now / 1000);
  }

  /** A key's calls have been decided by the in-memory rule, on the clock in microseconds. */
  ghost predicate FollowsRule(calls: Calls, limit: int, window: Nanos) {
    window % 1000 == 0 ==> Faithful(limit, window / 1000, calls.log)
  }

  lemma DecisionFollowsRule(limit: int, window: Nanos, calls: Calls, key: string, now: Nanos, ok: bool)
    requires FollowsRule(calls, limit, window) && Increasing(calls.log) && InOrder(calls, now)
    requires calls.log.After? ==> calls.log.last.at == calls.last / 1000
    requires ok <==> AdmittedAfter(calls.log, key, Cutoff(now, window)) < limit
    ensures FollowsRule(Calls(After(calls.log, Call(key, now / 1000, ok)), now, true), limit, window)
  {
    if calls.log.After? {
      IncreasingBound(calls.log);
      NotAfterLater(calls.log, calls.log.last.at, now / 1000);
    }
    if window % 1000 == 0 {
      assert window == 1000 * (window / 1000);
      SameRuleInMicroseconds(limit, window / 1000, calls.log, key, now);
    }
  }

  // ---- All keys together ---------------------------------------------------------------------

  function Lookup(zsets: map<string, ZSet>, key: string): Option<ZSet> {
    if key in zsets then Some(zsets[key]) else None
  }

  function Stored(zsets: map<string, ZSet>, key: string, z: Option<ZSet>): map<string, ZSet> {
    if z.Some? then zsets[key := z.value] else zsets - {key}
  }

  ghost function CallsFor(made: map<string, Calls>, key: string): Calls {
    if key in made then made[key] else Calls(Start, 0, true)
  }

  /** What holds of one key: as long as its calls are orderly, everything. */
  ghost predicate KeyValid(z: Option<ZSet>, calls: Calls, key: string, limit: int, window: Nanos) {
    && (z.Some? ==> Ranked(z.value.members))
    && (calls.orderly ==> Represents(z, calls, key, window) && FollowsRule(calls, limit, window))
  }

  ghost predicate AllValid(zsets: map<string, ZSet>, made: map<string, Calls>, limit: int, window: Nanos) {
    forall key :: KeyValid(Lookup(zsets, key), CallsFor(made, key), key, limit, window)
  }

  lemma UpdateStaysValid(zsets: map<string, ZSet>, made: map<string, Calls>, limit: int, window: Nanos,
                         key: string, z: Option<ZSet>, calls: Calls)
    requires AllValid(zsets, made, limit, window)
    requires KeyValid(z, calls, key, limit, window)
    ensures AllValid(Stored(zsets, key, z), made[key := calls], limit, window)
  {
    var zsets', made' := Stored(zsets, key, z), made[key := calls];
    forall k
      ensures KeyValid(Lookup(zsets', k), CallsFor(made', k), k, limit, window)
    {
      if k != key {
        assert Lookup(zsets', k) == Lookup(zsets, k) && CallsFor(made', k) == CallsFor(made, k);
      }
    }
  }

  class RedisRateLimiter {
    const limit: int
    const window: Nanos
    var zsets: map<string, ZSet>
    ghost var made: map<string, Calls>

    ghost predicate Valid()
      reads this
    {
      AllValid(zsets, made, limit, window)
    }

    constructor (limit: int, window: Nanos)
      ensures Valid() && made == map[]
      ensures this.limit == limit && this.window == window
    {
      this.limit, this.window := limit, window;
      zsets, made := map[], map[];
    }

    /** One caller after the other, at any times and with any errors. */
    method Allow(key: string, now: Nanos, fate: Fate) returns (ok: bool)
      requires Valid()
      modifies this
      ensures Valid()
      ensures var calls := CallsFor(old(made), key);
        made == old(made)[key := Calls(
          After(calls.log, Call(key, now / 1000, ok)), now,
          calls.orderly && InOrder(calls, now) && (fate.Fine? || (fate.UndoFailed? && ok)))]
      ensures fate.PipelineFailed? ==> ok
      ensures zsets == Stored(old(zsets), key, AfterCall(Lookup(old(zsets), key), now, window, fate, ok))
      ensures var calls := CallsFor(old(made), key);
        calls.orderly && InOrder(calls, now) && !fate.PipelineFailed? ==>
          (ok <==> AdmittedAfter(calls.log, key, Cutoff(now, window)) < limit)
    {
      ghost var calls := CallsFor(made, key);
      var z := Lookup(zsets, key);
      assert KeyValid(z, calls, key, limit, window);
      var after;
      ok, after := Decide(limit, window, now, z, fate);
      AfterCallKeepsRanks(z, now, window, fate, ok);
      ghost var orderly := calls.orderly && InOrder(calls, now) && (fate.Fine? || (fate.UndoFailed? && ok));
      ghost var more := Calls(After(calls.log, Call(key, now / 1000, ok)), now, orderly);
      if calls.orderly && InOrder(calls, now) {
        DecisionRepresents(window, key, now, z, calls, ok);
      }
      if orderly {
        DecisionFollowsRule(limit, window, calls, key, now, ok);
      }
      UpdateStaysValid(zsets, made, limit, window, key, after, more);
      zsets := Stored(zsets, key, after);
      made := made[key := more];
    }
  }

  // ---- Agreement with the in-memory limiter -----------------------------------------------

  ghost predicate SameCalls(a: History, b: History) {
    match (a, b)
    case (Start, Start) => true
    case (After(p, c), After(q, d)) => c.key == d.key && c.at == d.at && SameCalls(p, q)
    case _ => false
  }

  lemma {:induction false} SameCallsSameLog(limit: int, window: int, a: History, b: History)
    requires Faithful(limit, window, a) && Faithful(limit, window, b)
    requires SameCalls(a, b)
    ensures a == b
  {
    if a.After? {
      SameCallsSameLog(limit, window, a.past, b.past);
    }
  }

  /**
   The two limiters decide alike.  With the same limit and window, whatever was asked of
   either for other keys, a key that got the same orderly calls from both got the same
   answers from both.  The in-memory limiter runs on the clock in microseconds.
   */
  lemma SameDecisions(a: SimpleRateLimiter, b: RedisRateLimiter, key: string)
    requires a.Valid() && b.Valid()
    requires a.limit == b.limit && b.window == 1000 * a.window
    requires CallsFor(b.made, key).orderly
    requires SameCalls(OnlyKey(a.log, key), CallsFor(b.made, key).log)
    ensures OnlyKey(a.log, key) == CallsFor(b.made, key).log
  {
    FaithfulForEachKey(a.limit, a.window, a.log, key);
    assert KeyValid(Lookup(b.zsets, key), CallsFor(b.made, key), key, b.limit, b.window);
    assert b.window / 1000 == a.window && b.window % 1000 == 0;
    SameCallsSameLog(a.limit, a.window, OnlyKey(a.log, key), CallsFor(b.made, key).log);
  }

  // ---- On the nanosecond clock -----------------------------------------------------------------

  /** A history of nanosecond times, rounded down to microseconds. */
  ghost function Rounded(log: History): History {
    match log
    case Start => Start
    case After(past, c) => After(Rounded(past), Call(c.key, c.at / 1000, c.admitted))
  }

  /** Admissions after the cutoff that fall into the cutoff's own microsecond. */
  ghost function OnTheEdge(log: History, key: string, cutoff: Nanos): nat {
    match log
    case Start => 0
    case After(past, c) =>
      OnTheEdge(past, key, cutoff)
      + if c.key == key && c.admitted && c.at > cutoff && c.at / 1000 == cutoff / 1000 then 1 else 0
  }

  lemma {:induction false} CountsDifferByTheEdge(log: History, key: string, cutoff: Nanos)
    ensures AdmittedAfter(log, key, cutoff) ==
            AdmittedAfter(Rounded(log), key, cutoff / 1000) + OnTheEdge(log, key, cutoff)
  {
    if log.After? {
      CountsDifferByTheEdge(log.past, key, cutoff);
    }
  }

  /** The admissions in the cutoff's own microsecond make up what is missing to the limit. */
  ghost predicate EdgeDecides(limit: int, window: Nanos, log: History, key: string, now: Nanos) {
    var counted := AdmittedAfter(Rounded(log), key, Cutoff(now, window));
    counted < limit <= counted + OnTheEdge(log, key, now - window)
  }

  /**
   On the same nanosecond history the in-memory rule and the Redis rule agree on a call,
   unless the admissions in the cutoff's own microsecond, which only the former counts,
   decide it.
   */
  lemma NanosecondsAgreeIff(limit: int, window: Nanos, log: History, key: string, now: Nanos)
    requires NotAfter(log, now)
    ensures (Admits(limit, window, log, key, now) <==>
             AdmittedAfter(Rounded(log), key, Cutoff(now, window)) < limit)
       <==> !EdgeDecides(limit, window, log, key, now)
  {
    CountsDifferByTheEdge(log, key, now - window);
    AdmittedAfterIsWindow(log, key, now - window, now);
  }

  ghost predicate NoEdgeDecides(limit: int, window: Nanos, log: History) {
    log.After? ==>
      && NoEdgeDecides(limit, window, log.past)
      && !EdgeDecides(limit, window, log.past, log.last.key, log.last.at)
  }

  lemma {:induction false} RoundedNotAfter(log: History, now: Nanos)
    requires NotAfter(log, now)
    ensures NotAfter(Rounded(log), now / 1000)
  {
    if log.After? {
      RoundedNotAfter(log.past, now);
    }
  }

  /**
   The decisions of a whole run of the in-memory limiter, on the nanosecond clock, are the
   Redis limiter's decisions for the same calls exactly when no call was decided by the
   cutoff's own microsecond.
   */
  lemma {:induction false} RunsAgreeIff(limit: int, micros: Micros, log: History)
    requires Faithful(limit, 1000 * micros, log)
    ensures Faithful(limit, micros, Rounded(log)) <==> NoEdgeDecides(limit, 1000 * micros, log)
  {
    if log.After? {
      RunsAgreeIff(limit, micros, log.past);
      RoundedNotAfter(log.past, log.last.at);
      NanosecondsAgreeIff(limit, 1000 * micros, log.past, log.last.key, log.last.at);
      SameRuleInMicroseconds(limit, micros, Rounded(log.past), log.last.key, log.last.at);
    }
  }

  ghost predicate WholeMicroseconds(log: History) {
    log.After? ==> WholeMicroseconds(log.past) && log.last.at % 1000 == 0
  }

  lemma {:induction false} NothingOnTheEdge(log: History, key: string, cutoff: Nanos)
    requires WholeMicroseconds(log) && cutoff % 1000 == 0
    ensures OnTheEdge(log, key, cutoff) == 0
  {
    if log.After? {
      NothingOnTheEdge(log.past, key, cutoff);
    }
  }

  /** So on readings of whole microseconds they always agree. */
  lemma WholeMicrosecondsAgree(limit: int, window: Nanos, log: History, key: string, now: Nanos)
    requires NotAfter(log, now) && WholeMicroseconds(log) && now % 1000 == 0 && window % 1000 == 0
    ensures Admits(limit, window, log, key, now) <==>
            AdmittedAfter(Rounded(log), key, Cutoff(now, window)) < limit
  {
    NothingOnTheEdge(log, key, now - window);
    NanosecondsAgreeIff(limit, window, log, key, now);
  }

  /**
   On the nanosecond clock the two limiters can disagree: a call 900ns after an
   admission, with a window of 1us, is denied in memory and let in by Redis.
   */
  lemma NanosecondsCanDisagree(key: string)
    ensures !Admits(1, 1000, After(Start, Call(key, 500, true)), key, 1400)
    ensures AdmittedAfter(After(Start, Call(key, 500 / 1000, true)), key, Cutoff(1400, 1000)) < 1
  {
    assert InWindow(Start, key, 400, 1400) == 0;
    assert AdmittedAfter(Start, key, 0) == 0;
  }
}
