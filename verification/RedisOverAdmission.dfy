/**
 How the Redis limiter lets too many calls into a window (api/middleware/redis_ratelimit.go).

 For each way there is a run, for every limit and every number of extra calls, that keeps
 all other conditions under which the limit holds.  Each run reaches the bound that holds
 for all runs.
 */
module RedisOverAdmission {
  import opened RateLimiting
  import opened RedisConcurrency
  import opened RedisRateLimiting
  import opened Sums
  import opened Wrappers

  // ---- Ranges of times ----------------------------------------------------------------------

  /** The n times from a on. */
  ghost function Range(a: Micros, n: nat): seq<Micros> {
    seq(n, i => a + i)
  }

  lemma RangeMore(a: Micros, n: nat)
    ensures Range(a, n + 1) == Range(a, n) + [a + n]
    ensures AllBefore(Range(a, n), a + n)
  {
  }

  lemma RangeAppend(times: seq<Micros>, a: Micros, n: nat)
    ensures times + Range(a, n + 1) == times + Range(a, n) + [a + n]
  {
    RangeMore(a, n);
  }

  lemma {:induction false} AllLive(times: seq<Micros>, hi: Micros, n: nat)
    requires n <= |times| && forall i | 0 <= i < n :: times[i] > hi
    ensures LiveAmong(times, hi, n) == times[..n]
  {
    if n > 0 {
      AllLive(times, hi, n - 1);
      assert times[..n] == times[..n - 1] + [times[n - 1]];
    }
  }

  lemma {:induction false} NoneLive(times: seq<Micros>, hi: Micros, n: nat)
    requires n <= |times| && forall i | 0 <= i < n :: times[i] <= hi
    ensures LiveAmong(times, hi, n) == []
  {
    if n > 0 {
      NoneLive(times, hi, n - 1);
    }
  }

  lemma RangeLive(a: Micros, n: nat, hi: Micros)
    requires hi < a
    ensures Live(Range(a, n), hi) == Range(a, n)
  {
    AllLive(Range(a, n), hi, n);
    assert Range(a, n)[..n] == Range(a, n);
  }

  ghost predicate Expired(members: seq<Micros>, hi: Micros) {
    forall i | 0 <= i < |members| :: members[i] <= hi
  }

  lemma {:induction false} WithinRange(times: seq<Micros>, a: Micros, n: nat, lo: Micros, hi: Micros)
    requires lo < a && a + n <= hi + 1
    ensures Within(times + Range(a, n), lo, hi) == Within(times, lo, hi) + n
  {
    if n == 0 {
      assert times + Range(a, 0) == times;
    } else {
      WithinRange(times, a, n - 1, lo, hi);
      SumAppend(Inside(lo, hi), times + Range(a, n - 1), a + n - 1);
      RangeAppend(times, a, n - 1);
    }
  }

  ghost function Copies(t: Micros, n: nat): seq<Micros> {
    seq(n, _ => t)
  }

  lemma CopiesAppend(times: seq<Micros>, t: Micros, n: nat)
    ensures times + Copies(t, n + 1) == times + Copies(t, n) + [t]
  {
    assert Copies(t, n + 1) == Copies(t, n) + [t];
  }

  lemma {:induction false} WithinCopies(times: seq<Micros>, t: Micros, n: nat, lo: Micros, hi: Micros)
    requires lo < t <= hi
    ensures Within(times + Copies(t, n), lo, hi) == Within(times, lo, hi) + n
  {
    if n == 0 {
      assert times + Copies(t, 0) == times;
    } else {
      WithinCopies(times, t, n - 1, lo, hi);
      SumAppend(Inside(lo, hi), times + Copies(t, n - 1), t);
      CopiesAppend(times, t, n - 1);
    }
  }

  // ---- Runs that keep some of the conditions -------------------------------------------------

  /** The conditions a run keeps. */
  datatype Rules = Rules(
    errorFree: bool, advancing: bool, forward: bool, whole: bool, serial: bool, noneDenied: bool)

  ghost predicate Permits(rules: Rules, s: Shared, step: Step, next: Shared) {
    && (rules.errorFree ==> Succeeds(step))
    && (rules.advancing ==> ReadsLater(s, step))
    && (rules.forward ==> ReadsNoEarlier(s, step))
    && (rules.whole ==> LeavesPipelinesWhole(s, step))
    && (rules.serial ==> WaitsItsTurn(s, step))
    && (rules.noneDenied ==> next.undoing == 0)
  }

  ghost predicate Keeps(rules: Rules, limit: int, window: Micros, run: Run) {
    run.Then? ==>
      && Keeps(rules, limit, window, run.past)
      && Enabled(StateOf(run.past), run.step)
      && run.state == Next(limit, window, StateOf(run.past), run.step)
      && Permits(rules, StateOf(run.past), run.step, run.state)
  }

  /** No call has been denied. */
  ghost predicate NothingDenied(run: Run) {
    run.Then? ==> NothingDenied(run.past) && run.state.undoing == 0
  }

  lemma {:induction false} KeepsMeaning(rules: Rules, limit: int, window: Micros, run: Run)
    requires Keeps(rules, limit, window, run)
    ensures IsRun(limit, window, run)
    ensures rules.errorFree ==> NoErrors(run)
    ensures rules.advancing ==> ClockAdvances(run)
    ensures rules.forward ==> ClockNeverRunsBack(run)
    ensures rules.whole ==> PipelinesWhole(run)
    ensures rules.serial ==> OneAtATime(run)
    ensures rules.noneDenied ==> NothingDenied(run)
  {
    if run.Then? {
      KeepsMeaning(rules, limit, window, run.past);
    }
  }

  /** Something that is true of a key at the beginning and stays true along runs that keep the rules. */
  datatype Property = Property(rules: Rules, holds: Shared -> bool)

  ghost predicate Inductive(p: Property, limit: int, window: Micros) {
    && p.holds(EMPTY)
    && forall s, step | p.holds(s) && Enabled(s, step) && Permits(p.rules, s, step, Next(limit, window, s, step)) ::
         p.holds(Next(limit, window, s, step))
  }

  lemma OneStep(p: Property, limit: int, window: Micros, s: Shared, step: Step)
    requires Inductive(p, limit, window) && p.holds(s) && Enabled(s, step)
    requires Permits(p.rules, s, step, Next(limit, window, s, step))
    ensures p.holds(Next(limit, window, s, step))
  {
  }

  /** That some run gets here is such a property. */
  ghost function Reached(rules: Rules, limit: int, window: Micros): Property {
    Property(rules, s => exists run :: Keeps(rules, limit, window, run) && StateOf(run) == s)
  }

  lemma ReachedIsInductive(rules: Rules, limit: int, window: Micros)
    ensures Inductive(Reached(rules, limit, window), limit, window)
  {
    var p := Reached(rules, limit, window);
    assert Keeps(rules, limit, window, Begin) && StateOf(Begin) == EMPTY;
    forall s, step | p.holds(s) && Enabled(s, step) && Permits(p.rules, s, step, Next(limit, window, s, step))
      ensures p.holds(Next(limit, window, s, step))
    {
      var run :| Keeps(rules, limit, window, run) && StateOf(run) == s;
      var next := Run.Then(run, step, Next(limit, window, s, step));
      assert Keeps(rules, limit, window, next) && StateOf(next) == Next(limit, window, s, step);
    }
  }

  lemma RunTo(rules: Rules, limit: int, window: Micros, s: Shared) returns (run: Run)
    requires Reached(rules, limit, window).holds(s)
    ensures IsRun(limit, window, run) && StateOf(run) == s
    ensures rules.errorFree ==> NoErrors(run)
    ensures rules.advancing ==> ClockAdvances(run)
    ensures rules.forward ==> ClockNeverRunsBack(run)
    ensures rules.whole ==> PipelinesWhole(run)
    ensures rules.serial ==> OneAtATime(run)
    ensures rules.noneDenied ==> NothingDenied(run)
  {
    run :| Keeps(rules, limit, window, run) && StateOf(run) == s;
    KeepsMeaning(rules, limit, window, run);
  }

  /** The window got `extra` calls more than the limit, which is all that the bound for every run allows. */
  ghost predicate LetsInTooMany(limit: nat, extra: nat, s: Shared, lo: Micros, hi: Micros) {
    Within(s.admitted, lo, hi) == limit + extra && Within(s.uncounted, lo, hi) == extra
  }

  // ---- One call, its commands in a row -------------------------------------------------------

  ghost function Step3(limit: int, window: Micros, s: Shared, now: Micros): Shared
    requires s.counting == [] && s.adding == []
  {
    var one := Next(limit, window, s, Prune(now));
    var two := Next(limit, window, one, Count(0));
    Next(limit, window, two, Add(0))
  }

  /** What a call does that nobody gets between. */
  ghost function Called(limit: int, window: Micros, s: Shared, now: Micros): Shared {
    var kept, last := Live(s.members, now - window), Latest(s.horizon, now);
    if |kept| < limit then
      s.(members := ZAdd(kept, now), horizon := Some(last), admitted := s.admitted + [now],
         uncounted := if last == now && (now !in kept || now !in s.admitted) then s.uncounted
                      else s.uncounted + [now])
    else
      s.(members := ZAdd(kept, now), horizon := Some(last), undoing := s.undoing + 1)
  }

  lemma CommandsInARow(limit: int, window: Micros, s: Shared, now: Micros)
    requires s.counting == [] && s.adding == []
    ensures Step3(limit, window, s, now) == Called(limit, window, s, now)
  {
    var one := Next(limit, window, s, Prune(now));
    assert one.counting == [Pruned(now, false)];
    var two := Next(limit, window, one, Count(0));
    assert two.adding == [Counted(now, |one.members|, false, true, Latest(s.horizon, now) == now)];
    assert Latest(one.horizon, now) == Latest(s.horizon, now);
    assert Without(two.adding, 0) == [];
    assert two.counting == [];
  }

  /** A call at this time goes by the rules. */
  ghost predicate MayCall(rules: Rules, limit: int, window: Micros, s: Shared, now: Micros) {
    && s.counting == [] && s.adding == []
    && (rules.advancing ==> Before(s, now))
    && (rules.forward && s.horizon.Some? ==> s.horizon.value <= now)
    && (rules.serial || rules.noneDenied ==> s.undoing == 0)
    && (rules.noneDenied ==> |Live(s.members, now - window)| < limit)
  }

  lemma OneCall(p: Property, limit: int, window: Micros, s: Shared, now: Micros)
    requires Inductive(p, limit, window)
    requires p.holds(s) && MayCall(p.rules, limit, window, s, now)
    ensures p.holds(Called(limit, window, s, now))
  {
    CommandsInARow(limit, window, s, now);
    var one := Next(limit, window, s, Prune(now));
    OneStep(p, limit, window, s, Prune(now));
    OneStep(p, limit, window, one, Count(0));
    OneStep(p, limit, window, Next(limit, window, one, Count(0)), Add(0));
  }

  lemma OneUndo(p: Property, limit: int, window: Micros, s: Shared)
    requires Inductive(p, limit, window) && p.holds(s) && s.undoing > 0
    requires p.rules.noneDenied ==> s.undoing == 1
    requires s.counting == [] && s.adding == []
    ensures p.holds(AfterUndo(s, true))
  {
    OneStep(p, limit, window, s, Undo(true));
    assert Next(limit, window, s, Undo(true)) == AfterUndo(s, true);
  }

  /** A key between calls, without a stray entry. */
  ghost function Between(
      members: seq<Micros>, undoing: nat, admitted: seq<Micros>, horizon: Option<Micros>, uncounted: seq<Micros>)
    : Shared
  {
    Shared(members, [], [], undoing, admitted, horizon, 0, 0, uncounted)
  }

  // ---- Filling a window ---------------------------------------------------------------------------

  /** The key after n calls, from a on, have filled an empty set. */
  ghost function Filling(s: Shared, a: Micros, n: nat): Shared {
    Between(Range(a, n), s.undoing, s.admitted + Range(a, n),
            if n == 0 then s.horizon else Some(a + n - 1), s.uncounted)
  }

  lemma FillOne(limit: nat, window: Micros, s: Shared, a: Micros, n: nat)
    requires Before(s, a) && n < limit && n < window
    ensures Called(limit, window, Filling(s, a, n), a + n) == Filling(s, a, n + 1)
    ensures Before(Filling(s, a, n), a + n) && Live(Range(a, n), a + n - window) == Range(a, n)
  {
    RangeLive(a, n, a + n - window);
    RangeMore(a, n);
    RangeAppend(s.admitted, a, n);
    NewestGoesOnTop(Range(a, n), a + n);
  }

  lemma NextFills(p: Property, limit: nat, window: Micros, s: Shared, a: Micros, n: nat)
    requires Inductive(p, limit, window)
    requires p.holds(Filling(s, a, n))
    requires Before(s, a) && n < limit && n < window
    requires p.rules.serial || p.rules.noneDenied ==> s.undoing == 0
    ensures p.holds(Filling(s, a, n + 1))
  {
    FillOne(limit, window, s, a, n);
    OneCall(p, limit, window, Filling(s, a, n), a + n);
  }

  lemma {:induction false} Fill(p: Property, limit: nat, window: Micros, s: Shared, a: Micros, n: nat)
    requires Inductive(p, limit, window)
    requires p.holds(Filling(s, a, 0))
    requires Before(s, a) && n <= limit && n <= window
    requires p.rules.serial || p.rules.noneDenied ==> s.undoing == 0
    ensures p.holds(Filling(s, a, n))
  {
    if n > 0 {
      Fill(p, limit, window, s, a, n - 1);
      NextFills(p, limit, window, s, a, n - 1);
    }
  }

  /** The key after n calls from the beginning. */
  ghost function Filled(n: nat): Shared {
    Between(Range(1, n), 0, Range(1, n), if n == 0 then None else Some(n), [])
  }

  lemma ReachFilled(p: Property, limit: nat, window: Micros, n: nat)
    requires Inductive(p, limit, window)
    requires n <= limit && n <= window
    ensures p.holds(Filled(n))
  {
    assert EMPTY == Filling(EMPTY, 1, 0);
    Fill(p, limit, window, EMPTY, 1, n);
    assert [] + Range(1, n) == Range(1, n);
    assert Filling(EMPTY, 1, n) == Filled(n);
  }

  // ---- Late undos ----------------------------------------------------------------------------------

  /** The window is full, n calls have been denied, and none of them has undone its entry. */
  ghost function Denied(limit: nat, n: nat): Shared {
    Between(Range(1, limit + n), n, Range(1, limit), Some(limit + n), [])
  }

  lemma DenyOne(limit: nat, window: Micros, n: nat)
    requires limit >= 1 && limit + n < window
    ensures Called(limit, window, Denied(limit, n), limit + n + 1) == Denied(limit, n + 1)
  {
    RangeLive(1, limit + n, limit + n + 1 - window);
    RangeMore(1, limit + n);
    NewestGoesOnTop(Range(1, limit + n), 1 + limit + n);
  }

  lemma NextIsDenied(p: Property, limit: nat, window: Micros, n: nat)
    requires Inductive(p, limit, window) && p.holds(Denied(limit, n))
    requires limit >= 1 && limit + n < window && !p.rules.serial && !p.rules.noneDenied
    ensures p.holds(Denied(limit, n + 1))
  {
    DenyOne(limit, window, n);
    OneCall(p, limit, window, Denied(limit, n), limit + n + 1);
  }

  lemma {:induction false} ReachDenied(p: Property, limit: nat, window: Micros, n: nat)
    requires Inductive(p, limit, window)
    requires limit >= 1 && limit + n <= window && !p.rules.serial && !p.rules.noneDenied
    ensures p.holds(Denied(limit, n))
  {
    if n == 0 {
      ReachFilled(p, limit, window, limit);
      assert Filled(limit) == Denied(limit, 0);
    } else {
      ReachDenied(p, limit, window, n - 1);
      NextIsDenied(p, limit, window, n - 1);
    }
  }

  /** The old window is over; n calls, from a on, have come in and lost their entries to late undos. */
  ghost function Robbed(limit: nat, a: Micros, u: nat, n: nat): Shared {
    Between([], u, Range(1, limit) + Range(a, n), Some(a - 1 + n), [] + Range(a, n))
  }

  /** One call of them between its admission and the undo. */
  ghost function Robbing(limit: nat, a: Micros, u: nat, n: nat): Shared {
    Between([a + n], u, Range(1, limit) + Range(a, n + 1), Some(a + n), [] + Range(a, n))
  }

  lemma AdmitOne(rules: Rules, limit: nat, window: Micros, a: Micros, u: nat, n: nat)
    requires limit >= 1 && limit < a && !rules.serial && !rules.noneDenied
    ensures MayCall(rules, limit, window, Robbed(limit, a, u, n), a + n)
    ensures Called(limit, window, Robbed(limit, a, u, n), a + n) == Robbing(limit, a, u, n)
  {
    RangeAppend(Range(1, limit), a, n);
    assert Live([], a + n - window) == [];
  }

  lemma RobOne(limit: nat, a: Micros, u: nat, n: nat)
    requires u > 0
    ensures AfterUndo(Robbing(limit, a, u, n), true) == Robbed(limit, a, u - 1, n + 1)
  {
    RangeAppend([], a, n);
    assert Robbing(limit, a, u, n).admitted[limit + n] == a + n;
  }

  lemma NextIsAdmitted(p: Property, limit: nat, window: Micros, a: Micros, u: nat, n: nat)
    requires Inductive(p, limit, window) && p.holds(Robbed(limit, a, u, n))
    requires limit >= 1 && limit < a && !p.rules.serial && !p.rules.noneDenied
    ensures p.holds(Robbing(limit, a, u, n))
  {
    AdmitOne(p.rules, limit, window, a, u, n);
    OneCall(p, limit, window, Robbed(limit, a, u, n), a + n);
  }

  lemma NextIsRobbed(p: Property, limit: nat, window: Micros, a: Micros, u: nat, n: nat)
    requires Inductive(p, limit, window) && p.holds(Robbed(limit, a, u, n))
    requires limit >= 1 && limit < a && !p.rules.serial && !p.rules.noneDenied && u > 0
    ensures p.holds(Robbed(limit, a, u - 1, n + 1))
  {
    NextIsAdmitted(p, limit, window, a, u, n);
    RobOne(limit, a, u, n);
    OneUndo(p, limit, window, Robbing(limit, a, u, n));
  }

  lemma {:induction false} RobAll(p: Property, limit: nat, window: Micros, a: Micros, u: nat, n: nat)
    requires Inductive(p, limit, window)
    requires p.holds(Robbed(limit, a, u, 0))
    requires limit >= 1 && limit < a && !p.rules.serial && !p.rules.noneDenied && n <= u
    ensures p.holds(Robbed(limit, a, u - n, n))
  {
    if n > 0 {
      RobAll(p, limit, window, a, u, n - 1);
      NextIsRobbed(p, limit, window, a, u - n + 1, n - 1);
    }
  }

  /** When the window is over, the key expires. */
  lemma ExpireDenied(p: Property, limit: nat, window: Micros, n: nat, at: Micros)
    requires Inductive(p, limit, window)
    requires p.holds(Denied(limit, n))
    requires limit + n < at && limit + n <= at - window && !p.rules.serial && !p.rules.noneDenied
    ensures p.holds(Robbed(limit, at + 1, n, 0))
  {
    NoneLive(Range(1, limit + n), at - window, limit + n);
    assert Range(1, limit) + Range(at + 1, 0) == Range(1, limit);
    assert [] + Range(at + 1, 0) == [];
    OneStep(p, limit, window, Denied(limit, n), Expire(at));
    assert AfterPrune(window, Denied(limit, n), at) == Robbed(limit, at + 1, n, 0);
  }

  ghost function AfterLateUndos(limit: nat, a: Micros, extra: nat): Shared {
    Filling(Robbed(limit, a, 0, extra), a + extra, limit)
  }

  lemma EmptyAfterRobbing(limit: nat, a: Micros, extra: nat)
    requires limit < a
    ensures Robbed(limit, a, 0, extra) == Filling(Robbed(limit, a, 0, extra), a + extra, 0)
    ensures Before(Robbed(limit, a, 0, extra), a + extra)
  {
    assert Robbed(limit, a, 0, extra).admitted + Range(a + extra, 0) == Robbed(limit, a, 0, extra).admitted;
  }

  lemma ReachLateUndos(p: Property, limit: nat, window: Micros, extra: nat, at: Micros)
    requires Inductive(p, limit, window)
    requires limit >= 1 && limit + extra <= window && at >= limit + extra + window
    requires !p.rules.serial && !p.rules.noneDenied
    ensures p.holds(AfterLateUndos(limit, at + 1, extra))
  {
    ReachDenied(p, limit, window, extra);
    ExpireDenied(p, limit, window, extra, at);
    RobAll(p, limit, window, at + 1, extra, extra);
    EmptyAfterRobbing(limit, at + 1, extra);
    Fill(p, limit, window, Robbed(limit, at + 1, 0, extra), at + 1 + extra, limit);
  }

  lemma CountTheRobbed(limit: nat, window: Micros, extra: nat, a: Micros, t: Micros)
    requires limit + extra <= window && a > limit + extra + window && t == a + extra + limit - 1
    ensures LetsInTooMany(limit, extra, AfterLateUndos(limit, a, extra), t - window, t)
  {
    var lo := t - window;
    SumIsZero(Inside(lo, t), Range(1, limit), limit);
    WithinRange(Range(1, limit), a, extra, lo, t);
    WithinRange(Range(1, limit) + Range(a, extra), a + extra, limit, lo, t);
    WithinRange([], a, extra, lo, t);
  }

  lemma LateUndosRun(limit: nat, window: Micros, at: Micros, extra: nat) returns (run: Run)
    requires limit >= 1 && limit + extra <= window && at >= limit + extra + window
    ensures IsRun(limit, window, run) && NoErrors(run) && ClockAdvances(run) && PipelinesWhole(run)
    ensures StateOf(run) == AfterLateUndos(limit, at + 1, extra)
  {
    var rules := Rules(true, true, true, true, false, false);
    var p := Reached(rules, limit, window);
    ReachedIsInductive(rules, limit, window);
    ReachLateUndos(p, limit, window, extra, at);
    run := RunTo(rules, limit, window, AfterLateUndos(limit, at + 1, extra));
  }

  lemma LateUndosAfter(limit: nat, window: Micros, extra: nat, at: Micros) returns (run: Run, t: Micros)
    requires limit >= 1 && limit + extra <= window && at >= limit + extra + window
    ensures IsRun(limit, window, run) && NoErrors(run) && ClockAdvances(run) && PipelinesWhole(run)
    ensures LetsInTooMany(limit, extra, StateOf(run), t - window, t)
  {
    t := at + extra + limit;
    CountTheRobbed(limit, window, extra, at + 1, t);
    run := LateUndosRun(limit, window, at, extra);
  }

  /**
   Late undos.  No errors, increasing times, and nothing between the three commands of a
   pipeline: but undos that come late take other calls' entries away, and limit + extra
   calls get into one window.
   */
  lemma LateUndosOverAdmit(limit: nat, window: Micros, extra: nat) returns (run: Run, t: Micros)
    requires limit >= 1 && limit + extra <= window
    ensures IsRun(limit, window, run) && NoErrors(run) && ClockAdvances(run) && PipelinesWhole(run)
    ensures LetsInTooMany(limit, extra, StateOf(run), t - window, t)
  {
    run, t := LateUndosAfter(limit, window, extra, limit + extra + window + SECOND / 1000);
  }

  // ---- A microsecond that repeats -------------------------------------------------------------------

  /** A full window in whose last microsecond n more calls got in. */
  ghost function Crowded(size: nat, n: nat): Shared {
    Between(Range(1, size), 0, Range(1, size) + Copies(size, n), Some(size), [] + Copies(size, n))
  }

  lemma NoneCrowded(size: nat)
    requires size >= 1
    ensures Filled(size) == Crowded(size, 0)
  {
    assert Range(1, size) + Copies(size, 0) == Range(1, size);
    assert [] + Copies(size, 0) == [];
  }

  lemma DenyAgain(limit: nat, window: Micros, n: nat)
    requires 1 <= limit <= window
    ensures Called(limit, window, Crowded(limit, n), limit) == Crowded(limit, n).(undoing := 1)
  {
    RangeLive(1, limit, limit - window);
    assert Range(1, limit)[limit - 1] == limit;
  }

  /** A denied call of the last microsecond adds nothing to the set. */
  lemma DeniedAgain(p: Property, limit: nat, window: Micros, n: nat)
    requires Inductive(p, limit, window)
    requires p.holds(Crowded(limit, n))
    requires 1 <= limit <= window && !p.rules.advancing && !p.rules.noneDenied
    ensures p.holds(Crowded(limit, n).(undoing := 1))
  {
    DenyAgain(limit, window, n);
    OneCall(p, limit, window, Crowded(limit, n), limit);
  }

  /** Its undo takes away the entry of an admitted call. */
  ghost function RobbedAgain(limit: nat, n: nat): Shared
    requires limit >= 1
  {
    Between(Range(1, limit - 1), 0, Range(1, limit) + Copies(limit, n), Some(limit), [] + Copies(limit, n + 1))
  }

  lemma UndoAgain(limit: nat, n: nat)
    requires limit >= 1
    ensures AfterUndo(Crowded(limit, n).(undoing := 1), true) == RobbedAgain(limit, n)
  {
    RangeMore(1, limit - 1);
    CopiesAppend([], limit, n);
    assert Crowded(limit, n).admitted[limit - 1] == limit;
    assert RemoveTop(Range(1, limit)) == Range(1, limit - 1);
  }

  lemma UndoneAgain(p: Property, limit: nat, window: Micros, n: nat)
    requires Inductive(p, limit, window)
    requires limit >= 1 && p.holds(Crowded(limit, n).(undoing := 1))
    ensures p.holds(RobbedAgain(limit, n))
  {
    UndoAgain(limit, n);
    OneUndo(p, limit, window, Crowded(limit, n).(undoing := 1));
  }

  lemma AdmitAgain(limit: nat, window: Micros, n: nat)
    requires 1 <= limit <= window
    ensures Called(limit, window, RobbedAgain(limit, n), limit) == Crowded(limit, n + 1)
  {
    RangeLive(1, limit - 1, limit - window);
    RangeMore(1, limit - 1);
    CopiesAppend(Range(1, limit), limit, n);
    NewestGoesOnTop(Range(1, limit - 1), limit);
  }

  /** So the next call of the microsecond gets in. */
  lemma AdmittedAgain(p: Property, limit: nat, window: Micros, n: nat)
    requires Inductive(p, limit, window)
    requires 1 <= limit <= window && !p.rules.advancing && !p.rules.noneDenied
    requires p.holds(RobbedAgain(limit, n))
    ensures p.holds(Crowded(limit, n + 1))
  {
    AdmitAgain(limit, window, n);
    OneCall(p, limit, window, RobbedAgain(limit, n), limit);
  }

  lemma {:induction false} ReachCrowded(p: Property, limit: nat, window: Micros, n: nat)
    requires Inductive(p, limit, window)
    requires 1 <= limit <= window && !p.rules.advancing && !p.rules.noneDenied
    ensures p.holds(Crowded(limit, n))
  {
    if n == 0 {
      NoneCrowded(limit);
      ReachFilled(p, limit, window, limit);
    } else {
      ReachCrowded(p, limit, window, n - 1);
      DeniedAgain(p, limit, window, n - 1);
      UndoneAgain(p, limit, window, n - 1);
      AdmittedAgain(p, limit, window, n - 1);
    }
  }

  lemma CountTheCrowd(size: nat, n: nat, lo: Micros, hi: Micros)
    requires 1 <= size <= hi && lo < 1
    ensures LetsInTooMany(size, n, Crowded(size, n), lo, hi)
  {
    assert [] + Range(1, size) == Range(1, size);
    WithinRange([], 1, size, lo, hi);
    WithinCopies(Range(1, size), size, n, lo, hi);
    WithinCopies([], size, n, lo, hi);
  }

  lemma CrowdedRun(limit: nat, window: Micros, extra: nat) returns (run: Run)
    requires 1 <= limit <= window
    ensures IsRun(limit, window, run) && NoErrors(run) && ClockNeverRunsBack(run) && OneAtATime(run)
    ensures StateOf(run) == Crowded(limit, extra)
  {
    var rules := Rules(true, false, true, true, true, false);
    var p := Reached(rules, limit, window);
    ReachedIsInductive(rules, limit, window);
    ReachCrowded(p, limit, window, extra);
    run := RunTo(rules, limit, window, Crowded(limit, extra));
  }

  /**
   One microsecond, with denied calls.  No errors, one caller at a time, and readings that
   never run backwards: but a denied call has the entry of the last admitted one, its undo
   takes that away, and limit + extra calls get into one window.
   */
  lemma SameMicrosecondOverAdmits(limit: nat, window: Micros, extra: nat) returns (run: Run, t: Micros)
    requires 1 <= limit <= window
    ensures IsRun(limit, window, run) && NoErrors(run) && ClockNeverRunsBack(run) && OneAtATime(run)
    ensures LetsInTooMany(limit, extra, StateOf(run), t - window, t)
  {
    run := CrowdedRun(limit, window, extra);
    t := limit;
    CountTheCrowd(limit, extra, t - window, t);
  }

  lemma ShareOne(limit: nat, window: Micros, size: nat, n: nat)
    requires 1 <= size < limit && size <= window
    ensures Called(limit, window, Crowded(size, n), size) == Crowded(size, n + 1)
    ensures Live(Range(1, size), size - window) == Range(1, size)
  {
    RangeLive(1, size, size - window);
    CopiesAppend(Range(1, size), size, n);
    CopiesAppend([], size, n);
    assert Range(1, size)[size - 1] == size && Crowded(size, n).admitted[size - 1] == size;
  }

  /** As long as the window is not full, calls of one microsecond have one entry together. */
  lemma SharesTheEntry(p: Property, limit: nat, window: Micros, size: nat, n: nat)
    requires Inductive(p, limit, window)
    requires p.holds(Crowded(size, n))
    requires 1 <= size < limit && size <= window && !p.rules.advancing
    ensures p.holds(Crowded(size, n + 1))
  {
    ShareOne(limit, window, size, n);
    OneCall(p, limit, window, Crowded(size, n), size);
  }

  lemma {:induction false} ReachShared(p: Property, limit: nat, window: Micros, size: nat, n: nat)
    requires Inductive(p, limit, window)
    requires 1 <= size < limit && size <= window && !p.rules.advancing
    ensures p.holds(Crowded(size, n))
  {
    if n == 0 {
      NoneCrowded(size);
      ReachFilled(p, limit, window, size);
    } else {
      ReachShared(p, limit, window, size, n - 1);
      SharesTheEntry(p, limit, window, size, n - 1);
    }
  }

  /** The last place is then taken by a call of the next microsecond. */
  ghost function LastOneIn(limit: nat, n: nat): Shared
    requires limit >= 2
  {
    Between(Range(1, limit), 0, Range(1, limit - 1) + Copies(limit - 1, n) + [limit], Some(limit),
            [] + Copies(limit - 1, n))
  }

  lemma AdmitLast(limit: nat, window: Micros, n: nat)
    requires 2 <= limit <= window
    ensures Called(limit, window, Crowded(limit - 1, n), limit) == LastOneIn(limit, n)
    ensures Live(Range(1, limit - 1), limit - window) == Range(1, limit - 1)
  {
    RangeLive(1, limit - 1, limit - window);
    RangeMore(1, limit - 1);
    NewestGoesOnTop(Range(1, limit - 1), limit);
  }

  lemma ReachLastOne(p: Property, limit: nat, window: Micros, n: nat)
    requires Inductive(p, limit, window)
    requires 2 <= limit <= window && !p.rules.advancing
    requires p.holds(Crowded(limit - 1, n))
    ensures p.holds(LastOneIn(limit, n))
  {
    AdmitLast(limit, window, n);
    OneCall(p, limit, window, Crowded(limit - 1, n), limit);
  }

  lemma CountTheLast(limit: nat, n: nat, lo: Micros, hi: Micros)
    requires 2 <= limit <= hi && lo < 1
    ensures LetsInTooMany(limit, n, LastOneIn(limit, n), lo, hi)
  {
    CountTheCrowd(limit - 1, n, lo, hi);
    SumAppend(Inside(lo, hi), Crowded(limit - 1, n).admitted, limit);
  }

  lemma SharedEntryRun(limit: nat, window: Micros, extra: nat) returns (run: Run)
    requires 2 <= limit <= window
    ensures IsRun(limit, window, run) && NoErrors(run) && ClockNeverRunsBack(run)
    ensures OneAtATime(run) && NothingDenied(run)
    ensures StateOf(run) == LastOneIn(limit, extra)
  {
    var rules := Rules(true, false, true, true, true, true);
    var p := Reached(rules, limit, window);
    ReachedIsInductive(rules, limit, window);
    ReachShared(p, limit, window, limit - 1, extra);
    ReachLastOne(p, limit, window, extra);
    run := RunTo(rules, limit, window, LastOneIn(limit, extra));
  }

  /**
   One microsecond, without a denied call.  With a limit of two or more no undo is needed:
   the calls of a microsecond have one entry together, so the set does not fill up.
   */
  lemma SharedEntryOverAdmits(limit: nat, window: Micros, extra: nat) returns (run: Run, t: Micros)
    requires 2 <= limit <= window
    ensures IsRun(limit, window, run) && NoErrors(run) && ClockNeverRunsBack(run)
    ensures OneAtATime(run) && NothingDenied(run)
    ensures LetsInTooMany(limit, extra, StateOf(run), t - window, t)
  {
    run := SharedEntryRun(limit, window, extra);
    t := limit;
    CountTheLast(limit, extra, t - window, t);
  }

  // ---- A clock that runs behind -------------------------------------------------------------------

  lemma OneIsLive(time: Micros, hi: Micros)
    requires hi < time
    ensures Live([time], hi) == [time]
  {
    AllLive([time], hi, 1);
    assert [time][..1] == [time];
  }

  lemma AddBelow(top: Micros, m: Micros)
    requires m < top
    ensures ZAdd([top], m) == [m, top]
  {
    assert [top][..0] == [];
    assert ZAdd([top][..0], m) == [m];
  }

  /** For a caller whose clock is ahead, the window is over. */
  ghost predicate IsOver(window: Micros, s: Shared, ahead: Micros) {
    && s.counting == [] && s.adding == [] && s.undoing == 0
    && (s.horizon.Some? ==> s.horizon.value < ahead)
    && Expired(s.members, ahead - window)
  }

  ghost function Emptied(s: Shared, ahead: Micros): Shared {
    s.(members := [ahead], horizon := Some(ahead), admitted := s.admitted + [ahead])
  }

  lemma EmptyOne(rules: Rules, limit: nat, window: Micros, s: Shared, ahead: Micros)
    requires IsOver(window, s, ahead) && limit >= 1 && !rules.advancing && !rules.forward
    ensures MayCall(rules, limit, window, s, ahead)
    ensures Called(limit, window, s, ahead) == Emptied(s, ahead)
  {
    NoneLive(s.members, ahead - window, |s.members|);
  }

  /** After that, a caller whose clock is behind finds room. */
  ghost function AdmittedLate(s: Shared, ahead: Micros, now: Micros): Shared {
    var t := Emptied(s, ahead);
    t.(members := [now, ahead], admitted := t.admitted + [now], uncounted := t.uncounted + [now])
  }

  lemma AdmitLate(rules: Rules, limit: nat, window: Micros, s: Shared, ahead: Micros, now: Micros)
    requires IsOver(window, s, ahead) && limit >= 2 && window >= 0 && now < ahead && !rules.advancing && !rules.forward
    ensures MayCall(rules, limit, window, Emptied(s, ahead), now)
    ensures Called(limit, window, Emptied(s, ahead), now) == AdmittedLate(s, ahead, now)
    ensures IsOver(window, AdmittedLate(s, ahead, now), ahead + window) || window == 0
  {
    OneIsLive(ahead, now - window);
    AddBelow(ahead, now);
  }

  lemma CallInTurns(p: Property, limit: nat, window: Micros, s: Shared, ahead: Micros, now: Micros)
    requires Inductive(p, limit, window) && p.holds(s)
    requires IsOver(window, s, ahead) && limit >= 2 && window >= 1 && now < ahead
    requires !p.rules.advancing && !p.rules.forward
    ensures p.holds(AdmittedLate(s, ahead, now)) && IsOver(window, AdmittedLate(s, ahead, now), ahead + window)
  {
    EmptyOne(p.rules, limit, window, s, ahead);
    OneCall(p, limit, window, s, ahead);
    AdmitLate(p.rules, limit, window, s, ahead, now);
    OneCall(p, limit, window, Emptied(s, ahead), now);
  }

  /** A full window, and n times a caller whose clock is ahead and one whose clock is behind. */
  ghost function InTurns(limit: nat, window: Micros, start: Micros, n: nat): Shared {
    if n == 0 then Filled(limit)
    else AdmittedLate(InTurns(limit, window, start, n - 1), start + (n - 1) * window, limit + n)
  }

  lemma OneMoreTurn(window: Micros, n: nat)
    requires window >= 1 && n > 0
    ensures n * window == (n - 1) * window + window && (n - 1) * window >= 0
  {
  }

  lemma {:induction false} ReachInTurns(p: Property, limit: nat, window: Micros, start: Micros, n: nat)
    requires Inductive(p, limit, window)
    requires 2 <= limit <= window && limit + n + window <= start && !p.rules.advancing && !p.rules.forward
    ensures p.holds(InTurns(limit, window, start, n))
    ensures IsOver(window, InTurns(limit, window, start, n), start + n * window)
  {
    if n == 0 {
      ReachFilled(p, limit, window, limit);
    } else {
      ReachInTurns(p, limit, window, start, n - 1);
      CallInTurns(p, limit, window, InTurns(limit, window, start, n - 1), start + (n - 1) * window, limit + n);
      OneMoreTurn(window, n);
    }
  }

  ghost predicate NoRepeats(times: seq<Micros>) {
    forall i, j | 0 <= i < j < |times| :: times[i] != times[j]
  }

  /** The times of a window, and those that are further on. */
  ghost predicate Apart(times: seq<Micros>, bound: Micros, start: Micros, end: Micros) {
    forall i | 0 <= i < |times| :: times[i] <= bound || start <= times[i] < end
  }

  lemma TwoMore(s: Shared, bound: Micros, start: Micros, ahead: Micros, end: Micros)
    requires NoRepeats(s.admitted) && Apart(s.admitted, bound, start, ahead) && bound + 1 < start <= ahead < end
    ensures NoRepeats(AdmittedLate(s, ahead, bound + 1).admitted)
    ensures Apart(AdmittedLate(s, ahead, bound + 1).admitted, bound + 1, start, end)
  {
  }

  lemma {:induction false} TurnsNeverRepeat(limit: nat, window: Micros, start: Micros, n: nat)
    requires window >= 1 && limit + n < start
    ensures NoRepeats(InTurns(limit, window, start, n).admitted)
    ensures Apart(InTurns(limit, window, start, n).admitted, limit + n, start, start + n * window)
  {
    if n > 0 {
      TurnsNeverRepeat(limit, window, start, n - 1);
      OneMoreTurn(window, n);
      TwoMore(InTurns(limit, window, start, n - 1), limit + n - 1, start, start + (n - 1) * window, start + n * window);
    }
  }

  lemma CountTwoMore(limit: nat, n: nat, s: Shared, ahead: Micros, now: Micros, lo: Micros, hi: Micros)
    requires LetsInTooMany(limit, n, s, lo, hi) && lo < now <= hi < ahead
    ensures LetsInTooMany(limit, n + 1, AdmittedLate(s, ahead, now), lo, hi)
  {
    SumAppend(Inside(lo, hi), s.admitted, ahead);
    SumAppend(Inside(lo, hi), s.admitted + [ahead], now);
    SumAppend(Inside(lo, hi), s.uncounted, now);
  }

  lemma {:induction false} CountTheTurns(limit: nat, window: Micros, start: Micros, n: nat, lo: Micros, hi: Micros)
    requires lo < 1 && limit + n <= hi < start && window >= 1
    ensures LetsInTooMany(limit, n, InTurns(limit, window, start, n), lo, hi)
  {
    if n == 0 {
      WithinRange([], 1, limit, lo, hi);
      assert [] + Range(1, limit) == Range(1, limit);
    } else {
      CountTheTurns(limit, window, start, n - 1, lo, hi);
      OneMoreTurn(window, n);
      CountTwoMore(limit, n - 1, InTurns(limit, window, start, n - 1), start + (n - 1) * window, limit + n, lo, hi);
    }
  }

  lemma InTurnsRun(limit: nat, window: Micros, start: Micros, extra: nat) returns (run: Run)
    requires 2 <= limit <= window && limit + extra + window <= start
    ensures IsRun(limit, window, run) && NoErrors(run) && OneAtATime(run) && NothingDenied(run)
    ensures StateOf(run) == InTurns(limit, window, start, extra)
  {
    var rules := Rules(true, false, false, true, true, true);
    var p := Reached(rules, limit, window);
    ReachedIsInductive(rules, limit, window);
    ReachInTurns(p, limit, window, start, extra);
    run := RunTo(rules, limit, window, InTurns(limit, window, start, extra));
  }

  /**
   A clock that runs behind.  No errors, one caller at a time, nobody denied, and no
   microsecond twice: but callers whose clock is ahead prune a window that is not over for
   the others, and limit + extra calls get into it.
   */
  lemma LateClocksOverAdmit(limit: nat, window: Micros, extra: nat) returns (run: Run, t: Micros)
    requires 2 <= limit <= window && limit + extra <= window
    ensures IsRun(limit, window, run) && NoErrors(run) && OneAtATime(run) && NothingDenied(run)
    ensures NoRepeats(StateOf(run).admitted)
    ensures LetsInTooMany(limit, extra, StateOf(run), t - window, t)
  {
    var start := limit + extra + window;
    TurnsNeverRepeat(limit, window, start, extra);
    CountTheTurns(limit, window, start, extra, limit + extra - window, limit + extra);
    run := InTurnsRun(limit, window, start, extra);
    t := limit + extra;
  }

  // ---- Errors ---------------------------------------------------------------------------------------

  /** A full window into which errors let n more calls. */
  ghost function Failed(limit: nat, n: nat): Shared {
    Filled(limit).(admitted := Range(1, limit) + Range(limit + 1, n), uncounted := [] + Range(limit + 1, n))
  }

  lemma NextFails(p: Property, limit: nat, window: Micros, n: nat)
    requires Inductive(p, limit, window)
    requires p.holds(Failed(limit, n)) && !p.rules.errorFree
    ensures p.holds(Failed(limit, n + 1))
  {
    RangeAppend(Range(1, limit), limit + 1, n);
    RangeAppend([], limit + 1, n);
    OneStep(p, limit, window, Failed(limit, n), FailUnsent(limit + 1 + n));
    assert LetInByError(Failed(limit, n), limit + 1 + n) == Failed(limit, n + 1);
  }

  lemma {:induction false} ReachFailed(p: Property, limit: nat, window: Micros, n: nat)
    requires Inductive(p, limit, window)
    requires limit <= window && !p.rules.errorFree
    ensures p.holds(Failed(limit, n))
  {
    if n == 0 {
      ReachFilled(p, limit, window, limit);
      assert Range(1, limit) + Range(limit + 1, 0) == Range(1, limit);
      assert [] + Range(limit + 1, 0) == [];
    } else {
      ReachFailed(p, limit, window, n - 1);
      NextFails(p, limit, window, n - 1);
    }
  }

  /** A state whose window holds `limit` calls and then `extra` more, which are not counted. */
  lemma CountTheRange(limit: nat, extra: nat, s: Shared, lo: Micros)
    requires lo < 1
    requires s.admitted == Range(1, limit) + Range(limit + 1, extra) && s.uncounted == [] + Range(limit + 1, extra)
    ensures LetsInTooMany(limit, extra, s, lo, limit + extra)
  {
    WithinRange([], 1, limit, lo, limit + extra);
    assert [] + Range(1, limit) == Range(1, limit);
    WithinRange(Range(1, limit), limit + 1, extra, lo, limit + extra);
    WithinRange([], limit + 1, extra, lo, limit + extra);
  }

  lemma FailedRun(limit: nat, window: Micros, extra: nat) returns (run: Run)
    requires limit + extra <= window
    ensures IsRun(limit, window, run) && ClockAdvances(run) && OneAtATime(run) && NothingDenied(run)
    ensures StateOf(run) == Failed(limit, extra)
  {
    var rules := Rules(false, true, true, true, true, true);
    var p := Reached(rules, limit, window);
    ReachedIsInductive(rules, limit, window);
    ReachFailed(p, limit, window, extra);
    run := RunTo(rules, limit, window, Failed(limit, extra));
  }

  /**
   Errors.  Increasing times, one caller at a time and nobody denied: but a caller who
   gets an error is let in, and limit + extra calls get into one window.
   */
  lemma ErrorsOverAdmit(limit: nat, window: Micros, extra: nat) returns (run: Run, t: Micros)
    requires limit + extra <= window
    ensures IsRun(limit, window, run) && ClockAdvances(run) && OneAtATime(run) && NothingDenied(run)
    ensures LetsInTooMany(limit, extra, StateOf(run), t - window, t)
  {
    run := FailedRun(limit, window, extra);
    t := limit + extra;
    CountTheRange(limit, extra, Failed(limit, extra), t - window);
  }

  // ---- Callers between count and add -------------------------------------------------------------

  /** The n callers from a on that have counted and not added. */
  ghost function Waiters(a: Micros, n: nat, count: nat, current: bool): seq<Counted> {
    seq(n, j => Counted(a + j, count, false, current, current))
  }

  lemma OneMoreWaits(a: Micros, n: nat, count: nat)
    ensures Waiters(a, n + 1, count, true) == Waiters(a, n, count, true) + [Counted(a + n, count, false, true, true)]
  {
  }

  lemma FirstAdds(a: Micros, n: nat, count: nat, current: bool)
    requires n > 0
    ensures AllOutdated(Without(Waiters(a, n, count, current), 0), current) == Waiters(a + 1, n - 1, count, false)
  {
  }

  /** One place is left in the window, and n callers have counted. */
  ghost function Waiting(limit: nat, n: nat): Shared
    requires limit >= 1
  {
    Shared(Range(1, limit - 1), [], Waiters(limit, n, limit - 1, true), 0, Range(1, limit - 1),
           if limit - 1 + n == 0 then None else Some(limit - 1 + n), 0, 0, [])
  }

  ghost function WaitingToCount(limit: nat, n: nat): Shared
    requires limit >= 1
  {
    Waiting(limit, n).(counting := [Pruned(limit + n, false)], horizon := Some(limit + n))
  }

  lemma NextPrunes(p: Property, limit: nat, window: Micros, n: nat)
    requires Inductive(p, limit, window)
    requires limit >= 1 && limit + n <= window && !p.rules.whole && !p.rules.serial
    requires p.holds(Waiting(limit, n))
    ensures p.holds(WaitingToCount(limit, n))
  {
    RangeLive(1, limit - 1, limit + n - window);
    OneStep(p, limit, window, Waiting(limit, n), Prune(limit + n));
    assert Next(limit, window, Waiting(limit, n), Prune(limit + n)) == WaitingToCount(limit, n);
  }

  lemma NextCounts(p: Property, limit: nat, window: Micros, n: nat)
    requires Inductive(p, limit, window)
    requires limit >= 1 && p.holds(WaitingToCount(limit, n))
    ensures p.holds(Waiting(limit, n + 1))
  {
    OneMoreWaits(limit, n, limit - 1);
    assert Without([Pruned(limit + n, false)], 0) == [];
    OneStep(p, limit, window, WaitingToCount(limit, n), Count(0));
    assert AfterCount(WaitingToCount(limit, n), 0) == Waiting(limit, n + 1);
  }

  lemma {:induction false} ReachWaiting(p: Property, limit: nat, window: Micros, n: nat)
    requires Inductive(p, limit, window)
    requires limit >= 1 && limit - 1 + n <= window && limit <= window && !p.rules.whole && !p.rules.serial
    ensures p.holds(Waiting(limit, n))
  {
    if n == 0 {
      ReachFilled(p, limit, window, limit - 1);
      assert Waiters(limit, 0, limit - 1, true) == [];
    } else {
      ReachWaiting(p, limit, window, n - 1);
      NextPrunes(p, limit, window, n - 1);
      NextCounts(p, limit, window, n - 1);
    }
  }

  /** The place is taken, n more callers have added after all, and `rest` are left to add. */
  ghost function Overfull(limit: nat, n: nat, rest: nat): Shared
    requires limit >= 1
  {
    Shared(Range(1, limit + n), [], Waiters(limit + n + 1, rest, limit - 1, false), 0,
           Range(1, limit) + Range(limit + 1, n), Some(limit + n + rest), 0, n, [] + Range(limit + 1, n))
  }

  lemma AddOnTop(n: nat)
    ensures ZAdd(Range(1, n), n + 1) == Range(1, n) + [n + 1] == Range(1, n + 1)
    ensures n + 1 !in Range(1, n)
  {
    RangeMore(1, n);
    NewestGoesOnTop(Range(1, n), n + 1);
  }

  lemma NoneBesides(limit: nat)
    ensures Range(1, limit) + Range(limit + 1, 0) == Range(1, limit) && [] + Range(limit + 1, 0) == []
  {
  }

  lemma AddFirst(limit: nat, extra: nat)
    requires limit >= 1
    ensures AfterAdd(limit, Waiting(limit, extra + 1), 0) == Overfull(limit, 0, extra)
  {
    FirstAdds(limit, extra + 1, limit - 1, true);
    AddOnTop(limit - 1);
    NoneBesides(limit);
  }

  lemma FirstTakesThePlace(p: Property, limit: nat, window: Micros, extra: nat)
    requires Inductive(p, limit, window)
    requires limit >= 1 && p.holds(Waiting(limit, extra + 1))
    ensures p.holds(Overfull(limit, 0, extra))
  {
    AddFirst(limit, extra);
    OneStep(p, limit, window, Waiting(limit, extra + 1), Add(0));
  }

  lemma AddNext(limit: nat, n: nat, rest: nat)
    requires limit >= 1 && rest > 0
    ensures AfterAdd(limit, Overfull(limit, n, rest), 0) == Overfull(limit, n + 1, rest - 1)
  {
    FirstAdds(limit + n + 1, rest, limit - 1, false);
    RangeMore(1, limit + n);
    NewestGoesOnTop(Range(1, limit + n), limit + n + 1);
    RangeAppend(Range(1, limit), limit + 1, n);
    RangeAppend([], limit + 1, n);
  }

  lemma NextGetsInToo(p: Property, limit: nat, window: Micros, n: nat, rest: nat)
    requires Inductive(p, limit, window)
    requires limit >= 1 && rest > 0 && p.holds(Overfull(limit, n, rest))
    ensures p.holds(Overfull(limit, n + 1, rest - 1))
  {
    AddNext(limit, n, rest);
    OneStep(p, limit, window, Overfull(limit, n, rest), Add(0));
  }

  lemma {:induction false} ReachOverfull(p: Property, limit: nat, window: Micros, n: nat, rest: nat)
    requires Inductive(p, limit, window)
    requires limit >= 1 && limit + n + rest <= window && !p.rules.whole && !p.rules.serial
    ensures p.holds(Overfull(limit, n, rest))
  {
    if n == 0 {
      ReachWaiting(p, limit, window, rest + 1);
      FirstTakesThePlace(p, limit, window, rest);
    } else {
      ReachOverfull(p, limit, window, n - 1, rest + 1);
      NextGetsInToo(p, limit, window, n - 1, rest + 1);
    }
  }

  lemma OverlapRun(limit: nat, window: Micros, extra: nat) returns (run: Run)
    requires limit >= 1 && limit + extra <= window
    ensures IsRun(limit, window, run) && NoErrors(run) && ClockAdvances(run) && NothingDenied(run)
    ensures StateOf(run) == Overfull(limit, extra, 0)
  {
    var rules := Rules(true, true, true, false, false, true);
    var p := Reached(rules, limit, window);
    ReachedIsInductive(rules, limit, window);
    ReachOverfull(p, limit, window, extra, 0);
    run := RunTo(rules, limit, window, Overfull(limit, extra, 0));
  }

  /**
   Overlapping callers.  No errors, increasing times and nobody denied: but callers that
   all count before any of them adds find the same last place, and limit + extra calls get
   into one window.
   */
  lemma OverlapOverAdmits(limit: nat, window: Micros, extra: nat) returns (run: Run, t: Micros)
    requires limit >= 1 && limit + extra <= window
    ensures IsRun(limit, window, run) && NoErrors(run) && ClockAdvances(run) && NothingDenied(run)
    ensures LetsInTooMany(limit, extra, StateOf(run), t - window, t)
  {
    run := OverlapRun(limit, window, extra);
    t := limit + extra;
    CountTheRange(limit, extra, Overfull(limit, extra, 0), t - window);
  }
}
