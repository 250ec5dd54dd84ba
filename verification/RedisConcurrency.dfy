/**
 One key of the Redis limiter under concurrent callers (api/middleware/redis_ratelimit.go).

 Each Redis command is one step.  A caller's pipeline is not a transaction, so commands of
 other callers may come between its own; clock readings may come in any order and more
 than once; and a caller may get an error at any point, after which the commands it sent
 may still take effect or not.
 */
module RedisConcurrency {
  import opened RateLimiting
  import opened RedisRateLimiting
  import opened Sums
  import opened Wrappers

  // ---- State and steps --------------------------------------------------------------------------

  /** A caller that has pruned and not yet counted; an orphan's caller got an error. */
  datatype Pruned = Pruned(now: Micros, orphan: bool)

  /**
   A caller that has counted and not yet added.  As bookkeeping: `alone` as long as nothing
   was added since its count, and `sound` if no later clock reading had pruned before its
   count and no call that the count let in soundly was added since.
   */
  datatype Counted = Counted(now: Micros, count: nat, orphan: bool, alone: bool, sound: bool)

  datatype Shared = Shared(
    members: seq<Micros>,
    counting: seq<Pruned>,
    adding: seq<Counted>,
    undoing: nat,               // denied callers that have not undone their entry
    admitted: seq<Micros>,
    // bookkeeping
    horizon: Option<Micros>,    // the latest clock reading that has pruned
    stray: nat,                 // entries that nobody will undo
    blind: nat,                 // calls let in on a count that was not alone
    uncounted: seq<Micros>)     // admissions that the limit does not account for

  const EMPTY := Shared([], [], [], 0, [], None, 0, 0, [])

  datatype Step =
    | Prune(now: Micros)        // ZREMRANGEBYSCORE
    | PruneLate(now: Micros)    // the same after its caller got an error
    | Expire(at: Micros)        // the key's expiry, which takes no more than a pruning would
    | Count(i: nat)             // ZCARD
    | Add(i: nat)               // ZADD, and the reply with the count
    | FailUnsent(now: Micros)   // an error before any command takes effect: the caller is let in
    | FailCounting(i: nat)      // an error after the first command
    | FailAdding(i: nat)        // an error after the second or third
    | Undo(reached: bool)       // ZREMRANGEBYRANK, or its ignored failure

  predicate Enabled(s: Shared, step: Step) {
    match step
    case Prune(_) => true
    case PruneLate(_) => true
    case Expire(_) => true
    case Count(i) => i < |s.counting|
    case Add(i) => i < |s.adding|
    case FailUnsent(_) => true
    case FailCounting(i) => i < |s.counting| && !s.counting[i].orphan
    case FailAdding(i) => i < |s.adding| && !s.adding[i].orphan
    case Undo(_) => s.undoing > 0
  }

  function Without<T>(xs: seq<T>, i: nat): seq<T>
    requires i < |xs|
  {
    xs[..i] + xs[i + 1..]
  }

  function Latest(horizon: Option<Micros>, now: Micros): Micros {
    if horizon.Some? && horizon.value > now then horizon.value else now
  }

  /** Others' counts are no longer alone once something was added, nor sound once a sound admission was. */
  function Outdated(c: Counted, soundly: bool): Counted {
    c.(alone := false, sound := c.sound && !soundly)
  }

  function AllOutdated(adding: seq<Counted>, soundly: bool): seq<Counted> {
    seq(|adding|, i requires 0 <= i < |adding| => Outdated(adding[i], soundly))
  }

  /** The call gets an entry of its own, or one that no admitted call has. */
  predicate OwnEntry(s: Shared, now: Micros) {
    now !in s.members || now !in s.admitted
  }

  function LetInByError(s: Shared, now: Micros): Shared {
    s.(admitted := s.admitted + [now], uncounted := s.uncounted + [now])
  }

  function AfterPrune(window: Micros, s: Shared, now: Micros): Shared {
    s.(members := Live(s.members, now - window), horizon := Some(Latest(s.horizon, now)))
  }

  function AfterCount(s: Shared, i: nat): Shared
    requires i < |s.counting|
  {
    var c := s.counting[i];
    s.(counting := Without(s.counting, i),
       adding := s.adding + [Counted(c.now, |s.members|, c.orphan, true, Latest(s.horizon, c.now) == c.now)])
  }

  function AfterAdd(limit: int, s: Shared, i: nat): Shared
    requires i < |s.adding|
  {
    var c := s.adding[i];
    var rest, members := Without(s.adding, i), ZAdd(s.members, c.now);
    if c.orphan then
      s.(members := members, adding := AllOutdated(rest, false), stray := s.stray + 1)
    else if c.count < limit then
      var soundly := c.sound && OwnEntry(s, c.now);
      s.(members := members, adding := AllOutdated(rest, soundly), admitted := s.admitted + [c.now],
         blind := if c.alone then s.blind else s.blind + 1,
         uncounted := if soundly then s.uncounted else s.uncounted + [c.now])
    else
      s.(members := members, adding := AllOutdated(rest, false), undoing := s.undoing + 1)
  }

  predicate TakesAdmitted(s: Shared) {
    s.members != [] && s.members[|s.members| - 1] in s.admitted
  }

  function AfterUndo(s: Shared, reached: bool): Shared
    requires s.undoing > 0
  {
    if !reached then s.(undoing := s.undoing - 1, stray := s.stray + 1)
    else
      s.(members := RemoveTop(s.members), undoing := s.undoing - 1,
         uncounted := if TakesAdmitted(s) then s.uncounted + [s.members[|s.members| - 1]] else s.uncounted)
  }

  function Next(limit: int, window: Micros, s: Shared, step: Step): Shared
    requires Enabled(s, step)
  {
    match step
    case Prune(now) => AfterPrune(window, s, now).(counting := s.counting + [Pruned(now, false)])
    case PruneLate(now) => AfterPrune(window, s, now).(counting := s.counting + [Pruned(now, true)])
    case Expire(at) => AfterPrune(window, s, at)
    case Count(i) => AfterCount(s, i)
    case Add(i) => AfterAdd(limit, s, i)
    case FailUnsent(now) => LetInByError(s, now)
    case FailCounting(i) =>
      LetInByError(s.(counting := s.counting[i := s.counting[i].(orphan := true)]), s.counting[i].now)
    case FailAdding(i) =>
      LetInByError(s.(adding := s.adding[i := s.adding[i].(orphan := true)]), s.adding[i].now)
    case Undo(reached) => AfterUndo(s, reached)
  }

  /** A run so far, latest step outermost. */
  datatype Run = Begin | Then(past: Run, step: Step, state: Shared)

  ghost function StateOf(run: Run): Shared {
    if run.Begin? then EMPTY else run.state
  }

  ghost predicate IsRun(limit: int, window: Micros, run: Run) {
    run.Then? ==>
      && IsRun(limit, window, run.past)
      && Enabled(StateOf(run.past), run.step)
      && run.state == Next(limit, window, StateOf(run.past), run.step)
  }

  // ---- The size of the set -----------------------------------------------------------------------

  lemma NextStaysRanked(limit: int, window: Micros, s: Shared, step: Step)
    requires Ranked(s.members) && Enabled(s, step)
    ensures Ranked(Next(limit, window, s, step).members)
  {
    match step
    case Prune(now) => PruningKeepsRanks(s.members, now - window, |s.members|);
    case PruneLate(now) => PruningKeepsRanks(s.members, now - window, |s.members|);
    case Expire(at) => PruningKeepsRanks(s.members, at - window, |s.members|);
    case Add(i) => ZAddKeepsRanks(s.members, s.adding[i].now);
    case _ =>
  }

  /** Nothing was added since a count that is alone. */
  ghost predicate AloneIsCurrent(members: seq<Micros>, adding: seq<Counted>) {
    forall i | 0 <= i < |adding| :: adding[i].alone ==> |members| <= adding[i].count
  }

  ghost predicate Bounded(limit: int, s: Shared) {
    && AloneIsCurrent(s.members, s.adding)
    && |s.members| <= (if limit < 0 then 0 else limit) + s.undoing + s.stray + s.blind
  }

  lemma NextStaysBounded(limit: int, window: Micros, s: Shared, step: Step)
    requires Ranked(s.members) && Enabled(s, step) && Bounded(limit, s)
    ensures Bounded(limit, Next(limit, window, s, step))
  {
    if step.Prune? || step.PruneLate? {
      PruningKeepsRanks(s.members, step.now - window, |s.members|);
    } else if step.Expire? {
      PruningKeepsRanks(s.members, step.at - window, |s.members|);
    }
  }

  /**
   At every moment of every run the set is in rank order and no larger than the limit,
   plus the denied calls that have not undone their entry yet, plus the entries that
   errors left behind, plus the calls let in on a count after which others had added.
   */
  lemma {:induction false} SizeBoundedInEveryRun(limit: int, window: Micros, run: Run)
    requires IsRun(limit, window, run)
    ensures Bounded(limit, StateOf(run)) && Ranked(StateOf(run).members)
    ensures var s := StateOf(run);
      |s.members| <= (if limit < 0 then 0 else limit) + s.undoing + s.stray + s.blind
  {
    if run.Then? {
      SizeBoundedInEveryRun(limit, window, run.past);
      NextStaysRanked(limit, window, StateOf(run.past), run.step);
      NextStaysBounded(limit, window, StateOf(run.past), run.step);
    }
  }

  // ---- Entries that errors leave behind ------------------------------------------------------

  predicate Succeeds(step: Step) {
    match step
    case PruneLate(_) => false
    case FailUnsent(_) => false
    case FailCounting(_) => false
    case FailAdding(_) => false
    case Undo(reached) => reached
    case _ => true
  }

  /** How many of a run's steps are errors. */
  ghost function Errors(run: Run): nat {
    if run.Begin? then 0 else Errors(run.past) + if Succeeds(run.step) then 0 else 1
  }

  function OrphanCounting(p: Pruned): int {
    if p.orphan then 1 else 0
  }

  function OrphanAdding(c: Counted): int {
    if c.orphan then 1 else 0
  }

  /** Entries nobody will undo, and those that commands still on their way may add. */
  ghost function Astray(s: Shared): int {
    s.stray + Sum(OrphanCounting, s.counting) + Sum(OrphanAdding, s.adding)
  }

  lemma OutdatingKeepsOrphans(adding: seq<Counted>, soundly: bool)
    ensures Sum(OrphanAdding, AllOutdated(adding, soundly)) == Sum(OrphanAdding, adding)
  {
    SumSame(OrphanAdding, AllOutdated(adding, soundly), adding, |adding|);
  }

  lemma NextAstray(limit: int, window: Micros, s: Shared, step: Step)
    requires Enabled(s, step)
    ensures Astray(Next(limit, window, s, step)) <= Astray(s) + if Succeeds(step) then 0 else 1
  {
    var t := Next(limit, window, s, step);
    match step
    case Prune(now) => SumAppend(OrphanCounting, s.counting, Pruned(now, false));
    case PruneLate(now) => SumAppend(OrphanCounting, s.counting, Pruned(now, true));
    case Count(i) =>
      SumWithout(OrphanCounting, s.counting, i);
      SumAppend(OrphanAdding, s.adding, t.adding[|s.adding|]);
    case Add(i) =>
      SumWithout(OrphanAdding, s.adding, i);
      OutdatingKeepsOrphans(Without(s.adding, i), true);
      OutdatingKeepsOrphans(Without(s.adding, i), false);
    case FailCounting(i) => SumUpdate(OrphanCounting, s.counting, i, t.counting[i]);
    case FailAdding(i) => SumUpdate(OrphanAdding, s.adding, i, t.adding[i]);
    case _ =>
  }

  /** They are no more than there have been errors. */
  lemma {:induction false} AstrayByErrors(limit: int, window: Micros, run: Run)
    requires IsRun(limit, window, run)
    ensures Astray(StateOf(run)) <= Errors(run)
  {
    if run.Then? {
      AstrayByErrors(limit, window, run.past);
      NextAstray(limit, window, StateOf(run.past), run.step);
    }
  }

  /** So in every run the entries that nobody will undo are at most as many as its errors. */
  lemma StrayByErrors(limit: int, window: Micros, run: Run)
    requires IsRun(limit, window, run)
    ensures StateOf(run).stray <= Errors(run)
  {
    AstrayByErrors(limit, window, run);
    SumNotNegative(OrphanCounting, StateOf(run).counting, |StateOf(run).counting|);
    SumNotNegative(OrphanAdding, StateOf(run).adding, |StateOf(run).adding|);
  }

  /** Denied calls of a run, and undos, whether they took effect or not. */
  ghost function Denials(limit: int, run: Run): nat {
    if run.Begin? then 0
    else
      var adding := StateOf(run.past).adding;
      Denials(limit, run.past)
      + if run.step.Add? && run.step.i < |adding| && !adding[run.step.i].orphan && adding[run.step.i].count >= limit
        then 1 else 0
  }

  ghost function Undos(run: Run): nat {
    if run.Begin? then 0 else Undos(run.past) + if run.step.Undo? then 1 else 0
  }

  /** The undos outstanding are the denials that were not followed by one. */
  lemma {:induction false} UndoingIsOutstanding(limit: int, window: Micros, run: Run)
    requires IsRun(limit, window, run)
    ensures StateOf(run).undoing == Denials(limit, run) - Undos(run)
  {
    if run.Then? {
      UndoingIsOutstanding(limit, window, run.past);
    }
  }

  // ---- How many calls get into a window ------------------------------------------------------

  ghost function Inside(lo: Micros, hi: Micros): Micros -> int {
    t => if lo < t <= hi then 1 else 0
  }

  /** How many of the times lie in (lo, hi]. */
  ghost function Within(times: seq<Micros>, lo: Micros, hi: Micros): int {
    Sum(Inside(lo, hi), times)
  }

  ghost function Stands(admitted: seq<Micros>, lo: Micros, hi: Micros): Micros -> int {
    m => if lo < m <= hi && m in admitted then 1 else 0
  }

  /** How many of the members lie in (lo, hi] and belong to admitted calls. */
  ghost function Standing(members: seq<Micros>, admitted: seq<Micros>, lo: Micros, hi: Micros): int {
    Sum(Stands(admitted, lo, hi), members)
  }

  lemma {:induction false} StandingAtMost(members: seq<Micros>, admitted: seq<Micros>, lo: Micros, hi: Micros, n: nat)
    requires n <= |members|
    ensures SumUpTo(Stands(admitted, lo, hi), members, n) <= n
  {
    if n > 0 {
      StandingAtMost(members, admitted, lo, hi, n - 1);
    }
  }

  /** Pruning below the window changes nothing in it. */
  lemma {:induction false} StandingLive(
      members: seq<Micros>, admitted: seq<Micros>, cutoff: Micros, lo: Micros, hi: Micros, n: nat)
    requires n <= |members| && cutoff <= lo
    ensures Standing(LiveAmong(members, cutoff, n), admitted, lo, hi) == SumUpTo(Stands(admitted, lo, hi), members, n)
  {
    if n > 0 {
      StandingLive(members, admitted, cutoff, lo, hi, n - 1);
      SumAppend(Stands(admitted, lo, hi), LiveAmong(members, cutoff, n - 1), members[n - 1]);
    }
  }

  /** An admission makes its own entry stand, if it is there and did not stand before. */
  lemma {:induction false} StandingAdmits(
      members: seq<Micros>, admitted: seq<Micros>, m: Micros, lo: Micros, hi: Micros, n: nat)
    requires Ranked(members) && n <= |members|
    ensures SumUpTo(Stands(admitted + [m], lo, hi), members, n) ==
            SumUpTo(Stands(admitted, lo, hi), members, n)
            + if m in members[..n] && m !in admitted && lo < m <= hi then 1 else 0
  {
    if n > 0 {
      StandingAdmits(members, admitted, m, lo, hi, n - 1);
      assert members[..n] == members[..n - 1] + [members[n - 1]];
      if members[n - 1] == m {
        assert m !in members[..n - 1];
      }
    }
  }

  /** ZADD makes a new entry stand if its microsecond was admitted. */
  lemma {:induction false} StandingAdds(members: seq<Micros>, admitted: seq<Micros>, m: Micros, lo: Micros, hi: Micros)
    requires Ranked(members)
    ensures Standing(ZAdd(members, m), admitted, lo, hi) ==
            Standing(members, admitted, lo, hi)
            + if m !in members && m in admitted && lo < m <= hi then 1 else 0
  {
    if members == [] || members[|members| - 1] < m {
      SumAppend(Stands(admitted, lo, hi), members, m);
    } else if m < members[|members| - 1] {
      var n := |members| - 1;
      assert members == members[..n] + [members[n]];
      StandingAdds(members[..n], admitted, m, lo, hi);
      SumAppend(Stands(admitted, lo, hi), ZAdd(members[..n], m), members[n]);
      SumAppend(Stands(admitted, lo, hi), members[..n], members[n]);
    }
  }

  // ---- The admissions in a window are accounted for ----------------------------------------------

  /** Every admission in the window still has its entry, or is among the uncounted. */
  ghost predicate Accounted(s: Shared, lo: Micros, hi: Micros) {
    Within(s.admitted, lo, hi) <= Standing(s.members, s.admitted, lo, hi) + Within(s.uncounted, lo, hi)
  }

  /** The window has room for one more, but for the uncounted. */
  ghost predicate HasRoom(limit: int, s: Shared, lo: Micros, hi: Micros) {
    Within(s.admitted, lo, hi) < limit + Within(s.uncounted, lo, hi)
  }

  ghost predicate WithinLimit(limit: int, s: Shared, lo: Micros, hi: Micros) {
    Within(s.admitted, lo, hi) <= (if limit < 0 then 0 else limit) + Within(s.uncounted, lo, hi)
  }

  /** A caller that may be let in soundly finds room. */
  ghost predicate FindsRoom(limit: int, s: Shared, lo: Micros, hi: Micros, c: Counted) {
    c.sound && c.count < limit && c.now <= hi ==> HasRoom(limit, s, lo, hi)
  }

  /** Everything that is kept about the window that ends at t. */
  ghost predicate Kept(limit: int, window: Micros, t: Micros, s: Shared) {
    && Ranked(s.members)
    && (s.horizon.None? || s.horizon.value <= t ==> Accounted(s, t - window, t))
    && (forall i | 0 <= i < |s.adding| :: FindsRoom(limit, s, t - window, t, s.adding[i]))
    && WithinLimit(limit, s, t - window, t)
  }

  lemma PruneKeeps(limit: int, window: Micros, t: Micros, s: Shared, now: Micros, next: Shared)
    requires Kept(limit, window, t, s)
    requires next == AfterPrune(window, s, now).(counting := next.counting)
    ensures Kept(limit, window, t, next)
  {
    PruningKeepsRanks(s.members, now - window, |s.members|);
    if next.horizon.value <= t {
      StandingLive(s.members, s.admitted, now - window, t - window, t, |s.members|);
    }
    forall i | 0 <= i < |next.adding| ensures FindsRoom(limit, next, t - window, t, next.adding[i]) {
      assert FindsRoom(limit, s, t - window, t, s.adding[i]);
    }
  }

  lemma CountKeeps(limit: int, window: Micros, t: Micros, s: Shared, i: nat)
    requires Kept(limit, window, t, s) && i < |s.counting|
    ensures Kept(limit, window, t, AfterCount(s, i))
  {
    var next, lo := AfterCount(s, i), t - window;
    StandingAtMost(s.members, s.admitted, lo, t, |s.members|);
    forall j | 0 <= j < |next.adding| ensures FindsRoom(limit, next, lo, t, next.adding[j]) {
      if j < |s.adding| {
        assert FindsRoom(limit, s, lo, t, s.adding[j]);
      }
    }
  }

  /** What an admission does to the counts of a window. */
  lemma AdmissionCounts(s: Shared, t: Shared, now: Micros, uncounted: bool, lo: Micros, hi: Micros)
    requires t.admitted == s.admitted + [now]
    requires t.uncounted == if uncounted then s.uncounted + [now] else s.uncounted
    ensures var one := if lo < now <= hi then 1 else 0;
      && Within(t.admitted, lo, hi) == Within(s.admitted, lo, hi) + one
      && Within(t.uncounted, lo, hi) == Within(s.uncounted, lo, hi) + if uncounted then one else 0
  {
    SumAppend(Inside(lo, hi), s.admitted, now);
    SumAppend(Inside(lo, hi), s.uncounted, now);
  }

  lemma ErrorKeeps(limit: int, window: Micros, t: Micros, s: Shared, next: Shared, now: Micros)
    requires Kept(limit, window, t, s) && next.members == s.members && next.horizon == s.horizon
    requires next.admitted == s.admitted + [now] && next.uncounted == s.uncounted + [now]
    requires |next.adding| == |s.adding|
    requires forall i | 0 <= i < |s.adding| :: next.adding[i] == s.adding[i].(orphan := next.adding[i].orphan)
    ensures Kept(limit, window, t, next)
  {
    AdmissionCounts(s, next, now, true, t - window, t);
    StandingAdmits(s.members, s.admitted, now, t - window, t, |s.members|);
    forall i | 0 <= i < |next.adding| ensures FindsRoom(limit, next, t - window, t, next.adding[i]) {
      assert FindsRoom(limit, s, t - window, t, s.adding[i]);
    }
  }

  lemma UndoKeeps(limit: int, window: Micros, t: Micros, s: Shared, reached: bool)
    requires Kept(limit, window, t, s) && s.undoing > 0
    ensures Kept(limit, window, t, AfterUndo(s, reached))
  {
    var next, lo := AfterUndo(s, reached), t - window;
    if s.members != [] {
      var n := |s.members| - 1;
      assert s.members == s.members[..n] + [s.members[n]];
      SumAppend(Stands(s.admitted, lo, t), s.members[..n], s.members[n]);
      SumAppend(Inside(lo, t), s.uncounted, s.members[n]);
    }
    forall i | 0 <= i < |next.adding| ensures FindsRoom(limit, next, lo, t, next.adding[i]) {
      assert FindsRoom(limit, s, lo, t, s.adding[i]);
    }
  }

  /** An entry is added for a call that is denied, or whose caller is gone. */
  lemma OtherAddKeeps(limit: int, window: Micros, t: Micros, s: Shared, i: nat)
    requires Kept(limit, window, t, s) && i < |s.adding|
    requires s.adding[i].orphan || s.adding[i].count >= limit
    ensures Kept(limit, window, t, AfterAdd(limit, s, i))
  {
    var next := AfterAdd(limit, s, i);
    ZAddKeepsRanks(s.members, s.adding[i].now);
    StandingAdds(s.members, s.admitted, s.adding[i].now, t - window, t);
    forall j | 0 <= j < |next.adding| ensures FindsRoom(limit, next, t - window, t, next.adding[j]) {
      var k := if j < i then j else j + 1;
      assert FindsRoom(limit, s, t - window, t, s.adding[k]);
    }
  }

  /** The entry of an admission stands: a new one, or one that did not stand before. */
  lemma AdmittedStands(s: Shared, now: Micros, lo: Micros, hi: Micros)
    requires Ranked(s.members)
    ensures Standing(ZAdd(s.members, now), s.admitted + [now], lo, hi) >=
            Standing(s.members, s.admitted, lo, hi) + if OwnEntry(s, now) && lo < now <= hi then 1 else 0
  {
    StandingAdmits(s.members, s.admitted, now, lo, hi, |s.members|);
    assert s.members[..|s.members|] == s.members;
    StandingAdds(s.members, s.admitted + [now], now, lo, hi);
  }

  /** A call is let in. */
  lemma AdmissionKeeps(limit: int, window: Micros, t: Micros, s: Shared, i: nat)
    requires Kept(limit, window, t, s) && i < |s.adding|
    requires !s.adding[i].orphan && s.adding[i].count < limit
    ensures Kept(limit, window, t, AfterAdd(limit, s, i))
  {
    var c, next, lo := s.adding[i], AfterAdd(limit, s, i), t - window;
    var soundly := c.sound && OwnEntry(s, c.now);
    ZAddKeepsRanks(s.members, c.now);
    AdmissionCounts(s, next, c.now, !soundly, lo, t);
    AdmittedStands(s, c.now, lo, t);
    assert FindsRoom(limit, s, lo, t, c);
    forall j | 0 <= j < |next.adding| ensures FindsRoom(limit, next, lo, t, next.adding[j]) {
      var k := if j < i then j else j + 1;
      assert FindsRoom(limit, s, lo, t, s.adding[k]);
    }
  }

  lemma NextKeeps(limit: int, window: Micros, t: Micros, s: Shared, step: Step)
    requires Kept(limit, window, t, s) && Enabled(s, step)
    ensures Kept(limit, window, t, Next(limit, window, s, step))
  {
    match step
    case Prune(now) => PruneKeeps(limit, window, t, s, now, Next(limit, window, s, step));
    case PruneLate(now) => PruneKeeps(limit, window, t, s, now, Next(limit, window, s, step));
    case Expire(at) => PruneKeeps(limit, window, t, s, at, Next(limit, window, s, step));
    case Count(i) => CountKeeps(limit, window, t, s, i);
    case Add(i) =>
      if s.adding[i].orphan || s.adding[i].count >= limit {
        OtherAddKeeps(limit, window, t, s, i);
      } else {
        AdmissionKeeps(limit, window, t, s, i);
      }
    case FailUnsent(now) => ErrorKeeps(limit, window, t, s, Next(limit, window, s, step), now);
    case FailCounting(i) => ErrorKeeps(limit, window, t, s, Next(limit, window, s, step), s.counting[i].now);
    case FailAdding(i) => ErrorKeeps(limit, window, t, s, Next(limit, window, s, step), s.adding[i].now);
    case Undo(reached) => UndoKeeps(limit, window, t, s, reached);
  }

  lemma {:induction false} EveryRunKeeps(limit: int, window: Micros, run: Run, t: Micros)
    requires IsRun(limit, window, run)
    ensures Kept(limit, window, t, StateOf(run))
  {
    if run.Then? {
      EveryRunKeeps(limit, window, run.past, t);
      NextKeeps(limit, window, t, StateOf(run.past), run.step);
    }
  }

  /**
   The limit under concurrency.  In every run, whatever the order of commands and clock
   readings and whatever fails, no window holds more admissions than the limit plus those
   of its admissions that
     - an error let in,
     - share the entry of another admission of their microsecond,
     - lost their entry to another call's undo,
     - were let in on a count after which a counted admission was added, or
     - were let in on a count before which a later clock reading had pruned.
   */
  lemma AdmissionsBounded(limit: int, window: Micros, run: Run, t: Micros)
    requires IsRun(limit, window, run)
    ensures Within(StateOf(run).admitted, t - window, t) <=
            (if limit < 0 then 0 else limit) + Within(StateOf(run).uncounted, t - window, t)
  {
    EveryRunKeeps(limit, window, run, t);
  }

  // ---- When the limit holds ------------------------------------------------------------------------

  /** Every clock reading that pruned, and every admission, came before this time. */
  ghost predicate Before(s: Shared, now: Micros) {
    (s.horizon.Some? ==> s.horizon.value < now) && AllBefore(s.admitted, now)
  }

  ghost predicate AllBefore(times: seq<Micros>, now: Micros) {
    forall i | 0 <= i < |times| :: times[i] < now
  }

  ghost predicate ReadsLater(s: Shared, step: Step) {
    match step
    case Prune(now) => Before(s, now)
    case Expire(at) => Before(s, at)
    case FailUnsent(now) => Before(s, now)
    case _ => true
  }

  /** Callers read the clock in the order of their commands, each a later microsecond. */
  ghost predicate ClockAdvances(run: Run) {
    run.Then? ==> ClockAdvances(run.past) && ReadsLater(StateOf(run.past), run.step)
  }

  ghost predicate ReadsNoEarlier(s: Shared, step: Step) {
    match step
    case Prune(now) => s.horizon.Some? ==> s.horizon.value <= now
    case Expire(at) => s.horizon.Some? ==> s.horizon.value <= at
    case _ => true
  }

  /** Clock readings may repeat, and do not run backwards. */
  ghost predicate ClockNeverRunsBack(run: Run) {
    run.Then? ==> ClockNeverRunsBack(run.past) && ReadsNoEarlier(StateOf(run.past), run.step)
  }

  predicate Idle(s: Shared) {
    s.counting == [] && s.adding == [] && s.undoing == 0
  }

  predicate WaitsItsTurn(s: Shared, step: Step) {
    step.Prune? || step.PruneLate? || step.Expire? ==> Idle(s)
  }

  /**
   A caller sends its commands only when no other caller's are under way, nor their undo;
   and the key does not expire in between either.
   */
  ghost predicate OneAtATime(run: Run) {
    run.Then? ==> OneAtATime(run.past) && WaitsItsTurn(StateOf(run.past), run.step)
  }

  predicate LeavesPipelinesWhole(s: Shared, step: Step) {
    step.Prune? || step.PruneLate? || step.Expire? || step.Undo? ==> s.counting == [] && s.adding == []
  }

  /** Nothing comes between the three commands of a pipeline. */
  ghost predicate PipelinesWhole(run: Run) {
    run.Then? ==> PipelinesWhole(run.past) && LeavesPipelinesWhole(StateOf(run.past), run.step)
  }

  ghost predicate NoErrors(run: Run) {
    run.Then? ==> NoErrors(run.past) && Succeeds(run.step)
  }

  /** The caller at work, if any, has the latest clock reading of all. */
  ghost predicate Orderly(s: Shared) {
    && |s.counting| + |s.adding| + s.undoing <= 1
    && (s.horizon.None? ==> s == EMPTY)
    && (s.horizon.Some? ==>
          var now := s.horizon.value;
          && AllBefore(s.members, now + 1) && AllBefore(s.admitted, now + 1)
          && (s.counting != [] ==> s.counting[0] == Pruned(now, false))
          && (s.adding != [] ==> s.adding[0].now == now && !s.adding[0].orphan && s.adding[0].sound)
          && (s.counting != [] || s.adding != [] ==> AllBefore(s.members, now) && AllBefore(s.admitted, now))
          && (s.undoing == 1 ==> s.members != [] && s.members[|s.members| - 1] == now && now !in s.admitted))
    && s.uncounted == []
  }

  lemma {:induction false} LiveAreBefore(times: seq<Micros>, cutoff: Micros, now: Micros, n: nat)
    requires n <= |times| && AllBefore(times, now)
    ensures AllBefore(LiveAmong(times, cutoff, n), now)
  {
    if n > 0 {
      LiveAreBefore(times, cutoff, now, n - 1);
    }
  }

  lemma PruneIsOrderly(window: Micros, s: Shared, now: Micros, next: Shared)
    requires Orderly(s) && Before(s, now) && Idle(s)
    requires next == AfterPrune(window, s, now).(counting := next.counting)
    requires next.counting == [] || next.counting == [Pruned(now, false)]
    ensures Orderly(next)
  {
    LiveAreBefore(s.members, now - window, now, |s.members|);
  }

  lemma CountIsOrderly(s: Shared)
    requires Orderly(s) && s.counting != []
    ensures Orderly(AfterCount(s, 0))
  {
  }

  lemma AddIsOrderly(limit: int, s: Shared)
    requires Orderly(s) && s.adding != []
    ensures Orderly(AfterAdd(limit, s, 0))
  {
    NewestGoesOnTop(s.members, s.adding[0].now);
  }

  lemma UndoIsOrderly(s: Shared)
    requires Orderly(s) && s.undoing > 0
    ensures Orderly(AfterUndo(s, true))
  {
  }

  lemma {:induction false} SerialIsOrderly(limit: int, window: Micros, run: Run)
    requires IsRun(limit, window, run) && ClockAdvances(run) && OneAtATime(run) && NoErrors(run)
    ensures Orderly(StateOf(run))
  {
    if run.Then? {
      SerialIsOrderly(limit, window, run.past);
      var s := StateOf(run.past);
      match run.step
      case Prune(now) => PruneIsOrderly(window, s, now, run.state);
      case Expire(at) => PruneIsOrderly(window, s, at, run.state);
      case Count(_) => CountIsOrderly(s);
      case Add(_) => AddIsOrderly(limit, s);
      case Undo(_) => UndoIsOrderly(s);
    }
  }

  /**
   When the limit does hold: without errors, with clock readings that increase in the order
   of the commands, and with one caller at a time, no window ever holds more admissions
   than the limit.
   */
  lemma LimitHoldsOneAtATime(limit: int, window: Micros, run: Run, t: Micros)
    requires IsRun(limit, window, run) && ClockAdvances(run) && OneAtATime(run) && NoErrors(run)
    ensures Within(StateOf(run).admitted, t - window, t) <= if limit < 0 then 0 else limit
  {
    AdmissionsBounded(limit, window, run, t);
    SerialIsOrderly(limit, window, run);
  }
}
