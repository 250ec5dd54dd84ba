/** What the billing step system guarantees over whole runs. */
module BillingLaws {
  import opened Billing
  import opened Sums
  import opened UsageLogs
  import opened Wrappers

  // ---- No entry twice -------------------------------------------------------------------

  ghost function Copy(d: string): string -> int {
    x => if x == d then 1 else 0
  }

  lemma {:induction false} CopiesInSeq(d: string, xs: seq<string>, n: nat)
    requires n <= |xs|
    ensures SumUpTo(Copy(d), xs, n) == multiset(xs[..n])[d]
  {
    if n > 0 {
      CopiesInSeq(d, xs, n - 1);
      assert xs[..n] == xs[..n - 1] + [xs[n - 1]];
    }
  }

  /**
   At every moment the copies of an entry in the queue, in the table and among the
   dropped ones, taken together, are at most as many as were pushed; so each pushed
   entry reaches the table at most once.
   */
  lemma NoEntryTwice(wire: Wire, run: Run, d: string)
    requires IsRun(wire, run)
    ensures var s := StateOf(run);
      multiset(s.queue)[d] + multiset(s.rowData)[d] + multiset(s.dropped)[d] <= Pushed(wire, Copy(d), s.pushed)
  {
    var s := StateOf(run);
    EveryRunConserves(wire, Copy(d), run);
    SumNotNegative(InHand(Copy(d)), s.flushers, |s.flushers|);
    CopiesInSeq(d, s.queue, |s.queue|);
    CopiesInSeq(d, s.rowData, |s.rowData|);
    CopiesInSeq(d, s.dropped, |s.dropped|);
    assert s.queue[..|s.queue|] == s.queue;
    assert s.rowData[..|s.rowData|] == s.rowData;
    assert s.dropped[..|s.dropped|] == s.dropped;
  }

  // ---- Entries are what RecordUsage wrote -----------------------------------------------

  /** The entry parses, to the record it was made from. */
  ghost predicate Genuine(wire: Wire, d: string) {
    var r := wire.parse(d);
    r.Some? && d == wire.marshal(r.value)
  }

  ghost predicate GenuinePc(wire: Wire, pc: Pc) {
    match pc
    case Holding(_, data) => Genuine(wire, data)
    case Parsed(_, data, log) => Genuine(wire, data) && wire.parse(data) == Some(log)
    case Repushing(data) => Genuine(wire, data)
    case _ => true
  }

  ghost predicate AllGenuine(wire: Wire, s: State) {
    && (forall k | 0 <= k < |s.queue| :: Genuine(wire, s.queue[k]))
    && (forall i | 0 <= i < |s.flushers| :: GenuinePc(wire, s.flushers[i].pc))
    && |s.rows| == |s.rowData|
    && (forall k | 0 <= k < |s.rows| :: wire.parse(s.rowData[k]) == Some(s.rows[k]))
  }

  lemma NextStaysGenuine(wire: Wire, s: State, step: Step)
    requires RoundTrips(wire) && AllGenuine(wire, s) && Enabled(s, step)
    ensures AllGenuine(wire, Next(wire, s, step))
  {
    if step.Push? {
      assert wire.parse(wire.marshal(s.recorders[step.j].record)) == Some(s.recorders[step.j].record);
    }
  }

  // ---- Losses ---------------------------------------------------------------------------

  /** The only two ways to lose an entry: FlushAll cannot insert it, a worker cannot re-push it. */
  predicate Loses(s: State, step: Step) {
    match step
    case Insert(i, ok) => !ok && At(s, i) && s.flushers[i].kind == Drain
    case Repush(i, ok) => !ok
    case _ => false
  }

  ghost function Losses(run: Run): nat {
    if run.Begin? then 0 else Losses(run.past) + if Loses(StateOf(run.past), run.step) then 1 else 0
  }

  /**
   Over every run: rows are the parsed entries, no entry is ever skipped as unparsable,
   and the number of dropped entries is exactly the number of losing steps.
   */
  lemma {:induction false} EveryRunAccountsForLosses(wire: Wire, run: Run)
    requires RoundTrips(wire) && IsRun(wire, run)
    ensures AllGenuine(wire, StateOf(run))
    ensures |StateOf(run).dropped| == Losses(run)
  {
    if run.Then? {
      EveryRunAccountsForLosses(wire, run.past);
      NextStaysGenuine(wire, StateOf(run.past), run.step);
      DropIsALoss(wire, StateOf(run.past), run.step);
    }
  }

  lemma DropIsALoss(wire: Wire, s: State, step: Step)
    requires AllGenuine(wire, s) && Enabled(s, step)
    ensures |Next(wire, s, step).dropped| == |s.dropped| + if Loses(s, step) then 1 else 0
  {
    if step.Parse? {
      assert GenuinePc(wire, s.flushers[step.i].pc);
    }
  }

  // ---- Money ----------------------------------------------------------------------------

  /** An entry's cost to one user. */
  ghost function CostTo(wire: Wire, user: int): string -> int {
    d => match wire.parse(d)
         case Some(r) => CostOf(r, user)
         case None => 0
  }

  function CostOf(r: UsageRecord, user: int): int {
    if r.userID == user then r.cost else 0
  }

  function CostFor(user: int): UsageRecord -> int {
    r => CostOf(r, user)
  }

  /** What these records cost the user. */
  ghost function Bill(records: seq<UsageRecord>, user: int): int {
    Sum(CostFor(user), records)
  }

  /** What a recorder has added to the user's counter without having pushed its entry yet. */
  ghost function AheadBy(rec: Recorder, user: int): int {
    if rec.Pushing? && rec.charged then CostOf(rec.record, user) else 0
  }

  ghost function AheadFor(user: int): Recorder -> int {
    rec => AheadBy(rec, user)
  }

  ghost function Ahead(s: State, user: int): int {
    Sum(AheadFor(user), s.recorders)
  }

  /** The counter is the bill of all pushed records, up to pipelines that half failed or are half done. */
  ghost predicate CounterExact(s: State, user: int) {
    UsedBy(s.used, user) ==
      Bill(s.pushed, user) + Ahead(s, user) + Bill(s.unlogged, user) - Bill(s.uncharged, user)
  }

  lemma ChargeKeepsCounter(wire: Wire, s: State, j: nat, ok: bool, user: int)
    requires CounterExact(s, user) && Enabled(s, Charge(j, ok))
    ensures CounterExact(Next(wire, s, Charge(j, ok)), user)
  {
    var t := Next(wire, s, Charge(j, ok));
    SumUpdate(AheadFor(user), s.recorders, j, t.recorders[j]);
  }

  lemma PushKeepsCounter(wire: Wire, s: State, j: nat, ok: bool, user: int)
    requires CounterExact(s, user) && Enabled(s, Push(j, ok))
    ensures CounterExact(Next(wire, s, Push(j, ok)), user)
  {
    var r := s.recorders[j].record;
    SumUpdate(AheadFor(user), s.recorders, j, Finished);
    SumAppend(CostFor(user), s.pushed, r);
    SumAppend(CostFor(user), s.unlogged, r);
    SumAppend(CostFor(user), s.uncharged, r);
  }

  /** Flushers never touch the counters or what was recorded. */
  lemma FlushersKeepRecords(wire: Wire, s: State, step: Step)
    requires Enabled(s, step) && !step.Record? && !step.Charge? && !step.Push?
    ensures var t := Next(wire, s, step);
      && t.used == s.used && t.recorders == s.recorders && t.pushed == s.pushed
      && t.unlogged == s.unlogged && t.uncharged == s.uncharged
  {
  }

  lemma FlushersKeepCounter(wire: Wire, s: State, step: Step, user: int)
    requires CounterExact(s, user) && Enabled(s, step)
    requires !step.Record? && !step.Charge? && !step.Push?
    ensures CounterExact(Next(wire, s, step), user)
  {
    FlushersKeepRecords(wire, s, step);
  }

  lemma NextKeepsCounter(wire: Wire, s: State, step: Step, user: int)
    requires CounterExact(s, user) && Enabled(s, step)
    ensures CounterExact(Next(wire, s, step), user)
  {
    match step
    case Record(r) => SumAppend(AheadFor(user), s.recorders, Charging(r));
    case Charge(j, ok) => ChargeKeepsCounter(wire, s, j, ok, user);
    case Push(j, ok) => PushKeepsCounter(wire, s, j, ok, user);
    case _ => FlushersKeepCounter(wire, s, step, user);
  }

  lemma {:induction false} EveryRunKeepsCounter(wire: Wire, run: Run, user: int)
    requires IsRun(wire, run)
    ensures CounterExact(StateOf(run), user)
  {
    if run.Then? {
      EveryRunKeepsCounter(wire, run.past, user);
      NextKeepsCounter(wire, StateOf(run.past), run.step, user);
    }
  }

  lemma EntryCostsItsRecord(wire: Wire, r: UsageRecord, user: int)
    requires RoundTrips(wire)
    ensures CostTo(wire, user)(wire.marshal(r)) == CostOf(r, user)
  {
    assert wire.parse(wire.marshal(r)) == Some(r);
  }

  ghost predicate Prices(wire: Wire, w: string -> int, r: UsageRecord, user: int) {
    w(wire.marshal(r)) == CostOf(r, user)
  }

  lemma {:induction false} PricedIsBill(
      wire: Wire, w: string -> int, records: seq<UsageRecord>, user: int, n: nat)
    requires n <= |records|
    requires forall k | 0 <= k < n :: Prices(wire, w, records[k], user)
    ensures SumUpTo(AsEntry(wire, w), records, n) == SumUpTo(CostFor(user), records, n)
  {
    if n > 0 {
      PricedIsBill(wire, w, records, user, n - 1);
      assert Prices(wire, w, records[n - 1], user);
    }
  }

  /** Weighed by its cost, what was pushed weighs what the records cost. */
  lemma PushedIsBill(wire: Wire, records: seq<UsageRecord>, user: int)
    requires RoundTrips(wire)
    ensures Pushed(wire, CostTo(wire, user), records) == Bill(records, user)
  {
    var w := CostTo(wire, user);
    forall k | 0 <= k < |records| ensures Prices(wire, w, records[k], user) {
      EntryCostsItsRecord(wire, records[k], user);
    }
    PricedIsBill(wire, w, records, user, |records|);
  }

  lemma {:induction false} RowsAreBill(wire: Wire, s: State, user: int, n: nat)
    requires AllGenuine(wire, s) && n <= |s.rows|
    ensures SumUpTo(CostTo(wire, user), s.rowData, n) == SumUpTo(CostFor(user), s.rows, n)
  {
    if n > 0 {
      RowsAreBill(wire, s, user, n - 1);
    }
  }

  /**
   The money law.  In every reachable state a user's counter is the sum of the user's
   costs over the table, the queue, the entries in flushers' hands and the dropped ones,
   plus what half-done pipelines are ahead by, corrected by the pipelines of which one
   command failed.
   */
  lemma MoneyLaw(wire: Wire, run: Run, user: int)
    requires RoundTrips(wire) && IsRun(wire, run)
    ensures var s := StateOf(run);
      UsedBy(s.used, user) ==
        Bill(s.rows, user) + Sum(CostTo(wire, user), s.queue) + Held(CostTo(wire, user), s)
        + Sum(CostTo(wire, user), s.dropped)
        + Ahead(s, user) + Bill(s.unlogged, user) - Bill(s.uncharged, user)
  {
    var s := StateOf(run);
    EveryRunConserves(wire, CostTo(wire, user), run);
    EveryRunKeepsCounter(wire, run, user);
    EveryRunAccountsForLosses(wire, run);
    PushedIsBill(wire, s.pushed, user);
    RowsAreBill(wire, s, user, |s.rows|);
  }

  /** No RecordUsage command has failed. */
  ghost predicate RecordingErrorFree(run: Run) {
    run.Then? ==>
      && RecordingErrorFree(run.past)
      && (run.step.Charge? || run.step.Push? ==> run.step.ok)
  }

  ghost predicate ChargedBeforePush(s: State) {
    && s.unlogged == [] && s.uncharged == []
    && forall j | 0 <= j < |s.recorders| :: s.recorders[j].Pushing? ==> s.recorders[j].charged
  }

  lemma ErrorFreeStep(wire: Wire, s: State, step: Step)
    requires ChargedBeforePush(s) && Enabled(s, step)
    requires step.Charge? || step.Push? ==> step.ok
    ensures ChargedBeforePush(Next(wire, s, step))
  {
    if !step.Record? && !step.Charge? && !step.Push? {
      FlushersKeepRecords(wire, s, step);
    }
  }

  lemma {:induction false} ErrorFreeMeansExact(wire: Wire, run: Run)
    requires IsRun(wire, run) && RecordingErrorFree(run)
    ensures ChargedBeforePush(StateOf(run))
  {
    if run.Then? {
      ErrorFreeMeansExact(wire, run.past);
      ErrorFreeStep(wire, StateOf(run.past), run.step);
    }
  }

  /** Nobody is in the middle of anything and the queue is empty. */
  predicate Settled(s: State) {
    && s.queue == []
    && (forall i | 0 <= i < |s.flushers| :: s.flushers[i].pc.Idle? || s.flushers[i].pc.Stopped?)
    && (forall j | 0 <= j < |s.recorders| :: s.recorders[j].Finished? || s.recorders[j].Charging?)
  }

  /** A settled run without failed recordings and without losses: the counter is the durable sum. */
  lemma SettledCounterIsDurable(wire: Wire, run: Run, user: int)
    requires RoundTrips(wire) && IsRun(wire, run)
    requires RecordingErrorFree(run) && Losses(run) == 0 && Settled(StateOf(run))
    ensures UsedBy(StateOf(run).used, user) == Bill(StateOf(run).rows, user)
  {
    var s := StateOf(run);
    MoneyLaw(wire, run, user);
    EveryRunAccountsForLosses(wire, run);
    ErrorFreeMeansExact(wire, run);
    SumIsZero(InHand(CostTo(wire, user)), s.flushers, |s.flushers|);
    SumIsZero(AheadFor(user), s.recorders, |s.recorders|);
  }

  // ---- Loops ----------------------------------------------------------------------------

  /** A worker's loop has no more than 100 turns. */
  predicate InBatch(f: Flusher) {
    f.kind == Worker ==>
      match f.pc
      case Popping(turn) => turn <= 100
      case Holding(turn, _) => turn < 100
      case Parsed(turn, _, _) => turn < 100
      case _ => true
  }

  ghost predicate AllInBatch(s: State) {
    forall i | 0 <= i < |s.flushers| :: InBatch(s.flushers[i])
  }

  lemma NextInBatch(wire: Wire, s: State, step: Step)
    requires AllInBatch(s) && Enabled(s, step)
    ensures AllInBatch(Next(wire, s, step))
  {
    if step.Pop? || step.Parse? || step.Insert? || step.Repush? || step.Tick? || step.Cancel? {
      assert InBatch(s.flushers[step.i]);
    }
  }

  /** In no run does a worker pop more than 100 entries in one batch. */
  lemma {:induction false} EveryRunInBatch(wire: Wire, run: Run)
    requires IsRun(wire, run)
    ensures AllInBatch(StateOf(run))
  {
    if run.Then? {
      EveryRunInBatch(wire, run.past);
      NextInBatch(wire, StateOf(run.past), run.step);
    }
  }

  /**
   A loop that finds nothing, or fails to pop, breaks, and so does a full batch and an entry
   that could not be inserted.  A worker then waits for its next tick; a drain is over.
   */
  lemma BreakMeaning(wire: Wire, s: State, step: Step, i: nat)
    requires Enabled(s, step) && At(s, i)
    requires step == Pop(i, false) || (step == Pop(i, true) && s.queue == []) || (step.Repush? && step.i == i)
             || (step == Insert(i, false) && s.flushers[i].kind == Drain)
    ensures if s.flushers[i].kind == Worker || step.Repush? then Next(wire, s, step).flushers[i].pc == Idle
            else Next(wire, s, step).flushers[i].pc == Stopped
  {
  }

  lemma FullBatchEnds(wire: Wire, s: State, i: nat, ok: bool)
    requires Enabled(s, Pop(i, ok)) && s.flushers[i].kind == Worker && s.flushers[i].pc == Popping(100)
    ensures Next(wire, s, Pop(i, ok)).flushers[i].pc == Idle && Next(wire, s, Pop(i, ok)).queue == s.queue
  {
  }

  /** What is over stays over, and what waits goes on only with a tick. */
  lemma OnlyTicksResume(wire: Wire, s: State, step: Step, i: nat)
    requires Enabled(s, step) && At(s, i)
    ensures s.flushers[i].pc == Stopped ==> Next(wire, s, step).flushers[i].pc == Stopped
    ensures s.flushers[i].pc == Idle ==>
      Next(wire, s, step).flushers[i].pc == if step == Tick(i) then Popping(0) else Idle
    ensures s.flushers[i].kind == Worker && s.flushers[i].pc == Idle ==> Enabled(s, Tick(i))
  {
  }

  // ---- Cancellation ---------------------------------------------------------------------

  /** The worker was cancelled while it had this entry in hand. */
  ghost predicate Stranded(s: State, i: nat, d: string) {
    && At(s, i) && s.flushers[i].kind == Worker && s.flushers[i].cancelled
    && match s.flushers[i].pc
       case Holding(_, data) => data == d
       case Parsed(_, data, _) => data == d
       case Repushing(data) => data == d
       case _ => false
  }

  /**
   A worker cancelled between its pop and its insert loses the entry: whatever happens
   next, it still has it in hand or the entry has been dropped.  The insert fails, and
   so does the re-push, which runs under the same context.
   */
  lemma StrandedEntryIsLost(wire: Wire, s: State, step: Step, i: nat, d: string)
    requires Stranded(s, i, d) && Genuine(wire, d) && Enabled(s, step)
    ensures Stranded(Next(wire, s, step), i, d) ||
            (step == Repush(i, false) && Next(wire, s, step).dropped == s.dropped + [d])
  {
  }

  /** A run that continues another one. */
  ghost predicate Continues(run: Run, earlier: Run) {
    run == earlier || (run.Then? && Continues(run.past, earlier))
  }

  lemma {:induction false} StrandedForGood(wire: Wire, earlier: Run, run: Run, i: nat, d: string)
    requires RoundTrips(wire) && IsRun(wire, run) && Continues(run, earlier)
    requires Stranded(StateOf(earlier), i, d)
    ensures Stranded(StateOf(run), i, d) || d in StateOf(run).dropped
  {
    if run != earlier {
      StrandedForGood(wire, earlier, run.past, i, d);
      var s := StateOf(run.past);
      if Stranded(s, i, d) {
        EveryRunAccountsForLosses(wire, run.past);
        assert GenuinePc(wire, s.flushers[i].pc);
        StrandedEntryIsLost(wire, s, run.step, i, d);
      } else {
        DroppedStaysDropped(wire, s, run.step, d);
      }
    }
  }

  lemma DroppedStaysDropped(wire: Wire, s: State, step: Step, d: string)
    requires d in s.dropped && Enabled(s, step)
    ensures d in Next(wire, s, step).dropped
  {
  }

  ghost function Extended(wire: Wire, run: Run, step: Step): Run
    requires Enabled(StateOf(run), step)
  {
    Run.Then(run, step, Next(wire, StateOf(run), step))
  }

  /** A record is charged and pushed, and nobody works on it yet. */
  lemma RecordedOnce(wire: Wire, r: UsageRecord) returns (run: Run)
    ensures IsRun(wire, run) && RecordingErrorFree(run)
    ensures var s := StateOf(run);
      && s.queue == [wire.marshal(r)] && s.rows == [] && s.dropped == [] && s.flushers == []
      && s.recorders == [Finished] && s.used == map[r.userID := r.cost]
  {
    var one := Extended(wire, Begin, Record(r));
    assert IsRun(wire, one) && RecordingErrorFree(one);
    var two := Extended(wire, one, Charge(0, true));
    assert IsRun(wire, two) && RecordingErrorFree(two);
    run := Extended(wire, two, Push(0, true));
  }

  /** A worker pops the entry and is cancelled. */
  lemma CancelledAfterPop(wire: Wire, r: UsageRecord) returns (run: Run)
    ensures IsRun(wire, run) && RecordingErrorFree(run)
    ensures var s := StateOf(run);
      && s.queue == [] && s.rows == [] && s.dropped == [] && s.used == map[r.userID := r.cost]
      && s.flushers == [Flusher(Worker, Holding(0, wire.marshal(r)), true)]
  {
    var recorded := RecordedOnce(wire, r);
    var spawned := Extended(wire, recorded, Spawn(Worker));
    assert IsRun(wire, spawned) && RecordingErrorFree(spawned);
    var ticked := Extended(wire, spawned, Tick(0));
    assert IsRun(wire, ticked) && RecordingErrorFree(ticked);
    var popped := Extended(wire, ticked, Pop(0, true));
    assert IsRun(wire, popped) && RecordingErrorFree(popped);
    run := Extended(wire, popped, Cancel(0));
  }

  /**
   It happens: for every record some run strands its entry, and some run that goes on
   from there ends with the record charged and its entry in no store at all.  No recording fails in it.
   */
  lemma ChargedAndLost(wire: Wire, r: UsageRecord) returns (stranded: Run, lost: Run)
    requires RoundTrips(wire)
    ensures IsRun(wire, stranded) && Stranded(StateOf(stranded), 0, wire.marshal(r))
    ensures IsRun(wire, lost) && Continues(lost, stranded) && RecordingErrorFree(lost)
    ensures var s := StateOf(lost);
      && s.dropped == [wire.marshal(r)] && s.queue == [] && s.rows == []
      && s.flushers == [Flusher(Worker, Idle, true)] && s.used == map[r.userID := r.cost]
  {
    stranded := CancelledAfterPop(wire, r);
    assert wire.parse(wire.marshal(r)) == Some(r);
    var parsed := Extended(wire, stranded, Parse(0));
    assert IsRun(wire, parsed) && RecordingErrorFree(parsed) && Continues(parsed, stranded);
    var failed := Extended(wire, parsed, Insert(0, false));
    assert IsRun(wire, failed) && RecordingErrorFree(failed) && Continues(failed, stranded);
    lost := Extended(wire, failed, Repush(0, false));
    assert Continues(lost, stranded);
  }

  // ---- The counter reads as what was recorded ------------------------------------------------

  lemma {:induction false} FinishedAreNotAhead(s: State, user: int, n: nat)
    requires n <= |s.recorders| && forall j | 0 <= j < |s.recorders| :: s.recorders[j].Finished?
    ensures SumUpTo(AheadFor(user), s.recorders, n) == 0
  {
    if n > 0 {
      FinishedAreNotAhead(s, user, n - 1);
    }
  }

  /** With no recording failed or under way, the counter is the bill of all records. */
  lemma CounterIsBill(wire: Wire, run: Run, user: int)
    requires IsRun(wire, run) && RecordingErrorFree(run)
    requires forall j | 0 <= j < |StateOf(run).recorders| :: StateOf(run).recorders[j].Finished?
    ensures UsedBy(StateOf(run).used, user) == Bill(StateOf(run).pushed, user)
  {
    EveryRunKeepsCounter(wire, run, user);
    ErrorFreeMeansExact(wire, run);
    FinishedAreNotAhead(StateOf(run), user, |StateOf(run).recorders|);
  }
}
