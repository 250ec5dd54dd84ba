/**
 The billing store's own code (infra/billing/store.go), run by itself.

 Each Redis or database command is one assignment to a field; whether it succeeds is an
 argument, so every outcome is covered.  A ghost run ties every command to a step of the pipeline's step system, so
 what BillingLaws proves of all runs holds of these methods' states.
 */
module BillingStore {
  import opened Billing
  import opened BillingLaws
  import opened Sums
  import opened UsageLogs
  import opened Wrappers

  // ---- What the loops do to the queue -----------------------------------------------------

  /** The row an entry makes: its parse, or none when it does not parse. */
  function RowOf(wire: Wire, entry: string): seq<UsageRecord> {
    match wire.parse(entry)
    case Some(log) => [log]
    case None => []
  }

  /** The rows that the first n entries make, in order. */
  function RowsUpTo(wire: Wire, entries: seq<string>, n: nat): seq<UsageRecord>
    requires n <= |entries|
  {
    if n == 0 then [] else RowsUpTo(wire, entries, n - 1) + RowOf(wire, entries[n - 1])
  }

  ghost predicate Writes(wire: Wire, r: UsageRecord, entry: string) {
    entry == wire.marshal(r)
  }

  lemma WrittenRow(wire: Wire, r: UsageRecord, entry: string)
    requires RoundTrips(wire) && Writes(wire, r, entry)
    ensures RowOf(wire, entry) == [r]
  {
    assert wire.parse(wire.marshal(r)) == Some(r);
  }

  /** Entries that RecordUsage wrote become exactly its records, first in, first out. */
  lemma {:induction false} WrittenRowsAreRecords(wire: Wire, entries: seq<string>, records: seq<UsageRecord>, n: nat)
    requires RoundTrips(wire) && n <= |entries| == |records|
    requires forall k | 0 <= k < |entries| :: Writes(wire, records[k], entries[k])
    ensures RowsUpTo(wire, entries, n) == records[..n]
  {
    if n > 0 {
      WrittenRowsAreRecords(wire, entries, records, n - 1);
      WrittenRow(wire, records[n - 1], entries[n - 1]);
      assert records[..n] == records[..n - 1] + [records[n - 1]];
    }
  }

  /** How a drain or a worker's batch ended. */
  datatype Ending =
    | Drained        // the queue was empty
    | BatchFull      // the worker had its 100 turns
    | PopFailed
    | Lost           // the entry in hand was not inserted and is in no store
    | Requeued       // the entry in hand was not inserted and went to the tail

  /** How one turn of the loop ended. */
  datatype Turn = NothingPopped(ok: bool) | Done | InsertFailed(data: string)

  /** The first n entries of the queue have become rows, in order. */
  ghost predicate Moving(wire: Wire, queue0: seq<string>, rows0: seq<UsageRecord>,
                         n: nat, queue: seq<string>, rows: seq<UsageRecord>)
  {
    n <= |queue0| && queue == queue0[n..] && rows == rows0 + RowsUpTo(wire, queue0, n)
  }

  lemma MovingOn(wire: Wire, queue0: seq<string>, rows0: seq<UsageRecord>,
                 n: nat, queue: seq<string>, rows: seq<UsageRecord>)
    requires Moving(wire, queue0, rows0, n, queue, rows) && queue != []
    ensures Moving(wire, queue0, rows0, n + 1, queue[1..], rows + RowOf(wire, queue[0]))
    ensures queue[0] == queue0[n]
  {
    assert rows0 + RowsUpTo(wire, queue0, n) + RowOf(wire, queue[0]) ==
           rows0 + (RowsUpTo(wire, queue0, n) + RowOf(wire, queue[0]));
  }

  /**
   What a loop has done when it ends: the first `moved` entries left the head of the
   queue and became rows in order, all but one whose insert failed; that one is nowhere,
   or at the tail.
   */
  ghost predicate Moved(wire: Wire, queue0: seq<string>, rows0: seq<UsageRecord>,
                        moved: nat, ending: Ending, queue: seq<string>, rows: seq<UsageRecord>)
  {
    && moved <= |queue0|
    && (ending == Drained ==> moved == |queue0|)
    && (ending == Lost || ending == Requeued ==> moved > 0 && RowOf(wire, queue0[moved - 1]) != [])
    && queue == queue0[moved..] + (if ending == Requeued then [queue0[moved - 1]] else [])
    && rows == rows0 + RowsUpTo(wire, queue0, if ending == Lost || ending == Requeued then moved - 1 else moved)
  }

  lemma MovedToLoss(wire: Wire, queue0: seq<string>, rows0: seq<UsageRecord>,
                    n: nat, data: string, queue: seq<string>, rows: seq<UsageRecord>, pushed: bool)
    requires Moving(wire, queue0, rows0, n, [data] + queue, rows) && RowOf(wire, data) != []
    ensures Moved(wire, queue0, rows0, n + 1, if pushed then Requeued else Lost,
                  if pushed then queue + [data] else queue, rows)
  {
    assert queue0[n] == ([data] + queue)[0];
    assert queue0[n + 1..] == ([data] + queue)[1..];
  }

  lemma MovedToEnd(wire: Wire, queue0: seq<string>, rows0: seq<UsageRecord>,
                   n: nat, queue: seq<string>, rows: seq<UsageRecord>, ending: Ending)
    requires Moving(wire, queue0, rows0, n, queue, rows)
    requires ending == PopFailed || ending == BatchFull || (ending == Drained && queue == [])
    ensures Moved(wire, queue0, rows0, n, ending, queue, rows)
  {
  }

  // ---- What the outcomes decide -------------------------------------------------------------

  predicate Parses(wire: Wire, entry: string) {
    wire.parse(entry).Some?
  }

  /** In turn k the entry was popped, and inserted unless it does not parse. */
  predicate GoesWell(wire: Wire, entry: string, pops: nat -> bool, inserts: nat -> bool, k: nat) {
    pops(k) && (Parses(wire, entry) ==> inserts(k))
  }

  ghost predicate AllWell(wire: Wire, queue0: seq<string>, pops: nat -> bool, inserts: nat -> bool, n: nat) {
    n <= |queue0| && forall k | 0 <= k < n :: GoesWell(wire, queue0[k], pops, inserts, k)
  }

  /**
   The outcomes of the commands say how far a loop gets and why it ends: `pops` and
   `inserts` are those of its turns, and `pushed` is that of the worker's re-push.
   */
  ghost predicate EndsAt(kind: Kind, wire: Wire, queue0: seq<string>, pops: nat -> bool, inserts: nat -> bool,
                         pushed: bool, moved: nat, ending: Ending)
  {
    match ending
    case Drained =>
      AllWell(wire, queue0, pops, inserts, moved) && moved == |queue0| && pops(moved) && HasTurn(kind, moved)
    case PopFailed => AllWell(wire, queue0, pops, inserts, moved) && !pops(moved) && HasTurn(kind, moved)
    case BatchFull => AllWell(wire, queue0, pops, inserts, moved) && !HasTurn(kind, moved) && moved == BATCH
    case Lost => EndsWithInsert(kind, wire, queue0, pops, inserts, moved) && (kind == Worker ==> !pushed)
    case Requeued => EndsWithInsert(kind, wire, queue0, pops, inserts, moved) && kind == Worker && pushed
  }

  predicate HasTurn(kind: Kind, turn: nat) {
    kind == Worker ==> turn < BATCH
  }

  ghost predicate EndsWithInsert(
      kind: Kind, wire: Wire, queue0: seq<string>, pops: nat -> bool, inserts: nat -> bool, moved: nat)
  {
    && 0 < moved <= |queue0| && HasTurn(kind, moved - 1)
    && AllWell(wire, queue0, pops, inserts, moved - 1)
    && pops(moved - 1) && Parses(wire, queue0[moved - 1]) && !inserts(moved - 1)
  }

  /** They leave no choice: the first command that fails, or else the end of the queue or the batch, decides. */
  lemma OutcomesDecide(kind: Kind, wire: Wire, queue0: seq<string>, pops: nat -> bool, inserts: nat -> bool,
                       pushed: bool, m: nat, e: Ending, m': nat, e': Ending)
    requires EndsAt(kind, wire, queue0, pops, inserts, pushed, m, e)
    requires EndsAt(kind, wire, queue0, pops, inserts, pushed, m', e')
    ensures m == m' && e == e'
  {
    NoEarlierEnd(kind, wire, queue0, pops, inserts, pushed, m, e, m', e');
    NoEarlierEnd(kind, wire, queue0, pops, inserts, pushed, m', e', m, e);
  }

  lemma WellBefore(
      wire: Wire, queue0: seq<string>, pops: nat -> bool, inserts: nat -> bool, n: nat, k: nat)
    requires AllWell(wire, queue0, pops, inserts, n)
    ensures k < n ==> GoesWell(wire, queue0[k], pops, inserts, k)
  {
  }

  /** The turn in which a loop ends does not go well, so no loop goes past it. */
  lemma NoEarlierEnd(kind: Kind, wire: Wire, queue0: seq<string>, pops: nat -> bool, inserts: nat -> bool,
                     pushed: bool, m: nat, e: Ending, m': nat, e': Ending)
    requires EndsAt(kind, wire, queue0, pops, inserts, pushed, m, e)
    requires EndsAt(kind, wire, queue0, pops, inserts, pushed, m', e')
    ensures m <= m'
  {
    var done := if e.Lost? || e.Requeued? then m - 1 else m;
    WellBefore(wire, queue0, pops, inserts, done, if e'.Lost? || e'.Requeued? then m' - 1 else m');
  }

  /** How a loop has left off after `moved` turns that went well. */
  ghost predicate LeftOff(
      wire: Wire, queue0: seq<string>, rows0: seq<UsageRecord>, pops: nat -> bool, inserts: nat -> bool,
      moved: nat, last: Turn, queue: seq<string>, rows: seq<UsageRecord>)
  {
    && AllWell(wire, queue0, pops, inserts, moved)
    && match last
       case NothingPopped(ok) =>
         ok == pops(moved) && (ok ==> queue == []) && Moving(wire, queue0, rows0, moved, queue, rows)
       case Done => Moving(wire, queue0, rows0, moved, queue, rows)
       case InsertFailed(data) =>
         && pops(moved) && Parses(wire, data) && !inserts(moved)
         && Moving(wire, queue0, rows0, moved, [data] + queue, rows)
  }

  lemma LeftOffInOrder(
      kind: Kind, wire: Wire, queue0: seq<string>, rows0: seq<UsageRecord>, pops: nat -> bool, inserts: nat -> bool,
      pushed: bool, moved: nat, last: Turn, queue: seq<string>, rows: seq<UsageRecord>)
    requires LeftOff(wire, queue0, rows0, pops, inserts, moved, last, queue, rows) && !last.InsertFailed?
    requires if last.Done? then kind == Worker && moved == BATCH else HasTurn(kind, moved)
    ensures var ending := if last.Done? then BatchFull else if last.ok then Drained else PopFailed;
      && EndsAt(kind, wire, queue0, pops, inserts, pushed, moved, ending)
      && Moved(wire, queue0, rows0, moved, ending, queue, rows)
  {
    MovedToEnd(wire, queue0, rows0, moved, queue, rows,
               if last.Done? then BatchFull else if last.ok then Drained else PopFailed);
  }

  lemma LeftOffHolding(
      kind: Kind, wire: Wire, queue0: seq<string>, rows0: seq<UsageRecord>, pops: nat -> bool, inserts: nat -> bool,
      pushed: bool, moved: nat, last: Turn, queue: seq<string>, rows: seq<UsageRecord>)
    requires LeftOff(wire, queue0, rows0, pops, inserts, moved, last, queue, rows) && last.InsertFailed?
    requires HasTurn(kind, moved) && (kind == Drain ==> !pushed)
    ensures var ending := if pushed then Requeued else Lost;
      && EndsAt(kind, wire, queue0, pops, inserts, pushed, moved + 1, ending)
      && Moved(wire, queue0, rows0, moved + 1, ending, if pushed then queue + [last.data] else queue, rows)
  {
    assert queue0[moved] == ([last.data] + queue)[0];
    MovedToLoss(wire, queue0, rows0, moved, last.data, queue, rows, pushed);
  }

  ghost predicate NoneFails(outcomes: nat -> bool) {
    forall k :: outcomes(k)
  }

  /** Without a failure the loop goes to the end of the queue, or of the batch. */
  lemma NoFailureNoLoss(kind: Kind, wire: Wire, queue0: seq<string>, pops: nat -> bool, inserts: nat -> bool,
                        pushed: bool, moved: nat, ending: Ending)
    requires EndsAt(kind, wire, queue0, pops, inserts, pushed, moved, ending)
    requires NoneFails(pops) && NoneFails(inserts)
    ensures ending == if kind == Worker && |queue0| >= BATCH then BatchFull else Drained
    ensures moved == if kind == Worker && |queue0| >= BATCH then BATCH else |queue0|
  {
  }

  // ---- Steps of the run ---------------------------------------------------------------------

  ghost function Advance(wire: Wire, run: Run, step: Step): Run
    requires Enabled(StateOf(run), step)
  {
    Run.Then(run, step, Next(wire, StateOf(run), step))
  }

  /** No recording has failed so far, and no entry has been lost. */
  ghost predicate Clean(run: Run) {
    RecordingErrorFree(run) && Losses(run) == 0
  }

  predicate Resting(pc: Pc) {
    pc.Idle? || pc.Stopped?
  }

  /** Nobody is in the middle of anything. */
  ghost predicate Quiet(s: State) {
    && (forall k | 0 <= k < |s.flushers| :: Resting(s.flushers[k].pc))
    && (forall j | 0 <= j < |s.recorders| :: s.recorders[j].Finished?)
  }

  /** Flusher i is alone at work. */
  ghost predicate Alone(s: State, i: nat, kind: Kind) {
    && At(s, i) && s.flushers[i].kind == kind && !s.flushers[i].cancelled
    && (forall k | 0 <= k < |s.flushers| && k != i :: Resting(s.flushers[k].pc))
    && (forall j | 0 <= j < |s.recorders| :: s.recorders[j].Finished?)
  }

  predicate MovesFlusher(step: Step, i: nat) {
    match step
    case Tick(k) => k == i
    case Pop(k, _) => k == i
    case Parse(k) => k == i
    case Insert(k, _) => k == i
    case Repush(k, _) => k == i
    case _ => false
  }

  /** A flusher's own move leaves the others, the counters and the recorders as they were. */
  lemma MoveStaysAlone(wire: Wire, s: State, step: Step, i: nat, kind: Kind)
    requires Alone(s, i, kind) && Enabled(s, step) && MovesFlusher(step, i)
    ensures Alone(Next(wire, s, step), i, kind) && Next(wire, s, step).used == s.used
  {
  }

  lemma SpawnIsAlone(wire: Wire, s: State, kind: Kind)
    requires Quiet(s)
    ensures Alone(Next(wire, s, Spawn(kind)), |s.flushers|, kind)
  {
  }

  lemma AloneAtRestIsQuiet(s: State, i: nat, kind: Kind)
    requires Alone(s, i, kind) && Resting(s.flushers[i].pc)
    ensures Quiet(s)
  {
  }

  ghost function Recorded(wire: Wire, run: Run, r: UsageRecord, charged: bool, queued: bool): Run {
    var j := |StateOf(run).recorders|;
    Advance(wire, Advance(wire, Advance(wire, run, Record(r)), Charge(j, charged)), Push(j, queued))
  }

  /** What the three steps of one RecordUsage call do. */
  lemma RecordedState(wire: Wire, run: Run, r: UsageRecord, charged: bool, queued: bool)
    requires Quiet(StateOf(run))
    ensures var s, t := StateOf(run), StateOf(Recorded(wire, run, r, charged, queued));
      && Quiet(t) && t.rows == s.rows
      && t.used == (if charged then s.used[r.userID := UsedBy(s.used, r.userID) + r.cost] else s.used)
      && t.queue == (if queued then s.queue + [wire.marshal(r)] else s.queue)
  {
  }

  lemma AdvanceIsRun(wire: Wire, run: Run, step: Step)
    requires IsRun(wire, run) && Enabled(StateOf(run), step)
    ensures IsRun(wire, Advance(wire, run, step))
  {
  }

  /** They extend the run, and without an error it stays clean. */
  lemma RecordedRun(wire: Wire, run: Run, r: UsageRecord, charged: bool, queued: bool)
    requires IsRun(wire, run)
    ensures IsRun(wire, Recorded(wire, run, r, charged, queued))
    ensures Clean(run) && charged && queued ==> Clean(Recorded(wire, run, r, charged, queued))
  {
    var j := |StateOf(run).recorders|;
    var first := Advance(wire, run, Record(r));
    var second := Advance(wire, first, Charge(j, charged));
    AdvanceIsRun(wire, run, Record(r));
    AdvanceIsRun(wire, first, Charge(j, charged));
    AdvanceIsRun(wire, second, Push(j, queued));
    assert Clean(run) ==> Clean(first);
    assert Clean(first) && charged ==> Clean(second);
  }

  // ---- The store ------------------------------------------------------------------------------

  class Store {
    const wire: Wire
    var used: map<int, int>
    var queue: seq<string>
    var rows: seq<UsageRecord>
    ghost var run: Run

    /** The fields are what the run made them. */
    ghost predicate Follows()
      reads this
    {
      && IsRun(wire, run)
      && used == StateOf(run).used && queue == StateOf(run).queue && rows == StateOf(run).rows
    }

    ghost predicate Valid()
      reads this
    {
      Follows() && Quiet(StateOf(run))
    }

    constructor (wire: Wire)
      ensures Valid() && this.wire == wire
      ensures used == map[] && queue == [] && rows == [] && Clean(run)
    {
      this.wire := wire;
      used, queue, rows := map[], [], [];
      run := Begin;
    }

    /** Both commands of the pipeline are sent; each may fail by itself, and either failure is an error. */
    method RecordUsage(r: UsageRecord, charged: bool, queued: bool) returns (ok: bool)
      requires Valid()
      modifies this
      ensures Valid() && rows == old(rows)
      ensures used == if charged then old(used)[r.userID := UsedBy(old(used), r.userID) + r.cost] else old(used)
      ensures queue == if queued then old(queue) + [wire.marshal(r)] else old(queue)
      ensures ok <==> charged && queued
      ensures Clean(old(run)) && ok ==> Clean(run)
    {
      RecordedRun(wire, run, r, charged, queued);
      RecordedState(wire, run, r, charged, queued);
      if charged {
        used := used[r.userID := UsedBy(used, r.userID) + r.cost];
      }
      if queued {
        queue := queue + [wire.marshal(r)];
      }
      run := Recorded(wire, run, r, charged, queued);
      ok := charged && queued;
    }

    /** One command of a flusher that is alone at work. */
    ghost method Command(step: Step, i: nat, kind: Kind)
      requires IsRun(wire, run) && Alone(StateOf(run), i, kind)
      requires Enabled(StateOf(run), step) && MovesFlusher(step, i)
      modifies this`run
      ensures IsRun(wire, run) && Alone(StateOf(run), i, kind)
      ensures StateOf(run) == Next(wire, StateOf(old(run)), step)
      ensures StateOf(run).used == StateOf(old(run)).used
      ensures Clean(old(run)) && !Loses(StateOf(old(run)), step) ==> Clean(run)
    {
      MoveStaysAlone(wire, StateOf(run), step, i, kind);
      run := Advance(wire, run, step);
    }

    /**
     LPOP.  The flusher must have turns left.
     */
    method Pop(ghost i: nat, ghost kind: Kind, ok: bool) returns (data: Option<string>)
      requires Follows() && Alone(StateOf(run), i, kind) && StateOf(run).flushers[i].pc.Popping?
      requires kind == Worker ==> StateOf(run).flushers[i].pc.turn < BATCH
      modifies this
      ensures Follows() && Alone(StateOf(run), i, kind)
      ensures used == old(used) && rows == old(rows)
      ensures Clean(old(run)) ==> Clean(run)
      ensures data.Some? <==> ok && old(queue) != []
      ensures data.Some? ==> data.value == old(queue)[0] && queue == old(queue)[1..]
      ensures data.Some? ==>
        StateOf(run).flushers[i].pc == Holding(StateOf(old(run)).flushers[i].pc.turn, data.value)
      ensures data.None? ==> queue == old(queue) && Resting(StateOf(run).flushers[i].pc)
    {
      Command(Step.Pop(i, ok), i, kind);
      if ok && queue != [] {
        data := Some(queue[0]);
        queue := queue[1..];
      } else {
        data := None;
      }
    }

    /** parseUsageLog, then INSERT when it parses; `inserted` is false for an entry that is skipped. */
    method Insert(data: string, ghost i: nat, ghost kind: Kind, ok: bool) returns (parsed: bool, inserted: bool)
      requires Follows() && Alone(StateOf(run), i, kind)
      requires StateOf(run).flushers[i].pc.Holding? && StateOf(run).flushers[i].pc.data == data
      modifies this
      ensures Follows() && Alone(StateOf(run), i, kind)
      ensures used == old(used) && queue == old(queue)
      ensures Clean(old(run)) && (kind == Drain && parsed ==> inserted) ==> Clean(run)
      ensures parsed <==> Parses(wire, data)
      ensures inserted <==> parsed && ok
      ensures rows == old(rows) + if parsed && !inserted then [] else RowOf(wire, data)
      ensures parsed && !inserted ==>
        StateOf(run).flushers[i].pc == if kind == Worker then Repushing(data) else Stopped
      ensures inserted || !parsed ==>
        StateOf(run).flushers[i].pc == Popping(StateOf(old(run)).flushers[i].pc.turn + 1)
    {
      Command(Step.Parse(i), i, kind);
      match wire.parse(data)
      case None =>
        parsed, inserted := false, false;
      case Some(log) =>
        parsed, inserted := true, ok;
        Command(Step.Insert(i, inserted), i, kind);
        if inserted {
          rows := rows + [log];
        }
    }

    /** The loop of flusher i is at the top of this turn. */
    ghost predicate Looping(i: nat, kind: Kind, turn: nat)
      reads this
    {
      Follows() && Alone(StateOf(run), i, kind) && StateOf(run).flushers[i].pc == Popping(turn)
    }

    /** The worker could not insert the entry it has in hand. */
    ghost predicate Stuck(i: nat, data: string)
      reads this
    {
      Follows() && Alone(StateOf(run), i, Worker) && StateOf(run).flushers[i].pc == Repushing(data)
    }

    ghost method Enter(kind: Kind) returns (i: nat)
      requires Valid()
      modifies this`run
      ensures Looping(i, kind, 0)
      ensures Clean(old(run)) ==> Clean(run)
    {
      i := |StateOf(run).flushers|;
      SpawnIsAlone(wire, StateOf(run), kind);
      run := Advance(wire, run, Spawn(kind));
      if kind == Worker {
        Command(Step.Tick(i), i, kind);
      }
    }

    /** One turn of either loop: pop, parse, insert. */
    method Turn(ghost i: nat, ghost kind: Kind, ghost n: nat, popOk: bool, insertOk: bool) returns (turn: Turn)
      requires Looping(i, kind, n) && HasTurn(kind, n)
      modifies this
      ensures used == old(used)
      ensures Clean(old(run)) && (kind == Drain ==> !turn.InsertFailed?) ==> Clean(run)
      ensures match turn
        case NothingPopped(ok) => Valid() && queue == old(queue) && rows == old(rows) && ok == popOk
        case Done =>
          && Looping(i, kind, n + 1)
          && old(queue) != [] && queue == old(queue)[1..] && rows == old(rows) + RowOf(wire, old(queue)[0])
        case InsertFailed(data) =>
          && (if kind == Worker then Stuck(i, data) else Valid())
          && old(queue) != [] && queue == old(queue)[1..] && rows == old(rows)
          && data == old(queue)[0]
      ensures turn.NothingPopped? <==> !popOk || old(queue) == []
      ensures turn.InsertFailed? <==> popOk && old(queue) != [] && Parses(wire, old(queue)[0]) && !insertOk
    {
      var data := Pop(i, kind, popOk);
      if data.None? {
        AloneAtRestIsQuiet(StateOf(run), i, kind);
        return NothingPopped(popOk);
      }
      var parsed, inserted := Insert(data.value, i, kind, insertOk);
      if parsed && !inserted {
        if kind == Drain {
          AloneAtRestIsQuiet(StateOf(run), i, kind);
        }
        return InsertFailed(data.value);
      }
      turn := Done;
    }

    /**
     The shutdown drain.  It moves entries from the head of the queue to the table in
     order until the queue is empty or a command fails; an entry whose insert fails is
     lost.  A drain that empties the queue leaves every user's counter equal to the
     durable sum of the user's rows, if no recording failed and nothing was lost before.
     */
    method FlushAll(pops: nat -> bool, inserts: nat -> bool) returns (moved: nat, ending: Ending)
      requires Valid()
      modifies this
      ensures Valid() && used == old(used)
      ensures EndsAt(Drain, wire, old(queue), pops, inserts, false, moved, ending)
      ensures Moved(wire, old(queue), old(rows), moved, ending, queue, rows)
      ensures NoneFails(pops) && NoneFails(inserts) ==>
        ending == Drained && queue == [] && rows == old(rows) + RowsUpTo(wire, old(queue), |old(queue)|)
      ensures Clean(old(run)) && ending != Lost ==> Clean(run)
      ensures Clean(old(run)) && RoundTrips(wire) && ending == Drained ==>
        forall user :: UsedBy(used, user) == Bill(rows, user)
    {
      moved, ending := EmptyQueue(pops, inserts);
      if NoneFails(pops) && NoneFails(inserts) {
        NoFailureNoLoss(Drain, wire, old(queue), pops, inserts, false, moved, ending);
      }
      if Clean(old(run)) && RoundTrips(wire) && ending == Drained {
        DrainedIsDurable();
      }
    }

    method EmptyQueue(pops: nat -> bool, inserts: nat -> bool) returns (moved: nat, ending: Ending)
      requires Valid()
      modifies this
      ensures Valid() && used == old(used)
      ensures EndsAt(Drain, wire, old(queue), pops, inserts, false, moved, ending)
      ensures Moved(wire, old(queue), old(rows), moved, ending, queue, rows)
      ensures Clean(old(run)) && ending != Lost ==> Clean(run)
    {
      ghost var i := Enter(Drain);
      var last: Turn;
      moved, last := DrainTurns(i, pops, inserts);
      if last.InsertFailed? {
        LeftOffHolding(Drain, wire, old(queue), old(rows), pops, inserts, false, moved, last, queue, rows);
        moved, ending := moved + 1, Lost;
      } else {
        LeftOffInOrder(Drain, wire, old(queue), old(rows), pops, inserts, false, moved, last, queue, rows);
        ending := if last.ok then Drained else PopFailed;
      }
    }

    lemma DrainedIsDurable()
      requires Valid() && RoundTrips(wire) && Clean(run) && queue == []
      ensures forall user :: UsedBy(used, user) == Bill(rows, user)
    {
      forall user ensures UsedBy(used, user) == Bill(rows, user) {
        SettledCounterIsDurable(wire, run, user);
      }
    }

    /** The drain's loop, up to its break. */
    method DrainTurns(ghost i: nat, pops: nat -> bool, inserts: nat -> bool) returns (moved: nat, last: Turn)
      requires Looping(i, Drain, 0)
      modifies this
      ensures Valid() && used == old(used)
      ensures !last.Done?
      ensures Clean(old(run)) && !last.InsertFailed? ==> Clean(run)
      ensures LeftOff(wire, old(queue), old(rows), pops, inserts, moved, last, queue, rows)
    {
      moved, last := 0, Done;
      while true
        invariant Looping(i, Drain, moved) && used == old(used)
        invariant Clean(old(run)) ==> Clean(run)
        invariant AllWell(wire, old(queue), pops, inserts, moved)
        invariant Moving(wire, old(queue), old(rows), moved, queue, rows)
        decreases |queue|
      {
        ghost var q, r := queue, rows;
        last := Turn(i, Drain, moved, pops(moved), inserts(moved));
        if !last.Done? {
          assert last.InsertFailed? ==> [last.data] + queue == q;
          return;
        }
        MovingOn(wire, old(queue), old(rows), moved, q, r);
        moved := moved + 1;
      }
    }

    /** The worker's loop, up to its break or its last turn. */
    method Turns(ghost i: nat, pops: nat -> bool, inserts: nat -> bool) returns (moved: nat, last: Turn)
      requires Looping(i, Worker, 0)
      modifies this
      ensures used == old(used)
      ensures Clean(old(run)) ==> Clean(run)
      ensures !last.InsertFailed? ==> Valid()
      ensures last.InsertFailed? ==> Stuck(i, last.data)
      ensures if last.Done? then moved == BATCH else moved < BATCH
      ensures LeftOff(wire, old(queue), old(rows), pops, inserts, moved, last, queue, rows)
    {
      moved, last := 0, Done;
      while moved < BATCH
        invariant Clean(old(run)) ==> Clean(run)
        invariant Looping(i, Worker, moved) && used == old(used) && moved <= BATCH && last == Done
        invariant AllWell(wire, old(queue), pops, inserts, moved)
        invariant Moving(wire, old(queue), old(rows), moved, queue, rows)
      {
        ghost var q, r := queue, rows;
        last := Turn(i, Worker, moved, pops(moved), inserts(moved));
        if !last.Done? {
          assert last.InsertFailed? ==> [last.data] + queue == q;
          return;
        }
        MovingOn(wire, old(queue), old(rows), moved, q, r);
        moved := moved + 1;
      }
      Leave(i);
    }

    /**
     One batch of the worker.  At most 100 entries; an entry whose insert fails goes back
     to the tail, out of order, unless the push fails too.
     */
    method FlushOnce(pops: nat -> bool, inserts: nat -> bool, pushed: bool) returns (moved: nat, ending: Ending)
      requires Valid()
      modifies this
      ensures Valid() && used == old(used)
      ensures EndsAt(Worker, wire, old(queue), pops, inserts, pushed, moved, ending)
      ensures Moved(wire, old(queue), old(rows), moved, ending, queue, rows)
      ensures NoneFails(pops) && NoneFails(inserts) ==>
        && moved == (if |old(queue)| < 100 then |old(queue)| else 100)
        && queue == old(queue)[moved..] && rows == old(rows) + RowsUpTo(wire, old(queue), moved)
      ensures Clean(old(run)) && ending != Lost ==> Clean(run)
    {
      ghost var i := Enter(Worker);
      var last: Turn;
      moved, last := Turns(i, pops, inserts);
      if last.InsertFailed? {
        LeftOffHolding(Worker, wire, old(queue), old(rows), pops, inserts, pushed, moved, last, queue, rows);
        Repush(last.data, i, pushed);
        moved, ending := moved + 1, if pushed then Requeued else Lost;
      } else {
        LeftOffInOrder(Worker, wire, old(queue), old(rows), pops, inserts, pushed, moved, last, queue, rows);
        ending := if last.Done? then BatchFull else if last.ok then Drained else PopFailed;
      }
      if NoneFails(pops) && NoneFails(inserts) {
        NoFailureNoLoss(Worker, wire, old(queue), pops, inserts, pushed, moved, ending);
      }
    }

    ghost method Leave(i: nat)
      requires Looping(i, Worker, BATCH)
      modifies this`run
      ensures Valid()
      ensures Clean(old(run)) ==> Clean(run)
    {
      Command(Step.Pop(i, false), i, Worker);
      AloneAtRestIsQuiet(StateOf(run), i, Worker);
    }

    method Repush(data: string, ghost i: nat, pushed: bool)
      requires Stuck(i, data)
      modifies this
      ensures Valid() && used == old(used) && rows == old(rows)
      ensures queue == if pushed then old(queue) + [data] else old(queue)
      ensures Clean(old(run)) && pushed ==> Clean(run)
    {
      Command(Step.Repush(i, pushed), i, Worker);
      if pushed {
        queue := queue + [data];
      }
      AloneAtRestIsQuiet(StateOf(run), i, Worker);
    }

    /**
     An absent counter reads as zero; a failed read is an error.  As long as no recording
     has failed, what is read is the sum of the user's recorded costs.
     */
    method GetUsedAmount(user: int, ok: bool) returns (amount: Option<int>)
      requires Valid()
      ensures amount.Some? <==> ok
      ensures amount.Some? ==> amount.value == UsedBy(used, user)
      ensures amount.Some? && RecordingErrorFree(run) ==> amount.value == Bill(StateOf(run).pushed, user)
    {
      if !ok {
        return None;
      }
      if RecordingErrorFree(run) {
        CounterIsBill(wire, run, user);
      }
      amount := Some(if user in used then used[user] else 0);
    }
  }
}
