/**
 The billing pipeline (infra/billing/store.go) as a step system.

 Any number of RecordUsage calls, flush workers and shutdown drains run at once; one
 Redis or database command is one step, and any command may fail.  A command that
 reports failure is taken to have had no effect, and a command issued under a
 cancelled context fails.
 */
module Billing {
  import opened Sums
  import opened UsageLogs
  import opened Wrappers

  // ---- State -------------------------------------------------------------------------

  /** A RecordUsage pipeline: the counter increment comes before the queue push. */
  datatype Recorder =
    | Charging(record: UsageRecord)
    | Pushing(record: UsageRecord, charged: bool)
    | Finished

  datatype Kind = Worker | Drain

  /** Where flushOnce or FlushAll stands; `turn` counts the worker's loop. */
  datatype Pc =
    | Idle
    | Popping(turn: nat)
    | Holding(turn: nat, data: string)
    | Parsed(turn: nat, data: string, log: UsageRecord)
    | Repushing(data: string)
    | Stopped

  datatype Flusher = Flusher(kind: Kind, pc: Pc, cancelled: bool)

  datatype State = State(
    used: map<int, int>,          // balance_used counters
    queue: seq<string>,           // usage_log_queue, head first
    rows: seq<UsageRecord>,       // usage_logs
    flushers: seq<Flusher>,
    recorders: seq<Recorder>,
    // bookkeeping
    pushed: seq<UsageRecord>,     // records whose queue push succeeded
    rowData: seq<string>,         // the queue entry each row came from
    dropped: seq<string>,         // entries that are nowhere any more
    unlogged: seq<UsageRecord>,   // charged, but the push failed
    uncharged: seq<UsageRecord>)  // pushed, but the increment failed

  const INITIAL := State(map[], [], [], [], [], [], [], [], [], [])

  /** Turns of one flushOnce call. */
  const BATCH := 100

  // ---- Steps --------------------------------------------------------------------------

  datatype Step =
    | Record(record: UsageRecord)       // a RecordUsage call starts
    | Charge(j: nat, ok: bool)          // INCRBYFLOAT balance_used
    | Push(j: nat, ok: bool)            // RPUSH usage_log_queue
    | Spawn(kind: Kind)                 // a worker is started, or FlushAll is called
    | Tick(i: nat)                      // a worker starts flushOnce
    | Cancel(i: nat)                    // the worker's context is cancelled
    | Pop(i: nat, ok: bool)             // the loop test, then LPOP usage_log_queue
    | Parse(i: nat)
    | Insert(i: nat, ok: bool)          // INSERT INTO usage_logs
    | Repush(i: nat, ok: bool)          // RPUSH of an entry that could not be inserted

  function UsedBy(used: map<int, int>, user: int): int {
    if user in used then used[user] else 0
  }

  predicate At(s: State, i: nat) {
    i < |s.flushers|
  }

  predicate Enabled(s: State, step: Step) {
    match step
    case Record(_) => true
    case Charge(j, _) => j < |s.recorders| && s.recorders[j].Charging?
    case Push(j, _) => j < |s.recorders| && s.recorders[j].Pushing?
    case Spawn(_) => true
    case Tick(i) => At(s, i) && s.flushers[i].kind == Worker && s.flushers[i].pc.Idle?
    case Cancel(i) => At(s, i) && s.flushers[i].kind == Worker
    case Pop(i, ok) => At(s, i) && s.flushers[i].pc.Popping? && (ok ==> !s.flushers[i].cancelled)
    case Parse(i) => At(s, i) && s.flushers[i].pc.Holding?
    case Insert(i, ok) => At(s, i) && s.flushers[i].pc.Parsed? && (ok ==> !s.flushers[i].cancelled)
    case Repush(i, ok) => At(s, i) && s.flushers[i].pc.Repushing? && (ok ==> !s.flushers[i].cancelled)
  }

  function Goto(s: State, i: nat, pc: Pc): State
    requires At(s, i)
  {
    s.(flushers := s.flushers[i := s.flushers[i].(pc := pc)])
  }

  /** Where the loop goes when it breaks: the worker waits for its next tick. */
  function Break(kind: Kind): Pc {
    if kind == Worker then Idle else Stopped
  }

  function AfterPop(s: State, i: nat, ok: bool): State
    requires At(s, i) && s.flushers[i].pc.Popping?
  {
    var f := s.flushers[i];
    if f.kind == Worker && f.pc.turn >= BATCH then Goto(s, i, Idle)
    else if !ok || s.queue == [] then Goto(s, i, Break(f.kind))
    else Goto(s, i, Holding(f.pc.turn, s.queue[0])).(queue := s.queue[1..])
  }

  /** An entry that cannot be parsed is skipped, and with that it is gone. */
  function AfterParse(wire: Wire, s: State, i: nat): State
    requires At(s, i) && s.flushers[i].pc.Holding?
  {
    var pc := s.flushers[i].pc;
    match wire.parse(pc.data)
    case Some(log) => Goto(s, i, Parsed(pc.turn, pc.data, log))
    case None => Goto(s, i, Popping(pc.turn + 1)).(dropped := s.dropped + [pc.data])
  }

  /** A worker that cannot insert pushes the entry back; the drain just stops. */
  function AfterInsert(s: State, i: nat, ok: bool): State
    requires At(s, i) && s.flushers[i].pc.Parsed?
  {
    var f := s.flushers[i];
    if ok then
      Goto(s, i, Popping(f.pc.turn + 1)).(rows := s.rows + [f.pc.log], rowData := s.rowData + [f.pc.data])
    else if f.kind == Worker then Goto(s, i, Repushing(f.pc.data))
    else Goto(s, i, Stopped).(dropped := s.dropped + [f.pc.data])
  }

  function AfterRepush(s: State, i: nat, ok: bool): State
    requires At(s, i) && s.flushers[i].pc.Repushing?
  {
    var data := s.flushers[i].pc.data;
    if ok then Goto(s, i, Idle).(queue := s.queue + [data])
    else Goto(s, i, Idle).(dropped := s.dropped + [data])
  }

  function Next(wire: Wire, s: State, step: Step): State
    requires Enabled(s, step)
  {
    match step
    case Record(r) => s.(recorders := s.recorders + [Charging(r)])
    case Charge(j, ok) =>
      var r := s.recorders[j].record;
      s.(recorders := s.recorders[j := Pushing(r, ok)],
         used := if ok then s.used[r.userID := UsedBy(s.used, r.userID) + r.cost] else s.used)
    case Push(j, ok) =>
      var rec := s.recorders[j];
      var t := s.(recorders := s.recorders[j := Finished]);
      if ok then
        t.(queue := s.queue + [wire.marshal(rec.record)], pushed := s.pushed + [rec.record],
           uncharged := if rec.charged then s.uncharged else s.uncharged + [rec.record])
      else
        t.(unlogged := if rec.charged then s.unlogged + [rec.record] else s.unlogged)
    case Spawn(kind) =>
      s.(flushers := s.flushers + [Flusher(kind, if kind == Worker then Idle else Popping(0), false)])
    case Tick(i) => Goto(s, i, Popping(0))
    case Cancel(i) => s.(flushers := s.flushers[i := s.flushers[i].(cancelled := true)])
    case Pop(i, ok) => AfterPop(s, i, ok)
    case Parse(i) => AfterParse(wire, s, i)
    case Insert(i, ok) => AfterInsert(s, i, ok)
    case Repush(i, ok) => AfterRepush(s, i, ok)
  }

  /** A run so far, latest step outermost. */
  datatype Run = Begin | Then(past: Run, step: Step, state: State)

  ghost function StateOf(run: Run): State {
    if run.Begin? then INITIAL else run.state
  }

  ghost predicate IsRun(wire: Wire, run: Run) {
    run.Then? ==>
      && IsRun(wire, run.past)
      && Enabled(StateOf(run.past), run.step)
      && run.state == Next(wire, StateOf(run.past), run.step)
  }

  // ---- Conservation ------------------------------------------------------------------------
  //
  // Entries are weighed by an arbitrary function.  Weighing one entry 1 and all others 0
  // counts its copies; weighing an entry by its cost to one user adds up that user's bill.

  /** What one flusher has popped and not yet disposed of. */
  ghost function HeldBy(w: string -> int, f: Flusher): int {
    match f.pc
    case Holding(_, data) => w(data)
    case Parsed(_, data, _) => w(data)
    case Repushing(data) => w(data)
    case _ => 0
  }

  ghost function InHand(w: string -> int): Flusher -> int {
    f => HeldBy(w, f)
  }

  ghost function Held(w: string -> int, s: State): int {
    Sum(InHand(w), s.flushers)
  }

  /** The weight of a record's queue entry. */
  ghost function AsEntry(wire: Wire, w: string -> int): UsageRecord -> int {
    r => w(wire.marshal(r))
  }

  ghost function Pushed(wire: Wire, w: string -> int, records: seq<UsageRecord>): int {
    Sum(AsEntry(wire, w), records)
  }

  /** Everything pushed is in the queue, in a flusher's hands, in the table, or dropped. */
  ghost predicate Conserved(wire: Wire, w: string -> int, s: State) {
    Pushed(wire, w, s.pushed) == Sum(w, s.queue) + Held(w, s) + Sum(w, s.rowData) + Sum(w, s.dropped)
  }

  /** A flusher's move conserves if what it takes and gives adds up. */
  lemma Rebalanced(wire: Wire, w: string -> int, s: State, t: State, i: nat)
    requires Conserved(wire, w, s) && At(s, i)
    requires |t.flushers| == |s.flushers| && t.flushers == s.flushers[i := t.flushers[i]]
    requires t.pushed == s.pushed
    requires Sum(w, t.queue) + HeldBy(w, t.flushers[i]) + Sum(w, t.rowData) + Sum(w, t.dropped) ==
             Sum(w, s.queue) + HeldBy(w, s.flushers[i]) + Sum(w, s.rowData) + Sum(w, s.dropped)
    ensures Conserved(wire, w, t)
  {
    SumUpdate(InHand(w), s.flushers, i, t.flushers[i]);
  }

  lemma PopConserves(wire: Wire, w: string -> int, s: State, i: nat, ok: bool)
    requires Conserved(wire, w, s) && At(s, i) && s.flushers[i].pc.Popping?
    ensures Conserved(wire, w, AfterPop(s, i, ok))
  {
    if s.queue != [] {
      SumShift(w, s.queue, |s.queue|);
    }
    Rebalanced(wire, w, s, AfterPop(s, i, ok), i);
  }

  lemma ParseConserves(wire: Wire, w: string -> int, s: State, i: nat)
    requires Conserved(wire, w, s) && At(s, i) && s.flushers[i].pc.Holding?
    ensures Conserved(wire, w, AfterParse(wire, s, i))
  {
    SumAppend(w, s.dropped, s.flushers[i].pc.data);
    Rebalanced(wire, w, s, AfterParse(wire, s, i), i);
  }

  lemma InsertConserves(wire: Wire, w: string -> int, s: State, i: nat, ok: bool)
    requires Conserved(wire, w, s) && At(s, i) && s.flushers[i].pc.Parsed?
    ensures Conserved(wire, w, AfterInsert(s, i, ok))
  {
    if ok {
      SumAppend(w, s.rowData, s.flushers[i].pc.data);
    } else {
      SumAppend(w, s.dropped, s.flushers[i].pc.data);
    }
    Rebalanced(wire, w, s, AfterInsert(s, i, ok), i);
  }

  lemma RepushConserves(wire: Wire, w: string -> int, s: State, i: nat, ok: bool)
    requires Conserved(wire, w, s) && At(s, i) && s.flushers[i].pc.Repushing?
    ensures Conserved(wire, w, AfterRepush(s, i, ok))
  {
    SumAppend(w, s.queue, s.flushers[i].pc.data);
    SumAppend(w, s.dropped, s.flushers[i].pc.data);
    Rebalanced(wire, w, s, AfterRepush(s, i, ok), i);
  }

  lemma PushConserves(wire: Wire, w: string -> int, s: State, j: nat, ok: bool)
    requires Conserved(wire, w, s) && Enabled(s, Push(j, ok))
    ensures Conserved(wire, w, Next(wire, s, Push(j, ok)))
  {
    var r := s.recorders[j].record;
    var t := Next(wire, s, Push(j, ok));
    if ok {
      SumAppend(w, s.queue, wire.marshal(r));
      SumAppend(AsEntry(wire, w), s.pushed, r);
      assert t.queue == s.queue + [wire.marshal(r)] && t.pushed == s.pushed + [r];
    }
    assert t.flushers == s.flushers && t.rowData == s.rowData && t.dropped == s.dropped;
  }

  lemma SpawnConserves(wire: Wire, w: string -> int, s: State, kind: Kind)
    requires Conserved(wire, w, s)
    ensures Conserved(wire, w, Next(wire, s, Spawn(kind)))
  {
    SumAppend(InHand(w), s.flushers, Next(wire, s, Spawn(kind)).flushers[|s.flushers|]);
  }

  lemma NextConserves(wire: Wire, w: string -> int, s: State, step: Step)
    requires Conserved(wire, w, s) && Enabled(s, step)
    ensures Conserved(wire, w, Next(wire, s, step))
  {
    match step
    case Record(_) =>
    case Charge(_, _) =>
    case Push(j, ok) => PushConserves(wire, w, s, j, ok);
    case Spawn(kind) => SpawnConserves(wire, w, s, kind);
    case Pop(i, ok) => PopConserves(wire, w, s, i, ok);
    case Parse(i) => ParseConserves(wire, w, s, i);
    case Insert(i, ok) => InsertConserves(wire, w, s, i, ok);
    case Repush(i, ok) => RepushConserves(wire, w, s, i, ok);
    case Tick(i) => Rebalanced(wire, w, s, Next(wire, s, step), i);
    case Cancel(i) => Rebalanced(wire, w, s, Next(wire, s, step), i);
  }

  /** In every interleaving, whatever fails, every weighing of the entries balances. */
  lemma {:induction false} EveryRunConserves(wire: Wire, w: string -> int, run: Run)
    requires IsRun(wire, run)
    ensures Conserved(wire, w, StateOf(run))
  {
    if run.Then? {
      EveryRunConserves(wire, w, run.past);
      NextConserves(wire, w, StateOf(run.past), run.step);
    }
  }
}
