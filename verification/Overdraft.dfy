/**
 Admission by balance (core/billing/service.go, api/middleware/balance.go): how far one
 user's recorded usage can overrun the balance.

 The check reads the balance and the used counter in two steps, nothing is reserved, and
 the cost of an admitted request is recorded asynchronously after it is served.
 */
module Overdraft {
  import opened Sums
  import opened Wrappers

  /** Either read may fail; the estimate is 0 for every route (cmd/server/main.go). */
  function CheckBalance(balance: Option<int>, used: Option<int>, estimate: int): Option<bool> {
    if balance.None? || used.None? then None
    else
      var remaining := balance.value - used.value;
      Some(remaining > 0 && remaining >= estimate)
  }

  /** Admitted is who has something left, and enough for the estimate; who cannot be checked is not. */
  lemma CheckBalanceMeaning(balance: Option<int>, used: Option<int>, estimate: int)
    ensures CheckBalance(balance, used, estimate).None? <==> balance.None? || used.None?
    ensures CheckBalance(balance, used, estimate) == Some(true) <==>
      balance.Some? && used.Some? && used.value < balance.value && used.value + estimate <= balance.value
  {
  }

  datatype Request =
    | Fresh
    | SawBalance(balance: int)
    | Admitted
    | Refused
    | Settled

  /** `debited` adds up all that administrators took off the balance. */
  datatype State = State(balance: int, used: int, debited: nat, requests: seq<Request>)

  datatype Step =
    | Arrive
    | Adjust(delta: int)
    | ReadBalance(i: nat, ok: bool)
    | ReadUsed(i: nat, ok: bool)
    | Record(i: nat, cost: nat, ok: bool)

  predicate Enabled(s: State, step: Step) {
    match step
    case Arrive => true
    case Adjust(_) => true
    case ReadBalance(i, _) => i < |s.requests| && s.requests[i].Fresh?
    case ReadUsed(i, _) => i < |s.requests| && s.requests[i].SawBalance?
    case Record(i, _, _) => i < |s.requests| && s.requests[i].Admitted?
  }

  function Decide(seen: int, used: Option<int>): Request {
    if CheckBalance(Some(seen), used, 0) == Some(true) then Admitted else Refused
  }

  function Next(s: State, step: Step): State
    requires Enabled(s, step)
  {
    match step
    case Arrive => s.(requests := s.requests + [Fresh])
    case Adjust(delta) =>
      s.(balance := s.balance + delta, debited := if delta < 0 then s.debited - delta else s.debited)
    case ReadBalance(i, ok) =>
      s.(requests := s.requests[i := if ok then SawBalance(s.balance) else Refused])
    case ReadUsed(i, ok) =>
      s.(requests := s.requests[i := Decide(s.requests[i].balance, if ok then Some(s.used) else None)])
    case Record(i, cost, ok) =>
      s.(requests := s.requests[i := Settled], used := if ok then s.used + cost else s.used)
  }

  datatype Run = Begin(start: State) | Then(past: Run, step: Step, state: State)

  ghost function StateOf(run: Run): State {
    if run.Begin? then run.start else run.state
  }

  function One(r: Request): int {
    if r.Admitted? then 1 else 0
  }

  /** Requests admitted and not yet recorded. */
  function Pending(s: State): int {
    Sum(One, s.requests)
  }

  /** A run from an idle gateway in which costs are at most C and at most K requests are pending. */
  ghost predicate IsRun(run: Run, K: nat, C: nat) {
    match run
    case Begin(start) => start.requests == [] && start.debited == 0
    case Then(past, step, state) =>
      && IsRun(past, K, C)
      && Enabled(StateOf(past), step)
      && state == Next(StateOf(past), step)
      && Pending(state) <= K
      && (step.Record? ==> step.cost <= C)
  }

  ghost function StartOf(run: Run): State {
    if run.Begin? then run.start else StartOf(run.past)
  }

  /** What pending requests may still add, with p of them pending. */
  function Room(K: nat, C: nat, p: int): int {
    (K - p) * C
  }

  lemma RoomStep(K: nat, C: nat, p: int)
    ensures Room(K, C, p) == Room(K, C, p + 1) + C
    ensures p <= K ==> Room(K, C, p) >= 0
  {
  }

  /** The overdraft bound, and balances seen were not above what the balance would be without debits. */
  ghost predicate Bounded(s: State, K: nat, C: nat, slack: int) {
    && s.used <= s.balance + s.debited + Room(K, C, Pending(s)) - slack
    && forall i | 0 <= i < |s.requests| ::
         s.requests[i].SawBalance? ==> s.requests[i].balance <= s.balance + s.debited
  }

  lemma NextStaysBounded(s: State, step: Step, K: nat, C: nat, slack: int)
    requires Bounded(s, K, C, slack) && slack <= 1 && Enabled(s, step)
    requires Pending(Next(s, step)) <= K && (step.Record? ==> step.cost <= C)
    ensures Bounded(Next(s, step), K, C, slack)
  {
    var t := Next(s, step);
    match step
    case Arrive => SumAppend(One, s.requests, Fresh);
    case Adjust(_) =>
    case ReadBalance(i, ok) => SumUpdate(One, s.requests, i, t.requests[i]);
    case ReadUsed(i, ok) =>
      SumUpdate(One, s.requests, i, t.requests[i]);
      if t.requests[i].Admitted? {
        RoomStep(K, C, Pending(t));
      }
    case Record(i, cost, ok) =>
      SumUpdate(One, s.requests, i, Settled);
      RoomStep(K, C, Pending(t));
  }

  /**
   The overdraft bound.  With costs in [0, C] and at most K requests admitted and not
   yet recorded, usage never exceeds the balance by more than (K - pending) * C plus
   whatever was debited, however reads, recordings and adjustments interleave or fail.
   The slack is 1 (one millionth) when the start leaves it.
   */
  lemma {:induction false} EveryRunBounded(run: Run, K: nat, C: nat, slack: int)
    requires IsRun(run, K, C) && slack <= 1
    requires StartOf(run).used <= StartOf(run).balance + K * C - slack
    ensures Bounded(StateOf(run), K, C, slack)
  {
    if run.Then? {
      EveryRunBounded(run.past, K, C, slack);
      NextStaysBounded(StateOf(run.past), run.step, K, C, slack);
    } else {
      assert Room(K, C, 0) == K * C;
    }
  }

  /** A request whose check fails, or cannot be made, is refused, and nothing more is done about it. */
  lemma RefusedForGood(s: State, step: Step, i: nat)
    requires Enabled(s, step) && i < |s.requests|
    ensures s.requests[i].Refused? ==> Next(s, step).requests[i] == Refused
    ensures step == ReadBalance(i, false) || step == ReadUsed(i, false) ==> Next(s, step).requests[i] == Refused
    ensures step == ReadUsed(i, true) ==>
      Next(s, step).requests[i] == if s.used < s.requests[i].balance then Admitted else Refused
  {
  }

  // ---- The bound is reached ------------------------------------------------------------------

  ghost function Advance(run: Run, step: Step): Run
    requires Enabled(StateOf(run), step)
  {
    Run.Then(run, step, Next(StateOf(run), step))
  }

  /** The first n of the requests are settled, and the others admitted. */
  ghost predicate Serving(s: State, n: nat) {
    && n <= |s.requests|
    && forall i | 0 <= i < |s.requests| :: s.requests[i] == if i < n then Settled else Admitted
  }

  lemma {:induction false} ServingPending(requests: seq<Request>, n: nat, m: nat)
    requires n <= m <= |requests|
    requires forall i | 0 <= i < |requests| :: requests[i] == if i < n then Settled else Admitted
    ensures SumUpTo(One, requests, m) == m - n
  {
    if m > n {
      ServingPending(requests, n, m - 1);
    } else {
      SumIsZero(One, requests, n);
    }
  }

  /** One more request comes in and is admitted before anything is recorded. */
  lemma AdmitOne(run: Run, K: nat, C: nat) returns (longer: Run)
    requires IsRun(run, K, C) && Serving(StateOf(run), 0) && |StateOf(run).requests| < K
    requires StateOf(run).used < StateOf(run).balance
    ensures IsRun(longer, K, C) && Serving(StateOf(longer), 0)
    ensures StartOf(longer) == StartOf(run)
    ensures StateOf(longer) == StateOf(run).(requests := StateOf(run).requests + [Admitted])
  {
    var s := StateOf(run);
    var i := |s.requests|;
    ServingPending(s.requests, 0, i);
    SumAppend(One, s.requests, Fresh);
    var first := Advance(run, Arrive);
    assert IsRun(first, K, C) && StartOf(first) == StartOf(run);
    SumUpdate(One, first.state.requests, i, SawBalance(s.balance));
    var second := Advance(first, ReadBalance(i, true));
    assert IsRun(second, K, C) && StartOf(second) == StartOf(run);
    SumUpdate(One, second.state.requests, i, Admitted);
    longer := Advance(second, ReadUsed(i, true));
    assert longer.state.requests == s.requests + [Admitted];
  }

  /** The next admitted request is recorded at the highest cost. */
  lemma SettleOne(run: Run, K: nat, C: nat, n: nat) returns (longer: Run)
    requires IsRun(run, K, C) && Serving(StateOf(run), n) && n < |StateOf(run).requests| <= K
    ensures IsRun(longer, K, C) && Serving(StateOf(longer), n + 1)
    ensures StartOf(longer) == StartOf(run) && |StateOf(longer).requests| == |StateOf(run).requests|
    ensures StateOf(longer).balance == StateOf(run).balance && StateOf(longer).debited == StateOf(run).debited
    ensures StateOf(longer).used == StateOf(run).used + C
  {
    var s := StateOf(run);
    ServingPending(s.requests, n, |s.requests|);
    SumUpdate(One, s.requests, n, Settled);
    longer := Advance(run, Record(n, C, true));
  }

  /** n requests are let in while nothing is recorded. */
  lemma {:induction false} Burst(start: State, K: nat, C: nat, n: nat) returns (run: Run)
    requires start.requests == [] && start.debited == 0 && start.used < start.balance && n <= K
    ensures IsRun(run, K, C) && StartOf(run) == start && Serving(StateOf(run), 0)
    ensures |StateOf(run).requests| == n && StateOf(run) == start.(requests := StateOf(run).requests)
  {
    if n == 0 {
      run := Begin(start);
    } else {
      var shorter := Burst(start, K, C, n - 1);
      run := AdmitOne(shorter, K, C);
    }
  }

  lemma {:induction false} Settling(start: State, K: nat, C: nat, n: nat) returns (run: Run)
    requires start.requests == [] && start.debited == 0 && start.used < start.balance && n <= K
    ensures IsRun(run, K, C) && StartOf(run) == start
    ensures Serving(StateOf(run), n) && |StateOf(run).requests| == K
    ensures StateOf(run).balance == start.balance && StateOf(run).debited == 0
    ensures StateOf(run).used == start.used + n * C
  {
    if n == 0 {
      run := Burst(start, K, C, K);
    } else {
      var shorter := Settling(start, K, C, n - 1);
      run := SettleOne(shorter, K, C, n - 1);
      assert n * C == (n - 1) * C + C;
    }
  }

  /**
   The bound cannot be improved: for all K and C, a user one millionth short of the
   balance can end K * C - 1 millionths above it, with everything recorded.
   */
  lemma BoundIsReached(balance: int, K: nat, C: nat) returns (run: Run)
    ensures IsRun(run, K, C) && StartOf(run) == State(balance, balance - 1, 0, [])
    ensures Pending(StateOf(run)) == 0
    ensures StateOf(run).used == StateOf(run).balance + StateOf(run).debited + Room(K, C, 0) - 1
  {
    run := Settling(State(balance, balance - 1, 0, []), K, C, K);
    ServingPending(StateOf(run).requests, K, K);
  }
}
