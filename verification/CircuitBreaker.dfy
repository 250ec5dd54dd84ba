/**
 The circuit breaker of infra/provider/resilience.go.

 The breaker is a three-state object behind a mutex.  Every locked call is one
 event; `log` (ghost) is the sequence of events so far, tagged with the request
 that made the call, so one log stands for one interleaving of in-flight requests.
 The object is proved to answer as a pure function of that log.
 */
module CircuitBreaking {
  type Time = int  // nanoseconds on the monotone clock

  datatype CircuitState = Closed | Open | HalfOpen

  datatype Event =
    | Asked(who: nat, at: Time)   // Allow
    | Succeeded(who: nat)         // RecordSuccess
    | Failed(who: nat, at: Time)  // RecordFailure

  /** A sequence of events, latest outermost. */
  datatype History = Start | After(past: History, last: Event)

  /** One admission decision: who asked, when, and the log it was decided on. */
  datatype Question = Question(who: nat, log: History, at: Time)

  /** No clock reading in the log is later than `now`. */
  ghost predicate NotAfter(log: History, now: Time) {
    match log
    case Start => true
    case After(past, e) => (e.Succeeded? || e.at <= now) && NotAfter(past, now)
  }

  lemma {:induction false} ClockMayAdvance(log: History, now: Time, later: Time)
    requires NotAfter(log, now) && now <= later
    ensures NotAfter(log, later)
  {
    if log.After? {
      ClockMayAdvance(log.past, now, later);
    }
  }

  /** How many failures were recorded since the last success. */
  ghost function FailureRun(log: History): nat {
    match log
    case Start => 0
    case After(past, Asked(_, _)) => FailureRun(past)
    case After(past, Succeeded(_)) => 0
    case After(past, Failed(_, _)) => FailureRun(past) + 1
  }

  /** The time of the latest recorded failure (the zero time when there is none). */
  ghost function LastFailure(log: History): Time {
    match log
    case Start => 0
    case After(past, e) => if e.Failed? then e.at else LastFailure(past)
  }

  /** Enough failures in a row to trip, whatever the sign of the threshold. */
  ghost predicate Tripped(threshold: int, log: History) {
    FailureRun(log) >= 1 && FailureRun(log) >= threshold
  }

  /** The whole admission rule: tripped, and the last failure is too recent. */
  ghost predicate Rejects(threshold: int, resetTimeout: int, log: History, now: Time) {
    Tripped(threshold, log) && now - LastFailure(log) <= resetTimeout
  }

  /** Somebody asked after the reset timeout, and no outcome was recorded since. */
  ghost predicate Probed(resetTimeout: int, log: History) {
    match log
    case Start => false
    case After(past, Asked(_, at)) => Probed(resetTimeout, past) || at - LastFailure(past) > resetTimeout
    case After(past, Succeeded(_)) => false
    case After(past, Failed(_, _)) => false
  }

  /** The breaker's state as a function of the log alone. */
  ghost function StateAfter(threshold: int, resetTimeout: int, log: History): CircuitState {
    if !Tripped(threshold, log) then Closed
    else if Probed(resetTimeout, log) then HalfOpen
    else Open
  }

  /** A probe proves that the timeout has passed, and it stays passed. */
  lemma {:induction false} ProbedMeansTimedOut(resetTimeout: int, log: History, now: Time)
    requires Probed(resetTimeout, log) && NotAfter(log, now)
    ensures now - LastFailure(log) > resetTimeout
  {
    if Probed(resetTimeout, log.past) {
      ProbedMeansTimedOut(resetTimeout, log.past, now);
    }
  }

  class CircuitBreaker {
    const threshold: int
    const resetTimeout: int
    var state: CircuitState
    var failures: int
    var lastFailure: Time
    ghost var log: History
    ghost var clock: Time  // the latest time this breaker has seen
    ghost var asked: set<Question>

    ghost predicate Valid()
      reads this
    {
      && failures == FailureRun(log)
      && (failures > 0 ==> lastFailure == LastFailure(log))
      && state == StateAfter(threshold, resetTimeout, log)
      && NotAfter(log, clock)
    }

    constructor (threshold: int, resetTimeout: int, ghost now: Time)
      ensures Valid() && log == Start && asked == {} && clock == now
      ensures this.threshold == threshold && this.resetTimeout == resetTimeout
    {
      this.threshold, this.resetTimeout := threshold, resetTimeout;
      state, failures, lastFailure := Closed, 0, 0;
      log, clock, asked := Start, now, {};
    }

    method Allow(ghost who: nat, now: Time) returns (ok: bool)
      requires Valid() && clock <= now
      modifies this`state, this`log, this`clock, this`asked
      ensures Valid() && clock == now
      ensures log == After(old(log), Asked(who, now))
      ensures asked == old(asked) + {Question(who, old(log), now)}
      ensures ok <==> !Rejects(threshold, resetTimeout, old(log), now)
    {
      ghost var before := log;
      ClockMayAdvance(log, clock, now);
      if state == HalfOpen {
        ProbedMeansTimedOut(resetTimeout, before, now);
      }
      log, clock := After(before, Asked(who, now)), now;
      asked := asked + {Question(who, before, now)};
      match state {
        case Closed =>
          ok := true;
        case Open =>
          if now - lastFailure > resetTimeout {
            state := HalfOpen;
            ok := true;
          } else {
            ok := false;
          }
        case HalfOpen =>
          ok := true;
      }
    }

    method RecordSuccess(ghost who: nat)
      requires Valid()
      modifies this`state, this`failures, this`log
      ensures Valid()
      ensures log == After(old(log), Succeeded(who))
      ensures state == Closed
    {
      log := After(log, Succeeded(who));
      failures := 0;
      state := Closed;
    }

    method RecordFailure(ghost who: nat, now: Time)
      requires Valid() && clock <= now
      modifies this`state, this`failures, this`lastFailure, this`log, this`clock
      ensures Valid() && clock == now
      ensures log == After(old(log), Failed(who, now))
      ensures state == Closed <==> failures < threshold
    {
      ghost var before := log;
      ClockMayAdvance(log, clock, now);
      log, clock := After(before, Failed(who, now)), now;
      failures := failures + 1;
      lastFailure := now;
      if failures >= threshold {
        state := Open;
      }
    }
  }

  /**
   Reading the three-state field, as the code does, and reading the log give the
   same answer on every clock-monotone log.
   */
  lemma StateDecidesAsHistory(threshold: int, resetTimeout: int, log: History, now: Time)
    requires NotAfter(log, now)
    ensures (StateAfter(threshold, resetTimeout, log) == Open && now - LastFailure(log) <= resetTimeout)
       <==> Rejects(threshold, resetTimeout, log, now)
    ensures StateAfter(threshold, resetTimeout, log) == Closed <==>
            FailureRun(log) < (if threshold < 1 then 1 else threshold)
  {
    if Probed(resetTimeout, log) {
      ProbedMeansTimedOut(resetTimeout, log, now);
    }
  }

  /** The log after some more events. */
  ghost function Continue(log: History, events: seq<Event>): History {
    if events == [] then log else After(Continue(log, events[..|events| - 1]), events[|events| - 1])
  }

  ghost predicate OnlyQuestions(events: seq<Event>) {
    forall i | 0 <= i < |events| :: events[i].Asked?
  }

  /**
   Half-open is not a single trial request: any number of questions in a row
   leaves the rule as it was, so once one of them passes every later one does too,
   until an outcome is recorded.
   */
  lemma {:induction false} QuestionsChangeNothing(
      threshold: int, resetTimeout: int, log: History, questions: seq<Event>, now: Time)
    requires OnlyQuestions(questions)
    ensures Rejects(threshold, resetTimeout, Continue(log, questions), now)
       <==> Rejects(threshold, resetTimeout, log, now)
    ensures FailureRun(Continue(log, questions)) == FailureRun(log)
    ensures LastFailure(Continue(log, questions)) == LastFailure(log)
  {
    if questions != [] {
      QuestionsChangeNothing(threshold, resetTimeout, log, questions[..|questions| - 1], now);
    }
  }

  /** How many of these questions, asked one after the other, are let in. */
  ghost function LetIn(threshold: int, resetTimeout: int, log: History, questions: seq<Event>): nat
    requires forall i | 0 <= i < |questions| :: questions[i].Asked?
  {
    if questions == [] then 0
    else
      var n := |questions| - 1;
      LetIn(threshold, resetTimeout, log, questions[..n])
      + if Rejects(threshold, resetTimeout, Continue(log, questions[..n]), questions[n].at) then 0 else 1
  }

  /**
   Once the reset timeout has passed, every question before the next outcome is let in:
   the trial is a single request exactly when only one asks.
   */
  lemma {:induction false} AllTrialsAreLetIn(
      threshold: int, resetTimeout: int, log: History, questions: seq<Event>)
    requires forall i | 0 <= i < |questions| ::
      questions[i].Asked? && questions[i].at - LastFailure(log) > resetTimeout
    ensures LetIn(threshold, resetTimeout, log, questions) == |questions|
  {
    if questions != [] {
      var n := |questions| - 1;
      AllTrialsAreLetIn(threshold, resetTimeout, log, questions[..n]);
      QuestionsChangeNothing(threshold, resetTimeout, log, questions[..n], questions[n].at);
    }
  }

  /** Before that, not one is. */
  lemma {:induction false} NoneIsLetInBefore(
      threshold: int, resetTimeout: int, log: History, questions: seq<Event>)
    requires Tripped(threshold, log) && forall i | 0 <= i < |questions| ::
      questions[i].Asked? && questions[i].at - LastFailure(log) <= resetTimeout
    ensures LetIn(threshold, resetTimeout, log, questions) == 0
  {
    if questions != [] {
      var n := |questions| - 1;
      NoneIsLetInBefore(threshold, resetTimeout, log, questions[..n]);
      QuestionsChangeNothing(threshold, resetTimeout, log, questions[..n], questions[n].at);
    }
  }

  /**
   From any log, one success followed by `n` failures trips the breaker exactly when
   `n` reaches the threshold; earlier failures are forgotten.
   */
  lemma {:induction false} SuccessForgetsThenCounts(
      threshold: int, log: History, failures: seq<Event>, who: nat)
    requires forall i | 0 <= i < |failures| :: failures[i].Failed?
    ensures FailureRun(Continue(After(log, Succeeded(who)), failures)) == |failures|
    ensures Tripped(threshold, Continue(After(log, Succeeded(who)), failures)) <==>
            |failures| >= 1 && |failures| >= threshold
  {
    if failures != [] {
      SuccessForgetsThenCounts(threshold, log, failures[..|failures| - 1], who);
    }
  }

  /** How many of the first n events are failures. */
  ghost function FailuresIn(events: seq<Event>, n: nat): nat
    requires n <= |events|
  {
    if n == 0 then 0 else FailuresIn(events, n - 1) + if events[n - 1].Failed? then 1 else 0
  }

  /** No outcome but failures. */
  ghost predicate NoSuccess(events: seq<Event>) {
    forall i | 0 <= i < |events| :: !events[i].Succeeded?
  }

  lemma {:induction false} FailuresPrefix(events: seq<Event>, m: nat, n: nat)
    requires n <= m <= |events|
    ensures FailuresIn(events[..m], n) == FailuresIn(events, n)
  {
    if n > 0 {
      FailuresPrefix(events, m, n - 1);
    }
  }

  /** Since a success, or since the beginning, the run of failures counts every failure, whatever was asked between. */
  lemma {:induction false} FailuresAreCounted(base: History, events: seq<Event>)
    requires base.Start? || base.last.Succeeded?
    requires NoSuccess(events)
    ensures FailureRun(Continue(base, events)) == FailuresIn(events, |events|)
  {
    if events != [] {
      var n := |events| - 1;
      FailuresAreCounted(base, events[..n]);
      FailuresPrefix(events, n, n);
    }
  }

  /**
   The rule by itself.  After a success, or at the beginning, come failures and questions,
   of which the failure at time t is the last: a request is rejected exactly when there
   were as many failures as the threshold and t is no longer ago than the reset timeout.
   */
  lemma LastFailureDecides(threshold: int, resetTimeout: int, base: History, events: seq<Event>,
                           who: nat, t: Time, questions: seq<Event>, now: Time)
    requires (base.Start? || base.last.Succeeded?) && NoSuccess(events) && OnlyQuestions(questions)
    ensures Rejects(threshold, resetTimeout,
                    Continue(After(Continue(base, events), Failed(who, t)), questions), now)
       <==> FailuresIn(events, |events|) + 1 >= threshold && now - t <= resetTimeout
  {
    FailuresAreCounted(base, events);
    QuestionsChangeNothing(threshold, resetTimeout, After(Continue(base, events), Failed(who, t)), questions, now);
  }

  /** On any log: once tripped, the time of the latest failure alone decides, whatever is asked after it. */
  lemma LatestFailureDecides(threshold: int, resetTimeout: int, log: History,
                             who: nat, t: Time, questions: seq<Event>, now: Time)
    requires Tripped(threshold, After(log, Failed(who, t))) && OnlyQuestions(questions)
    ensures Rejects(threshold, resetTimeout, Continue(After(log, Failed(who, t)), questions), now) <==>
            now - t <= resetTimeout
  {
    QuestionsChangeNothing(threshold, resetTimeout, After(log, Failed(who, t)), questions, now);
  }

  /** Without a failure since then, nothing is rejected. */
  lemma NoFailureNoRejection(threshold: int, resetTimeout: int, base: History, questions: seq<Event>, now: Time)
    requires (base.Start? || base.last.Succeeded?) && OnlyQuestions(questions)
    ensures !Rejects(threshold, resetTimeout, Continue(base, questions), now)
  {
    QuestionsChangeNothing(threshold, resetTimeout, base, questions, now);
  }
}
