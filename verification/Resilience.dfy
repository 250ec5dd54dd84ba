/**
 Retry around one provider (infra/provider/resilience.go).

 The upstream API, the clock, the backoff timer and every other request that
 shares the breaker are one `Environment`: its methods may do anything their
 contracts allow, so what is proved holds for every upstream behaviour and every
 interleaving of other requests between the retry loop's own breaker calls.
 */
module Resilience {
  import opened CircuitBreaking
  import opened Wrappers

  // ---- Replies -------------------------------------------------------------

  /** A message's content: absent, a string, or any other JSON value. */
  datatype Content = NoContent | Text(text: string) | NotText

  datatype Message = Message(content: Content, toolCalls: nat)

  datatype Choice = Choice(message: Option<Message>)

  datatype Response = Response(id: string, choices: seq<Choice>)

  /** One upstream answer: a response pointer (nil allowed) without error, or an error. */
  datatype Reply = Replied(response: Option<Response>) | Errored(error: string)

  datatype CallError = CircuitOpen | EmptyOutput | Upstream(error: string) | Cancelled

  predicate IsEmptyOutput(resp: Option<Response>)
  {
    if resp.None? || |resp.value.choices| == 0 then true
    else match resp.value.choices[0].message
      case None => true
      case Some(msg) =>
        if msg.toolCalls > 0 then false
        else (if msg.content.Text? then msg.content.text else "") == ""
  }

  /** Only the first choice counts, and it needs a tool call or some text. */
  lemma EmptyOutputMeaning(resp: Option<Response>)
    ensures !IsEmptyOutput(resp) <==>
      resp.Some? && resp.value.choices != [] && resp.value.choices[0].message.Some? &&
      var msg := resp.value.choices[0].message.value;
      msg.toolCalls > 0 || (exists c, rest :: msg.content == Text([c] + rest))
  {
    if resp.Some? && resp.value.choices != [] && resp.value.choices[0].message.Some? {
      var msg := resp.value.choices[0].message.value;
      if msg.content.Text? && msg.content.text != "" {
        assert msg.content == Text([msg.content.text[0]] + msg.content.text[1..]);
      }
    }
  }

  predicate Usable(reply: Reply) {
    reply.Replied? && !IsEmptyOutput(reply.response)
  }

  /** What the retry loop remembers of an unusable reply. */
  function ErrorOf(reply: Reply): CallError
    requires !Usable(reply)
  {
    if reply.Errored? then Upstream(reply.error) else EmptyOutput
  }

  // ---- The environment -----------------------------------------------------

  datatype Action =
    | Called(provider: string, key: string, reply: Reply)
    | Slept(ms: nat)  // a backoff that ran its full time
    | Cut(ms: nat)    // a backoff ended early by cancellation

  /** Everything the gateway did to the outside world, latest action outermost. */
  datatype Trace = Silent | Then(past: Trace, last: Action)

  /** The events one request contributed to a breaker's log, in order. */
  ghost function OwnEvents(log: History, me: nat): seq<Event> {
    match log
    case Start => []
    case After(past, e) => if e.who == me then OwnEvents(past, me) + [e] else OwnEvents(past, me)
  }

  class Environment {
    var now: Time
    ghost var trace: Trace

    constructor ()
    {
      now, trace := 0, Silent;
    }

    method Tick()
      modifies this`now
      ensures now >= old(now)
    {
      var d :| d >= 0;
      now := now + d;
    }

    method Call(ghost provider: string, ghost key: string) returns (reply: Reply)
      modifies this
      ensures now >= old(now)
      ensures trace == Then(old(trace), Called(provider, key, reply))
    {
      Tick();
      reply := *;
      trace := Then(trace, Called(provider, key, reply));
    }

    method Backoff(ms: nat) returns (cancelled: bool)
      modifies this
      ensures now >= old(now)
      ensures trace == Then(old(trace), if cancelled then Cut(ms) else Slept(ms))
    {
      Tick();
      cancelled := *;
      trace := Then(trace, if cancelled then Cut(ms) else Slept(ms));
    }

    /** Any number of breaker calls made by other requests. */
    method Others(cb: CircuitBreaker, ghost me: nat)
      requires cb.Valid() && cb.clock <= now
      modifies this`now, cb
      ensures now >= old(now)
      ensures cb.Valid() && cb.clock <= now
      ensures old(cb.asked) <= cb.asked
      ensures OwnEvents(cb.log, me) == OwnEvents(old(cb.log), me)
    {
      var n :| n >= 0;
      for i := 0 to n
        invariant now >= old(now)
        invariant cb.Valid() && cb.clock <= now
        invariant old(cb.asked) <= cb.asked
        invariant OwnEvents(cb.log, me) == OwnEvents(old(cb.log), me)
      {
        Tick();
        ghost var who: nat := if me == 0 then 1 else 0;
        ghost var before := cb.log;
        if * {
          var _ := cb.Allow(who, now);
        } else if * {
          cb.RecordSuccess(who);
        } else {
          cb.RecordFailure(who, now);
        }
      }
    }
  }

  // ---- The contract of one call ----------------------------------------------

  /**
   The trace after a retry loop that received exactly these replies: attempts at
   the upstream with growing backoffs in between, none before the first attempt.
   */
  ghost function Script(past: Trace, name: string, key: string, calls: seq<Reply>): Trace {
    if calls == [] then past
    else
      var n := |calls| - 1;
      Then(Rested(Script(past, name, key, calls[..n]), n), Called(name, key, calls[n]))
  }

  /** Attempt `n`, counted from 0, is preceded by a backoff unless it is the first. */
  ghost function Rested(past: Trace, n: nat): Trace {
    if n == 0 then past else Then(past, Slept(n * 500))
  }

  ghost function TraceAfter(past: Trace, name: string, key: string, calls: seq<Reply>, cut: bool): Trace {
    var done := Script(past, name, key, calls);
    if cut then Then(done, Cut(|calls| * 500)) else done
  }

  lemma ScriptStep(past: Trace, name: string, key: string, calls: seq<Reply>, reply: Reply)
    ensures Script(past, name, key, calls + [reply]) ==
            Then(Rested(Script(past, name, key, calls), |calls|), Called(name, key, reply))
  {
    assert (calls + [reply])[..|calls + [reply]| - 1] == calls;
  }

  /**
   The contract of a chat call once the breaker let it through.  `calls` are the
   upstream replies it got, `told` is what it told the breaker.
   */
  ghost predicate AdmittedContract(
    retries: nat, calls: seq<Reply>, cut: bool, res: Result<Response, CallError>, told: seq<Event>)
  {
    && 1 <= |calls| <= retries + 1
    && (forall i | 0 <= i < |calls| - 1 :: !Usable(calls[i]))
    && var last := calls[|calls| - 1];
       if cut then
         |calls| <= retries && !Usable(last) && res == Failure(Cancelled) && told == []
       else if Usable(last) then
         res.Success? && last.response == Some(res.value) &&
         |told| == 1 && told[0].Succeeded?
       else
         |calls| == retries + 1 && res == Failure(ErrorOf(last)) &&
         |told| == 1 && told[0].Failed?
  }

  /** The contract of a chat call as a whole; no upstream reply means it was rejected. */
  ghost predicate CallContract(
    retries: nat, calls: seq<Reply>, cut: bool, res: Result<Response, CallError>, told: seq<Event>)
  {
    if calls == []
    then !cut && res == Failure(CircuitOpen) && told == []
    else AdmittedContract(retries, calls, cut, res, told)
  }

  /** The outcome is recorded last of all, at the time it is then. */
  ghost predicate RecordedNow(told: seq<Event>, me: nat, now: Time) {
    forall i | 0 <= i < |told| :: told[i] == Succeeded(me) || told[i] == Failed(me, now)
  }

  // ---- What the contract says about calls, records and waiting ----------------

  /** Time spent backing off, in milliseconds, counting a cut backoff at its full length. */
  ghost function BackoffMs(t: Trace): nat {
    match t
    case Silent => 0
    case Then(past, last) => BackoffMs(past) + if last.Called? then 0 else last.ms
  }

  ghost function CallsMade(t: Trace): nat {
    match t
    case Silent => 0
    case Then(past, last) => CallsMade(past) + if last.Called? then 1 else 0
  }

  /** Upstream calls that did not go to this provider with this key. */
  ghost function CallsElsewhere(t: Trace, name: string, key: string): nat {
    match t
    case Silent => 0
    case Then(past, last) =>
      CallsElsewhere(past, name, key) +
      if last.Called? && !(last.provider == name && last.key == key) then 1 else 0
  }

  /** The first n backoffs together: 500ms, 1s, 1.5s, ... */
  ghost function TotalWait(n: nat): nat {
    250 * n * (n + 1)
  }

  lemma NextWait(n: nat)
    ensures TotalWait(n + 1) == TotalWait(n) + 500 * (n + 1)
  {
  }

  lemma {:induction false} LongerWait(n: nat, m: nat)
    requires n <= m
    ensures TotalWait(n) <= TotalWait(m)
  {
    if n < m {
      LongerWait(n, m - 1);
      NextWait(m - 1);
    }
  }

  lemma {:induction false} ScriptTotals(past: Trace, name: string, key: string, calls: seq<Reply>)
    ensures CallsMade(Script(past, name, key, calls)) == CallsMade(past) + |calls|
    ensures BackoffMs(Script(past, name, key, calls)) ==
            BackoffMs(past) + if calls == [] then 0 else TotalWait(|calls| - 1)
    ensures CallsElsewhere(Script(past, name, key, calls), name, key) == CallsElsewhere(past, name, key)
  {
    if calls != [] {
      var n := |calls| - 1;
      ScriptTotals(past, name, key, calls[..n]);
      if n > 0 {
        NextWait(n - 1);
      }
    }
  }

  /** The trace before its latest n actions. */
  ghost function Before(t: Trace, n: nat): Trace {
    if n == 0 || t.Silent? then t else Before(t.past, n - 1)
  }

  /**
   The replies came in this order, each to a call of this provider with this key, and
   before the i-th retry there was a full backoff of i times 500ms, and nothing else.
   */
  lemma {:induction false} ScriptInOrder(past: Trace, name: string, key: string, calls: seq<Reply>, i: nat)
    requires i < |calls|
    ensures var called := Before(Script(past, name, key, calls), 2 * (|calls| - 1 - i));
      && called.Then? && called.last == Called(name, key, calls[i])
      && called.past == if i == 0 then past else Then(Script(past, name, key, calls[..i]), Slept(500 * i))
  {
    var n := |calls| - 1;
    if i < n {
      ScriptInOrder(past, name, key, calls[..n], i);
      assert calls[..n][..i] == calls[..i];
      TwoActionsBefore(Script(past, name, key, calls[..n]), Slept(n * 500), Called(name, key, calls[n]), n - 1 - i);
    }
  }

  lemma TwoActionsBefore(t: Trace, first: Action, second: Action, n: nat)
    ensures Before(Then(Then(t, first), second), 2 * (n + 1)) == Before(t, 2 * n)
  {
    assert Before(Then(Then(t, first), second), 2 * n + 2) == Before(Then(t, first), 2 * n + 1);
  }

  /**
   Every call on a resilient provider makes at most retries + 1 upstream calls, all of
   this provider with this key, and the time it waits is fixed by their number.
   */
  lemma CallTotals(past: Trace, retries: nat, name: string, key: string, calls: seq<Reply>, cut: bool,
                   res: Result<Response, CallError>, told: seq<Event>)
    requires CallContract(retries, calls, cut, res, told)
    ensures CallsMade(TraceAfter(past, name, key, calls, cut)) == CallsMade(past) + |calls|
    ensures |calls| <= retries + 1
    ensures CallsElsewhere(TraceAfter(past, name, key, calls, cut), name, key) == CallsElsewhere(past, name, key)
    ensures BackoffMs(TraceAfter(past, name, key, calls, cut)) == BackoffMs(past) + TotalWait(Waits(calls, cut))
    ensures Waits(calls, cut) <= retries && TotalWait(Waits(calls, cut)) <= TotalWait(retries)
  {
    ScriptTotals(past, name, key, calls);
    LongerWait(Waits(calls, cut), retries);
    if cut && calls != [] {
      NextWait(|calls| - 1);
    }
  }

  /** A backoff before every attempt but the first, and one that was cut. */
  ghost function Waits(calls: seq<Reply>, cut: bool): nat {
    if cut || calls == [] then |calls| else |calls| - 1
  }

  /**
   The first reply that is not empty ends the call and is returned; without one, all
   retries + 1 attempts run and the last one's error is returned, unless the call was
   rejected or a backoff was cut.  A success is recorded exactly when a reply is returned,
   and a failure exactly when all attempts failed.
   */
  lemma CallConsequences(past: Trace, retries: nat, name: string, key: string, calls: seq<Reply>, cut: bool,
                         res: Result<Response, CallError>, told: seq<Event>)
    requires CallContract(retries, calls, cut, res, told)
    ensures CallsMade(TraceAfter(past, name, key, calls, cut)) <= CallsMade(past) + retries + 1
    ensures BackoffMs(TraceAfter(past, name, key, calls, cut)) <= BackoffMs(past) + 250 * retries * (retries + 1)
    ensures forall i | 0 <= i < |calls| && calls[i].Replied? && !IsEmptyOutput(calls[i].response) ::
      i == |calls| - 1 && !cut && res == Success(calls[i].response.value)
    ensures res.Success? ==> calls != [] && calls[|calls| - 1] == Replied(Some(res.value))
    ensures res.Success? ==> !IsEmptyOutput(Some(res.value))
    ensures res.Success? <==> |told| == 1 && told[0].Succeeded?
    ensures |told| == 1 && told[0].Failed? <==>
      && |calls| == retries + 1 && !cut
      && forall i | 0 <= i < |calls| :: calls[i].Errored? || IsEmptyOutput(calls[i].response)
    ensures |told| == 1 && told[0].Failed? ==>
      res == Failure(if calls[retries].Errored? then Upstream(calls[retries].error) else EmptyOutput)
    ensures told == [] <==> calls == [] || cut
    ensures told == [] ==> res == Failure(if cut then Cancelled else CircuitOpen)
    ensures |told| <= 1
  {
    CallTotals(past, retries, name, key, calls, cut, res, told);
  }

  class ResilientProvider {
    const name: string
    const retries: nat
    const cb: CircuitBreaker

    constructor (name: string, ghost now: Time)
      ensures fresh(cb) && cb.Valid() && cb.log == Start && cb.clock == now
      ensures this.name == name && retries == 2
      ensures cb.threshold == 5 && cb.resetTimeout == 30_000_000_000
    {
      this.name := name;
      this.retries := 2;
      this.cb := new CircuitBreaker(5, 30_000_000_000, now);
    }

    /**
     Attempt `n`, after its backoff if it is not the first: one upstream call, during
     which other requests may use the breaker.  No reply means the backoff was cut.
     */
    method Attempt(env: Environment, ghost me: nat, apiKey: string, n: nat) returns (reply: Option<Reply>)
      requires cb.Valid() && cb.clock <= env.now
      modifies env, cb
      ensures cb.Valid() && cb.clock <= env.now && env.now >= old(env.now)
      ensures old(cb.asked) <= cb.asked && OwnEvents(cb.log, me) == OwnEvents(old(cb.log), me)
      ensures match reply
              case None => n > 0 && env.trace == Then(old(env.trace), Cut(n * 500))
              case Some(r) => env.trace == Then(Rested(old(env.trace), n), Called(name, apiKey, r))
    {
      if n > 0 {
        var cancelled := env.Backoff(n * 500);
        if cancelled {
          return None;
        }
      }
      var r := env.Call(name, apiKey);
      env.Others(cb, me);
      return Some(r);
    }

    /** Tell the breaker how the whole call went. */
    method Report(env: Environment, ghost me: nat, success: bool) returns (ghost said: Event)
      requires cb.Valid() && cb.clock <= env.now
      modifies env`now, cb
      ensures cb.Valid() && cb.clock <= env.now && env.now >= old(env.now)
      ensures old(cb.asked) <= cb.asked && OwnEvents(cb.log, me) == OwnEvents(old(cb.log), me) + [said]
      ensures said == if success then Succeeded(me) else Failed(me, env.now)
    {
      env.Tick();
      if success {
        cb.RecordSuccess(me);
        said := Succeeded(me);
      } else {
        cb.RecordFailure(me, env.now);
        said := Failed(me, env.now);
      }
    }

    /** The retry loop, entered once the breaker has let the request through. */
    method Retry(env: Environment, ghost me: nat, apiKey: string)
      returns (res: Result<Response, CallError>, ghost calls: seq<Reply>, ghost cut: bool, ghost told: seq<Event>)
      requires cb.Valid() && cb.clock <= env.now
      modifies env, cb
      ensures cb.Valid() && cb.clock <= env.now && env.now >= old(env.now)
      ensures old(cb.asked) <= cb.asked && OwnEvents(cb.log, me) == OwnEvents(old(cb.log), me) + told
      ensures env.trace == TraceAfter(old(env.trace), name, apiKey, calls, cut)
      ensures AdmittedContract(retries, calls, cut, res, told)
      ensures RecordedNow(told, me, env.now)
    {
      calls, told := [], [];
      var lastErr := EmptyOutput;
      var attempt := 0;
      while attempt <= retries
        invariant 0 <= attempt == |calls| <= retries + 1
        invariant cb.Valid() && cb.clock <= env.now && env.now >= old(env.now)
        invariant old(cb.asked) <= cb.asked && OwnEvents(cb.log, me) == OwnEvents(old(cb.log), me)
        invariant env.trace == Script(old(env.trace), name, apiKey, calls)
        invariant forall i | 0 <= i < attempt :: !Usable(calls[i])
        invariant attempt > 0 ==> lastErr == ErrorOf(calls[attempt - 1])
      {
        var reply := Attempt(env, me, apiKey, attempt);
        if reply.None? {
          return Failure(Cancelled), calls, true, told;
        }
        ScriptStep(old(env.trace), name, apiKey, calls, reply.value);
        calls := calls + [reply.value];
        if Usable(reply.value) {
          ghost var said := Report(env, me, true);
          return Success(reply.value.response.value), calls, false, [said];
        }
        lastErr := ErrorOf(reply.value);
        attempt := attempt + 1;
      }
      ghost var said := Report(env, me, false);
      return Failure(lastErr), calls, false, [said];
    }

    /**
     One chat call, whatever the upstream does and whatever other requests do to the
     breaker meanwhile.  `askedAt` is the clock reading at its admission.
     */
    method ChatCompletion(env: Environment, ghost me: nat, apiKey: string)
      returns (res: Result<Response, CallError>,
               ghost calls: seq<Reply>, ghost cut: bool, ghost told: seq<Event>, ghost askedAt: Time)
      requires cb.Valid() && cb.clock <= env.now
      modifies env, cb
      ensures cb.Valid() && cb.clock <= env.now && env.now >= old(env.now)
      ensures old(cb.asked) + {Question(me, old(cb.log), askedAt)} <= cb.asked
      ensures OwnEvents(cb.log, me) == OwnEvents(old(cb.log), me) + [Asked(me, askedAt)] + told
      ensures env.trace == TraceAfter(old(env.trace), name, apiKey, calls, cut)
      ensures calls == [] <==> Rejects(cb.threshold, cb.resetTimeout, old(cb.log), askedAt)
      ensures CallContract(retries, calls, cut, res, told)
      ensures RecordedNow(told, me, env.now) && old(env.now) <= askedAt <= env.now
    {
      calls, cut, told := [], false, [];
      env.Tick();
      askedAt := env.now;
      var ok := cb.Allow(me, env.now);
      if !ok {
        return Failure(CircuitOpen), calls, cut, told, askedAt;
      }
      res, calls, cut, told := Retry(env, me, apiKey);
    }

    /** Opening a stream: one upstream call, no retry, its outcome always recorded. */
    method ChatCompletionStream(env: Environment, ghost me: nat, apiKey: string)
      returns (res: Result<Option<Response>, CallError>,
               ghost calls: seq<Reply>, ghost told: seq<Event>, ghost askedAt: Time)
      requires cb.Valid() && cb.clock <= env.now
      modifies env, cb
      ensures cb.Valid() && cb.clock <= env.now && env.now >= old(env.now)
      ensures old(cb.asked) + {Question(me, old(cb.log), askedAt)} <= cb.asked
      ensures OwnEvents(cb.log, me) == OwnEvents(old(cb.log), me) + [Asked(me, askedAt)] + told
      ensures env.trace == StreamTrace(old(env.trace), name, apiKey, calls)
      ensures calls == [] <==> Rejects(cb.threshold, cb.resetTimeout, old(cb.log), askedAt)
      ensures StreamContract(calls, res, told)
      ensures RecordedNow(told, me, env.now) && old(env.now) <= askedAt <= env.now
    {
      calls, told := [], [];
      env.Tick();
      askedAt := env.now;
      var ok := cb.Allow(me, env.now);
      if !ok {
        return Failure(CircuitOpen), calls, told, askedAt;
      }
      res, calls, told := OpenStream(env, me, apiKey);
    }

    method OpenStream(env: Environment, ghost me: nat, apiKey: string)
      returns (res: Result<Option<Response>, CallError>, ghost calls: seq<Reply>, ghost told: seq<Event>)
      requires cb.Valid() && cb.clock <= env.now
      modifies env, cb
      ensures cb.Valid() && cb.clock <= env.now && env.now >= old(env.now)
      ensures old(cb.asked) <= cb.asked && OwnEvents(cb.log, me) == OwnEvents(old(cb.log), me) + told
      ensures env.trace == StreamTrace(old(env.trace), name, apiKey, calls)
      ensures calls != [] && StreamContract(calls, res, told)
      ensures RecordedNow(told, me, env.now)
    {
      var attempt := Attempt(env, me, apiKey, 0);
      var reply := attempt.value;
      calls := [reply];
      ghost var said := Report(env, me, reply.Replied?);
      told := [said];
      res := if reply.Errored? then Failure(Upstream(reply.error)) else Success(reply.response);
    }
  }

  /** The trace of opening a stream: at most one upstream call. */
  ghost function StreamTrace(past: Trace, name: string, key: string, calls: seq<Reply>): Trace {
    if calls == [] then past else Then(past, Called(name, key, calls[0]))
  }

  /** A stream open is never retried, and an empty body is not looked at. */
  ghost predicate StreamContract(
    calls: seq<Reply>, res: Result<Option<Response>, CallError>, told: seq<Event>)
  {
    if calls == [] then
      res == Failure(CircuitOpen) && told == []
    else
      && |calls| == 1 && |told| == 1
      && match calls[0]
         case Errored(error) => told[0].Failed? && res == Failure(Upstream(error))
         case Replied(response) => told[0].Succeeded? && res == Success(response)
  }

  /** Opening a stream calls the upstream at most once, and tells the breaker how that went. */
  lemma StreamConsequences(past: Trace, name: string, key: string, calls: seq<Reply>,
                           res: Result<Option<Response>, CallError>, told: seq<Event>)
    requires StreamContract(calls, res, told)
    ensures CallsMade(StreamTrace(past, name, key, calls)) == CallsMade(past) + |calls| <= CallsMade(past) + 1
    ensures CallsElsewhere(StreamTrace(past, name, key, calls), name, key) == CallsElsewhere(past, name, key)
    ensures BackoffMs(StreamTrace(past, name, key, calls)) == BackoffMs(past)
    ensures forall reply | calls == [Replied(reply)] :: res == Success(reply)
    ensures forall error | calls == [Errored(error)] :: res == Failure(Upstream(error))
    ensures calls == [] <==> told == []
    ensures calls == [] ==> res == Failure(CircuitOpen)
    ensures res.Success? <==> |told| == 1 && told[0].Succeeded?
    ensures res.Failure? && calls != [] <==> |told| == 1 && told[0].Failed?
  {
  }
}
