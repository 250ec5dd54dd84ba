/**
 The concurrency limit of one provider (infra/provider/concurrency.go).

 A step is one operation on the semaphore.  A unary call holds a permit while the inner
 call runs; a streaming call holds one while the stream is being opened, and the stream
 it returns holds it until its first Close.
 */
module Permits {
  import opened Sums

  datatype Call =
    | InUnary
    | Opening
    | Streaming(released: bool)
    | Over        // a finished unary call, or a stream that could not be opened
    | Refused     // no permit was free

  /** `held` is the semaphore's count. */
  datatype State = State(held: int, calls: seq<Call>)

  const IDLE := State(0, [])

  datatype Step =
    | StartUnary
    | FinishUnary(i: nat)
    | StartStream
    | OpenFailed(i: nat)
    | Opened(i: nat)
    | Close(i: nat)

  predicate Enabled(s: State, step: Step) {
    match step
    case StartUnary => true
    case FinishUnary(i) => i < |s.calls| && s.calls[i].InUnary?
    case StartStream => true
    case OpenFailed(i) => i < |s.calls| && s.calls[i].Opening?
    case Opened(i) => i < |s.calls| && s.calls[i].Opening?
    case Close(i) => i < |s.calls| && s.calls[i].Streaming?
  }

  function Next(limit: int, s: State, step: Step): State
    requires Enabled(s, step)
  {
    match step
    case StartUnary =>
      if s.held < limit then State(s.held + 1, s.calls + [InUnary]) else s.(calls := s.calls + [Refused])
    case FinishUnary(i) => State(s.held - 1, s.calls[i := Over])
    case StartStream =>
      if s.held < limit then State(s.held + 1, s.calls + [Opening]) else s.(calls := s.calls + [Refused])
    case OpenFailed(i) => State(s.held - 1, s.calls[i := Over])
    case Opened(i) => s.(calls := s.calls[i := Streaming(false)])
    case Close(i) =>
      if s.calls[i].released then s else State(s.held - 1, s.calls[i := Streaming(true)])
  }

  predicate Holds(c: Call) {
    c.InUnary? || c.Opening? || (c.Streaming? && !c.released)
  }

  function PermitsOf(c: Call): int {
    if Holds(c) then 1 else 0
  }

  /** Unary calls in flight, streams being opened, and streams not yet closed. */
  function Holders(calls: seq<Call>): int {
    Sum(PermitsOf, calls)
  }

  /** Every permit out belongs to exactly one piece of work, and there are no more than the limit. */
  predicate Sound(limit: int, s: State) {
    s.held == Holders(s.calls) && s.held <= (if limit > 0 then limit else 0)
  }

  lemma NextStaysSound(limit: int, s: State, step: Step)
    requires Sound(limit, s) && Enabled(s, step)
    ensures Sound(limit, Next(limit, s, step))
  {
    var t := Next(limit, s, step);
    match step
    case StartUnary => SumAppend(PermitsOf, s.calls, t.calls[|s.calls|]);
    case StartStream => SumAppend(PermitsOf, s.calls, t.calls[|s.calls|]);
    case FinishUnary(i) => SumUpdate(PermitsOf, s.calls, i, t.calls[i]);
    case OpenFailed(i) => SumUpdate(PermitsOf, s.calls, i, t.calls[i]);
    case Opened(i) => SumUpdate(PermitsOf, s.calls, i, t.calls[i]);
    case Close(i) => SumUpdate(PermitsOf, s.calls, i, t.calls[i]);
  }

  /** A step that is not enabled does not happen. */
  function Apply(limit: int, s: State, step: Step): State {
    if Enabled(s, step) then Next(limit, s, step) else s
  }

  function ApplyUpTo(limit: int, s: State, steps: seq<Step>, n: nat): State
    requires n <= |steps|
  {
    if n == 0 then s else Apply(limit, ApplyUpTo(limit, s, steps, n - 1), steps[n - 1])
  }

  /** In every interleaving the permits out are those of the work in flight, and never exceed the limit. */
  lemma {:induction false} EveryRunIsSound(limit: int, steps: seq<Step>, n: nat)
    requires n <= |steps|
    ensures Sound(limit, ApplyUpTo(limit, IDLE, steps, n))
  {
    if n > 0 {
      EveryRunIsSound(limit, steps, n - 1);
      var s := ApplyUpTo(limit, IDLE, steps, n - 1);
      if Enabled(s, steps[n - 1]) {
        NextStaysSound(limit, s, steps[n - 1]);
      }
    }
  }

  lemma {:induction false} SomeHolder(calls: seq<Call>, n: nat, i: nat)
    requires i < n <= |calls| && Holds(calls[i])
    ensures SumUpTo(PermitsOf, calls, n) > 0
  {
    if i < n - 1 {
      SomeHolder(calls, n - 1, i);
    } else {
      SumNotNegative(PermitsOf, calls, i);
    }
  }

  /** All permits are back exactly when all work has ended and every stream was closed. */
  lemma PermitsReturn(limit: int, steps: seq<Step>)
    ensures var s := ApplyUpTo(limit, IDLE, steps, |steps|);
      s.held == 0 <==> forall i | 0 <= i < |s.calls| :: !Holds(s.calls[i])
  {
    var s := ApplyUpTo(limit, IDLE, steps, |steps|);
    EveryRunIsSound(limit, steps, |steps|);
    if forall i | 0 <= i < |s.calls| :: !Holds(s.calls[i]) {
      SumIsZero(PermitsOf, s.calls, |s.calls|);
    } else {
      var i :| 0 <= i < |s.calls| && Holds(s.calls[i]);
      SomeHolder(s.calls, |s.calls|, i);
    }
  }

  /** A call that gets no permit fails at once, and only when the limit is used up. */
  lemma RefusedOnlyAtCapacity(limit: int, s: State, step: Step)
    requires Sound(limit, s) && (step.StartUnary? || step.StartStream?)
    ensures var t := Next(limit, s, step);
      t.calls[|s.calls|] == Refused <==> Holders(s.calls) >= limit
  {
  }

  /** Whatever happens between two Close calls of one stream, the second releases nothing. */
  lemma {:induction false} ClosedStaysClosed(limit: int, s: State, steps: seq<Step>, n: nat, i: nat)
    requires n <= |steps| && i < |s.calls| && s.calls[i] == Streaming(true)
    ensures var t := ApplyUpTo(limit, s, steps, n);
      i < |t.calls| && t.calls[i] == Streaming(true) && Apply(limit, t, Close(i)) == t
  {
    if n > 0 {
      ClosedStaysClosed(limit, s, steps, n - 1, i);
    }
  }

  // ---- The wrapper ---------------------------------------------------------------------------

  /** The call a step belongs to; new calls belong to nobody yet. */
  predicate Moves(step: Step, i: nat) {
    match step
    case StartUnary => false
    case StartStream => false
    case FinishUnary(k) => k == i
    case OpenFailed(k) => k == i
    case Opened(k) => k == i
    case Close(k) => k == i
  }

  ghost predicate NotMine(steps: seq<Step>, i: nat) {
    forall k | 0 <= k < |steps| :: !Moves(steps[k], i)
  }

  lemma {:induction false} OthersLeaveMine(limit: int, s: State, steps: seq<Step>, n: nat, i: nat)
    requires n <= |steps| && i < |s.calls| && NotMine(steps, i) && Sound(limit, s)
    ensures var t := ApplyUpTo(limit, s, steps, n);
      i < |t.calls| && t.calls[i] == s.calls[i] && Sound(limit, t)
  {
    if n > 0 {
      OthersLeaveMine(limit, s, steps, n - 1, i);
      var t := ApplyUpTo(limit, s, steps, n - 1);
      if Enabled(t, steps[n - 1]) {
        NextStaysSound(limit, t, steps[n - 1]);
      }
    }
  }

  class ConcurrencyLimitedProvider {
    const limit: int
    var held: int
    var calls: seq<Call>   // bookkeeping: every call so far

    function Now(): State
      reads this
    {
      State(held, calls)
    }

    ghost predicate Valid()
      reads this
    {
      Sound(limit, Now())
    }

    constructor (limit: int)
      ensures Valid() && this.limit == limit && Now() == IDLE
    {
      this.limit := limit;
      held, calls := 0, [];
    }

    method TryAcquire() returns (ok: bool)
      modifies this`held
      ensures ok == (old(held) < limit)
      ensures held == old(held) + if ok then 1 else 0
    {
      ok := held < limit;
      if ok {
        held := held + 1;
      }
    }

    /** Releasing a permit that is not out would panic. */
    method Release()
      requires held > 0
      modifies this`held
      ensures held == old(held) - 1
    {
      held := held - 1;
    }

    /** Other callers at work while this one waits for its provider. */
    method Others(steps: seq<Step>)
      modifies this
      ensures Now() == ApplyUpTo(limit, old(Now()), steps, |steps|)
    {
      for n := 0 to |steps|
        invariant Now() == ApplyUpTo(limit, old(Now()), steps, n)
      {
        var t := Apply(limit, Now(), steps[n]);
        held, calls := t.held, t.calls;
      }
    }

    /** `others` is what other callers do while the inner call runs. */
    method ChatCompletion(others: seq<Step>) returns (admitted: bool)
      requires Valid() && NotMine(others, |calls|)
      modifies this
      ensures Valid() && admitted == (old(held) < limit)
      ensures var start := Next(limit, old(Now()), StartUnary);
        Now() == if admitted then Apply(limit, ApplyUpTo(limit, start, others, |others|), FinishUnary(|old(calls)|))
                 else start
    {
      NextStaysSound(limit, Now(), StartUnary);
      var i := |calls|;
      admitted := TryAcquire();
      if !admitted {
        calls := calls + [Refused];
        return;
      }
      calls := calls + [InUnary];
      OthersLeaveMine(limit, Now(), others, |others|, i);
      Others(others);
      NextStaysSound(limit, Now(), FinishUnary(i));
      SomeHolder(calls, |calls|, i);
      Release();
      calls := calls[i := Over];
    }

    /** `opens` is whether the inner provider returns a stream. */
    method ChatCompletionStream(others: seq<Step>, opens: bool) returns (stream: SemaphoreReleasingReader?)
      requires Valid() && NotMine(others, |calls|)
      modifies this
      ensures Valid()
      ensures stream != null <==> opens && old(held) < limit
      ensures stream != null ==> fresh(stream) && stream.Owns(this) && !stream.released && stream.call == |old(calls)|
      ensures var start, i := Next(limit, old(Now()), StartStream), |old(calls)|;
        Now() == if old(held) < limit
                 then Apply(limit, ApplyUpTo(limit, start, others, |others|),
                            if opens then Opened(i) else OpenFailed(i))
                 else start
    {
      NextStaysSound(limit, Now(), StartStream);
      var i := |calls|;
      var admitted := TryAcquire();
      if !admitted {
        calls := calls + [Refused];
        return null;
      }
      calls := calls + [Opening];
      OthersLeaveMine(limit, Now(), others, |others|, i);
      Others(others);
      if !opens {
        NextStaysSound(limit, Now(), OpenFailed(i));
        SomeHolder(calls, |calls|, i);
        Release();
        calls := calls[i := Over];
        return null;
      }
      NextStaysSound(limit, Now(), Opened(i));
      calls := calls[i := Streaming(false)];
      stream := new SemaphoreReleasingReader(this, i);
    }
  }

  class SemaphoreReleasingReader {
    const provider: ConcurrencyLimitedProvider
    const call: nat
    var released: bool

    /** The flag agrees with the bookkeeping of the call this stream came from. */
    ghost predicate Owns(p: ConcurrencyLimitedProvider)
      reads this, p
    {
      p == provider && p.Valid() && call < |p.calls| && p.calls[call] == Streaming(released)
    }

    constructor (provider: ConcurrencyLimitedProvider, call: nat)
      requires provider.Valid() && call < |provider.calls| && provider.calls[call] == Streaming(false)
      ensures Owns(provider) && !released && this.call == call && this.provider == provider
    {
      this.provider, this.call := provider, call;
      released := false;
    }

    /** Only the first Close releases. */
    method Close()
      requires Owns(provider)
      modifies this, provider
      ensures Owns(provider) && released
      ensures provider.Now() == Next(provider.limit, old(provider.Now()), Step.Close(call))
      ensures provider.held == old(provider.held) - if old(released) then 0 else 1
    {
      NextStaysSound(provider.limit, provider.Now(), Step.Close(call));
      if !released {
        SomeHolder(provider.calls, |provider.calls|, call);
        provider.Release();
        provider.calls := provider.calls[call := Streaming(true)];
        released := true;
      }
    }
  }
}
