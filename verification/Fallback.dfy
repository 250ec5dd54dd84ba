/**
 Ordered failover over resilient providers (infra/provider/fallback.go).

 The same provider may occur twice in a chain, and while one member is being called
 other requests may use the breakers of the rest.
 */
module Fallback {
  import opened CircuitBreaking
  import opened Resilience
  import opened Wrappers

  /**
   How one member's turn went: the outside world before and after it, its breaker's
   history when it was asked, and what came of it.
   */
  datatype Visit<T> = Visit(
    before: Trace, after: Trace, log: History, askedAt: Time,
    calls: seq<Reply>, cut: bool, told: seq<Event>, res: Result<T, CallError>)

  /** What the registry and chains hold: in Go, any value of the provider interface. */
  datatype Provider = Direct(resilient: ResilientProvider) | Group(chain: FallbackProvider)

  predicate AllDirect(providers: seq<Provider>) {
    forall i | 0 <= i < |providers| :: providers[i].Direct?
  }

  datatype ChainError = AllFailed(group: string, last: Option<CallError>)

  /** Between the members' turns nothing was done to the outside world. */
  ghost predicate Linked<T>(past: Trace, visits: seq<Visit<T>>, final: Trace) {
    && (forall i | 0 < i < |visits| :: visits[i].before == visits[i - 1].after)
    && (if visits == [] then final == past
        else visits[0].before == past && visits[|visits| - 1].after == final)
  }

  /** A member makes no upstream call exactly when its breaker rejects the request. */
  ghost predicate AskedProperly<T>(member: ResilientProvider, v: Visit<T>) {
    v.calls == [] <==> Rejects(member.cb.threshold, member.cb.resetTimeout, v.log, v.askedAt)
  }

  /** One member's chat turn: only its own upstream is called, with the given key. */
  ghost predicate ChatVisit(member: ResilientProvider, key: string, v: Visit<Response>) {
    && AskedProperly(member, v)
    && v.after == TraceAfter(v.before, member.name, key, v.calls, v.cut)
    && CallContract(member.retries, v.calls, v.cut, v.res, v.told)
  }

  ghost predicate StreamVisit(member: ResilientProvider, key: string, v: Visit<Option<Response>>) {
    && AskedProperly(member, v)
    && v.after == StreamTrace(v.before, member.name, key, v.calls)
    && StreamContract(v.calls, v.res, v.told)
  }

  ghost predicate NoneYet<T>(visits: seq<Visit<T>>) {
    forall i | 0 <= i < |visits| :: visits[i].res.Failure?
  }

  /** The chain stops at the first success, else it has asked everybody and failed. */
  ghost predicate FirstSuccess<T>(group: FallbackProvider, visits: seq<Visit<T>>, res: Result<T, ChainError>) {
    && |visits| <= |group.members|
    && NoneYet(if visits == [] then [] else visits[..|visits| - 1])
    && match res
       case Success(value) =>
         visits != [] && visits[|visits| - 1].res == Success(value)
       case Failure(error) =>
         && |visits| == |group.members|
         && (visits != [] ==> visits[|visits| - 1].res.Failure?)
         && error == AllFailed(group.name,
              if visits == [] then None else Some(visits[|visits| - 1].res.error))
  }

  ghost function LastError<T>(visits: seq<Visit<T>>): Option<CallError>
    requires NoneYet(visits)
  {
    if visits == [] then None else Some(visits[|visits| - 1].res.error)
  }

  lemma OneMoreFails<T>(visits: seq<Visit<T>>, v: Visit<T>)
    requires NoneYet(visits) && v.res.Failure?
    ensures NoneYet(visits + [v]) && LastError(visits + [v]) == Some(v.res.error)
  {
  }

  lemma StopsAtSuccess<T>(group: FallbackProvider, failed: seq<Visit<T>>, v: Visit<T>)
    requires |failed| < |group.members| && NoneYet(failed) && v.res.Success?
    ensures FirstSuccess(group, failed + [v], Success(v.res.value))
  {
    assert (failed + [v])[..|failed|] == failed;
  }

  lemma EverybodyFailed<T>(group: FallbackProvider, visits: seq<Visit<T>>)
    requires |visits| == |group.members| && NoneYet(visits)
    ensures FirstSuccess(group, visits, Failure(AllFailed(group.name, LastError(visits))))
  {
  }

  class FallbackProvider {
    const name: string
    const providers: seq<Provider>
    const apiKeys: map<string, string>
    ghost const members: seq<ResilientProvider>
    ghost const breakers: set<CircuitBreaker>

    /** Every provider of the chain is a resilient one, and `breakers` covers their breakers. */
    ghost predicate Valid() {
      && |members| == |providers|
      && forall i | 0 <= i < |providers| :: providers[i] == Direct(members[i]) && members[i].cb in breakers
    }

    /** Every breaker is sound and has seen no time later than `now`. */
    ghost predicate Ready(now: Time)
      reads breakers
    {
      forall cb | cb in breakers :: cb.Valid() && cb.clock <= now
    }

    /** Registration builds chains of resilient providers only; the registry's module shows it. */
    constructor (name: string, providers: seq<Provider>, apiKeys: map<string, string>)
      requires AllDirect(providers)
      ensures Valid()
      ensures this.name == name && this.providers == providers && this.apiKeys == apiKeys
      ensures breakers == set p | p in members :: p.cb
    {
      ghost var all := seq(|providers|, i requires 0 <= i < |providers| => providers[i].resilient);
      this.name, this.providers, this.apiKeys := name, providers, apiKeys;
      members := all;
      breakers := set p | p in all :: p.cb;
    }

    /** A member's own key when one is configured, otherwise the caller's. */
    function KeyFor(member: string, apiKey: string): string {
      if member in apiKeys then apiKeys[member] else apiKey
    }

    /** Every visit's question was really put to its member's breaker, on that log. */
    ghost predicate Logged<T>(me: nat, visits: seq<Visit<T>>)
      requires Valid()
      reads breakers
    {
      |visits| <= |members| &&
      forall j | 0 <= j < |visits| ::
        Question(me, visits[j].log, visits[j].askedAt) in members[j].cb.asked
    }

    /** The visits kept their members' contracts and account for everything done outside. */
    ghost predicate ChatVisits(apiKey: string, past: Trace, visits: seq<Visit<Response>>, final: Trace) {
      && |visits| <= |members|
      && Linked(past, visits, final)
      && forall i | 0 <= i < |visits| :: ChatVisit(members[i], KeyFor(members[i].name, apiKey), visits[i])
    }

    lemma ChatVisitsStep(apiKey: string, past: Trace, visits: seq<Visit<Response>>, v: Visit<Response>)
      requires |visits| < |members| && ChatVisits(apiKey, past, visits, v.before)
      requires ChatVisit(members[|visits|], KeyFor(members[|visits|].name, apiKey), v)
      ensures ChatVisits(apiKey, past, visits + [v], v.after)
    {
      var all := visits + [v];
      forall i | 0 <= i < |all|
        ensures ChatVisit(members[i], KeyFor(members[i].name, apiKey), all[i])
      {
      }
    }

    /** What holds of the members visited so far. */
    ghost predicate ChatProgress(me: nat, apiKey: string, past: Trace, visits: seq<Visit<Response>>, final: Trace)
      requires Valid()
      reads breakers
    {
      && Logged(me, visits)
      && ChatVisits(apiKey, past, visits, final)
    }

    method VisitMember(member: ResilientProvider, env: Environment, ghost me: nat, key: string)
      returns (r: Result<Response, CallError>, ghost v: Visit<Response>)
      requires member.cb.Valid() && member.cb.clock <= env.now
      modifies env, member.cb
      ensures member.cb.Valid() && member.cb.clock <= env.now && env.now >= old(env.now)
      ensures old(member.cb.asked) + {Question(me, v.log, v.askedAt)} <= member.cb.asked
      ensures v.before == old(env.trace) && v.after == env.trace && v.res == r
      ensures ChatVisit(member, key, v)
    {
      env.Others(member.cb, me);
      ghost var log := member.cb.log;
      ghost var calls, cut, told, askedAt;
      r, calls, cut, told, askedAt := member.ChatCompletion(env, me, key);
      v := Visit(old(env.trace), env.trace, log, askedAt, calls, cut, told, r);
    }

    /** The next member's turn, after whatever others did to its breaker meanwhile. */
    method VisitNext(i: nat, env: Environment, ghost me: nat, apiKey: string, ghost past: Trace,
                ghost visits: seq<Visit<Response>>)
      returns (r: Result<Response, CallError>, ghost v: Visit<Response>)
      requires i == |visits| < |members| && Valid() && Ready(env.now)
      requires ChatProgress(me, apiKey, past, visits, env.trace)
      modifies env, members[i].cb
      ensures Ready(env.now) && env.now >= old(env.now)
      ensures ChatProgress(me, apiKey, past, visits + [v], env.trace)
      ensures v.res == r
    {
      r, v := VisitMember(providers[i].resilient, env, me, KeyFor(providers[i].resilient.name, apiKey));
      ChatVisitsStep(apiKey, past, visits, v);
    }

    method ChatCompletion(env: Environment, ghost me: nat, apiKey: string)
      returns (res: Result<Response, ChainError>, ghost visits: seq<Visit<Response>>)
      requires Valid() && Ready(env.now)
      modifies env, breakers
      ensures Ready(env.now) && env.now >= old(env.now)
      ensures FirstSuccess(this, visits, res)
      ensures ChatProgress(me, apiKey, old(env.trace), visits, env.trace)
    {
      var lastErr: Option<CallError> := None;
      visits := [];
      var i := 0;
      while i < |providers|
        invariant 0 <= i == |visits| <= |members|
        invariant Ready(env.now) && env.now >= old(env.now)
        invariant ChatProgress(me, apiKey, old(env.trace), visits, env.trace)
        invariant NoneYet(visits) && lastErr == LastError(visits)
      {
        var r, v := VisitNext(i, env, me, apiKey, old(env.trace), visits);
        ghost var failed := visits;
        visits := visits + [v];
        if r.Success? {
          StopsAtSuccess(this, failed, v);
          return Success(r.value), visits;
        }
        OneMoreFails(failed, v);
        lastErr := Some(r.error);
        i := i + 1;
      }
      EverybodyFailed(this, visits);
      return Failure(AllFailed(name, lastErr)), visits;
    }

    /** The visits kept their members' contracts and account for everything done outside. */
    ghost predicate StreamVisits(apiKey: string, past: Trace, visits: seq<Visit<Option<Response>>>, final: Trace) {
      && |visits| <= |members|
      && Linked(past, visits, final)
      && forall i | 0 <= i < |visits| :: StreamVisit(members[i], KeyFor(members[i].name, apiKey), visits[i])
    }

    lemma StreamVisitsStep(
        apiKey: string, past: Trace, visits: seq<Visit<Option<Response>>>, v: Visit<Option<Response>>)
      requires |visits| < |members| && StreamVisits(apiKey, past, visits, v.before)
      requires StreamVisit(members[|visits|], KeyFor(members[|visits|].name, apiKey), v)
      ensures StreamVisits(apiKey, past, visits + [v], v.after)
    {
      var all := visits + [v];
      forall i | 0 <= i < |all|
        ensures StreamVisit(members[i], KeyFor(members[i].name, apiKey), all[i])
      {
      }
    }

    /** What holds of the members visited so far. */
    ghost predicate StreamProgress(
        me: nat, apiKey: string, past: Trace, visits: seq<Visit<Option<Response>>>, final: Trace)
      requires Valid()
      reads breakers
    {
      && Logged(me, visits)
      && StreamVisits(apiKey, past, visits, final)
    }

    method VisitMemberStream(member: ResilientProvider, env: Environment, ghost me: nat, key: string)
      returns (r: Result<Option<Response>, CallError>, ghost v: Visit<Option<Response>>)
      requires member.cb.Valid() && member.cb.clock <= env.now
      modifies env, member.cb
      ensures member.cb.Valid() && member.cb.clock <= env.now && env.now >= old(env.now)
      ensures old(member.cb.asked) + {Question(me, v.log, v.askedAt)} <= member.cb.asked
      ensures v.before == old(env.trace) && v.after == env.trace && v.res == r
      ensures StreamVisit(member, key, v)
    {
      env.Others(member.cb, me);
      ghost var log := member.cb.log;
      ghost var calls, told, askedAt;
      r, calls, told, askedAt := member.ChatCompletionStream(env, me, key);
      v := Visit(old(env.trace), env.trace, log, askedAt, calls, false, told, r);
    }

    /** The same for opening a stream. */
    method VisitNextStream(i: nat, env: Environment, ghost me: nat, apiKey: string, ghost past: Trace,
                ghost visits: seq<Visit<Option<Response>>>)
      returns (r: Result<Option<Response>, CallError>, ghost v: Visit<Option<Response>>)
      requires i == |visits| < |members| && Valid() && Ready(env.now)
      requires StreamProgress(me, apiKey, past, visits, env.trace)
      modifies env, members[i].cb
      ensures Ready(env.now) && env.now >= old(env.now)
      ensures StreamProgress(me, apiKey, past, visits + [v], env.trace)
      ensures v.res == r
    {
      r, v := VisitMemberStream(providers[i].resilient, env, me, KeyFor(providers[i].resilient.name, apiKey));
      StreamVisitsStep(apiKey, past, visits, v);
    }

    method ChatCompletionStream(env: Environment, ghost me: nat, apiKey: string)
      returns (res: Result<Option<Response>, ChainError>, ghost visits: seq<Visit<Option<Response>>>)
      requires Valid() && Ready(env.now)
      modifies env, breakers
      ensures Ready(env.now) && env.now >= old(env.now)
      ensures FirstSuccess(this, visits, res)
      ensures StreamProgress(me, apiKey, old(env.trace), visits, env.trace)
    {
      var lastErr: Option<CallError> := None;
      visits := [];
      var i := 0;
      while i < |providers|
        invariant 0 <= i == |visits| <= |members|
        invariant Ready(env.now) && env.now >= old(env.now)
        invariant StreamProgress(me, apiKey, old(env.trace), visits, env.trace)
        invariant NoneYet(visits) && lastErr == LastError(visits)
      {
        var r, v := VisitNextStream(i, env, me, apiKey, old(env.trace), visits);
        ghost var failed := visits;
        visits := visits + [v];
        if r.Success? {
          StopsAtSuccess(this, failed, v);
          return Success(r.value), visits;
        }
        OneMoreFails(failed, v);
        lastErr := Some(r.error);
        i := i + 1;
      }
      EverybodyFailed(this, visits);
      return Failure(AllFailed(name, lastErr)), visits;
    }
  }

  /**
   A chain stops at the first member that succeeds, with its answer; without one it has
   asked every member, and fails with the last one's error.
   */
  lemma ChainConsequences<T>(group: FallbackProvider, visits: seq<Visit<T>>, res: Result<T, ChainError>)
    requires FirstSuccess(group, visits, res)
    ensures forall i | 0 <= i < |visits| && visits[i].res.Success? ::
      i == |visits| - 1 && res == Success(visits[i].res.value)
    ensures res.Success? <==> exists i :: 0 <= i < |visits| && visits[i].res.Success?
    ensures res.Failure? ==> |visits| == |group.members| && res.error.group == group.name
    ensures res.Failure? ==>
      if visits == [] then res.error.last.None? else Failure(res.error.last.value) == visits[|visits| - 1].res
  {
    forall i | 0 <= i < |visits| - 1 ensures visits[i].res.Failure? {
      assert visits[..|visits| - 1][i] == visits[i];
    }
    if res.Success? {
      assert visits[|visits| - 1].res.Success?;
    }
  }

  /**
   Each visit of a chain went to that member's upstream with the key the chain has for it,
   or with the caller's; the chain that registration builds has none, so with the caller's.
   */
  lemma ChainKeys(group: FallbackProvider, key: string, visits: seq<Visit<Response>>, i: nat)
    requires i < |visits| <= |group.members|
    requires ChatVisit(group.members[i], group.KeyFor(group.members[i].name, key), visits[i])
    ensures var v, name := visits[i], group.members[i].name;
      && CallsElsewhere(v.after, name, if name in group.apiKeys then group.apiKeys[name] else key) ==
         CallsElsewhere(v.before, name, if name in group.apiKeys then group.apiKeys[name] else key)
      && (group.apiKeys == map[] ==> CallsElsewhere(v.after, name, key) == CallsElsewhere(v.before, name, key))
  {
    var v, member := visits[i], group.members[i];
    CallTotals(v.before, member.retries, member.name, group.KeyFor(member.name, key), v.calls, v.cut, v.res, v.told);
  }

  // ---- Call counts over a whole chain -----------------------------------------

  /** retries + 1 for every visited member whose breaker let the request in. */
  ghost function CallBudget(providers: seq<ResilientProvider>, visits: seq<Visit<Response>>): nat
    requires |visits| <= |providers|
  {
    if visits == [] then 0
    else
      var n := |visits| - 1;
      var member := providers[n];
      CallBudget(providers, visits[..n]) +
      if Rejects(member.cb.threshold, member.cb.resetTimeout, visits[n].log, visits[n].askedAt)
      then 0 else member.retries + 1
  }

  lemma {:induction false} ChainCallsBounded(
      past: Trace, group: FallbackProvider, key: string, visits: seq<Visit<Response>>, final: Trace)
    requires |visits| <= |group.members| && Linked(past, visits, final)
    requires forall i | 0 <= i < |visits| ::
      ChatVisit(group.members[i], group.KeyFor(group.members[i].name, key), visits[i])
    ensures CallsMade(final) <= CallsMade(past) + CallBudget(group.members, visits)
    ensures CallBudget(group.members, visits) == 0 ==> final == past
  {
    if visits != [] {
      var n := |visits| - 1;
      var v, member := visits[n], group.members[n];
      ChainCallsBounded(past, group, key, visits[..n], v.before);
      CallTotals(v.before, member.retries, member.name,
                 group.KeyFor(member.name, key), v.calls, v.cut, v.res, v.told);
    }
  }

  /** Opening a stream calls each member asked at most once, and only that member's upstream. */
  lemma {:induction false} StreamChainCallsBounded(
      past: Trace, group: FallbackProvider, key: string, visits: seq<Visit<Option<Response>>>, final: Trace)
    requires |visits| <= |group.members| && Linked(past, visits, final)
    requires forall i | 0 <= i < |visits| ::
      StreamVisit(group.members[i], group.KeyFor(group.members[i].name, key), visits[i])
    ensures CallsMade(final) <= CallsMade(past) + |visits|
    ensures BackoffMs(final) == BackoffMs(past)
    ensures (forall i | 0 <= i < |visits| ::
               var cb := group.members[i].cb;
               Rejects(cb.threshold, cb.resetTimeout, visits[i].log, visits[i].askedAt)) ==>
            final == past
  {
    if visits != [] {
      var n := |visits| - 1;
      var v, member := visits[n], group.members[n];
      StreamChainCallsBounded(past, group, key, visits[..n], v.before);
      StreamConsequences(v.before, member.name, group.KeyFor(member.name, key), v.calls, v.res, v.told);
      assert StreamVisit(member, group.KeyFor(member.name, key), v);
    }
  }

  /** With the gateway's two retries, a chain makes at most three calls for each member asked. */
  lemma {:induction false} ThreeCallsEach(group: FallbackProvider, visits: seq<Visit<Response>>)
    requires |visits| <= |group.members| && forall i | 0 <= i < |visits| :: group.members[i].retries == 2
    ensures CallBudget(group.members, visits) <= 3 * |visits|
  {
    if visits != [] {
      ThreeCallsEach(group, visits[..|visits| - 1]);
    }
  }

  /**
   With every breaker open the chain fails without a single upstream call, and its
   error carries the last member's "circuit open".
   */
  lemma AllOpenMakesNoCall(past: Trace, group: FallbackProvider, key: string,
                           visits: seq<Visit<Response>>, final: Trace, res: Result<Response, ChainError>)
    requires FirstSuccess(group, visits, res) && Linked(past, visits, final)
    requires forall i | 0 <= i < |visits| ::
      ChatVisit(group.members[i], group.KeyFor(group.members[i].name, key), visits[i])
    requires forall i | 0 <= i < |visits| ::
      var member := group.members[i];
      Rejects(member.cb.threshold, member.cb.resetTimeout, visits[i].log, visits[i].askedAt)
    ensures final == past
    ensures res.Failure? && |visits| == |group.members|
    ensures visits != [] ==> res.error.last == Some(CircuitOpen)
  {
    NothingBudgeted(group.members, visits);
    ChainCallsBounded(past, group, key, visits, final);
  }

  lemma {:induction false} NothingBudgeted(providers: seq<ResilientProvider>, visits: seq<Visit<Response>>)
    requires |visits| <= |providers|
    requires forall i | 0 <= i < |visits| ::
      var member := providers[i];
      Rejects(member.cb.threshold, member.cb.resetTimeout, visits[i].log, visits[i].askedAt)
    ensures CallBudget(providers, visits) == 0
  {
    if visits != [] {
      NothingBudgeted(providers, visits[..|visits| - 1]);
    }
  }
}
