/** The round-robin pool of provider keys (core/catalog/service.go). */
module KeyPool {
  import opened Sums
  import opened Wrappers

  const WRAP := 0x1_0000_0000_0000_0000   // uint64

  datatype Provider = Provider(id: int, name: string)

  // ---- Reload -----------------------------------------------------------------------------------

  /** The keys that the first n providers give to a name; a provider whose keys cannot be listed is skipped. */
  function KeysUpTo(providers: seq<Provider>, keysOf: int -> Option<seq<string>>, name: string, n: nat): seq<string>
    requires n <= |providers|
  {
    if n == 0 then []
    else
      KeysUpTo(providers, keysOf, name, n - 1)
      + if providers[n - 1].name == name && keysOf(providers[n - 1].id).Some? then keysOf(providers[n - 1].id).value
        else []
  }

  /** Keys come in the order of the providers, and each provider's in their own. */
  lemma {:induction false} KeysInOrder(
      providers: seq<Provider>, keysOf: int -> Option<seq<string>>, name: string, n: nat, i: nat)
    requires i < n <= |providers| && providers[i].name == name && keysOf(providers[i].id).Some?
    ensures exists before, after ::
      && KeysUpTo(providers, keysOf, name, n) == before + keysOf(providers[i].id).value + after
      && before == KeysUpTo(providers, keysOf, name, i)
  {
    if i < n - 1 {
      KeysInOrder(providers, keysOf, name, n - 1, i);
      var before, after :|
        KeysUpTo(providers, keysOf, name, n - 1) == before + keysOf(providers[i].id).value + after &&
        before == KeysUpTo(providers, keysOf, name, i);
      var more := if providers[n - 1].name == name && keysOf(providers[n - 1].id).Some?
                  then keysOf(providers[n - 1].id).value else [];
      assert KeysUpTo(providers, keysOf, name, n) == before + keysOf(providers[i].id).value + (after + more);
    } else {
      assert KeysUpTo(providers, keysOf, name, n) ==
             KeysUpTo(providers, keysOf, name, i) + keysOf(providers[i].id).value + [];
    }
  }

  ghost predicate PoolsAre(
      pools: map<string, seq<string>>, providers: seq<Provider>, keysOf: int -> Option<seq<string>>, n: nat)
    requires n <= |providers|
  {
    forall name :: PoolOf(pools, name) == KeysUpTo(providers, keysOf, name, n)
  }

  lemma PoolsStart(providers: seq<Provider>, keysOf: int -> Option<seq<string>>)
    ensures PoolsAre(map[], providers, keysOf, 0)
  {
  }

  /** A provider with keys extends its own pool; one without, or whose keys cannot be listed, changes nothing. */
  function Extended(pools: map<string, seq<string>>, name: string, listed: Option<seq<string>>)
    : map<string, seq<string>>
  {
    if listed.Some? && |listed.value| > 0 then pools[name := PoolOf(pools, name) + listed.value] else pools
  }

  lemma PoolsGoOn(
      pools: map<string, seq<string>>, providers: seq<Provider>, keysOf: int -> Option<seq<string>>, n: nat)
    requires n < |providers| && PoolsAre(pools, providers, keysOf, n)
    ensures PoolsAre(Extended(pools, providers[n].name, keysOf(providers[n].id)), providers, keysOf, n + 1)
  {
    var after := Extended(pools, providers[n].name, keysOf(providers[n].id));
    forall name ensures PoolOf(after, name) == KeysUpTo(providers, keysOf, name, n + 1) {
      assert PoolOf(pools, name) == KeysUpTo(providers, keysOf, name, n);
    }
  }

  function PoolOf(pools: map<string, seq<string>>, name: string): seq<string> {
    if name in pools then pools[name] else []
  }

  function IndexOf(index: map<string, nat>, name: string): nat {
    if name in index then index[name] else 0
  }

  // ---- Round robin ----------------------------------------------------------------------------------

  /** The position that the j-th call since Reload gets in a pool of k keys. */
  function Position(j: nat, k: nat): (p: nat)
    requires k > 0
    ensures p < k
  {
    j % WRAP % k
  }

  lemma BeforeWrap(j: nat, k: nat)
    requires j < WRAP && k > 0
    ensures Position(j, k) == j % k
  {
  }

  /** One key that was handed out. */
  datatype Served = Served(name: string, position: nat)

  ghost function CallOf(name: string): Served -> int {
    (served: Served) => if served.name == name then 1 else 0
  }

  /** How many of the first n keys handed out were for this provider. */
  ghost function CountUpTo(log: seq<Served>, name: string, n: nat): nat
    requires n <= |log|
  {
    SumNotNegative(CallOf(name), log, n);
    SumUpTo(CallOf(name), log, n)
  }

  ghost function Use(use: Served): Served -> int {
    (served: Served) => if served == use then 1 else 0
  }

  /** How many of them were the key at one position of its pool. */
  ghost function UsesUpTo(log: seq<Served>, use: Served, n: nat): int
    requires n <= |log|
  {
    SumUpTo(Use(use), log, n)
  }

  /** Entry j is the key whose turn it was among the calls for its own provider. */
  ghost predicate InTurn(log: seq<Served>, pools: map<string, seq<string>>, j: nat)
    requires j < |log|
  {
    var k := |PoolOf(pools, log[j].name)|;
    k > 0 && log[j].position == Position(CountUpTo(log, log[j].name, j), k)
  }

  /** Every key was handed out in turn. */
  ghost predicate RoundRobin(log: seq<Served>, pools: map<string, seq<string>>) {
    forall j | 0 <= j < |log| :: InTurn(log, pools, j)
  }

  lemma InTurnStays(log: seq<Served>, last: Served, pools: map<string, seq<string>>, j: nat)
    requires j < |log| && InTurn(log, pools, j)
    ensures InTurn(log + [last], pools, j)
  {
    SumPrefix(CallOf(log[j].name), log, last, j);
  }

  lemma LastInTurn(log: seq<Served>, pools: map<string, seq<string>>, last: Served)
    requires PoolOf(pools, last.name) != []
    requires last.position == Position(CountUpTo(log, last.name, |log|), |PoolOf(pools, last.name)|)
    ensures InTurn(log + [last], pools, |log|)
  {
    SumPrefix(CallOf(last.name), log, last, |log|);
  }

  lemma RoundRobinGoesOn(log: seq<Served>, pools: map<string, seq<string>>, last: Served)
    requires RoundRobin(log, pools) && PoolOf(pools, last.name) != []
    requires last.position == Position(CountUpTo(log, last.name, |log|), |PoolOf(pools, last.name)|)
    ensures RoundRobin(log + [last], pools)
  {
    LastInTurn(log, pools, last);
    forall j | 0 <= j < |log| ensures InTurn(log + [last], pools, j) {
      InTurnStays(log, last, pools, j);
    }
  }

  /** The indices are the call counts, wrapped. */
  ghost predicate IndicesCount(index: map<string, nat>, log: seq<Served>) {
    forall name :: IndexOf(index, name) == CountUpTo(log, name, |log|) % WRAP
  }

  lemma FreshIndices()
    ensures IndicesCount(map[], [])
  {
  }

  lemma OneMoreWrapped(n: nat)
    ensures (n % WRAP + 1) % WRAP == (n + 1) % WRAP
  {
  }

  lemma IndexGoesOn(index: map<string, nat>, log: seq<Served>, last: Served, name: string)
    requires IndexOf(index, name) == CountUpTo(log, name, |log|) % WRAP
    ensures IndexOf(index[last.name := (IndexOf(index, last.name) + 1) % WRAP], name) ==
            CountUpTo(log + [last], name, |log| + 1) % WRAP
  {
    SumPrefix(CallOf(name), log, last, |log|);
    OneMoreWrapped(CountUpTo(log, name, |log|));
  }

  lemma IndicesGoOn(index: map<string, nat>, log: seq<Served>, last: Served)
    requires IndicesCount(index, log)
    ensures IndicesCount(index[last.name := (IndexOf(index, last.name) + 1) % WRAP], log + [last])
  {
    var after := index[last.name := (IndexOf(index, last.name) + 1) % WRAP];
    forall name ensures IndexOf(after, name) == CountUpTo(log + [last], name, |log| + 1) % WRAP {
      IndexGoesOn(index, log, last, name);
    }
  }

  /** One provider's keys, if they can be listed and there are any. */
  method AddKeys(keys: map<string, seq<string>>, name: string, listed: Option<seq<string>>)
    returns (more: map<string, seq<string>>)
    ensures more == Extended(keys, name, listed)
  {
    more := keys;
    if listed.Some? {
      if |listed.value| > 0 {
        more := keys[name := PoolOf(keys, name) + listed.value];
      }
    }
  }

  method ListKeys(providers: seq<Provider>, keysOf: int -> Option<seq<string>>) returns (keys: map<string, seq<string>>)
    ensures PoolsAre(keys, providers, keysOf, |providers|)
  {
    keys := map[];
    PoolsStart(providers, keysOf);
    for n := 0 to |providers|
      invariant PoolsAre(keys, providers, keysOf, n)
    {
      PoolsGoOn(keys, providers, keysOf, n);
      keys := AddKeys(keys, providers[n].name, keysOf(providers[n].id));
    }
  }

  class Service {
    var providerKeys: map<string, seq<string>>
    var keyIndex: map<string, nat>
    ghost var log: seq<Served>     // keys handed out by NextKey since the last Reload

    ghost predicate Valid()
      reads this
    {
      RoundRobin(log, providerKeys) && IndicesCount(keyIndex, log)
    }

    constructor ()
      ensures Valid() && providerKeys == map[] && log == []
    {
      providerKeys, keyIndex, log := map[], map[], [];
    }

    /** `providers` is what the repository lists, if it can; `keysOf` are the keys of one provider, if it can. */
    method Reload(providers: Option<seq<Provider>>, keysOf: int -> Option<seq<string>>) returns (ok: bool)
      requires Valid()
      modifies this
      ensures Valid() && ok == providers.Some?
      ensures !ok ==> providerKeys == old(providerKeys) && keyIndex == old(keyIndex) && log == old(log)
      ensures ok ==> log == [] && PoolsAre(providerKeys, providers.value, keysOf, |providers.value|)
    {
      if providers.None? {
        return false;
      }
      var keys := ListKeys(providers.value, keysOf);
      FreshIndices();
      providerKeys, keyIndex, log := keys, map[], [];
      ok := true;
    }

    /** The next key in turn; without keys an error, and nothing changes. */
    method NextKey(name: string) returns (key: Option<string>)
      requires Valid()
      modifies this`keyIndex, this`log
      ensures Valid()
      ensures var pool := PoolOf(providerKeys, name);
        if pool == [] then key == None && log == old(log) && keyIndex == old(keyIndex)
        else
          var p := Position(CountUpTo(old(log), name, |old(log)|), |pool|);
          key == Some(pool[p]) && log == old(log) + [Served(name, p)]
    {
      var keys := PoolOf(providerKeys, name);
      if |keys| == 0 {
        return None;
      }
      var idx := IndexOf(keyIndex, name) % |keys|;
      RoundRobinGoesOn(log, providerKeys, Served(name, idx));
      IndicesGoOn(keyIndex, log, Served(name, idx));
      keyIndex := keyIndex[name := (IndexOf(keyIndex, name) + 1) % WRAP];
      log := log + [Served(name, idx)];
      key := Some(keys[idx]);
    }

    /** The key that the provider's first call gets, without taking a turn. */
    method FirstKey(name: string) returns (key: Option<string>)
      requires Valid()
      ensures key.None? <==> PoolOf(providerKeys, name) == []
      ensures key.Some? ==> key.value == PoolOf(providerKeys, name)[Position(0, |PoolOf(providerKeys, name)|)]
      ensures forall j | 0 <= j < |log| && log[j].name == name && CountUpTo(log, name, j) == 0 ::
        key.Some? && log[j].position == Position(0, |PoolOf(providerKeys, name)|)
    {
      var keys := PoolOf(providerKeys, name);
      key := if |keys| == 0 then None else Some(keys[0]);
      forall j | 0 <= j < |log| && log[j].name == name && CountUpTo(log, name, j) == 0
        ensures key.Some? && log[j].position == Position(0, |keys|)
      {
        assert InTurn(log, providerKeys, j);
      }
    }
  }

  // ---- How evenly the keys are used ------------------------------------------------------------------------

  /** Of n calls in turn, those that fall on position i of k: one in every full round, and one in a begun round. */
  function Share(n: nat, i: nat, k: nat): nat
    requires i < k
  {
    n / k + if i < n % k then 1 else 0
  }

  lemma MulAtLeast(a: int, k: nat)
    requires a >= 1
    ensures a * k >= k
  {
  }

  lemma Divided(x: nat, q: nat, r: nat, k: nat)
    requires r < k && x == q * k + r
    ensures x / k == q && x % k == r
  {
    var d, m := x / k, x % k;
    assert (d - q) * k == r - m;
    if d > q {
      MulAtLeast(d - q, k);
    } else if d < q {
      MulAtLeast(q - d, k);
    }
  }

  lemma ShareStep(n: nat, i: nat, k: nat)
    requires i < k
    ensures Share(n + 1, i, k) == Share(n, i, k) + if n % k == i then 1 else 0
  {
    var q, r := n / k, n % k;
    if r + 1 < k {
      Divided(n + 1, q, r + 1, k);
    } else {
      Divided(n + 1, q + 1, 0, k);
    }
  }

  /** The share is ceil((n - i) / k). */
  lemma ShareIsCeiling(n: nat, i: nat, k: nat)
    requires i < k
    ensures Share(n, i, k) == if n <= i then 0 else (n - i + k - 1) / k
  {
    var q, r := n / k, n % k;
    if n <= i {
      Divided(n, 0, n, k);
    } else if i < r {
      Divided(n - i + k - 1, q + 1, r - i - 1, k);
    } else {
      Divided(n - i + k - 1, q, r - i + k - 1, k);
    }
  }

  /**
   For any interleaving with calls for other providers: after n < 2^64 calls to a
   provider with k keys, the key at position i was handed out ceil((n - i) / k) times.
   */
  lemma {:induction false} KeysAreShared(
      log: seq<Served>, pools: map<string, seq<string>>, name: string, i: nat, n: nat)
    requires RoundRobin(log, pools) && n <= |log| && i < |PoolOf(pools, name)|
    requires CountUpTo(log, name, n) <= 0x1_0000_0000_0000_0000
    ensures UsesUpTo(log, Served(name, i), n) == Share(CountUpTo(log, name, n), i, |PoolOf(pools, name)|)
  {
    if n > 0 {
      KeysAreShared(log, pools, name, i, n - 1);
      if log[n - 1].name == name {
        var turn, k := CountUpTo(log, name, n - 1), |PoolOf(pools, name)|;
        assert InTurn(log, pools, n - 1);
        BeforeWrap(turn, k);
        ShareStep(turn, i, k);
        assert log[n - 1] == Served(name, i) <==> turn % k == i;
      }
    }
  }

  /** So two positions of one pool differ by at most one use, the earlier one being ahead. */
  lemma UsesDifferByAtMostOne(log: seq<Served>, pools: map<string, seq<string>>, name: string, i: nat, j: nat)
    requires RoundRobin(log, pools) && i <= j < |PoolOf(pools, name)|
    requires CountUpTo(log, name, |log|) <= WRAP
    ensures 0 <= UsesUpTo(log, Served(name, i), |log|) - UsesUpTo(log, Served(name, j), |log|) <= 1
  {
    KeysAreShared(log, pools, name, i, |log|);
    KeysAreShared(log, pools, name, j, |log|);
  }

  lemma DividingWrap(j: nat, k: nat)
    requires k > 0 && WRAP % k == 0
    ensures Position(j, k) == j % k
  {
    var w := WRAP / k;
    var d, m := j / WRAP, j % WRAP;
    var e, p := m / k, m % k;
    assert d * WRAP == d * (w * k) == (d * w) * k;
    assert j == (d * w + e) * k + p;
    Divided(j, d * w + e, p, k);
  }

  /** Past 2^64 calls the rotation goes on undisturbed exactly when the pool size divides 2^64. */
  lemma RotationSurvivesWrap(k: nat)
    requires k > 0
    ensures (forall j: nat :: Position(j, k) == j % k) <==> WRAP % k == 0
  {
    if WRAP % k == 0 {
      forall j: nat ensures Position(j, k) == j % k {
        DividingWrap(j, k);
      }
    } else {
      assert Position(WRAP, k) == 0;
    }
  }

  /** With three keys it does not: around the wrap one key is handed out twice running. */
  lemma ThreeKeysRepeat()
    ensures Position(WRAP - 1, 3) == Position(WRAP, 3) == 0
  {
  }
}
