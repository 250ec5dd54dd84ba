/**
 Start-up registration of providers and of the fallback chain
 (infra/provider/register.go, infra/provider/provider.go).
 */
module Registry {
  import opened Fallback
  import opened Lists
  import opened Resilience
  import opened Text
  import opened Wrappers

  /** The directory that registration builds; like the registry, it could hold any provider. */
  type Directory = map<string, Provider>

  /** All it does hold are resilient providers, each under its own name. */
  ghost predicate HoldsDirect(byName: Directory) {
    forall name | name in byName :: byName[name].Direct? && byName[name].resilient.name == name
  }

  /** The provider names the gateway knows how to build a client for. */
  const KNOWN: set<string> :=
    {"openai", "deepseek", "alibaba", "bytedance", "geneasy", "anthropic", "google"}

  /** Reading FALLBACK_CHAIN: the group's name and the member names as written. */
  function ParseChain(spec: string): Option<(string, seq<string>)> {
    if spec == "" then None
    else
      var parts := Split(spec, ':');
      if |parts| < 2 then None else Some((parts[0], Split(parts[1], ',')))
  }

  function FoundBy(known: set<string>): string -> seq<string> {
    name => if TrimSpace(name) in known then [TrimSpace(name)] else []
  }

  /** The names, without white space around them, that are known. */
  function Found(known: set<string>, names: seq<string>): seq<string> {
    Collect(FoundBy(known), names)
  }

  /** They are found one by one, in the order in which they are listed, */
  lemma FoundInOrder(known: set<string>, a: seq<string>, b: seq<string>)
    ensures Found(known, a + b) == Found(known, a) + Found(known, b)
  {
    CollectBoth(FoundBy(known), a, b);
  }

  /** and unknown ones are skipped. */
  lemma FoundOne(known: set<string>, name: string)
    ensures Found(known, [name]) == if TrimSpace(name) in known then [TrimSpace(name)] else []
  {
    CollectOne(FoundBy(known), name);
  }

  ghost predicate AllKnown(known: set<string>, names: seq<string>) {
    forall i | 0 <= i < |names| :: names[i] in known
  }

  lemma {:induction false} FoundAreKnown(known: set<string>, names: seq<string>, n: nat)
    requires n <= |names|
    ensures AllKnown(known, CollectUpTo(FoundBy(known), names, n))
  {
    if n > 0 {
      FoundAreKnown(known, names, n - 1);
    }
  }

  /** The providers entered under these names. */
  function At(byName: Directory, names: seq<string>): seq<Provider>
    requires AllKnown(byName.Keys, names)
  {
    seq(|names|, i requires 0 <= i < |names| && names[i] in byName => byName[names[i]])
  }

  lemma OneMoreAt(byName: Directory, names: seq<string>, name: string)
    requires AllKnown(byName.Keys, names) && name in byName
    ensures At(byName, names + [name]) == At(byName, names) + [byName[name]]
  {
  }

  function MembersUpTo(byName: Directory, names: seq<string>, n: nat): seq<Provider>
    requires n <= |names|
  {
    FoundAreKnown(byName.Keys, names, n);
    At(byName, CollectUpTo(FoundBy(byName.Keys), names, n))
  }

  /** The listed members that exist, in listed order; unknown names are skipped. */
  function Members(byName: Directory, names: seq<string>): seq<Provider> {
    MembersUpTo(byName, names, |names|)
  }

  lemma MembersAreFound(byName: Directory, names: seq<string>)
    ensures |Members(byName, names)| == |Found(byName.Keys, names)|
    ensures forall i | 0 <= i < |Members(byName, names)| ::
      Found(byName.Keys, names)[i] in byName && Members(byName, names)[i] == byName[Found(byName.Keys, names)[i]]
  {
    FoundAreKnown(byName.Keys, names, |names|);
  }

  lemma NextFound(known: set<string>, names: seq<string>, n: nat, name: string)
    requires n < |names| && name == TrimSpace(names[n])
    ensures CollectUpTo(FoundBy(known), names, n + 1) ==
            if name in known then CollectUpTo(FoundBy(known), names, n) + [name]
            else CollectUpTo(FoundBy(known), names, n)
  {
    assert FoundBy(known)(names[n]) == if name in known then [name] else [];
  }

  lemma NextMember(byName: Directory, names: seq<string>, n: nat, name: string)
    requires n < |names| && name == TrimSpace(names[n])
    ensures MembersUpTo(byName, names, n + 1) ==
            if name in byName then MembersUpTo(byName, names, n) + [byName[name]]
            else MembersUpTo(byName, names, n)
  {
    NextFound(byName.Keys, names, n, name);
    FoundAreKnown(byName.Keys, names, n);
    if name in byName {
      OneMoreAt(byName, CollectUpTo(FoundBy(byName.Keys), names, n), name);
    }
  }

  /**
   A chain written as documented, `group:name1,name2,...`, is read back as exactly
   these names; the group is the text before the first colon.
   */
  lemma ChainSpecIsReadBack(group: string, names: seq<string>)
    requires ':' !in group && names != []
    requires forall i | 0 <= i < |names| :: ':' !in names[i] && ',' !in names[i]
    ensures ParseChain(group + ":" + Join(names, ',')) == Some((group, names))
  {
    var list := Join(names, ',');
    JoinKeepsOut(names, ',', ':');
    SplitOfTwo(group, ':', list);
    SplitOfOne(list, ':');
    SplitJoin(names, ',');
    assert group + ":" + list == group + [':'] + list;
  }

  lemma {:induction false} JoinKeepsOut(parts: seq<string>, sep: char, c: char)
    requires parts != [] && c != sep && forall i | 0 <= i < |parts| :: c !in parts[i]
    ensures c !in Join(parts, sep)
  {
    if |parts| > 1 {
      JoinKeepsOut(parts[1..], sep, c);
    }
  }

  /** Everything after a second colon is ignored. */
  lemma SecondColonEndsTheList(group: string, list: string, more: string)
    requires ':' !in group && ':' !in list
    ensures ParseChain(group + ":" + list + ":" + more) == Some((group, Split(list, ',')))
  {
    SplitOfTwo(group, ':', list + ":" + more);
    SplitOfTwo(list, ':', more);
    assert group + ":" + list + ":" + more == group + [':'] + (list + ":" + more);
    assert list + ":" + more == list + [':'] + more;
  }

  /** A provider that was entered by its own name, and so no chain. */
  ghost predicate EnteredDirectly(byName: Directory, p: Provider) {
    p.Direct? && p.resilient.name in byName && byName[p.resilient.name] == p
  }

  /** Every member of a chain was entered directly, before the chain was built. */
  lemma MembersAreDirect(byName: Directory, names: seq<string>)
    requires HoldsDirect(byName)
    ensures forall i | 0 <= i < |Members(byName, names)| :: EnteredDirectly(byName, Members(byName, names)[i])
  {
    FoundAreKnown(byName.Keys, names, |names|);
  }

  lemma EnteredAreDirect(byName: Directory, members: seq<Provider>)
    requires forall i | 0 <= i < |members| :: EnteredDirectly(byName, members[i])
    ensures AllDirect(members)
  {
  }

  /** The chain the specification asks for; empty when there is none to build. */
  function RequestedChain(byName: Directory, spec: string): seq<Provider> {
    match ParseChain(spec)
    case None => []
    case Some((_, names)) => Members(byName, names)
  }

  /** What registration leaves behind, given the providers entered by name. */
  ghost predicate Registered(byName: Directory, spec: string, registry: Directory) {
    var members := RequestedChain(byName, spec);
    if members == [] then registry == byName
    else
      var group := ParseChain(spec).value.0;
      && group in registry && registry[group].Group?
      && registry == byName[group := registry[group]]
      && registry[group].chain.name == group
      && registry[group].chain.providers == members
      && registry[group].chain.apiKeys == map[]
  }

  method RegisterFallbackChains(registry: Directory, byName: Directory, spec: string) returns (after: Directory)
    requires registry == byName && HoldsDirect(byName)
    ensures Registered(byName, spec, after)
    ensures RequestedChain(byName, spec) != [] ==> after[ParseChain(spec).value.0].chain.Valid()
  {
    if spec == "" {
      return registry;
    }
    var parts := Split(spec, ':');
    if |parts| < 2 {
      return registry;
    }
    var groupName := parts[0];
    var chain := CollectMembers(byName, Split(parts[1], ','));
    assert chain == RequestedChain(byName, spec);
    if |chain| == 0 {
      return registry;
    }
    MembersAreDirect(byName, Split(parts[1], ','));
    EnteredAreDirect(byName, chain);
    var group := new FallbackProvider(groupName, chain, map[]);
    return registry[groupName := Group(group)];
  }

  method CollectMembers(byName: Directory, names: seq<string>) returns (chain: seq<Provider>)
    ensures chain == Members(byName, names)
  {
    chain := [];
    for i := 0 to |names|
      invariant chain == MembersUpTo(byName, names, i)
    {
      var name := TrimSpace(names[i]);
      NextMember(byName, names, i, name);
      if name in byName {
        chain := chain + [byName[name]];
      }
    }
  }

  /**
   The rows of the providers table, each built, wrapped and entered under its name.  When
   they cannot be listed nothing is registered, and no chain either.
   */
  method RegisterAll(listed: Option<seq<string>>, spec: string, now: int)
    returns (registry: Directory, byName: Directory)
    ensures listed.None? ==> registry == map[] && byName == map[]
    ensures listed.Some? ==> forall name :: name in byName <==>
      name in listed.value &&
      name in ["openai", "deepseek", "alibaba", "bytedance", "geneasy", "anthropic", "google"]
    ensures HoldsDirect(byName) && forall name | name in byName :: fresh(byName[name].resilient)
    ensures listed.Some? ==> Registered(byName, spec, registry)
  {
    byName, registry := map[], map[];
    if listed.None? {
      return;
    }
    var rows := listed.value;
    var i := 0;
    while i < |rows|
      invariant 0 <= i <= |rows|
      invariant byName.Keys == set name | name in rows[..i] && name in KNOWN
      invariant HoldsDirect(byName) && forall name | name in byName :: fresh(byName[name].resilient)
      invariant registry == byName
    {
      assert rows[..i + 1] == rows[..i] + [rows[i]];
      if rows[i] in KNOWN {
        var wrapped := new ResilientProvider(rows[i], now);
        byName := byName[rows[i] := Direct(wrapped)];
        registry := registry[wrapped.name := Direct(wrapped)];
      }
      i := i + 1;
    }
    assert rows[..i] == rows;
    registry := RegisterFallbackChains(registry, byName, spec);
  }

  /**
   A group that takes over a member's name does not call itself, nor any other group: its
   members are the providers that were entered before the group was built, and those are
   all direct ones.  No other entry is a group.
   */
  lemma ShadowingIsNotRecursive(byName: Directory, spec: string, registry: Directory, name: string)
    requires HoldsDirect(byName) && Registered(byName, spec, registry) && name in registry
    ensures match registry[name]
            case Direct(p) => p.name == name && name in byName && byName[name] == Direct(p)
            case Group(c) =>
              && c.name == name && c.apiKeys == map[]
              && c.providers == RequestedChain(byName, spec) != []
              && Group(c) !in c.providers
              && forall i | 0 <= i < |c.providers| :: EnteredDirectly(byName, c.providers[i])
  {
    var spelled := ParseChain(spec);
    if spelled.Some? {
      MembersAreDirect(byName, spelled.value.1);
      EnteredAreDirect(byName, Members(byName, spelled.value.1));
    }
  }
}
