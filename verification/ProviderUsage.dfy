// Which sandboxes use an inference provider, computed twice: for all providers
// at once through an index, and for one provider by a direct search.
module ProviderUsage {
  import opened Common

  const PoolProvider := "agentz-pools"

  datatype ModelRef = ModelRef(provider: string, model: string)
  datatype Sandbox = Sandbox(name: string, models: seq<ModelRef>)
  datatype Pool = Pool(name: string, members: seq<string>)

  ghost predicate PoolHas(pools: seq<Pool>, name: string, provider: string) {
    exists i :: 0 <= i < |pools| && pools[i].name == name && provider in pools[i].members
  }

  ghost predicate Refers(m: ModelRef, pools: seq<Pool>, provider: string) {
    if m.provider == PoolProvider then PoolHas(pools, m.model, provider) else m.provider == provider
  }

  // A sandbox uses a provider directly or through a pool.
  ghost predicate Uses(s: Sandbox, pools: seq<Pool>, provider: string) {
    exists k :: 0 <= k < |s.models| && Refers(s.models[k], pools, provider)
  }

  ghost function UsedBy(sandboxes: seq<Sandbox>, pools: seq<Pool>, provider: string): set<string> {
    set i | 0 <= i < |sandboxes| && Uses(sandboxes[i], pools, provider) :: sandboxes[i].name
  }

  function Lookup<T>(m: map<string, set<T>>, key: string): set<T> { if key in m then m[key] else {} }

  function Listed(m: map<string, seq<string>>, key: string): seq<string> { if key in m then m[key] else [] }

  predicate Has(index: map<string, seq<string>>, name: string, provider: string) { provider in Listed(index, name) }

  // A pool's members, repeated ones once, in order.
  method UniqueMembers(members: seq<string>) returns (listed: seq<string>)
    ensures listed == NewIn(members, {})
  {
    listed := [];
    var seen := {};
    for j := 0 to |members|
      invariant seen == Elements(members[..j]) && listed == NewIn(members[..j], {})
    {
      PrefixGrow(members, j);
      NewInGrow(members, j, {});
      if members[j] in seen {
        continue;
      }
      seen := seen + {members[j]};
      listed := listed + [members[j]];
    }
    assert members[..|members|] == members;
  }

  // They are appended under the pool's name.
  method IndexMembers(before: map<string, seq<string>>, pool: Pool) returns (index: map<string, seq<string>>)
    ensures Listed(index, pool.name) == Listed(before, pool.name) + NewIn(pool.members, {})
    ensures forall name :: name != pool.name ==> Listed(index, name) == Listed(before, name)
  {
    var listed := UniqueMembers(pool.members);
    index := before[pool.name := Listed(before, pool.name) + listed];
  }

  method IndexPool(before: map<string, seq<string>>, pool: Pool) returns (index: map<string, seq<string>>)
    ensures forall name, provider :: Has(index, name, provider) <==>
      Has(before, name, provider) || (name == pool.name && provider in pool.members)
  {
    index := IndexMembers(before, pool);
    NewInElements(pool.members, {});
  }

  method IndexPools(pools: seq<Pool>) returns (index: map<string, seq<string>>)
    ensures forall name, provider :: Has(index, name, provider) <==> PoolHas(pools, name, provider)
  {
    index := map[];
    for i := 0 to |pools|
      invariant forall name, provider :: Has(index, name, provider) <==> PoolHas(pools[..i], name, provider)
    {
      ghost var before := index;
      index := IndexPool(index, pools[i]);
      forall name, provider
        ensures Has(index, name, provider) <==> PoolHas(pools[..i + 1], name, provider)
      {
        PoolHasGrow(pools, i, name, provider);
        assert Has(before, name, provider) <==> PoolHas(pools[..i], name, provider);
      }
    }
    assert pools[..|pools|] == pools;
  }

  lemma PoolHasGrow(pools: seq<Pool>, i: nat, name: string, provider: string)
    requires i < |pools|
    ensures PoolHas(pools[..i + 1], name, provider) <==>
      PoolHas(pools[..i], name, provider) || (pools[i].name == name && provider in pools[i].members)
  {
    if PoolHas(pools[..i], name, provider) {
      var k :| 0 <= k < i && pools[..i][k].name == name && provider in pools[..i][k].members;
      assert pools[..i + 1][k] == pools[..i][k];
    }
    if pools[i].name == name && provider in pools[i].members {
      assert pools[..i + 1][i] == pools[i];
    }
  }

  // What the models read so far contribute for one sandbox.
  ghost predicate Contributes(models: seq<ModelRef>, pools: seq<Pool>, provider: string) {
    exists k :: 0 <= k < |models| && Refers(models[k], pools, provider)
  }

  lemma ContributesGrow(models: seq<ModelRef>, j: nat, pools: seq<Pool>, provider: string)
    requires j < |models|
    ensures Contributes(models[..j + 1], pools, provider) <==>
      Contributes(models[..j], pools, provider) || Refers(models[j], pools, provider)
  {
    if Contributes(models[..j], pools, provider) {
      var k :| 0 <= k < j && Refers(models[..j][k], pools, provider);
      assert models[..j + 1][k] == models[..j][k];
    }
    if Refers(models[j], pools, provider) { assert models[..j + 1][j] == models[j]; }
  }

  // usage[provider] gains the sandbox's name for every listed provider.
  method AddAll(usage0: map<string, set<string>>, providers: seq<string>, name: string) returns (usage: map<string, set<string>>)
    ensures forall p :: Lookup(usage, p) == Lookup(usage0, p) + if p in providers then {name} else {}
  {
    usage := usage0;
    for i := 0 to |providers|
      invariant forall p :: Lookup(usage, p) == Lookup(usage0, p) + if p in providers[..i] then {name} else {}
    {
      PrefixGrow(providers, i);
      usage := usage[providers[i] := Lookup(usage, providers[i]) + {name}];
    }
    assert providers[..|providers|] == providers;
  }

  // The inner loop of the index: one sandbox, skipping what was already added.
  method AddSandbox(usage0: map<string, set<string>>, index: map<string, seq<string>>, ghost pools: seq<Pool>, sandbox: Sandbox)
    returns (usage: map<string, set<string>>)
    requires forall name, provider :: Has(index, name, provider) <==> PoolHas(pools, name, provider)
    ensures forall p :: Lookup(usage, p) == Lookup(usage0, p) + if Uses(sandbox, pools, p) then {sandbox.name} else {}
  {
    usage := usage0;
    var seenProviders, seenPools := {}, {};
    var models := sandbox.models;
    for j := 0 to |models|
      invariant forall x :: x in seenPools ==> forall p :: PoolHas(pools, x, p) ==> Contributes(models[..j], pools, p)
      invariant forall x :: x in seenProviders ==> Contributes(models[..j], pools, x)
      invariant forall p :: Lookup(usage, p) == Lookup(usage0, p) + if Contributes(models[..j], pools, p) then {sandbox.name} else {}
    {
      var model := models[j];
      forall p ensures Contributes(models[..j + 1], pools, p) <==> Contributes(models[..j], pools, p) || Refers(model, pools, p) {
        ContributesGrow(models, j, pools, p);
      }
      if model.provider == PoolProvider {
        if model.model in seenPools {
          continue;
        }
        seenPools := seenPools + {model.model};
        usage := AddAll(usage, Listed(index, model.model), sandbox.name);
        assert forall p :: p in Listed(index, model.model) <==> Has(index, model.model, p);
        continue;
      }
      if model.provider in seenProviders {
        continue;
      }
      seenProviders := seenProviders + {model.provider};
      usage := usage[model.provider := Lookup(usage, model.provider) + {sandbox.name}];
    }
    assert models[..|models|] == models;
  }

  // The index for all providers.
  method BuildUsage(sandboxes: seq<Sandbox>, pools: seq<Pool>) returns (usage: map<string, set<string>>)
    ensures forall p :: Lookup(usage, p) == UsedBy(sandboxes, pools, p)
  {
    var index := IndexPools(pools);
    usage := map[];
    for i := 0 to |sandboxes|
      invariant forall p :: Lookup(usage, p) == UsedBy(sandboxes[..i], pools, p)
    {
      ghost var before := usage;
      usage := AddSandbox(usage, index, pools, sandboxes[i]);
      forall p ensures Lookup(usage, p) == UsedBy(sandboxes[..i + 1], pools, p) {
        UsedByGrow(sandboxes, i, pools, p);
      }
    }
    assert sandboxes[..|sandboxes|] == sandboxes;
  }

  lemma UsedByGrow(sandboxes: seq<Sandbox>, i: nat, pools: seq<Pool>, p: string)
    requires i < |sandboxes|
    ensures UsedBy(sandboxes[..i + 1], pools, p)
         == UsedBy(sandboxes[..i], pools, p) + if Uses(sandboxes[i], pools, p) then {sandboxes[i].name} else {}
  {
    var a, b := sandboxes[..i], sandboxes[..i + 1];
    assert forall k :: 0 <= k < i ==> a[k] == b[k];
    assert b[i] == sandboxes[i];
  }

  // What the search for one provider accepts, written as the code tests it.
  ghost predicate SearchMatches(m: ModelRef, pools: seq<Pool>, provider: string) {
    m.provider == provider || (m.provider == PoolProvider && PoolHas(pools, m.model, provider))
  }

  ghost function SearchResult(sandboxes: seq<Sandbox>, pools: seq<Pool>, provider: string): set<string> {
    set i, k | 0 <= i < |sandboxes| && 0 <= k < |sandboxes[i].models|
      && SearchMatches(sandboxes[i].models[k], pools, provider) :: sandboxes[i].name
  }

  // The search for one provider: pools that list it, then the sandboxes.
  method FindUsage(sandboxes: seq<Sandbox>, pools: seq<Pool>, provider: string) returns (names: set<string>)
    ensures names == SearchResult(sandboxes, pools, provider)
  {
    var poolNames := set i | 0 <= i < |pools| && provider in pools[i].members :: pools[i].name;
    assert forall name :: name in poolNames <==> PoolHas(pools, name, provider);
    names := {};
    for i := 0 to |sandboxes|
      invariant names == SearchResult(sandboxes[..i], pools, provider)
    {
      var sandbox := sandboxes[i];
      var hit := false;
      for k := 0 to |sandbox.models|
        invariant !hit && forall j :: 0 <= j < k ==> !SearchMatches(sandbox.models[j], pools, provider)
      {
        var model := sandbox.models[k];
        if model.provider != provider && (model.provider != PoolProvider || model.model !in poolNames) {
          continue;
        }
        hit := true;
        break;
      }
      SearchGrow(sandboxes, i, pools, provider);
      if hit {
        names := names + {sandbox.name};
      }
    }
    assert sandboxes[..|sandboxes|] == sandboxes;
  }

  ghost predicate SearchHits(s: Sandbox, pools: seq<Pool>, provider: string) {
    exists k :: 0 <= k < |s.models| && SearchMatches(s.models[k], pools, provider)
  }

  lemma SearchGrow(sandboxes: seq<Sandbox>, i: nat, pools: seq<Pool>, p: string)
    requires i < |sandboxes|
    ensures SearchResult(sandboxes[..i + 1], pools, p)
         == SearchResult(sandboxes[..i], pools, p) + if SearchHits(sandboxes[i], pools, p) then {sandboxes[i].name} else {}
  {
    var a, b := sandboxes[..i], sandboxes[..i + 1];
    assert forall k :: 0 <= k < i ==> a[k] == b[k];
    assert b[i] == sandboxes[i];
  }

  // The two computations agree for every provider but the reserved name.
  lemma SearchAgreesWithIndex(sandboxes: seq<Sandbox>, pools: seq<Pool>, provider: string)
    requires provider != PoolProvider
    ensures SearchResult(sandboxes, pools, provider) == UsedBy(sandboxes, pools, provider)
  {
    forall m: ModelRef ensures SearchMatches(m, pools, provider) <==> Refers(m, pools, provider) {
    }
    forall name | name in SearchResult(sandboxes, pools, provider) ensures name in UsedBy(sandboxes, pools, provider) {
      var i, k :| 0 <= i < |sandboxes| && 0 <= k < |sandboxes[i].models|
        && SearchMatches(sandboxes[i].models[k], pools, provider) && sandboxes[i].name == name;
      assert Uses(sandboxes[i], pools, provider);
    }
    forall name | name in UsedBy(sandboxes, pools, provider) ensures name in SearchResult(sandboxes, pools, provider) {
      var i :| 0 <= i < |sandboxes| && Uses(sandboxes[i], pools, provider) && sandboxes[i].name == name;
      var k :| 0 <= k < |sandboxes[i].models| && Refers(sandboxes[i].models[k], pools, provider);
    }
  }

  // For the reserved name the search counts every sandbox that uses any pool.
  lemma ReservedNameDiverges(sandboxes: seq<Sandbox>, pools: seq<Pool>)
    ensures UsedBy(sandboxes, pools, PoolProvider) <= SearchResult(sandboxes, pools, PoolProvider)
    ensures SearchResult(sandboxes, pools, PoolProvider)
         == set i, k | 0 <= i < |sandboxes| && 0 <= k < |sandboxes[i].models| && sandboxes[i].models[k].provider == PoolProvider
              :: sandboxes[i].name
    ensures exists ss: seq<Sandbox> :: UsedBy(ss, [], PoolProvider) != SearchResult(ss, [], PoolProvider)
  {
    var m := ModelRef(PoolProvider, "shared");
    var ss := [Sandbox("box", [m])];
    assert SearchMatches(ss[0].models[0], [], PoolProvider);
    assert "box" in SearchResult(ss, [], PoolProvider);
    assert UsedBy(ss, [], PoolProvider) == {};
    forall name | name in UsedBy(sandboxes, pools, PoolProvider) ensures name in SearchResult(sandboxes, pools, PoolProvider) {
      var i :| 0 <= i < |sandboxes| && Uses(sandboxes[i], pools, PoolProvider) && sandboxes[i].name == name;
      var k :| 0 <= k < |sandboxes[i].models| && Refers(sandboxes[i].models[k], pools, PoolProvider);
      assert SearchMatches(sandboxes[i].models[k], pools, PoolProvider);
    }
  }

  // A sandbox with a model from some pool.
  ghost predicate UsesPools(s: Sandbox) { exists k :: 0 <= k < |s.models| && s.models[k].provider == PoolProvider }

  // With unique sandbox names the two computations agree exactly for the other
  // providers, and for the reserved name when every sandbox that uses a pool
  // uses one that lists that very name.
  lemma SearchAgreesIff(sandboxes: seq<Sandbox>, pools: seq<Pool>, provider: string)
    requires forall i, j :: 0 <= i < j < |sandboxes| ==> sandboxes[i].name != sandboxes[j].name
    ensures SearchResult(sandboxes, pools, provider) == UsedBy(sandboxes, pools, provider) <==>
      (provider == PoolProvider ==>
         forall i :: 0 <= i < |sandboxes| && UsesPools(sandboxes[i]) ==> Uses(sandboxes[i], pools, PoolProvider))
  {
    var found, used := SearchResult(sandboxes, pools, provider), UsedBy(sandboxes, pools, provider);
    if provider != PoolProvider {
      SearchAgreesWithIndex(sandboxes, pools, provider);
    } else {
      ReservedNameDiverges(sandboxes, pools);
    }
    if provider == PoolProvider && found == used {
      forall i | 0 <= i < |sandboxes| && UsesPools(sandboxes[i]) ensures Uses(sandboxes[i], pools, PoolProvider) {
        var k :| 0 <= k < |sandboxes[i].models| && sandboxes[i].models[k].provider == PoolProvider;
        assert SearchMatches(sandboxes[i].models[k], pools, PoolProvider);
        assert sandboxes[i].name in found;
        var j :| 0 <= j < |sandboxes| && Uses(sandboxes[j], pools, PoolProvider) && sandboxes[j].name == sandboxes[i].name;
        assert i == j;
      }
    }
    if provider == PoolProvider && forall i :: 0 <= i < |sandboxes| && UsesPools(sandboxes[i]) ==> Uses(sandboxes[i], pools, PoolProvider) {
      forall name | name in found ensures name in used {
        var i, k :| 0 <= i < |sandboxes| && 0 <= k < |sandboxes[i].models|
          && SearchMatches(sandboxes[i].models[k], pools, PoolProvider) && sandboxes[i].name == name;
        assert UsesPools(sandboxes[i]);
      }
      assert found == used;
    }
  }

  // With unique sandbox names the number of names is the number of sandboxes.
  lemma {:induction false} CountsSandboxes(sandboxes: seq<Sandbox>, pools: seq<Pool>, provider: string)
    requires forall i, j :: 0 <= i < j < |sandboxes| ==> sandboxes[i].name != sandboxes[j].name
    ensures |UsedBy(sandboxes, pools, provider)| == Users(sandboxes, pools, provider)
  {
    if sandboxes != [] {
      var n := |sandboxes| - 1;
      CountsSandboxes(sandboxes[..n], pools, provider);
      UsedByGrow(sandboxes, n, pools, provider);
      assert sandboxes[..n + 1] == sandboxes;
      assert sandboxes[n].name !in UsedBy(sandboxes[..n], pools, provider);
    }
  }

  ghost function Users(sandboxes: seq<Sandbox>, pools: seq<Pool>, provider: string): nat {
    if sandboxes == [] then 0 else
    var n := |sandboxes| - 1;
    Users(sandboxes[..n], pools, provider) + if Uses(sandboxes[n], pools, provider) then 1 else 0
  }
}
