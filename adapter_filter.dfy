/**
 * The adapter filter: keeps the baseline adapters that some generated
 * component actually uses (built-in adapters excepted) and whose endpoint
 * properties all carry a default value.
 */
module AdapterFilter {
  import opened JsonValues
  import opened Sequences

  /** Adapters that need no explicit definition. */
  const BuiltinAdapters: set<string> := {"tempstorage", "salesforce", "netsuite"}

  /** A truthy `adapterId` that is not a built-in adapter. */
  predicate IsCustomAdapterId(id: Json) {
    Truthy(id) && !(id.Str? && id.s in BuiltinAdapters)
  }

  /** The custom adapter ids the components use. */
  function UsedAdapterIds(components: seq<Json>): (r: set<Json>)
    ensures forall id :: id in r ==> IsCustomAdapterId(id)
  {
    if |components| == 0 then {}
    else
      var id := Get(components[|components| - 1], "adapterId");
      UsedAdapterIds(components[..|components| - 1]) + (if IsCustomAdapterId(id) then {id} else {})
  }

  /** An id is used exactly when some component names it as its custom `adapterId`. */
  lemma {:induction false} UsedAdapterIdsMembers(components: seq<Json>, id: Json)
    ensures id in UsedAdapterIds(components) <==>
      IsCustomAdapterId(id) && exists i :: 0 <= i < |components| && Get(components[i], "adapterId") == id
  {
    if |components| > 0 {
      var init := components[..|components| - 1];
      UsedAdapterIdsMembers(init, id);
      if exists i :: 0 <= i < |components| && Get(components[i], "adapterId") == id {
        var i :| 0 <= i < |components| && Get(components[i], "adapterId") == id;
        if i < |init| {
          assert Get(init[i], "adapterId") == id;
        }
      }
      if exists i :: 0 <= i < |init| && Get(init[i], "adapterId") == id {
        var i :| 0 <= i < |init| && Get(init[i], "adapterId") == id;
        assert Get(components[i], "adapterId") == id;
      }
    }
  }

  /** The first loop of `filter_adapters_by_usage`. */
  method CollectUsedAdapters(components: seq<Json>) returns (used: set<Json>)
    ensures used == UsedAdapterIds(components)
  {
    used := {};
    for i := 0 to |components|
      invariant used == UsedAdapterIds(components[..i])
    {
      var id := Get(components[i], "adapterId");
      if Truthy(id) && !(id.Str? && id.s in BuiltinAdapters) {
        used := used + {id};
      }
      assert components[..i + 1][..i] == components[..i];
    }
    assert components[..|components|] == components;
  }

  /** `adapter.get('endpoint', {}).get('properties', [])`, reading a non-dict or non-list as empty. */
  function EndpointProperties(adapter: Json): seq<Json> {
    AsList(GetOr(GetOr(adapter, "endpoint", Obj(map[])), "properties", Arr([])))
  }

  /** A property with no usable `defaultValue` that is not the `entityId` property. */
  predicate LacksDefault(prop: Json) {
    Get(prop, "defaultValue") == Null && Get(prop, "name") != Str("entityId")
  }

  /** Some endpoint property of the adapter lacks a default value. */
  predicate HasNullDefault(adapter: Json) {
    exists i :: 0 <= i < |EndpointProperties(adapter)| && LacksDefault(EndpointProperties(adapter)[i])
  }

  /** `has_null_default_values`: an early-return scan of the endpoint properties. */
  method HasNullDefaultValues(adapter: Json) returns (r: bool)
    ensures r <==> HasNullDefault(adapter)
    ensures |EndpointProperties(adapter)| == 0 ==> !r
  {
    var props := EndpointProperties(adapter);
    for i := 0 to |props|
      invariant forall j :: 0 <= j < i ==> !LacksDefault(props[j])
    {
      if Get(props[i], "defaultValue") == Null && Get(props[i], "name") != Str("entityId") {
        return true;
      }
    }
    return false;
  }

  /** Whether `filter_adapters_by_usage` keeps an adapter. */
  predicate Keeps(adapter: Json, used: set<Json>) {
    Get(adapter, "id") in used && !HasNullDefault(adapter)
  }

  /** The adapters kept, in baseline order. */
  function FilterAdapters(adapters: seq<Json>, used: set<Json>): (r: seq<Json>)
    ensures |r| <= |adapters|
    ensures forall a :: a in r ==> Keeps(a, used)
  {
    if |adapters| == 0 then []
    else
      var init := FilterAdapters(adapters[..|adapters| - 1], used);
      var last := adapters[|adapters| - 1];
      if Keeps(last, used) then init + [last] else init
  }

  /** The kept adapters are a subsequence of the baseline list. */
  lemma {:induction false} FilterIsSubsequence(adapters: seq<Json>, used: set<Json>)
    ensures IsSubsequence(FilterAdapters(adapters, used), adapters)
  {
    if |adapters| > 0 {
      var init := adapters[..|adapters| - 1];
      FilterIsSubsequence(init, used);
      SubsequenceSnoc(FilterAdapters(init, used), init, adapters[|adapters| - 1]);
      assert init + [adapters[|adapters| - 1]] == adapters;
    }
  }

  /** Every baseline adapter that is used and has all its defaults is kept. */
  lemma {:induction false} FilterKeepsEligible(adapters: seq<Json>, used: set<Json>, a: Json)
    requires a in adapters && Keeps(a, used)
    ensures a in FilterAdapters(adapters, used)
  {
    var init := adapters[..|adapters| - 1];
    if a != adapters[|adapters| - 1] {
      assert a in init by {
        var k :| 0 <= k < |adapters| && adapters[k] == a;
        assert init[k] == a;
      }
      FilterKeepsEligible(init, used, a);
    }
  }

  /** `filter_adapters_by_usage`. */
  method FilterAdaptersByUsage(baselineAdapters: seq<Json>, components: seq<Json>) returns (filtered: seq<Json>)
    ensures filtered == FilterAdapters(baselineAdapters, UsedAdapterIds(components))
    ensures IsSubsequence(filtered, baselineAdapters)
  {
    var used := CollectUsedAdapters(components);
    filtered := [];
    for i := 0 to |baselineAdapters|
      invariant filtered == FilterAdapters(baselineAdapters[..i], used)
    {
      var adapter := baselineAdapters[i];
      assert baselineAdapters[..i + 1][..i] == baselineAdapters[..i];
      if Get(adapter, "id") !in used {
        continue;
      }
      var hasNull := HasNullDefaultValues(adapter);
      if hasNull {
        continue;
      }
      filtered := filtered + [adapter];
    }
    assert baselineAdapters[..|baselineAdapters|] == baselineAdapters;
    FilterIsSubsequence(baselineAdapters, used);
  }
}
