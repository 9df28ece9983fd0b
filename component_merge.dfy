/**
 * `_merge_components`: the baseline project's components are replaced and
 * reordered around the extracted ones, and the baseline workflows are
 * re-pointed at the converted operations.
 *
 * The extracted components arrive as a record of lists; the uuid drawn for
 * the project name is a parameter.
 */
module ComponentMerge {
  import opened Wrappers
  import opened Strings
  import opened JsonValues
  import opened Sequences

  /** `COMPONENT_ORDER` (`utils/constants.py`). */
  const ComponentOrder: seq<int> := [200, 400, 500, 600, 700, 900, 1000, 1200, 1300]

  /** `TARGET_VERSION` (`utils/constants.py`). */
  const TargetVersion := "v327"

  /** The lists of the extracted-components dict that the merge reads. */
  datatype Extracted = Extracted(
    endpoints500: seq<Json>,      // type_500_endpoints
    endpoints600: seq<Json>,      // type_600_endpoints
    operations: seq<Json>,        // operations
    transformations: seq<Json>,   // transformations
    scripts: seq<Json>,           // type_400_scripts
    schemaComponents: seq<Json>,  // schema_components
    projectVariables: seq<Json>,  // project_variables
    globalVariables: seq<Json>,   // global_variables
    xsdAssets: Json)              // xsd_assets

  // ---------------------------------------------------------------------
  // Component order
  // ---------------------------------------------------------------------

  /** A baseline component the merge drops: a transformation, an operation or a script. */
  predicate Replaced(c: Json) {
    Get(c, "type") == Num(700) || Get(c, "type") == Num(200) || Get(c, "type") == Num(400)
  }

  /** The baseline components that stay, in their order. */
  function KeptBaseline(cs: seq<Json>): (r: seq<Json>)
    ensures forall c :: c in r <==> c in cs && !Replaced(c)
  {
    if |cs| == 0 then []
    else
      var prev := KeptBaseline(cs[..|cs| - 1]);
      var c := cs[|cs| - 1];
      if Replaced(c) then prev else prev + [c]
  }

  /** Filtering a concatenation filters each part: the kept components stay in their original order. */
  lemma {:induction false} KeptBaselineAppend(a: seq<Json>, b: seq<Json>)
    ensures KeptBaseline(a + b) == KeptBaseline(a) + KeptBaseline(b)
    decreases |b|
  {
    if |b| == 0 {
      assert a + b == a;
    } else {
      var b' := b[..|b| - 1];
      assert (a + b)[..|a + b| - 1] == a + b';
      KeptBaselineAppend(a, b');
    }
  }

  /** `comp.get('type', 'Unknown')`: the key the baseline components are grouped under. */
  function TypeKey(c: Json): Json {
    GetOr(c, "type", Str("Unknown"))
  }

  /** The components with a given type key, in their order. */
  function OfType(cs: seq<Json>, t: Json): (r: seq<Json>)
    ensures forall c :: c in r <==> c in cs && TypeKey(c) == t
  {
    if |cs| == 0 then []
    else
      var prev := OfType(cs[..|cs| - 1], t);
      var c := cs[|cs| - 1];
      if TypeKey(c) == t then prev + [c] else prev
  }

  /** The components of one type are taken in their original order. */
  lemma {:induction false} OfTypeKeepsOrder(cs: seq<Json>, t: Json)
    ensures IsSubsequence(OfType(cs, t), cs)
  {
    if |cs| > 0 {
      var init := cs[..|cs| - 1];
      OfTypeKeepsOrder(init, t);
      SubsequenceSnoc(OfType(init, t), init, cs[|cs| - 1]);
      assert init + [cs[|cs| - 1]] == cs;
    }
  }

  /** No component of type `t` leaves nothing to group under `t`. */
  lemma {:induction false} OfTypeNone(cs: seq<Json>, t: Json)
    requires forall c :: c in cs ==> TypeKey(c) != t
    ensures OfType(cs, t) == []
  {
    if |cs| > 0 {
      assert forall c :: c in cs[..|cs| - 1] ==> c in cs;
      OfTypeNone(cs[..|cs| - 1], t);
    }
  }

  /** The type keys in order of first appearance: the keys of `existing_by_type`. */
  function TypeKeys(cs: seq<Json>): (r: seq<Json>)
    ensures forall k :: k in r <==> exists c :: c in cs && TypeKey(c) == k
    ensures forall i, j :: 0 <= i < j < |r| ==> r[i] != r[j]
  {
    if |cs| == 0 then []
    else
      var init := cs[..|cs| - 1];
      var prev := TypeKeys(init);
      var k := TypeKey(cs[|cs| - 1]);
      assert forall c :: c in cs <==> c in init || c == cs[|cs| - 1];
      if k in prev then prev else prev + [k]
  }

  /** The index of the first component with type key `k`, or `|cs|` when there is none. */
  function FirstKeyIndex(cs: seq<Json>, k: Json): (r: nat)
    ensures r <= |cs|
    ensures r < |cs| ==> TypeKey(cs[r]) == k
    ensures forall q :: 0 <= q < r ==> TypeKey(cs[q]) != k
  {
    if |cs| == 0 then 0
    else
      var init := cs[..|cs| - 1];
      var p := FirstKeyIndex(init, k);
      if p < |init| then p
      else if TypeKey(cs[|cs| - 1]) == k then |init|
      else |cs|
  }

  /**
   * The keys come in order of first appearance, as the insertion order of
   * `existing_by_type`: so the types `COMPONENT_ORDER` leaves out are appended
   * in the order the baseline first shows them.
   */
  lemma {:induction false} TypeKeysFirstAppearance(cs: seq<Json>)
    ensures forall i, j :: 0 <= i < j < |TypeKeys(cs)| ==>
      FirstKeyIndex(cs, TypeKeys(cs)[i]) < FirstKeyIndex(cs, TypeKeys(cs)[j]) < |cs|
  {
    if |cs| > 0 {
      var init := cs[..|cs| - 1];
      var prev := TypeKeys(init);
      var k := TypeKey(cs[|cs| - 1]);
      TypeKeysFirstAppearance(init);
      forall x | x in prev ensures FirstKeyIndex(cs, x) == FirstKeyIndex(init, x) < |init| {
        var c :| c in init && TypeKey(c) == x;
        var m :| 0 <= m < |init| && init[m] == c;
        assert FirstKeyIndex(init, x) <= m;
      }
      if k !in prev {
        assert forall c :: c in init ==> TypeKey(c) != k;
        assert FirstKeyIndex(init, k) == |init|;
      }
    }
  }

  /** A type key that `COMPONENT_ORDER` lists. */
  predicate Handled(k: Json) {
    k.Num? && k.n in ComponentOrder
  }

  /** `ep.get('name', '').lower()`. */
  function NameKey(c: Json): string {
    Lower(AsStr(GetOr(c, "name", Str(""))))
  }

  /** The lower-cased names of the baseline Type 600 endpoints. */
  function Baseline600Names(kept: seq<Json>): set<string> {
    set c | c in OfType(kept, Num(600)) :: NameKey(c)
  }

  /** The extracted Type 600 endpoints whose lower-cased name no baseline Type 600 has, in order. */
  function NewEndpoints600(eps: seq<Json>, names: set<string>): (r: seq<Json>)
    ensures forall e :: e in r <==> e in eps && NameKey(e) !in names
    ensures |r| <= |eps|
  {
    if |eps| == 0 then []
    else
      var prev := NewEndpoints600(eps[..|eps| - 1], names);
      var e := eps[|eps| - 1];
      if NameKey(e) in names then prev else prev + [e]
  }

  /** Extracted endpoints that share a name with each other but not with the baseline are all kept. */
  lemma {:induction false} NewEndpointsKeepDuplicates(eps: seq<Json>, names: set<string>)
    requires forall i :: 0 <= i < |eps| ==> NameKey(eps[i]) !in names
    ensures NewEndpoints600(eps, names) == eps
  {
    if |eps| > 0 {
      NewEndpointsKeepDuplicates(eps[..|eps| - 1], names);
      assert eps[..|eps| - 1] + [eps[|eps| - 1]] == eps;
    }
  }

  /** The extracted components placed after the baseline ones of type `t`. */
  function ExtractedFor(x: Extracted, t: int, names: set<string>): seq<Json> {
    if t == 500 then x.endpoints500
    else if t == 600 then NewEndpoints600(x.endpoints600, names)
    else if t == 200 then x.operations
    else if t == 700 then x.transformations
    else if t == 400 then x.scripts
    else if t == 900 then x.schemaComponents
    else if t == 1000 then x.projectVariables
    else if t == 1300 then x.globalVariables
    else []
  }

  /** One type of `COMPONENT_ORDER`: the baseline components of that type, then the extracted ones. */
  function Block(kept: seq<Json>, x: Extracted, t: int, names: set<string>): seq<Json> {
    OfType(kept, Num(t)) + ExtractedFor(x, t, names)
  }

  /** The blocks of the types in `order`, one after another. */
  function Blocks(kept: seq<Json>, x: Extracted, order: seq<int>, names: set<string>): seq<Json> {
    if |order| == 0 then []
    else Blocks(kept, x, order[..|order| - 1], names) + Block(kept, x, order[|order| - 1], names)
  }

  /** The blocks after position `k` end with the block of the last type. */
  lemma BlocksTail(kept: seq<Json>, x: Extracted, order: seq<int>, names: set<string>, k: nat)
    requires k + 1 < |order|
    ensures Blocks(kept, x, order[k + 1..], names)
         == Blocks(kept, x, order[..|order| - 1][k + 1..], names) + Block(kept, x, order[|order| - 1], names)
  {
    var tail := order[k + 1..];
    assert tail[..|tail| - 1] == order[..|order| - 1][k + 1..];
  }

  /**
   * The block of the `k`-th type sits between the blocks of the types before
   * it and those after it.
   */
  lemma {:induction false} BlockPosition(kept: seq<Json>, x: Extracted, order: seq<int>, names: set<string>, k: nat)
    requires k < |order|
    ensures Blocks(kept, x, order, names)
         == Blocks(kept, x, order[..k], names) + Block(kept, x, order[k], names) + Blocks(kept, x, order[k + 1..], names)
  {
    var init := order[..|order| - 1];
    var last := Block(kept, x, order[|order| - 1], names);
    assert Blocks(kept, x, order, names) == Blocks(kept, x, init, names) + last;
    if k == |order| - 1 {
      assert order[k + 1..] == [];
      assert init == order[..k];
    } else {
      BlockPosition(kept, x, init, names, k);
      assert init[..k] == order[..k] && init[k] == order[k];
      BlocksTail(kept, x, order, names, k);
      ConcatRegroup(Blocks(kept, x, order[..k], names), Block(kept, x, order[k], names),
                    Blocks(kept, x, init[k + 1..], names), last);
    }
  }

  /** Appending after the third of three parts is appending to the third part. */
  lemma ConcatRegroup<T>(p: seq<T>, q: seq<T>, r: seq<T>, l: seq<T>)
    ensures p + q + r + l == p + q + (r + l)
  {
  }

  /** The baseline components of the types among `keys` that `COMPONENT_ORDER` does not list, type by type. */
  function Rest(kept: seq<Json>, keys: seq<Json>): seq<Json> {
    if |keys| == 0 then []
    else
      var prev := Rest(kept, keys[..|keys| - 1]);
      var k := keys[|keys| - 1];
      if Handled(k) then prev else prev + OfType(kept, k)
  }

  /** The merged component list. */
  function MergedComponents(existing: seq<Json>, x: Extracted): seq<Json> {
    var kept := KeptBaseline(existing);
    Blocks(kept, x, ComponentOrder, Baseline600Names(kept)) + Rest(kept, TypeKeys(kept))
  }

  /** Every extracted component the merge may place, Type 600 endpoints already filtered. */
  predicate IsExtracted(c: Json, x: Extracted, names: set<string>) {
    c in x.endpoints500 || c in NewEndpoints600(x.endpoints600, names) || c in x.operations
    || c in x.transformations || c in x.scripts || c in x.schemaComponents
    || c in x.projectVariables || c in x.globalVariables
  }

  /** A component is in the blocks exactly when it is a kept one of a listed type or extracted for a listed type. */
  lemma {:induction false} BlocksMembers(kept: seq<Json>, x: Extracted, order: seq<int>, names: set<string>, c: Json)
    ensures c in Blocks(kept, x, order, names) <==>
      exists i :: 0 <= i < |order| && (c in OfType(kept, Num(order[i])) || c in ExtractedFor(x, order[i], names))
  {
    if |order| > 0 {
      var init := order[..|order| - 1];
      BlocksMembers(kept, x, init, names, c);
      assert forall i :: 0 <= i < |init| ==> init[i] == order[i];
    }
  }

  /** A component is in the rest exactly when it is a kept one whose type is among `keys` and not listed. */
  lemma {:induction false} RestMembers(kept: seq<Json>, keys: seq<Json>, c: Json)
    ensures c in Rest(kept, keys) <==> c in kept && TypeKey(c) in keys && !Handled(TypeKey(c))
  {
    if |keys| > 0 {
      var init := keys[..|keys| - 1];
      RestMembers(kept, init, c);
      assert forall k :: k in keys <==> k in init || k == keys[|keys| - 1];
    }
  }

  /** The extracted lists of the listed types are exactly the extracted components. */
  lemma ExtractedMembers(x: Extracted, names: set<string>, c: Json)
    ensures IsExtracted(c, x, names) <==> exists i :: 0 <= i < |ComponentOrder| && c in ExtractedFor(x, ComponentOrder[i], names)
  {
    if IsExtracted(c, x, names) {
      if c in x.operations {
        assert ComponentOrder[0] == 200;
      } else if c in x.scripts {
        assert ComponentOrder[1] == 400;
      } else if c in x.endpoints500 {
        assert ComponentOrder[2] == 500;
      } else if c in NewEndpoints600(x.endpoints600, names) {
        assert ComponentOrder[3] == 600;
      } else if c in x.transformations {
        assert ComponentOrder[4] == 700;
      } else if c in x.schemaComponents {
        assert ComponentOrder[5] == 900;
      } else if c in x.projectVariables {
        assert ComponentOrder[6] == 1000;
      } else {
        assert ComponentOrder[8] == 1300;
      }
    }
  }

  /**
   * The merged list holds exactly the baseline components other than
   * transformations, operations and scripts, and the extracted components
   * (Type 600 endpoints whose name the baseline already has left out).
   */
  lemma MergedMembers(existing: seq<Json>, x: Extracted, c: Json)
    ensures var kept := KeptBaseline(existing);
      c in MergedComponents(existing, x) <==>
        (c in existing && !Replaced(c)) || IsExtracted(c, x, Baseline600Names(kept))
  {
    var kept := KeptBaseline(existing);
    var names := Baseline600Names(kept);
    BlocksMembers(kept, x, ComponentOrder, names, c);
    RestMembers(kept, TypeKeys(kept), c);
    ExtractedMembers(x, names, c);
    if c in kept && Handled(TypeKey(c)) {
      var i :| 0 <= i < |ComponentOrder| && ComponentOrder[i] == TypeKey(c).n;
      assert c in OfType(kept, Num(ComponentOrder[i]));
    }
    if exists i :: 0 <= i < |ComponentOrder| && c in OfType(kept, Num(ComponentOrder[i])) {
      assert c in kept;
    }
  }

  /** A transformation, operation or script in the merged list is an extracted one. */
  lemma ReplacedOnlyFromExtracted(existing: seq<Json>, x: Extracted, c: Json)
    requires c in MergedComponents(existing, x) && Replaced(c)
    ensures IsExtracted(c, x, Baseline600Names(KeptBaseline(existing)))
  {
    MergedMembers(existing, x, c);
  }

  /** The components after the blocks are kept baseline components whose type `COMPONENT_ORDER` does not list. */
  lemma RestComesLast(existing: seq<Json>, x: Extracted, i: nat)
    requires var kept := KeptBaseline(existing);
      |Blocks(kept, x, ComponentOrder, Baseline600Names(kept))| <= i < |MergedComponents(existing, x)|
    ensures MergedComponents(existing, x)[i] in existing && !Handled(TypeKey(MergedComponents(existing, x)[i]))
  {
    var kept := KeptBaseline(existing);
    var blocks := Blocks(kept, x, ComponentOrder, Baseline600Names(kept));
    var rest := Rest(kept, TypeKeys(kept));
    var c := MergedComponents(existing, x)[i];
    assert c == rest[i - |blocks|];
    RestMembers(kept, TypeKeys(kept), c);
  }

  /** A baseline Type 600 endpoint contributes its lower-cased name. */
  lemma Baseline600Named(existing: seq<Json>, b: Json)
    requires b in existing && Get(b, "type") == Num(600)
    ensures NameKey(b) in Baseline600Names(KeptBaseline(existing))
  {
    assert TypeKey(b) == Num(600);
    assert b in OfType(KeptBaseline(existing), Num(600));
  }

  /** Every collected name is that of a baseline Type 600 endpoint. */
  lemma Baseline600NameSource(existing: seq<Json>, name: string) returns (b: Json)
    requires name in Baseline600Names(KeptBaseline(existing))
    ensures b in existing && Get(b, "type") == Num(600) && NameKey(b) == name
  {
    b :| b in OfType(KeptBaseline(existing), Num(600)) && NameKey(b) == name;
  }

  /** An extracted Type 600 endpoint is placed exactly when no baseline Type 600 has its lower-cased name. */
  lemma Endpoint600Placed(existing: seq<Json>, x: Extracted, e: Json)
    requires e in x.endpoints600
    ensures var kept := KeptBaseline(existing);
      e in NewEndpoints600(x.endpoints600, Baseline600Names(kept)) <==>
        !exists b :: b in existing && Get(b, "type") == Num(600) && NameKey(b) == NameKey(e)
  {
    if NameKey(e) in Baseline600Names(KeptBaseline(existing)) {
      var b := Baseline600NameSource(existing, NameKey(e));
    }
    if exists b :: b in existing && Get(b, "type") == Num(600) && NameKey(b) == NameKey(e) {
      var b :| b in existing && Get(b, "type") == Num(600) && NameKey(b) == NameKey(e);
      Baseline600Named(existing, b);
    }
  }

  /** The grouping loop: type keys in first-appearance order and the components under each. */
  method GroupByType(kept: seq<Json>) returns (keys: seq<Json>, groups: map<Json, seq<Json>>)
    ensures keys == TypeKeys(kept)
    ensures forall k :: k in groups <==> k in keys
    ensures forall k :: k in groups ==> groups[k] == OfType(kept, k)
  {
    keys := [];
    groups := map[];
    var i := 0;
    while i < |kept|
      invariant i <= |kept|
      invariant Grouped(kept[..i], keys, groups)
    {
      var comp := kept[i];
      var compType := TypeKey(comp);
      var group := if compType in groups then groups[compType] else [];
      GroupStep(kept, i, keys, groups, group);
      if compType !in groups {
        keys := keys + [compType];
      }
      groups := groups[compType := group + [comp]];
      i := i + 1;
    }
    assert kept[..i] == kept;
  }

  /** What the grouping loop leaves: the keys in first-appearance order and each key's components. */
  ghost predicate Grouped(kept: seq<Json>, keys: seq<Json>, groups: map<Json, seq<Json>>) {
    keys == TypeKeys(kept)
    && (forall k :: k in groups <==> k in keys)
    && forall k :: k in groups ==> groups[k] == OfType(kept, k)
  }

  /** One more component goes under its type key, the key added the first time it is met. */
  lemma GroupStep(kept: seq<Json>, i: nat, keys: seq<Json>, groups: map<Json, seq<Json>>, group: seq<Json>)
    requires i < |kept| && Grouped(kept[..i], keys, groups)
    requires group == if TypeKey(kept[i]) in groups then groups[TypeKey(kept[i])] else []
    ensures TypeKey(kept[i]) in groups ==> Grouped(kept[..i + 1], keys, groups[TypeKey(kept[i]) := group + [kept[i]]])
    ensures TypeKey(kept[i]) !in groups ==>
      Grouped(kept[..i + 1], keys + [TypeKey(kept[i])], groups[TypeKey(kept[i]) := group + [kept[i]]])
  {
    var prefix := kept[..i];
    var c := kept[i];
    var cs := kept[..i + 1];
    var t := TypeKey(c);
    assert cs[..|cs| - 1] == prefix && cs[|cs| - 1] == c;
    if t !in groups {
      assert t !in keys;
      OfTypeNone(prefix, t);
    }
    var keys' := if t in groups then keys else keys + [t];
    var groups' := groups[t := group + [c]];
    assert keys' == TypeKeys(cs);
    forall k | k in groups'
      ensures groups'[k] == OfType(cs, k)
    {
    }
  }

  /** `existing_by_type.get(t, [])` is the components of type `t`. */
  lemma GroupLookup(kept: seq<Json>, keys: seq<Json>, groups: map<Json, seq<Json>>, t: Json)
    requires Grouped(kept, keys, groups)
    ensures (if t in groups then groups[t] else []) == OfType(kept, t)
  {
    if t !in groups {
      assert t !in keys;
      OfTypeNone(kept, t);
    }
  }

  /** One more type of the order adds its block at the end. */
  lemma BlocksStep(kept: seq<Json>, x: Extracted, order: seq<int>, names: set<string>, n: nat)
    requires n < |order|
    ensures Blocks(kept, x, order[..n + 1], names) == Blocks(kept, x, order[..n], names) + Block(kept, x, order[n], names)
  {
    assert order[..n + 1][..n] == order[..n];
  }

  /** One round of the loop over the order: the group looked up, then the extracted records. */
  lemma PlaceStep(kept: seq<Json>, keys: seq<Json>, groups: map<Json, seq<Json>>, x: Extracted, order: seq<int>,
                  names: set<string>, n: nat)
    requires Grouped(kept, keys, groups) && n < |order|
    ensures var existingOfType := if Num(order[n]) in groups then groups[Num(order[n])] else [];
      Blocks(kept, x, order[..n + 1], names)
        == Blocks(kept, x, order[..n], names) + (existingOfType + ExtractedFor(x, order[n], names))
  {
    GroupLookup(kept, keys, groups, Num(order[n]));
    BlocksStep(kept, x, order, names, n);
  }

  /** The loop over `COMPONENT_ORDER`, here any `order`. */
  method PlaceBlocks(kept: seq<Json>, keys: seq<Json>, groups: map<Json, seq<Json>>, x: Extracted, order: seq<int>, names: set<string>)
    returns (ordered: seq<Json>)
    requires Grouped(kept, keys, groups)
    ensures ordered == Blocks(kept, x, order, names)
  {
    ordered := [];
    var n := 0;
    while n < |order|
      invariant n <= |order|
      invariant ordered == Blocks(kept, x, order[..n], names)
    {
      var compType := order[n];
      var existingOfType := if Num(compType) in groups then groups[Num(compType)] else [];
      PlaceStep(kept, keys, groups, x, order, names, n);
      ordered := ordered + (existingOfType + ExtractedFor(x, compType, names));
      n := n + 1;
    }
    assert order[..n] == order;
  }

  /** The loop over the remaining types. */
  method PlaceRest(kept: seq<Json>, keys: seq<Json>, groups: map<Json, seq<Json>>) returns (rest: seq<Json>)
    requires Grouped(kept, keys, groups)
    ensures rest == Rest(kept, keys)
  {
    rest := [];
    var k := 0;
    while k < |keys|
      invariant k <= |keys|
      invariant rest == Rest(kept, keys[..k])
    {
      var compType := keys[k];
      assert keys[..k + 1][..k] == keys[..k];
      if !Handled(compType) {
        assert compType in groups;
        rest := rest + groups[compType];
      }
      k := k + 1;
    }
    assert keys[..k] == keys;
  }

  /** The ordering: group, collect the baseline Type 600 names, place the blocks, then the remaining types. */
  method OrderComponents(existing: seq<Json>, x: Extracted) returns (ordered: seq<Json>)
    ensures ordered == MergedComponents(existing, x)
  {
    var kept := KeptBaseline(existing);
    var keys, groups := GroupByType(kept);
    GroupLookup(kept, keys, groups, Num(600));
    var baseline600 := if Num(600) in groups then groups[Num(600)] else [];
    var names := set c | c in baseline600 :: NameKey(c);
    ordered := PlaceBlocks(kept, keys, groups, x, ComponentOrder, names);
    var rest := PlaceRest(kept, keys, groups);
    ordered := ordered + rest;
  }

  // ---------------------------------------------------------------------
  // Workflows
  // ---------------------------------------------------------------------

  /** `baseline_ops_by_id`: id to name of the baseline operations, later ones winning. */
  function BaselineOpNames(existing: seq<Json>): map<Json, Json> {
    if |existing| == 0 then map[]
    else
      var prev := BaselineOpNames(existing[..|existing| - 1]);
      var c := existing[|existing| - 1];
      if Get(c, "type") == Num(200) then prev[Get(c, "id") := Get(c, "name")] else prev
  }

  /** `converted_ops_by_name`: name to id of the converted operations, later ones winning. */
  function ConvertedOpIds(ops: seq<Json>): (r: map<Json, Json>)
    ensures forall name :: name in r ==> r[name] in (set op | op in ops :: Get(op, "id"))
  {
    if |ops| == 0 then map[]
    else
      var prev := ConvertedOpIds(ops[..|ops| - 1]);
      var op := ops[|ops| - 1];
      prev[Get(op, "name") := Get(op, "id")]
  }

  /** `{'id': id, 'type': 200}`. */
  function OperationRef(id: Json): Json {
    Obj(map["id" := id, "type" := Num(200)])
  }

  /** The operation list of a sync workflow: one reference per converted operation with an id and a name. */
  function SyncRefs(ops: seq<Json>): (r: seq<Json>)
    ensures |r| <= |ops|
  {
    if |ops| == 0 then []
    else
      var prev := SyncRefs(ops[..|ops| - 1]);
      var op := ops[|ops| - 1];
      if Truthy(Get(op, "id")) && Truthy(Get(op, "name")) then prev + [OperationRef(Get(op, "id"))] else prev
  }

  /** A sync workflow references exactly the converted operations that have a truthy id and name. */
  lemma {:induction false} SyncRefsExact(ops: seq<Json>, ref: Json)
    ensures ref in SyncRefs(ops) <==>
      exists op :: op in ops && Truthy(Get(op, "id")) && Truthy(Get(op, "name")) && ref == OperationRef(Get(op, "id"))
  {
    if |ops| > 0 {
      var init := ops[..|ops| - 1];
      SyncRefsExact(init, ref);
      assert forall op :: op in ops <==> op in init || op == ops[|ops| - 1];
    }
  }

  /** `workflow.get('name', '').lower()` contains `sync-salesforce` or `sync`. */
  predicate IsSyncWorkflow(wf: Json) {
    var name := Lower(AsStr(GetOr(wf, "name", Str(""))));
    Contains(name, "sync-salesforce") || Contains(name, "sync")
  }

  /** The `sync-salesforce` test adds nothing: a name containing it contains `sync`. */
  lemma SyncSalesforceIsSync(name: string)
    requires Contains(name, "sync-salesforce")
    ensures Contains(name, "sync")
  {
    var i := ContainsWitness(name, "sync-salesforce");
    assert name[i..i + 4] == name[i..i + 15][..4] == "sync-salesforce"[..4];
    ContainsAt(name, "sync", i);
  }

  /** The id an operation reference names: `op_ref.get('id')` for a dict, the value itself otherwise. */
  function RefId(ref: Json): Json {
    if ref.Obj? then Get(ref, "id") else ref
  }

  /** The converted id a reference maps to through the baseline name, if any. */
  function MappedId(ref: Json, byId: map<Json, Json>, byName: map<Json, Json>): Option<Json> {
    var name := if RefId(ref) in byId then byId[RefId(ref)] else Null;
    if Truthy(name) && name in byName then Some(byName[name]) else None
  }

  /** The references of a non-sync workflow, re-pointed at converted ids; unmapped ones dropped. */
  function RemapRefs(refs: seq<Json>, byId: map<Json, Json>, byName: map<Json, Json>): (r: seq<Json>)
    ensures |r| <= |refs|
    ensures forall i :: 0 <= i < |r| ==> r[i] in byName.Values || (r[i].Obj? && Get(r[i], "id") in byName.Values)
  {
    if |refs| == 0 then []
    else
      var prev := RemapRefs(refs[..|refs| - 1], byId, byName);
      var ref := refs[|refs| - 1];
      match MappedId(ref, byId, byName)
      case None => prev
      case Some(id) =>
        var updated := if ref.Obj? then Set(ref, "id", id) else id;
        assert ref.Obj? ==> updated.Obj? && updated.fields == ref.fields["id" := id];
        prev + [updated]
  }

  /** The number of references with no converted id. */
  function CountNone(refs: seq<Json>, byId: map<Json, Json>, byName: map<Json, Json>): (n: nat)
    ensures n <= |refs|
  {
    if |refs| == 0 then 0
    else CountNone(refs[..|refs| - 1], byId, byName) + (if MappedId(refs[|refs| - 1], byId, byName).None? then 1 else 0)
  }

  /** Every reference is either re-pointed or dropped, one for one. */
  lemma {:induction false} RemapRefsCount(refs: seq<Json>, byId: map<Json, Json>, byName: map<Json, Json>)
    ensures |RemapRefs(refs, byId, byName)| + CountNone(refs, byId, byName) == |refs|
  {
    if |refs| > 0 {
      RemapRefsCount(refs[..|refs| - 1], byId, byName);
    }
  }

  /** One workflow after the update loop. */
  function UpdatedWorkflow(wf: Json, byId: map<Json, Json>, byName: map<Json, Json>, ops: seq<Json>): (r: Json)
    ensures wf.Obj? && IsSyncWorkflow(wf) ==> Get(r, "operations") == Arr(SyncRefs(ops))
    ensures forall k :: k != "operations" ==> Get(r, k) == Get(wf, k)
    ensures !IsSyncWorkflow(wf) && !Has(wf, "operations") ==> r == wf
  {
    if IsSyncWorkflow(wf) then Set(wf, "operations", Arr(SyncRefs(ops)))
    else if Has(wf, "operations") then Set(wf, "operations", Arr(RemapRefs(AsList(wf.fields["operations"]), byId, byName)))
    else wf
  }

  /** `[wf for wf in workflows if wf.get('operations')]`. */
  function NonEmptyWorkflows(ws: seq<Json>): (r: seq<Json>)
    ensures forall w :: w in r <==> w in ws && Truthy(Get(w, "operations"))
  {
    if |ws| == 0 then []
    else
      var prev := NonEmptyWorkflows(ws[..|ws| - 1]);
      var w := ws[|ws| - 1];
      if Truthy(Get(w, "operations")) then prev + [w] else prev
  }

  /** Pruning a concatenation prunes each part: the surviving workflows keep their order. */
  lemma {:induction false} NonEmptyWorkflowsAppend(a: seq<Json>, b: seq<Json>)
    ensures NonEmptyWorkflows(a + b) == NonEmptyWorkflows(a) + NonEmptyWorkflows(b)
    decreases |b|
  {
    if |b| == 0 {
      assert a + b == a;
    } else {
      var b' := b[..|b| - 1];
      assert (a + b)[..|a + b| - 1] == a + b';
      NonEmptyWorkflowsAppend(a, b');
    }
  }

  /** The workflow list after the update and the pruning. */
  function MergedWorkflows(ws: seq<Json>, existing: seq<Json>, ops: seq<Json>): seq<Json> {
    NonEmptyWorkflows(seq(|ws|, i requires 0 <= i < |ws| => UpdatedWorkflow(ws[i], BaselineOpNames(existing), ConvertedOpIds(ops), ops)))
  }

  /** No workflow is left with an empty operation list, and a sync workflow survives iff some operation qualifies. */
  lemma MergedWorkflowsNonEmpty(ws: seq<Json>, existing: seq<Json>, ops: seq<Json>, i: nat)
    requires i < |ws| && ws[i].Obj? && IsSyncWorkflow(ws[i])
    ensures forall w :: w in MergedWorkflows(ws, existing, ops) ==> Truthy(Get(w, "operations"))
    ensures UpdatedWorkflow(ws[i], BaselineOpNames(existing), ConvertedOpIds(ops), ops) in MergedWorkflows(ws, existing, ops)
        <==> |SyncRefs(ops)| > 0
  {
    var updated := seq(|ws|, j requires 0 <= j < |ws| => UpdatedWorkflow(ws[j], BaselineOpNames(existing), ConvertedOpIds(ops), ops));
    assert updated[i] in updated;
  }

  /** The workflow loop: each workflow dict is updated in place. */
  method UpdateWorkflows(workflows: array<Json>, byId: map<Json, Json>, byName: map<Json, Json>, ops: seq<Json>)
    modifies workflows
    ensures forall i :: 0 <= i < workflows.Length ==> workflows[i] == UpdatedWorkflow(old(workflows[i]), byId, byName, ops)
  {
    ghost var before := workflows[..];
    var i := 0;
    while i < workflows.Length
      invariant i <= workflows.Length
      invariant forall j :: 0 <= j < i ==> workflows[j] == UpdatedWorkflow(before[j], byId, byName, ops)
      invariant forall j :: i <= j < workflows.Length ==> workflows[j] == before[j]
    {
      var workflow := workflows[i];
      if IsSyncWorkflow(workflow) {
        var allConverted := SyncOperationList(ops);
        workflows[i] := Set(workflow, "operations", Arr(allConverted));
      } else if Has(workflow, "operations") {
        var updatedOperations := RemapOperations(AsList(workflow.fields["operations"]), byId, byName);
        workflows[i] := Set(workflow, "operations", Arr(updatedOperations));
      }
      i := i + 1;
    }
  }

  /** The loop that lists the converted operations for a sync workflow. */
  method SyncOperationList(ops: seq<Json>) returns (refs: seq<Json>)
    ensures refs == SyncRefs(ops)
  {
    refs := [];
    var k := 0;
    while k < |ops|
      invariant k <= |ops|
      invariant refs == SyncRefs(ops[..k])
    {
      var opId := Get(ops[k], "id");
      var opName := Get(ops[k], "name");
      if Truthy(opId) && Truthy(opName) {
        refs := refs + [OperationRef(opId)];
      }
      assert ops[..k + 1][..k] == ops[..k];
      k := k + 1;
    }
    assert ops[..k] == ops;
  }

  /** The loop that re-points the references of a non-sync workflow. */
  method RemapOperations(refs: seq<Json>, byId: map<Json, Json>, byName: map<Json, Json>) returns (updated: seq<Json>)
    ensures updated == RemapRefs(refs, byId, byName)
  {
    updated := [];
    var k := 0;
    while k < |refs|
      invariant k <= |refs|
      invariant updated == RemapRefs(refs[..k], byId, byName)
    {
      var opRef := refs[k];
      var opId := if opRef.Obj? then Get(opRef, "id") else opRef;
      var opName := if opId in byId then byId[opId] else Null;
      if Truthy(opName) && opName in byName {
        var newOpId := byName[opName];
        if opRef.Obj? {
          updated := updated + [Set(opRef, "id", newOpId)];
        } else {
          updated := updated + [newOpId];
        }
      }
      assert refs[..k + 1][..k] == refs[..k];
      k := k + 1;
    }
    assert refs[..k] == refs;
  }

  /** The pruning: the workflows that still have operations, in order. */
  method PruneWorkflows(workflows: seq<Json>) returns (kept: seq<Json>)
    ensures kept == NonEmptyWorkflows(workflows)
  {
    kept := [];
    var k := 0;
    while k < |workflows|
      invariant k <= |workflows|
      invariant kept == NonEmptyWorkflows(workflows[..k])
    {
      if Truthy(Get(workflows[k], "operations")) {
        kept := kept + [workflows[k]];
      }
      assert workflows[..k + 1][..k] == workflows[..k];
      k := k + 1;
    }
    assert workflows[..k] == workflows;
  }

  // ---------------------------------------------------------------------
  // The merged baseline
  // ---------------------------------------------------------------------

  /** `JPK-v327-Modular-` followed by the first eight characters of the uuid. */
  function ProjectName(uuidText: string): (r: string)
    ensures IsPrefix("JPK-" + TargetVersion + "-Modular-", r)
    ensures |r| <= 17 + 8
  {
    "JPK-" + TargetVersion + "-Modular-" + (if |uuidText| <= 8 then uuidText else uuidText[..8])
  }

  /** The baseline after the merge; `Err` where Python raises because `baseline['project']` is not a dict. */
  function MergedBaseline(baseline: Json, x: Extracted, uuidText: string): (r: Result<Json>)
    ensures r.Ok? <==> baseline.Obj? && Has(baseline, "project") && baseline.fields["project"].Obj?
    ensures r.Ok? ==> r.value.Obj? && Has(r.value, "project") && r.value.fields["project"].Obj?
    ensures r.Ok? ==> var project := r.value.fields["project"];
      Get(project, "name") == Str(ProjectName(uuidText))
      && Get(project, "components") == Arr(MergedComponents(AsList(Get(baseline.fields["project"], "components")), x))
  {
    if !(baseline.Obj? && Has(baseline, "project") && baseline.fields["project"].Obj?) then Err("baseline['project'] is not a dict")
    else
      var project := baseline.fields["project"];
      var existing := AsList(Get(project, "components"));
      var withComponents := Set(project, "components", Arr(MergedComponents(existing, x)));
      var withWorkflows :=
        if Has(project, "workflows")
        then Set(withComponents, "workflows", Arr(MergedWorkflows(AsList(project.fields["workflows"]), existing, x.operations)))
        else withComponents;
      var withAssets := if Truthy(x.xsdAssets) then Set(baseline, "assets", x.xsdAssets) else baseline;
      Ok(Set(withAssets, "project", Set(withWorkflows, "name", Str(ProjectName(uuidText)))))
  }

  /** After the merge every workflow in the project has a non-empty operation list. */
  lemma MergedBaselineWorkflowsNonEmpty(baseline: Json, x: Extracted, uuidText: string)
    requires MergedBaseline(baseline, x, uuidText).Ok?
    ensures var project := MergedBaseline(baseline, x, uuidText).value.fields["project"];
      forall w :: w in AsList(Get(project, "workflows")) ==> Truthy(Get(w, "operations"))
  {
    var project := baseline.fields["project"];
    if Has(project, "workflows") {
      var existing := AsList(Get(project, "components"));
      var ws := AsList(project.fields["workflows"]);
      var merged := MergedWorkflows(ws, existing, x.operations);
      assert AsList(Get(MergedBaseline(baseline, x, uuidText).value.fields["project"], "workflows")) == merged;
    } else {
      assert !Has(MergedBaseline(baseline, x, uuidText).value.fields["project"], "workflows");
    }
  }

  /** `_merge_components`. */
  method MergeComponents(baseline: Json, x: Extracted, uuidText: string) returns (r: Result<Json>)
    ensures r == MergedBaseline(baseline, x, uuidText)
  {
    if !(baseline.Obj? && Has(baseline, "project") && baseline.fields["project"].Obj?) {
      return Err("baseline['project'] is not a dict");
    }
    var project := baseline.fields["project"];
    var existing := AsList(Get(project, "components"));
    var ordered := OrderComponents(existing, x);
    project := Set(project, "components", Arr(ordered));
    if Has(baseline.fields["project"], "workflows") {
      var listed := AsList(baseline.fields["project"].fields["workflows"]);
      var workflows := new Json[|listed|](i requires 0 <= i < |listed| => listed[i]);
      UpdateWorkflows(workflows, BaselineOpNames(existing), ConvertedOpIds(x.operations), x.operations);
      var pruned := PruneWorkflows(workflows[..]);
      assert workflows[..] == seq(|listed|, i requires 0 <= i < |listed| =>
        UpdatedWorkflow(listed[i], BaselineOpNames(existing), ConvertedOpIds(x.operations), x.operations));
      project := Set(project, "workflows", Arr(pruned));
    }
    var merged := baseline;
    if Truthy(x.xsdAssets) {
      merged := Set(merged, "assets", x.xsdAssets);
    }
    project := Set(project, "name", Str(ProjectName(uuidText)));
    return Ok(Set(merged, "project", project));
  }
}
