/**
 * The transformation converter object: the per-transformation context
 * that decides root translation, the cache of generated GUIDs, the
 * extraction of the main loop rule and the conversion of a
 * transformation's mappings into its ordered rule list.
 */
module TransformationConverter {
  import opened Wrappers
  import opened Strings
  import opened JsonValues
  import opened TransformationRules
  import opened ConverterPaths
  import opened MappingRules

  /** One entry of `loopMappingRules`. */
  datatype LoopRule = LoopRule(srcLoopPath: string, tgtLoopPath: string, srcPath: string, tgtPath: string)

  /** A mapping whose raw target ends with `.]` marks a repeating target element. */
  predicate IsLoopMapping(m: JpkMapping) {
    IsSuffix(".]", m.targetPath)
  }

  /** A loop candidate: bracket-free target and source paths and the target's `$` count. */
  datatype LoopCandidate = LoopCandidate(tgtLoop: string, srcLoop: string, tgtDepth: nat)

  function Candidate(m: JpkMapping): (c: LoopCandidate)
    ensures c.tgtDepth == CountChar(c.tgtLoop, '$')
  {
    var tgt := StripSet(m.targetPath, Brackets);
    LoopCandidate(tgt, StripSet(m.sourceExpression, Brackets), CountChar(tgt, '$'))
  }

  /** The candidates of the loop mappings, in order. */
  function LoopCandidates(ms: seq<JpkMapping>): (cs: seq<LoopCandidate>)
    ensures |cs| <= |ms|
  {
    if |ms| == 0 then []
    else LoopCandidates(ms[..|ms| - 1]) + (if IsLoopMapping(ms[|ms| - 1]) then [Candidate(ms[|ms| - 1])] else [])
  }

  /** Every candidate is the candidate of a loop mapping. */
  lemma {:induction false} LoopCandidatesFrom(ms: seq<JpkMapping>, k: nat)
    requires k < |LoopCandidates(ms)|
    ensures exists i :: 0 <= i < |ms| && IsLoopMapping(ms[i]) && Candidate(ms[i]) == LoopCandidates(ms)[k]
  {
    var init := ms[..|ms| - 1];
    var cs := LoopCandidates(init);
    if k < |cs| {
      LoopCandidatesFrom(init, k);
      var i :| 0 <= i < |init| && IsLoopMapping(init[i]) && Candidate(init[i]) == cs[k];
      assert ms[i] == init[i];
    } else {
      assert LoopCandidates(ms)[k] == Candidate(ms[|ms| - 1]);
    }
  }

  lemma {:induction false} NoCandidates(ms: seq<JpkMapping>)
    ensures |LoopCandidates(ms)| == 0 <==> forall i :: 0 <= i < |ms| ==> !IsLoopMapping(ms[i])
  {
    if |ms| > 0 {
      var init := ms[..|ms| - 1];
      NoCandidates(init);
      if forall i :: 0 <= i < |ms| ==> !IsLoopMapping(ms[i]) {
        assert forall i :: 0 <= i < |init| ==> init[i] == ms[i];
      }
    }
  }

  /** `min(loop_candidates, key=tgt_depth)`: the index of the first candidate of least depth. */
  function FirstMinIndex(cs: seq<LoopCandidate>): (k: nat)
    requires |cs| > 0
    ensures k < |cs|
    ensures forall i :: 0 <= i < |cs| ==> cs[k].tgtDepth <= cs[i].tgtDepth
    ensures forall i :: 0 <= i < k ==> cs[k].tgtDepth < cs[i].tgtDepth
  {
    if |cs| == 1 then 0
    else
      var k := FirstMinIndex(cs[1..]) + 1;
      if cs[0].tgtDepth <= cs[k].tgtDepth then 0 else k
  }

  /** `tgt_loop.rstrip('.').replace('$', '/')`. */
  function LoopTargetPath(tgtLoop: string): (r: string)
    ensures '$' !in r
  {
    ReplaceChar(RStrip(tgtLoop, {'.'}), '$', '/')
  }

  /** The loop rule of the main candidate, roots translated unless skipped. */
  function MainLoopRule(c: LoopCandidate, skipTranslation: bool): LoopRule {
    var tgtPath := LoopTargetPath(c.tgtLoop);
    var loopPath := if !skipTranslation && IsPrefix("Contacts$", c.tgtLoop) then "records$" + c.tgtLoop[9..] else c.tgtLoop;
    var path := if !skipTranslation && IsPrefix("Contacts/", tgtPath) then "records/" + tgtPath[9..] else tgtPath;
    LoopRule(c.srcLoop, loopPath, "", path)
  }

  /** `_extract_loop_mapping_rules` for a given root-translation decision. */
  function LoopRules(ms: seq<JpkMapping>, skipTranslation: bool): seq<LoopRule> {
    var cs := LoopCandidates(ms);
    if |cs| == 0 then [] else [MainLoopRule(cs[FirstMinIndex(cs)], skipTranslation)]
  }

  /** `c` is the candidate of some mapping that marks a loop. */
  ghost predicate FromLoopMapping(ms: seq<JpkMapping>, c: LoopCandidate) {
    exists i :: 0 <= i < |ms| && IsLoopMapping(ms[i]) && Candidate(ms[i]) == c
  }

  /** `cs[k]` has the least depth of all candidates, and every earlier one is deeper. */
  ghost predicate FirstOfLeastDepth(cs: seq<LoopCandidate>, k: int) {
    0 <= k < |cs|
    && (forall i :: 0 <= i < |cs| ==> cs[k].tgtDepth <= cs[i].tgtDepth)
    && (forall i :: 0 <= i < k ==> cs[k].tgtDepth < cs[i].tgtDepth)
  }

  /**
   * There is a loop rule exactly when some mapping marks a loop, and then
   * only one: the rule of the first candidate of least depth.
   */
  lemma {:induction false} LoopRulesSpec(ms: seq<JpkMapping>, skipTranslation: bool)
    ensures var r := LoopRules(ms, skipTranslation);
      |r| <= 1
      && (|r| == 1 <==> exists i :: 0 <= i < |ms| && IsLoopMapping(ms[i]))
      && (|r| == 1 ==>
            var cs := LoopCandidates(ms);
            exists k :: FirstOfLeastDepth(cs, k)
              && r[0] == MainLoopRule(cs[k], skipTranslation)
              && FromLoopMapping(ms, cs[k]))
  {
    var r := LoopRules(ms, skipTranslation);
    var cs := LoopCandidates(ms);
    NoCandidates(ms);
    if |cs| > 0 {
      var k := FirstMinIndex(cs);
      LoopCandidatesFrom(ms, k);
      assert FirstOfLeastDepth(cs, k) && FromLoopMapping(ms, cs[k]);
      assert r[0] == MainLoopRule(cs[k], skipTranslation);
    }
  }

  /**
   * The loop rule's target path uses `/` alone, its source path is empty,
   * it keeps the loop paths when translation is skipped, and a translated
   * loop path comes with a translated target path.
   */
  lemma MainLoopRuleShape(c: LoopCandidate, skipTranslation: bool)
    ensures var r := MainLoopRule(c, skipTranslation);
      '$' !in r.tgtPath && r.srcPath == "" && r.srcLoopPath == c.srcLoop
      && (skipTranslation ==> r.tgtLoopPath == c.tgtLoop && r.tgtPath == LoopTargetPath(c.tgtLoop))
      && (!skipTranslation && IsPrefix("Contacts$", c.tgtLoop) ==> IsPrefix("records$", r.tgtLoopPath) && IsPrefix("records/", r.tgtPath))
  {
    var r := MainLoopRule(c, skipTranslation);
    var tgtPath := LoopTargetPath(c.tgtLoop);
    if !skipTranslation && IsPrefix("Contacts$", c.tgtLoop) {
      TranslatedLoopPath(c.tgtLoop);
    }
    if !skipTranslation && IsPrefix("Contacts/", tgtPath) {
      assert r.tgtPath == "records/" + tgtPath[9..];
      assert r.tgtPath[8..] == tgtPath[9..];
      assert '$' !in r.tgtPath[..8];
    }
  }

  /** A loop path under `Contacts$` has a target path under `Contacts/`. */
  lemma TranslatedLoopPath(tgtLoop: string)
    requires IsPrefix("Contacts$", tgtLoop)
    ensures IsPrefix("Contacts/", LoopTargetPath(tgtLoop))
  {
    var stripped := RStrip(tgtLoop, {'.'});
    assert tgtLoop[8] == '$';
    assert |stripped| >= 9 by {
      assert tgtLoop[8] !in {'.'};
    }
    assert stripped[..9] == tgtLoop[..9];
  }

  /** `target_schema.get('root', '')` names a namespaced canonical schema: `{...}Root`. */
  predicate HasNamespacedRoot(targetSchema: Json) {
    var root := AsStr(GetOr(targetSchema, "root", Str("")));
    root != "" && IsPrefix("{", root) && '}' in root
  }

  /** `_rule_is_flat_schema(target_schema) if target_schema else False`. */
  predicate TargetIsFlat(targetSchema: Json) {
    Truthy(targetSchema) && IsFlatSchema(targetSchema)
  }

  /**
   * The schema document `_convert_mapping_rules` checks complex elements
   * against: the reference document, for a namespaced target root.
   */
  function TargetDocument(targetSchema: Json, referenceDocument: Json): (d: Json)
    ensures !HasNamespacedRoot(targetSchema) ==> d == Null
  {
    if Truthy(targetSchema) && HasNamespacedRoot(targetSchema) then referenceDocument else Null
  }

  /** Without a namespaced target root no mapping is dropped as a complex element. */
  lemma {:induction false} NoDocumentKeepsAll(os: seq<Option<MappingRule>>)
    ensures |KeepConverted(os, Null)| == |os| - |set i | 0 <= i < |os| && os[i].None?|
  {
    if |os| > 0 {
      var init := os[..|os| - 1];
      NoDocumentKeepsAll(init);
      var a := set i | 0 <= i < |init| && init[i].None?;
      var b := set i | 0 <= i < |os| && os[i].None?;
      if os[|os| - 1].None? {
        assert b == a + {|os| - 1};
      } else {
        assert b == a;
      }
    }
  }

  /**
   * The first loop of `_convert_mapping_rules`: the kept rules and the
   * target paths of the preconditions among them.
   */
  method ConvertAndKeep(jpkMappings: seq<JpkMapping>, isFlatSchema: bool, flatFieldNames: seq<string>, skipTranslation: bool, targetDocument: Json)
    returns (converted: seq<MappingRule>, existing: set<string>)
    ensures converted == KeptRules(jpkMappings, isFlatSchema, flatFieldNames, skipTranslation, targetDocument)
    ensures existing == TargetPaths(Preconditions(converted))
  {
    ghost var os := ConvertAll(jpkMappings, isFlatSchema, flatFieldNames, skipTranslation);
    converted := [];
    existing := {};
    for i := 0 to |jpkMappings|
      invariant converted == KeepConverted(os[..i], targetDocument)
      invariant existing == TargetPaths(Preconditions(converted))
    {
      var rule := ConvertSingleMapping(jpkMappings[i], isFlatSchema, flatFieldNames, skipTranslation);
      assert os[i] == rule;
      KeepConvertedStep(os, i, targetDocument);
      if rule.Some? && !TargetsComplexElement(targetDocument, rule.value) {
        PreconditionPathsAppend(converted, rule.value);
        converted := converted + [rule.value];
        if rule.value.isPreconditionScript {
          existing := existing + {rule.value.targetPath};
        }
      }
    }
    assert os[..|jpkMappings|] == os;
  }

  /** `JPKTransformationConverter`. */
  class JpkTransformationConverter {
    /** Seed to GUID. */
    var guidCache: map<string, string>
    /** The roots and Salesforce object of the transformation being converted; `None` is `""`. */
    var currentSourceRoot: string
    var currentTargetRoot: string
    var currentSalesforceObjectName: string
    /** Name-based UUID generation under the converter's fixed namespace. */
    const uuid5: string -> string

    /** Every cached GUID is the one its seed generates. */
    ghost predicate Valid()
      reads this
    {
      forall seed :: seed in guidCache ==> guidCache[seed] == uuid5(seed)
    }

    constructor(uuid5: string -> string)
      ensures Valid()
      ensures this.uuid5 == uuid5 && guidCache == map[]
      ensures currentSourceRoot == "" && currentTargetRoot == "" && currentSalesforceObjectName == ""
    {
      this.uuid5 := uuid5;
      guidCache := map[];
      currentSourceRoot := "";
      currentTargetRoot := "";
      currentSalesforceObjectName := "";
    }

    /** The context `_convert_single_transformation` sets before converting. */
    method SetContext(sourceRoot: string, targetRoot: string, salesforceObjectName: string)
      requires Valid()
      modifies this
      ensures Valid()
      ensures currentSourceRoot == sourceRoot && currentTargetRoot == targetRoot
      ensures currentSalesforceObjectName == salesforceObjectName
      ensures guidCache == old(guidCache)
    {
      currentSourceRoot := sourceRoot;
      currentTargetRoot := targetRoot;
      currentSalesforceObjectName := salesforceObjectName;
    }

    /** `_generate_guid`: the cached GUID, or a new one that is then cached. */
    method GenerateGuid(seed: string) returns (guid: string)
      requires Valid()
      modifies this
      ensures Valid()
      ensures guid == uuid5(seed)
      ensures guidCache == old(guidCache)[seed := guid]
      ensures currentSourceRoot == old(currentSourceRoot) && currentTargetRoot == old(currentTargetRoot)
      ensures currentSalesforceObjectName == old(currentSalesforceObjectName)
    {
      if seed in guidCache {
        guid := guidCache[seed];
        return;
      }
      guid := uuid5(seed);
      guidCache := guidCache[seed := guid];
    }

    /** Whether target paths keep their canonical root (`_rule_should_skip_root_translation` on the target root). */
    function SkipTranslation(): bool
      reads this
    {
      ShouldSkipRootTranslation(currentTargetRoot, currentSalesforceObjectName)
    }

    /** `_extract_loop_mapping_rules`. */
    method ExtractLoopMappingRules(jpkMappings: seq<JpkMapping>) returns (rules: seq<LoopRule>)
      ensures rules == LoopRules(jpkMappings, SkipTranslation())
    {
      if |jpkMappings| == 0 {
        return [];
      }
      var candidates: seq<LoopCandidate> := [];
      for i := 0 to |jpkMappings|
        invariant candidates == LoopCandidates(jpkMappings[..i])
      {
        var m := jpkMappings[i];
        if IsSuffix(".]", m.targetPath) {
          var tgt := StripSet(m.targetPath, Brackets);
          var src := StripSet(m.sourceExpression, Brackets);
          candidates := candidates + [LoopCandidate(tgt, src, CountChar(tgt, '$'))];
        }
        assert jpkMappings[..i + 1][..i] == jpkMappings[..i];
      }
      assert jpkMappings[..|jpkMappings|] == jpkMappings;
      if |candidates| == 0 {
        return [];
      }
      var mainLoop := candidates[FirstMinIndex(candidates)];
      rules := [MainLoopRule(mainLoop, SkipTranslation())];
    }

    /**
     * `_convert_mapping_rules`. `referenceDocument` is the schema reference
     * file for the target schema, `Null` when there is none.
     */
    method ConvertMappingRules(jpkMappings: seq<JpkMapping>, targetSchema: Json, flatFieldNames: seq<string>, referenceDocument: Json)
      returns (rules: seq<MappingRule>)
      ensures IsConvertedRuleList(rules, KeptRules(jpkMappings, TargetIsFlat(targetSchema), flatFieldNames, SkipTranslation(), TargetDocument(targetSchema, referenceDocument)))
    {
      var isFlatSchema := Truthy(targetSchema) && IsFlatSchema(targetSchema);
      var targetDocument := TargetDocument(targetSchema, referenceDocument);
      var skip := SkipTranslation();
      var converted, existing := ConvertAndKeep(jpkMappings, isFlatSchema, flatFieldNames, skip, targetDocument);
      rules := AssembleRules(converted, existing);
    }
  }
}
