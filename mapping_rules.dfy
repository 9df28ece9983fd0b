/**
 * Mapping rules of a transformation: the conversion of one JPK mapping
 * (target path, source expression, script flag) into a JSON mapping rule,
 * the precondition rules generated for parent paths, and their ordering by
 * depth.
 */
module MappingRules {
  import opened Wrappers
  import opened Strings
  import opened JsonValues
  import opened TransformationRules
  import opened ConverterPaths
  import opened SourcePaths
  import opened SchemaTrees

  /** One mapping as JPK discovery reports it. */
  datatype JpkMapping = JpkMapping(targetPath: string, sourceExpression: string, hasScript: bool)

  /**
   * A JSON mapping rule. `hasScriptFields` marks the rules of script
   * mappings, which also carry `cursor` and `transformScriptError`.
   */
  datatype MappingRule = MappingRule(
    isPreconditionScript: bool,
    targetPath: string,
    targetScript: string,
    transformScript: string,
    srcPaths: Option<seq<string>>,
    hasScriptFields: bool)
  {
    function ToJson(): (j: Json)
      ensures j.Obj? && "targetPath" in j.fields && j.fields["targetPath"] == Str(targetPath)
      ensures "isPreconditionScript" in j.fields && j.fields["isPreconditionScript"] == Bool(isPreconditionScript)
      ensures "transformScript" in j.fields && j.fields["transformScript"] == Str(transformScript)
    {
      var paths := match srcPaths
        case None => Null
        case Some(ps) => Arr(seq(|ps|, i requires 0 <= i < |ps| => Str(ps[i])));
      var base := map[
        "customValuePaths" := Arr([]),
        "globalVariables" := Arr([]),
        "isPreconditionScript" := Bool(isPreconditionScript),
        "targetPath" := Str(targetPath),
        "targetScript" := Str(targetScript),
        "transformScript" := Str(transformScript),
        "validationErrors" := Arr([]),
        "transformScriptCleansed" := Str(transformScript),
        "srcPaths" := paths];
      if hasScriptFields then
        Obj(base["cursor" := Obj(map["line" := Num(34), "ch" := Num(9), "sticky" := Null])]["transformScriptError" := Str("")])
      else Obj(base)
    }
  }

  // ---------------------------------------------------------------------
  // PRESCRIPT markers and root translation
  // ---------------------------------------------------------------------

  /** `re.sub(marker + '/?$', '', s)` for a marker that can match only at the end. */
  function RemoveTrailingMarker(s: string, marker: string): (r: string)
    ensures IsPrefix(r, s)
  {
    if IsSuffix(marker + "/", s) then s[..|s| - |marker| - 1]
    else if IsSuffix(marker, s) then s[..|s| - |marker|]
    else s
  }

  /** The target path of a PRESCRIPT mapping: the trailing `//PRESCRIPT` (or `/PRESCRIPT`) and an optional `/` removed. */
  function StripPrescript(targetPath: string): (r: string)
    ensures IsPrefix(r, targetPath)
  {
    RemoveTrailingMarker(RemoveTrailingMarker(targetPath, "//PRESCRIPT"), "/PRESCRIPT")
  }

  /** `re.sub(r'\$?/PRESCRIPT/?$', '$', s)`. */
  function PrescriptToDollar(s: string): string {
    if IsSuffix("$/PRESCRIPT/", s) then s[..|s| - 12] + "$"
    else if IsSuffix("$/PRESCRIPT", s) then s[..|s| - 11] + "$"
    else if IsSuffix("/PRESCRIPT/", s) then s[..|s| - 11] + "$"
    else if IsSuffix("/PRESCRIPT", s) then s[..|s| - 10] + "$"
    else s
  }

  /** `_translate_jpk_root`: a leading `Contacts$` or `Contacts.` becomes `records$` / `records.` unless skipped. */
  function TranslateJpkRoot(jpkScript: string, skipTranslation: bool): (r: string)
    ensures skipTranslation ==> r == jpkScript
  {
    if skipTranslation then jpkScript
    else if IsPrefix("Contacts$", jpkScript) then "records$" + jpkScript[9..]
    else if IsPrefix("Contacts.", jpkScript) then "records." + jpkScript[9..]
    else jpkScript
  }

  /**
   * Translation rewrites exactly the scripts whose first JPK segment is
   * `Contacts`, and only their first eight characters.
   */
  lemma TranslateJpkRootSpec(jpkScript: string)
    ensures var r := TranslateJpkRoot(jpkScript, false);
      (r != jpkScript <==> IsPrefix("Contacts$", jpkScript) || IsPrefix("Contacts.", jpkScript))
      && |r| == |jpkScript| - 1 + (if r != jpkScript then 0 else 1)
      && (r != jpkScript ==> IsPrefix("records", r) && r[7..] == jpkScript[8..])
  {
    if IsPrefix("Contacts$", jpkScript) || IsPrefix("Contacts.", jpkScript) {
      assert jpkScript[0] == 'C';
      assert TranslateJpkRoot(jpkScript, false)[0] == 'r';
    }
  }

  // ---------------------------------------------------------------------
  // Transform scripts
  // ---------------------------------------------------------------------

  const TransOpen: string := "<trans>"
  const TransClose: string := "</trans>"

  /** The stripped source with one leading `<trans>` and one trailing `</trans>` removed. */
  function Unwrapped(sourceExpression: string): string {
    var s := Strip(sourceExpression);
    var unopened := if IsPrefix(TransOpen, s) then s[7..] else s;
    if IsSuffix(TransClose, unopened) then unopened[..|unopened| - 8] else unopened
  }

  /** The body of a script mapping's source: its unwrapped text, stripped again. */
  function ScriptContent(sourceExpression: string): string {
    Strip(Unwrapped(sourceExpression))
  }

  /** `_format_transform_script`. */
  function FormatTransformScript(expression: string): (r: string)
    ensures expression == "" <==> r == ""
  {
    if expression == "" then "" else TransOpen + "\n" + expression + "\n" + TransClose
  }

  lemma StrippedEnds(c: string)
    requires Strip(c) == c && c != ""
    ensures !IsSpace(c[0]) && !IsSpace(c[|c| - 1])
  {
    IsSpaceIsWhitespace(c[0]);
    IsSpaceIsWhitespace(c[|c| - 1]);
  }

  lemma StripNewlines(c: string)
    requires c != "" && !IsSpace(c[0]) && !IsSpace(c[|c| - 1])
    ensures Strip("\n" + c + "\n") == c
  {
    IsSpaceIsWhitespace(c[0]);
    IsSpaceIsWhitespace(c[|c| - 1]);
    var s := "\n" + c + "\n";
    assert s[1..] == c + "\n";
    assert LStrip(c + "\n", Whitespace) == c + "\n";
    assert LStrip(s, Whitespace) == c + "\n";
    assert (c + "\n")[..|c|] == c;
    assert RStrip(c, Whitespace) == c;
    assert RStrip(c + "\n", Whitespace) == c;
  }

  lemma TaggedStripped(inner: string)
    ensures Strip(TransOpen + inner + TransClose) == TransOpen + inner + TransClose
  {
    var f := TransOpen + inner + TransClose;
    assert f[0] == '<' && f[|f| - 1] == '>';
    IsSpaceIsWhitespace('<');
    IsSpaceIsWhitespace('>');
    StripFixed(f);
  }

  lemma UnwrapTags(inner: string)
    ensures var f := TransOpen + inner + TransClose;
      IsPrefix(TransOpen, f) && f[7..] == inner + TransClose
      && IsSuffix(TransClose, inner + TransClose) && (inner + TransClose)[..|inner|] == inner
  {
    var f := TransOpen + inner + TransClose;
    assert f[..7] == TransOpen;
  }

  /**
   * Round trip: the content of a formatted script is the stripped text it
   * was formatted from.
   */
  lemma ScriptContentRoundTrip(content: string)
    requires Strip(content) == content
    ensures ScriptContent(FormatTransformScript(content)) == content
  {
    if content != "" {
      StrippedEnds(content);
      var inner := "\n" + content + "\n";
      assert FormatTransformScript(content) == TransOpen + inner + TransClose;
      TaggedStripped(inner);
      UnwrapTags(inner);
      StripNewlines(content);
    }
  }

  // ---------------------------------------------------------------------
  // Single mappings
  // ---------------------------------------------------------------------

  /** `None` for an empty list of paths, as the source stores it. */
  function NonEmptyPaths(paths: seq<string>): (r: Option<seq<string>>)
    ensures r.Some? ==> |r.value| > 0
    ensures r.None? <==> |paths| == 0
  {
    if |paths| == 0 then None else Some(paths)
  }

  /** The source paths of a script: its `jbroot$` paths, else the path of the script read as an expression. */
  function ScriptSrcPaths(content: string): (r: Option<seq<string>>)
    ensures r.Some? ==> |r.value| > 0
  {
    match SrcPathsFromScript(content)
    case Some(ps) => if |ps| > 0 then Some(ps) else NonEmptyPaths(SourcePathsOf(content))
    case None => NonEmptyPaths(SourcePathsOf(content))
  }

  /** The raw target after the flat-schema rewrite, when that rewrite changes it. */
  function RawTarget(m: JpkMapping, isFlatSchema: bool, flatFieldNames: seq<string>): string {
    var cleaned := CleanTarget(m.targetPath);
    var mapped := MapFlatSchemaTargetPath(cleaned, flatFieldNames);
    if isFlatSchema && mapped != cleaned then mapped else m.targetPath
  }

  /** The converted target path of a mapping, PRESCRIPT marker removed. */
  function RuleTargetPath(raw: string, skipTranslation: bool): string {
    var converted := ConvertPathNotation(raw, skipTranslation);
    if Contains(converted, "/PRESCRIPT") then StripPrescript(converted) else converted
  }

  /** `targetScript`: the bare field name on flat targets, else the bracket-free JPK path with its root translated. */
  function RuleTargetScript(raw: string, targetPath: string, isFlatSchema: bool, skipTranslation: bool): string {
    if isFlatSchema && IsPrefix(FlatPrefix, targetPath) then ReplaceAll(targetPath, FlatPrefix, "")
    else TranslateJpkRoot(PrescriptToDollar(StripSet(raw, Brackets)), skipTranslation)
  }

  /**
   * `_convert_single_mapping`, with `skipTranslation` the root-translation
   * decision for the current target schema.
   */
  function ConvertSingleMapping(m: JpkMapping, isFlatSchema: bool, flatFieldNames: seq<string>, skipTranslation: bool): Option<MappingRule> {
    if CleanTarget(m.targetPath) == "" then None
    else
      var raw := RawTarget(m, isFlatSchema, flatFieldNames);
      var targetPath := RuleTargetPath(raw, skipTranslation);
      var prescript := Contains(ConvertPathNotation(raw, skipTranslation), "/PRESCRIPT");
      var isPrecondition := IsPrecondition(raw) || (prescript && m.hasScript && Strip(m.sourceExpression) != "");
      var targetScript := RuleTargetScript(raw, targetPath, isFlatSchema, skipTranslation);
      if m.hasScript then
        var content := ScriptContent(m.sourceExpression);
        Some(MappingRule(isPrecondition, targetPath, targetScript, FormatTransformScript(content), ScriptSrcPaths(content), true))
      else
        var srcPaths := if isPrecondition then None else NonEmptyPaths(SourcePathsOf(m.sourceExpression));
        Some(MappingRule(isPrecondition, targetPath, targetScript, "", srcPaths, false))
  }

  /** A mapping is dropped exactly when its cleaned target is empty. */
  lemma SingleMappingDropped(m: JpkMapping, isFlatSchema: bool, flatFieldNames: seq<string>, skipTranslation: bool)
    ensures ConvertSingleMapping(m, isFlatSchema, flatFieldNames, skipTranslation).None? <==> CleanTarget(m.targetPath) == ""
  {
  }

  lemma PrefixKeepsAbsent(r: string, s: string, c: char)
    requires IsPrefix(r, s) && c !in s
    ensures c !in r
  {
    assert r == s[..|r|];
  }

  /**
   * The target path of a converted rule holds no JPK separator; a rule
   * never stores an empty path list; a mapping without a script has no
   * transform script and, when it is a precondition, no source paths.
   */
  lemma SingleMappingShape(m: JpkMapping, isFlatSchema: bool, flatFieldNames: seq<string>, skipTranslation: bool)
    requires ConvertSingleMapping(m, isFlatSchema, flatFieldNames, skipTranslation).Some?
    ensures var r := ConvertSingleMapping(m, isFlatSchema, flatFieldNames, skipTranslation).value;
      '$' !in r.targetPath && '.' !in r.targetPath
      && (r.srcPaths.Some? ==> |r.srcPaths.value| > 0)
      && r.hasScriptFields == m.hasScript
      && (!m.hasScript ==> r.transformScript == "" && (r.isPreconditionScript ==> r.srcPaths.None?))
  {
    var raw := RawTarget(m, isFlatSchema, flatFieldNames);
    var converted := ConvertPathNotation(raw, skipTranslation);
    if Contains(converted, "/PRESCRIPT") {
      PrefixKeepsAbsent(StripPrescript(converted), converted, '$');
      PrefixKeepsAbsent(StripPrescript(converted), converted, '.');
    }
  }

  /**
   * Without a script and outside flat schemas, a rule is a precondition
   * exactly when its unbracketed target ends with `.`.
   */
  lemma SingleMappingPrecondition(m: JpkMapping, flatFieldNames: seq<string>, skipTranslation: bool)
    requires !m.hasScript
    requires ConvertSingleMapping(m, false, flatFieldNames, skipTranslation).Some?
    ensures ConvertSingleMapping(m, false, flatFieldNames, skipTranslation).value.isPreconditionScript <==> IsPrecondition(m.targetPath)
  {
  }

  /**
   * The transform script of a script mapping is its content wrapped in
   * `<trans>` tags, and reading the content back from it gives the same
   * content.
   */
  lemma SingleMappingScript(m: JpkMapping, isFlatSchema: bool, flatFieldNames: seq<string>, skipTranslation: bool)
    requires m.hasScript
    requires ConvertSingleMapping(m, isFlatSchema, flatFieldNames, skipTranslation).Some?
    ensures var r := ConvertSingleMapping(m, isFlatSchema, flatFieldNames, skipTranslation).value;
      r.transformScript == FormatTransformScript(ScriptContent(m.sourceExpression))
      && ScriptContent(r.transformScript) == ScriptContent(m.sourceExpression)
  {
    var content := ScriptContent(m.sourceExpression);
    StripIdempotent(Unwrapped(m.sourceExpression));
    ScriptContentRoundTrip(content);
  }

  lemma StripIdempotent(t: string)
    ensures Strip(Strip(t)) == Strip(t)
  {
    if Strip(t) != "" {
      StripFixed(Strip(t));
    }
  }

  // ---------------------------------------------------------------------
  // Preconditions for parent paths
  // ---------------------------------------------------------------------

  /** `_create_precondition_rule`. */
  function PreconditionRule(path: string, isLoopElement: bool): (r: MappingRule)
    ensures r.isPreconditionScript && r.targetPath == path && r.srcPaths.None? && r.transformScript == ""
  {
    MappingRule(true, path, ConvertPathToJpkNotation(path, isLoopElement), "", None, false)
  }

  /**
   * A `/`-separated path of non-empty segments free of JPK separators,
   * starting with neither whitespace nor a bracket.
   */
  predicate IsPlainPath(path: string) {
    var segs := Split(path, '/');
    (forall i :: 0 <= i < |segs| ==> |segs[i]| > 0 && '$' !in segs[i] && '.' !in segs[i])
    && segs[0][0] !in Whitespace && segs[0][0] !in Brackets
  }

  /**
   * The target script of a precondition on a plain path reads back, through
   * the JPK path notation, as that path.
   */
  lemma PreconditionRoundTrip(path: string, isLoopElement: bool)
    requires IsPlainPath(path)
    ensures SlashPath(PreconditionRule(path, isLoopElement).targetScript) == path
  {
    var segs := Split(path, '/');
    JoinSplit(path, '/');
    JpkNotationRoundTrip(segs, isLoopElement);
  }

  /** The rules whose target paths contribute parents: field mappings with a target. */
  predicate ContributesParents(r: MappingRule) {
    r.targetPath != "" && !r.isPreconditionScript
  }

  /** The parent paths of every contributing rule, as a set. */
  function ParentPathSet(rules: seq<MappingRule>): set<string> {
    if |rules| == 0 then {}
    else
      var r := rules[|rules| - 1];
      ParentPathSet(rules[..|rules| - 1]) + (if ContributesParents(r) then set p | p in GetParentPaths(r.targetPath) else {})
  }

  /**
   * A path is a parent path of the rules exactly when it is a parent path
   * of one contributing rule.
   */
  lemma {:induction false} ParentPathSetMembers(rules: seq<MappingRule>, p: string)
    ensures p in ParentPathSet(rules) <==>
      exists i :: 0 <= i < |rules| && ContributesParents(rules[i]) && p in GetParentPaths(rules[i].targetPath)
  {
    if |rules| > 0 {
      var init := rules[..|rules| - 1];
      ParentPathSetMembers(init, p);
      if p in ParentPathSet(init) {
        var i :| 0 <= i < |init| && ContributesParents(init[i]) && p in GetParentPaths(init[i].targetPath);
        assert rules[i] == init[i];
      }
      if exists i :: 0 <= i < |rules| && ContributesParents(rules[i]) && p in GetParentPaths(rules[i].targetPath) {
        var i :| 0 <= i < |rules| && ContributesParents(rules[i]) && p in GetParentPaths(rules[i].targetPath);
        if i < |rules| - 1 {
          assert init[i] == rules[i];
        }
      }
    }
  }

  /**
   * Every parent path, followed by `/`, is a prefix of the target of a
   * field mapping, so it is strictly shorter than that target.
   */
  lemma ParentPathIsProperPrefix(rules: seq<MappingRule>, p: string)
    requires p in ParentPathSet(rules)
    ensures exists i :: 0 <= i < |rules| && ContributesParents(rules[i]) && IsPrefix(p + "/", rules[i].targetPath)
  {
    ParentPathSetMembers(rules, p);
    var i :| 0 <= i < |rules| && ContributesParents(rules[i]) && p in GetParentPaths(rules[i].targetPath);
    ParentPathsShape(rules[i].targetPath);
    var k :| 0 <= k < |GetParentPaths(rules[i].targetPath)| && GetParentPaths(rules[i].targetPath)[k] == p;
  }

  /** Every non-empty set of paths has an element of least depth. */
  lemma {:induction false} MinDepthExists(paths: set<string>)
    requires paths != {}
    ensures exists p :: p in paths && forall q :: q in paths ==> Depth(p) <= Depth(q)
    decreases |paths|
  {
    var x :| x in paths;
    var rest := paths - {x};
    if rest != {} {
      MinDepthExists(rest);
      var m :| m in rest && forall q :: q in rest ==> Depth(m) <= Depth(q);
      if Depth(x) < Depth(m) {
        assert forall q :: q in paths ==> Depth(x) <= Depth(q) by {
          forall q | q in paths
            ensures Depth(x) <= Depth(q)
          {
            if q != x {
              assert q in rest;
            }
          }
        }
      } else {
        assert forall q :: q in paths ==> Depth(m) <= Depth(q) by {
          forall q | q in paths
            ensures Depth(m) <= Depth(q)
          {
            if q != x {
              assert q in rest;
            }
          }
        }
      }
    } else {
      assert paths == {x};
    }
  }

  /** Precondition rules for exactly `paths`, each once, ordered by depth, looping at depth one. */
  predicate IsPreconditionSequence(pre: seq<MappingRule>, paths: set<string>) {
    (forall i :: 0 <= i < |pre| ==> pre[i] == PreconditionRule(pre[i].targetPath, Depth(pre[i].targetPath) == 1))
    && (forall i :: 0 <= i < |pre| ==> pre[i].targetPath in paths)
    && (forall p :: p in paths ==> exists i :: 0 <= i < |pre| && pre[i].targetPath == p)
    && (forall i, j :: 0 <= i < j < |pre| ==> pre[i].targetPath != pre[j].targetPath)
    && (forall i, j :: 0 <= i < j < |pre| ==> Depth(pre[i].targetPath) <= Depth(pre[j].targetPath))
  }

  /** The first loop of `_generate_intermediate_preconditions`: the parent paths of the field mappings. */
  method CollectParentPaths(fieldMappings: seq<MappingRule>) returns (parents: set<string>)
    ensures parents == ParentPathSet(fieldMappings)
  {
    parents := {};
    for i := 0 to |fieldMappings|
      invariant parents == ParentPathSet(fieldMappings[..i])
    {
      var r := fieldMappings[i];
      if r.targetPath != "" && !r.isPreconditionScript {
        parents := parents + set p | p in GetParentPaths(r.targetPath);
      }
      assert fieldMappings[..i + 1][..i] == fieldMappings[..i];
    }
    assert fieldMappings[..|fieldMappings|] == fieldMappings;
  }

  /**
   * The state of the emitting loop: `pre` is a precondition sequence for the
   * paths already taken out of `remaining`, none deeper than a path left.
   */
  predicate EmittedSoFar(pre: seq<MappingRule>, remaining: set<string>, paths: set<string>) {
    IsPreconditionSequence(pre, paths - remaining)
    && forall i, q :: 0 <= i < |pre| && q in remaining ==> Depth(pre[i].targetPath) <= Depth(q)
  }

  /** Emitting a shallowest remaining path keeps the loop state. */
  lemma EmitKeeps(pre: seq<MappingRule>, remaining: set<string>, paths: set<string>, p: string)
    requires remaining <= paths && EmittedSoFar(pre, remaining, paths)
    requires p in remaining && forall q :: q in remaining ==> Depth(p) <= Depth(q)
    ensures EmittedSoFar(pre + [PreconditionRule(p, Depth(p) == 1)], remaining - {p}, paths)
  {
    assert paths - (remaining - {p}) == (paths - remaining) + {p};
    PreconditionSnoc(pre, paths - remaining, p);
  }

  /** A precondition sequence extended by a new path no shallower than its paths. */
  lemma PreconditionSnoc(pre: seq<MappingRule>, done: set<string>, p: string)
    requires IsPreconditionSequence(pre, done) && p !in done
    requires forall i :: 0 <= i < |pre| ==> Depth(pre[i].targetPath) <= Depth(p)
    ensures IsPreconditionSequence(pre + [PreconditionRule(p, Depth(p) == 1)], done + {p})
  {
    var r := PreconditionRule(p, Depth(p) == 1);
    RuleShapeSnoc(pre, done, p);
    DistinctPathsSnoc(pre, r);
    DepthOrderSnoc(pre, r);
    CoverSnoc(pre, done, r);
  }

  /** Every path of the set, and the appended rule's own, has a rule after the append. */
  lemma CoverSnoc(pre: seq<MappingRule>, done: set<string>, r: MappingRule)
    requires forall q :: q in done ==> exists i :: 0 <= i < |pre| && pre[i].targetPath == q
    ensures forall q :: q in done + {r.targetPath} ==> exists i :: 0 <= i < |pre + [r]| && (pre + [r])[i].targetPath == q
  {
    var next := pre + [r];
    assert next[|pre|] == r;
    forall q | q in done + {r.targetPath}
      ensures exists i :: 0 <= i < |next| && next[i].targetPath == q
    {
      if q != r.targetPath {
        var i :| 0 <= i < |pre| && pre[i].targetPath == q;
        assert next[i] == pre[i];
      }
    }
  }

  /** Every rule stays a precondition rule for a path of the set when the rule for `p` is appended. */
  lemma RuleShapeSnoc(pre: seq<MappingRule>, done: set<string>, p: string)
    requires forall i :: 0 <= i < |pre| ==> pre[i] == PreconditionRule(pre[i].targetPath, Depth(pre[i].targetPath) == 1)
    requires forall i :: 0 <= i < |pre| ==> pre[i].targetPath in done
    ensures var next := pre + [PreconditionRule(p, Depth(p) == 1)];
      (forall i :: 0 <= i < |next| ==> next[i] == PreconditionRule(next[i].targetPath, Depth(next[i].targetPath) == 1))
      && (forall i :: 0 <= i < |next| ==> next[i].targetPath in done + {p})
  {
  }

  /** Target paths stay pairwise different when a rule with a new path is appended. */
  lemma DistinctPathsSnoc(pre: seq<MappingRule>, r: MappingRule)
    requires forall i, j :: 0 <= i < j < |pre| ==> pre[i].targetPath != pre[j].targetPath
    requires forall i :: 0 <= i < |pre| ==> pre[i].targetPath != r.targetPath
    ensures forall i, j :: 0 <= i < j < |pre + [r]| ==> (pre + [r])[i].targetPath != (pre + [r])[j].targetPath
  {
    assert forall i :: 0 <= i < |pre| ==> (pre + [r])[i] == pre[i];
  }

  /** Depths stay non-decreasing when a rule no shallower than the others is appended. */
  lemma DepthOrderSnoc(pre: seq<MappingRule>, r: MappingRule)
    requires forall i, j :: 0 <= i < j < |pre| ==> Depth(pre[i].targetPath) <= Depth(pre[j].targetPath)
    requires forall i :: 0 <= i < |pre| ==> Depth(pre[i].targetPath) <= Depth(r.targetPath)
    ensures forall i, j :: 0 <= i < j < |pre + [r]| ==> Depth((pre + [r])[i].targetPath) <= Depth((pre + [r])[j].targetPath)
  {
    assert forall i :: 0 <= i < |pre| ==> (pre + [r])[i] == pre[i];
  }

  /**
   * `_generate_intermediate_preconditions`: one precondition for each parent
   * path of a field mapping not already in `existing`, shallowest first.
   * Paths of equal depth come out in an unspecified order.
   */
  method GenerateIntermediatePreconditions(fieldMappings: seq<MappingRule>, existing: set<string>)
    returns (pre: seq<MappingRule>)
    ensures IsPreconditionSequence(pre, ParentPathSet(fieldMappings) - existing)
  {
    var parents := CollectParentPaths(fieldMappings);
    var paths := parents - existing;
    var remaining := paths;
    pre := [];
    while remaining != {}
      invariant remaining <= paths
      invariant EmittedSoFar(pre, remaining, paths)
      decreases |remaining|
    {
      MinDepthExists(remaining);
      var p :| p in remaining && forall q :: q in remaining ==> Depth(p) <= Depth(q);
      EmitKeeps(pre, remaining, paths, p);
      pre := pre + [PreconditionRule(p, Depth(p) == 1)];
      remaining := remaining - {p};
    }
    assert paths - remaining == paths;
  }

  // ---------------------------------------------------------------------
  // Ordering and assembling the rule list
  // ---------------------------------------------------------------------

  /** `r.get('targetPath', '').count('/')`, the sort key of preconditions. */
  function RuleDepth(r: MappingRule): nat {
    Depth(r.targetPath)
  }

  predicate SortedByDepth(rs: seq<MappingRule>) {
    forall i, j :: 0 <= i < j < |rs| ==> RuleDepth(rs[i]) <= RuleDepth(rs[j])
  }

  /** The rules of depth `d`, in order. */
  function OfDepth(rs: seq<MappingRule>, d: nat): seq<MappingRule> {
    if |rs| == 0 then []
    else OfDepth(rs[..|rs| - 1], d) + (if RuleDepth(rs[|rs| - 1]) == d then [rs[|rs| - 1]] else [])
  }

  /** `x` placed after every rule of `sorted` that is not deeper. */
  function InsertByDepth(sorted: seq<MappingRule>, x: MappingRule): (r: seq<MappingRule>)
    ensures multiset(r) == multiset(sorted) + multiset{x}
  {
    if |sorted| == 0 || RuleDepth(sorted[|sorted| - 1]) <= RuleDepth(x) then sorted + [x]
    else
      var last := sorted[|sorted| - 1];
      assert sorted == sorted[..|sorted| - 1] + [last];
      InsertByDepth(sorted[..|sorted| - 1], x) + [last]
  }

  /** Python's stable `list.sort(key=depth)`, as an insertion sort. */
  function SortByDepth(rs: seq<MappingRule>): seq<MappingRule> {
    if |rs| == 0 then [] else InsertByDepth(SortByDepth(rs[..|rs| - 1]), rs[|rs| - 1])
  }

  lemma {:induction false} InsertSorted(sorted: seq<MappingRule>, x: MappingRule)
    requires SortedByDepth(sorted)
    ensures SortedByDepth(InsertByDepth(sorted, x))
    decreases |sorted|
  {
    if |sorted| > 0 && RuleDepth(sorted[|sorted| - 1]) > RuleDepth(x) {
      var init := sorted[..|sorted| - 1];
      var last := sorted[|sorted| - 1];
      InsertSorted(init, x);
      var ins := InsertByDepth(init, x);
      forall y | y in multiset(ins)
        ensures RuleDepth(y) <= RuleDepth(last)
      {
        if y != x {
          assert y in multiset(init);
          var k :| 0 <= k < |init| && init[k] == y;
          assert sorted[k] == y;
        }
      }
      AppendDeepest(ins, last);
    }
  }

  lemma AppendDeepest(rs: seq<MappingRule>, last: MappingRule)
    requires SortedByDepth(rs)
    requires forall y | y in multiset(rs) :: RuleDepth(y) <= RuleDepth(last)
    ensures SortedByDepth(rs + [last])
  {
    var r := rs + [last];
    forall i, j | 0 <= i < j < |r|
      ensures RuleDepth(r[i]) <= RuleDepth(r[j])
    {
      if j == |r| - 1 {
        assert r[i] in multiset(rs);
      } else {
        assert r[i] == rs[i] && r[j] == rs[j];
      }
    }
  }

  lemma {:induction false} InsertStable(sorted: seq<MappingRule>, x: MappingRule, d: nat)
    ensures OfDepth(InsertByDepth(sorted, x), d) == OfDepth(sorted, d) + (if RuleDepth(x) == d then [x] else [])
    decreases |sorted|
  {
    if |sorted| == 0 || RuleDepth(sorted[|sorted| - 1]) <= RuleDepth(x) {
      OfDepthSnoc(sorted, x, d);
    } else {
      var init, last := sorted[..|sorted| - 1], sorted[|sorted| - 1];
      var placed := InsertByDepth(init, x);
      var xs := if RuleDepth(x) == d then [x] else [];
      var ls := if RuleDepth(last) == d then [last] else [];
      InsertStable(init, x, d);
      assert InsertByDepth(sorted, x) == placed + [last];
      OfDepthSnoc(placed, last, d);
      assert OfDepth(sorted, d) == OfDepth(init, d) + ls;
      SwapOneEmpty(OfDepth(init, d), xs, ls);
    }
  }

  /** Two appended parts commute when one of them is empty. */
  lemma SwapOneEmpty<T>(b: seq<T>, xs: seq<T>, ls: seq<T>)
    requires xs == [] || ls == []
    ensures b + xs + ls == b + ls + xs
  {
    if xs == [] {
      assert b + xs == b;
    } else {
      assert b + ls == b;
    }
  }

  /** The rules of depth `d` in a list extended by one rule. */
  lemma OfDepthSnoc(rs: seq<MappingRule>, y: MappingRule, d: nat)
    ensures OfDepth(rs + [y], d) == OfDepth(rs, d) + (if RuleDepth(y) == d then [y] else [])
  {
    assert (rs + [y])[..|rs|] == rs;
  }

  /**
   * Sorting by depth yields the same rules, shallowest first, and keeps
   * the relative order of rules of equal depth.
   */
  lemma {:induction false} SortByDepthSpec(rs: seq<MappingRule>)
    ensures SortedByDepth(SortByDepth(rs))
    ensures multiset(SortByDepth(rs)) == multiset(rs)
    ensures forall d :: OfDepth(SortByDepth(rs), d) == OfDepth(rs, d)
  {
    if |rs| > 0 {
      var init := rs[..|rs| - 1];
      SortByDepthSpec(init);
      InsertSorted(SortByDepth(init), rs[|rs| - 1]);
      forall d: nat
        ensures OfDepth(SortByDepth(rs), d) == OfDepth(rs, d)
      {
        InsertStable(SortByDepth(init), rs[|rs| - 1], d);
      }
      assert rs == init + [rs[|rs| - 1]];
    }
  }

  /** The precondition rules, in order. */
  function Preconditions(rs: seq<MappingRule>): (r: seq<MappingRule>)
    ensures forall i :: 0 <= i < |r| ==> r[i].isPreconditionScript && r[i] in rs
  {
    if |rs| == 0 then []
    else Preconditions(rs[..|rs| - 1]) + (if rs[|rs| - 1].isPreconditionScript then [rs[|rs| - 1]] else [])
  }

  /** The field mappings, in order. */
  function FieldMappings(rs: seq<MappingRule>): (r: seq<MappingRule>)
    ensures forall i :: 0 <= i < |r| ==> !r[i].isPreconditionScript && r[i] in rs
  {
    if |rs| == 0 then []
    else FieldMappings(rs[..|rs| - 1]) + (if rs[|rs| - 1].isPreconditionScript then [] else [rs[|rs| - 1]])
  }

  /** Splitting by kind loses no rule: the two parts together are a permutation of the rules. */
  lemma {:induction false} SplitByKind(rs: seq<MappingRule>)
    ensures multiset(Preconditions(rs)) + multiset(FieldMappings(rs)) == multiset(rs)
  {
    if |rs| > 0 {
      SplitByKind(rs[..|rs| - 1]);
      assert rs == rs[..|rs| - 1] + [rs[|rs| - 1]];
    }
  }

  /** The target paths of a list of rules. */
  function TargetPaths(rs: seq<MappingRule>): set<string> {
    if |rs| == 0 then {} else TargetPaths(rs[..|rs| - 1]) + {rs[|rs| - 1].targetPath}
  }

  lemma {:induction false} TargetPathsMembers(rs: seq<MappingRule>, p: string)
    ensures p in TargetPaths(rs) <==> exists i :: 0 <= i < |rs| && rs[i].targetPath == p
  {
    if |rs| > 0 {
      var init := rs[..|rs| - 1];
      TargetPathsMembers(init, p);
      if p in TargetPaths(init) {
        var i :| 0 <= i < |init| && init[i].targetPath == p;
        assert rs[i] == init[i];
      }
      if exists i :: 0 <= i < |rs| && rs[i].targetPath == p {
        var i :| 0 <= i < |rs| && rs[i].targetPath == p;
        if i < |init| {
          assert init[i] == rs[i];
        }
      }
    }
  }

  /** Appending a rule adds its path to the precondition paths exactly when it is a precondition. */
  lemma PreconditionPathsAppend(rs: seq<MappingRule>, r: MappingRule)
    ensures r.isPreconditionScript ==> TargetPaths(Preconditions(rs + [r])) == TargetPaths(Preconditions(rs)) + {r.targetPath}
    ensures !r.isPreconditionScript ==> TargetPaths(Preconditions(rs + [r])) == TargetPaths(Preconditions(rs))
  {
    assert (rs + [r])[..|rs|] == rs;
    if r.isPreconditionScript {
      var pre := Preconditions(rs) + [r];
      assert Preconditions(rs + [r]) == pre;
      assert pre[..|pre| - 1] == Preconditions(rs) && pre[|pre| - 1] == r;
    } else {
      assert Preconditions(rs + [r]) == Preconditions(rs);
    }
  }

  function RulesJson(rs: seq<MappingRule>): (js: seq<Json>)
    ensures |js| == |rs| && forall i :: 0 <= i < |rs| ==> js[i] == rs[i].ToJson()
  {
    seq(|rs|, i requires 0 <= i < |rs| => rs[i].ToJson())
  }

  /**
   * The flat-schema rule skips precondition generation exactly when some
   * rule targets a `__flat__/` path.
   */
  lemma SkipIffFlatTarget(rs: seq<MappingRule>)
    ensures ShouldSkipPreconditionGeneration(RulesJson(rs)) <==>
      exists i :: 0 <= i < |rs| && IsPrefix(FlatPrefix, rs[i].targetPath)
  {
    var js := RulesJson(rs);
    forall i | 0 <= i < |rs|
      ensures AsStr(GetOr(js[i], "targetPath", Str(""))) == rs[i].targetPath
    {
      assert js[i] == rs[i].ToJson();
    }
  }

  /** A kept rule that would map a value onto an element with children. */
  predicate TargetsComplexElement(targetDocument: Json, r: MappingRule) {
    Truthy(targetDocument) && !r.isPreconditionScript && r.targetPath != "" && IsComplexElement(targetDocument, r.targetPath)
  }

  /** The conversion of every mapping, in order. */
  function ConvertAll(ms: seq<JpkMapping>, isFlatSchema: bool, flatFieldNames: seq<string>, skipTranslation: bool): (os: seq<Option<MappingRule>>)
    ensures |os| == |ms|
  {
    seq(|ms|, i requires 0 <= i < |ms| => ConvertSingleMapping(ms[i], isFlatSchema, flatFieldNames, skipTranslation))
  }

  /** The converted rules that are present and do not target a complex element, in order. */
  function KeepConverted(os: seq<Option<MappingRule>>, targetDocument: Json): seq<MappingRule> {
    if |os| == 0 then []
    else
      var rest := KeepConverted(os[..|os| - 1], targetDocument);
      match os[|os| - 1]
      case None => rest
      case Some(r) => if TargetsComplexElement(targetDocument, r) then rest else rest + [r]
  }

  /** One more conversion appends its rule when it is kept. */
  lemma KeepConvertedStep(os: seq<Option<MappingRule>>, i: nat, targetDocument: Json)
    requires i < |os|
    ensures KeepConverted(os[..i + 1], targetDocument) == KeepConverted(os[..i], targetDocument) +
      (if os[i].Some? && !TargetsComplexElement(targetDocument, os[i].value) then [os[i].value] else [])
  {
    assert os[..i + 1][..i] == os[..i];
  }

  /**
   * The first loop of `_convert_mapping_rules`: each mapping converted,
   * dropped mappings and those targeting complex elements left out.
   */
  function KeptRules(ms: seq<JpkMapping>, isFlatSchema: bool, flatFieldNames: seq<string>, skipTranslation: bool, targetDocument: Json): seq<MappingRule> {
    KeepConverted(ConvertAll(ms, isFlatSchema, flatFieldNames, skipTranslation), targetDocument)
  }

  /**
   * A rule is kept exactly when it is present among the conversions and
   * does not target a complex element.
   */
  lemma {:induction false} KeepConvertedMembers(os: seq<Option<MappingRule>>, targetDocument: Json, r: MappingRule)
    ensures r in KeepConverted(os, targetDocument) <==> !TargetsComplexElement(targetDocument, r) && Some(r) in os
  {
    if |os| > 0 {
      var init := os[..|os| - 1];
      KeepConvertedMembers(init, targetDocument, r);
      assert os == init + [os[|os| - 1]];
    }
  }

  /**
   * The rule list `_convert_mapping_rules` returns for the kept rules: the
   * field mappings last, in their order, and before them the existing
   * preconditions together with `intermediate`, sorted stably by depth.
   */
  predicate IsAssembledRuleList(rules: seq<MappingRule>, kept: seq<MappingRule>, intermediate: seq<MappingRule>) {
    var fields := FieldMappings(kept);
    |rules| >= |fields|
    && rules[|rules| - |fields|..] == fields
    && rules[..|rules| - |fields|] == SortByDepth(Preconditions(kept) + intermediate)
  }

  /**
   * The rule list for the kept rules, with the intermediate preconditions
   * for the parent paths of the field mappings not already preconditions,
   * unless the flat-schema rule skips them.
   */
  ghost predicate IsConvertedRuleList(rules: seq<MappingRule>, kept: seq<MappingRule>) {
    exists intermediate ::
      IsAssembledRuleList(rules, kept, intermediate)
      && (if GeneratesIntermediates(FieldMappings(kept))
          then IsPreconditionSequence(intermediate, ParentPathSet(FieldMappings(kept)) - TargetPaths(Preconditions(kept)))
          else intermediate == [])
  }

  /** Whether `_convert_mapping_rules` generates intermediate preconditions for these field mappings. */
  predicate GeneratesIntermediates(fields: seq<MappingRule>) {
    !(|fields| > 0 && ShouldSkipPreconditionGeneration(RulesJson(fields)))
  }

  /**
   * Steps 2 to 5 of `_convert_mapping_rules`, for rules already converted
   * and kept and the set of their precondition paths.
   */
  method AssembleRules(kept: seq<MappingRule>, existing: set<string>) returns (rules: seq<MappingRule>)
    requires existing == TargetPaths(Preconditions(kept))
    ensures IsConvertedRuleList(rules, kept)
  {
    var existingPreconditions := Preconditions(kept);
    var fieldMappings := FieldMappings(kept);
    var shouldSkip := |fieldMappings| > 0 && ShouldSkipPreconditionGeneration(RulesJson(fieldMappings));
    var intermediate: seq<MappingRule> := [];
    if !shouldSkip {
      intermediate := GenerateIntermediatePreconditions(fieldMappings, existing);
    }
    var allPreconditions := SortByDepth(existingPreconditions + intermediate);
    rules := allPreconditions + fieldMappings;
    assert rules[..|allPreconditions|] == allPreconditions;
    assert IsAssembledRuleList(rules, kept, intermediate);
  }

  /**
   * In an assembled list every precondition precedes every field mapping,
   * the preconditions come shallowest first, and every existing
   * precondition and every generated one appears.
   */
  lemma AssembledShape(rules: seq<MappingRule>, kept: seq<MappingRule>, intermediate: seq<MappingRule>)
    requires IsAssembledRuleList(rules, kept, intermediate)
    requires forall i :: 0 <= i < |intermediate| ==> intermediate[i].isPreconditionScript
    ensures var n := |rules| - |FieldMappings(kept)|;
      (forall i :: 0 <= i < n ==> rules[i].isPreconditionScript)
      && (forall i :: n <= i < |rules| ==> !rules[i].isPreconditionScript)
      && SortedByDepth(rules[..n])
      && multiset(rules[..n]) == multiset(Preconditions(kept)) + multiset(intermediate)
  {
    var fields := FieldMappings(kept);
    var n := |rules| - |fields|;
    var all := Preconditions(kept) + intermediate;
    var sorted := SortByDepth(all);
    SortByDepthSpec(all);
    assert multiset(all) == multiset(Preconditions(kept)) + multiset(intermediate);
    AllPreconditions(sorted, all);
    PrefixFlags(rules, n, sorted);
    SuffixFlags(rules, n, fields);
  }

  /** The first `n` rules carry the precondition flag when the list they equal does. */
  lemma PrefixFlags(rules: seq<MappingRule>, n: nat, front: seq<MappingRule>)
    requires n <= |rules| && rules[..n] == front
    requires forall i :: 0 <= i < |front| ==> front[i].isPreconditionScript
    ensures forall i :: 0 <= i < n ==> rules[i].isPreconditionScript
  {
    assert forall i :: 0 <= i < n ==> rules[i] == front[i];
  }

  /** The rules from `n` on lack the precondition flag when the list they equal does. */
  lemma SuffixFlags(rules: seq<MappingRule>, n: nat, back: seq<MappingRule>)
    requires n <= |rules| && rules[n..] == back
    requires forall i :: 0 <= i < |back| ==> !back[i].isPreconditionScript
    ensures forall i :: n <= i < |rules| ==> !rules[i].isPreconditionScript
  {
    assert forall i :: n <= i < |rules| ==> rules[i] == back[i - n];
  }

  lemma AllPreconditions(sorted: seq<MappingRule>, all: seq<MappingRule>)
    requires multiset(sorted) == multiset(all)
    requires forall i :: 0 <= i < |all| ==> all[i].isPreconditionScript
    ensures forall i :: 0 <= i < |sorted| ==> sorted[i].isPreconditionScript
  {
    forall i | 0 <= i < |sorted|
      ensures sorted[i].isPreconditionScript
    {
      assert sorted[i] in multiset(all);
      var k :| 0 <= k < |all| && all[k] == sorted[i];
    }
  }
}
