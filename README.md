# JPK to JSON converter core, modelled in Dafny

This project models the in-memory conversion logic of the JPK→JSON converter (`j2j_v3_converter/` and the generic Type 500 generator under `jpk2json/`). The converter reads a Jitterbit JPK project archive and turns its parts into the JSON component records of a cloud project:

- mapping expressions become JSON mapping rules;
- pipeline activities become Type 200 operations with ordered steps;
- scripts become Type 400 components with rewritten `RunOperation`/`RunScript` calls;
- connectors become Type 500/600 endpoint records;
- schemas become Type 900 components.

The converter then merges everything into the baseline project in a fixed component order and runs a few fix-up passes over the result.

Archive reading, XML parsing, compression, the network, clocks and uuid draws are outside the model. An archive is its name list plus the parsed element tree of every XML file in it. A uuid draw is a parameter.

One Dafny module per source file, all in this directory:

- `strings.dfy`, `string_order.dfy`, `sequences.dfy`, `wrappers.dfy`, `json.dfy`, `xml.dfy`: the Python string operations and the string order the converter relies on (ASCII semantics), order-preserving selection, `Option`/`Result`, JSON values (dict key order not represented, integers only) and ElementTree elements.
- `transformation_rules.dfy`, `operation_rules.dfy`: the rule tables (`j2j/config/`).
- `converter_paths.dfy`, `source_paths.dfy`, `schema_trees.dfy`, `field_notation.dfy`, `mapping_rules.dfy`, `transformation_converter.dfy`: the transformation mapping converter (`j2j/generators/jpk_transformation_converter.py`). The converter object, with its per-transformation context and GUID cache, is a class.
- `operation_factory.dfy`, `script_factory.dfy`, `endpoint_factory.dfy`, `template_manager.dfy`, `schema_generator.dfy`: the generators.
- `jpk_records.dfy`, `jpk_parser.dfy`, `xml_parser.dfy`, `xsd_parser.dfy`: the parsers.
- `activity_schemas.dfy`, `transformation_passes.dfy`, `component_merge.dfy`, `step_remapping.dfy`: the assembly and post-processing of `j2j/converters/jpk_to_json.py`. The passes that update transformations and workflows in place work on arrays.
- `discover_fields.dfy`, `discover_mappings.dfy`: the discovery tool `jpk_discover_transformations.py`.
- `config_models.dfy`, `trace_logger.dfy`: configuration parsing and the trace logger. The logger is a class whose entry buffer grows.
- `adapter_filter.dfy`, `type500_generator.dfy`: the adapter filter and the generic Type 500 generator.

Where the Python code raises on an input it otherwise handles, the model returns `Err` or `None`, and the contracts say when. Loops that the source runs over lists and dicts are methods with loop invariants, each proved equal to a specification function. The properties of those functions are lemmas.

## Model

| member | source | states |
|---|---|---|
| TransformationRules.TypeTablesAgree | j2j_v3_converter/j2j/config/transformation_rules.py:624-638 | The four type-id tables agree: an id has an adapter iff it has a direction iff its schema type is `connector`; a function name is known only for NetSuite ids. |
| TransformationRules.GetSchemaFormat | j2j_v3_converter/j2j/config/transformation_rules.py:105-126 | Flat schemas get ("csv", "3.0.1") whatever else holds; non-flat connector schemas ("csv", "2.0.0"); all other schemas ("xml", "3.0.1"); csv exactly for flat or connector, 2.0.0 exactly for non-flat connectors. |
| TransformationRules.SchemaFormatFollowsRules | j2j_v3_converter/j2j/config/transformation_rules.py:87-126 | The format is the first entry of the rule table whose condition holds (flat, then connector, then user schema), and the three entries are pairwise different. |
| TransformationRules.GetFlatSchemaFieldName | j2j_v3_converter/j2j/config/transformation_rules.py:334-350 | The first JPK field name when there is one, else the default `field`. |
| TransformationRules.GetFlatSchemaName | j2j_v3_converter/j2j/config/transformation_rules.py:353-369 | Never empty; a non-empty JPK name is returned unchanged, and an empty one becomes `New Flat Schema`. |
| TransformationRules.MapFlatSchemaTargetPath | j2j_v3_converter/j2j/config/transformation_rules.py:462-501 | A path already under `__flat__/` is unchanged; every result is the path or `__flat__/<field>`; a slashed path other than `data` or a flat field name is unchanged; a non-empty path without `/` is rewritten. |
| TransformationRules.MapFlatSchemaTargetPathIdempotent | j2j_v3_converter/j2j/config/transformation_rules.py:462-501 | Every rewritten path carries the `__flat__/` prefix, so mapping twice equals mapping once. |
| TransformationRules.MatchTargetSchemaByStructure | j2j_v3_converter/j2j/config/transformation_rules.py:406-429 | None unless the target document is flat; a match is a listed component with a flat document; no match means no component has one. |
| TransformationRules.FirstFlatSchema | j2j_v3_converter/j2j/config/transformation_rules.py:418-428 | The first component whose document is flat: listed and flat, or none is flat. |
| TransformationRules.NumericSegmentRule | j2j_v3_converter/j2j/config/transformation_rules.py:186-214 | Non-digit segments are kept; a final digit segment is dropped; otherwise a digit segment is kept iff the next segment starts with an upper-case letter. |
| TransformationRules.ShouldRemoveSourceOriginIff | j2j_v3_converter/j2j/config/transformation_rules.py:223-265 | The origin is removed iff the name contains `Response` and some mapping rule has a truthy `transformScript`. |
| TransformationRules.ValidateSchemaReference | j2j_v3_converter/j2j/config/transformation_rules.py:528-551 | True iff a component has the given non-empty id or the given non-empty name. |
| TransformationRules.AnyHasValue | j2j_v3_converter/j2j/config/transformation_rules.py:540-551 | True iff some component has the key set to the value. |
| TransformationRules.GetRootTranslation | j2j_v3_converter/j2j/config/transformation_rules.py:603-617 | Identity when skipping; otherwise only `Contacts` maps to `records`. |
| TransformationRules.RootTranslationRule | j2j_v3_converter/j2j/config/transformation_rules.py:565-617 | Translation is not skipped iff the root has no `}` and a Salesforce object name is present; unskipped translation changes the root iff it is `Contacts`. |
| OperationRules.DetermineStepType | j2j_v3_converter/j2j/config/operation_rules.py:37-66 | Always a known step type; the case-insensitive role table decides first, then the activity-type table, then 500. |
| OperationRules.RoleWinsOverType | j2j_v3_converter/j2j/config/operation_rules.py:37-66 | For any of the five known roles the activity type has no influence on the step type. |
| OperationRules.GetStepIdForActivity | j2j_v3_converter/j2j/config/operation_rules.py:73-97 | Transformations prefer the content id, other steps the activity id, each falling back to the other; empty iff both are empty. |
| OperationRules.ScriptRoleAnyCase | j2j_v3_converter/j2j/config/operation_rules.py:116-130 | Script content is extracted exactly when the type is `23` and the role has six letters, each the matching letter of `script` in lower or upper case. |
| OperationRules.GetScriptFilePath | j2j_v3_converter/j2j/config/operation_rules.py:133-147 | The path is `Data/Script/` + content id + `.xml`, with the content id recoverable from the middle. |
| OperationFactory.DetermineStepType | j2j_v3_converter/j2j/generators/operation_factory.py:136-171 | Always a known step type; 700 iff the role is request/response in any case; 400 iff it is script. |
| OperationFactory.StepTypeTablesAgreeOnKnownRoles | j2j_v3_converter/j2j/generators/operation_factory.py:136-171 | The factory's table agrees with the shared rule table on the five known roles, and disagrees on an unknown role with a type-4 activity. |
| OperationFactory.StepFor | j2j_v3_converter/j2j/generators/operation_factory.py:80-134 | A produced step has a non-empty id taken from the content id or the activity id, and a known step type. |
| OperationFactory.StepsForAppend | j2j_v3_converter/j2j/generators/operation_factory.py:80-134 | The steps of a concatenated activity list are the concatenation of the steps. |
| OperationFactory.StepsForShape | j2j_v3_converter/j2j/generators/operation_factory.py:80-134 | At most one step per activity, and every step is the step of some activity. |
| OperationFactory.SkippedRequest | j2j_v3_converter/j2j/generators/operation_factory.py:105-114 | A request whose transformation is not among the existing ones produces no step. |
| OperationFactory.MapActivitiesToSteps | j2j_v3_converter/j2j/generators/operation_factory.py:80-134 | The loop's steps are exactly the steps specified for the activity list. |
| OperationFactory.CreateOutcomes | j2j_v3_converter/j2j/generators/operation_factory.py:173-192 | Exactly one outcome, of type 200, pointing at the failure operation. |
| OperationFactory.CreateOperation | j2j_v3_converter/j2j/generators/operation_factory.py:26-78 | Id and name as given; the steps of the activities; one failure outcome iff a non-empty failure operation id is given; properties only when non-empty. |
| ScriptFactory.WrapBody | j2j_v3_converter/j2j/generators/script_factory.py:47-53 | An empty body becomes an empty `<trans>` block; a body whose stripped text starts with `<trans>` is kept; any other is wrapped in `<trans>` lines. |
| ScriptFactory.WrapBodyStartsWithTrans | j2j_v3_converter/j2j/generators/script_factory.py:47-53 | Every stored body, once stripped, starts with `<trans>`. |
| ScriptFactory.WrapBodyIdempotent | j2j_v3_converter/j2j/generators/script_factory.py:47-53 | Wrapping an already stored body changes nothing. |
| ScriptFactory.CreateScript | j2j_v3_converter/j2j/generators/script_factory.py:25-81 | Given id and name; both body fields hold the wrapped body; the original content id is present iff non-empty. |
| ScriptFactory.TransContent | j2j_v3_converter/j2j/generators/script_factory.py:97-101 | A result is the text between the first `<trans>` of the text and the nearest `</trans>` after it; none means no `</trans>` follows any `<trans>`. |
| ScriptFactory.ExtractScriptBodyFromXml | j2j_v3_converter/j2j/generators/script_factory.py:83-108 | Empty text gives empty; otherwise the stripped `<trans>` content when present, else the stripped text. |
| ScriptFactory.ExtractWrapped | j2j_v3_converter/j2j/generators/script_factory.py:83-108 | Extraction inverts wrapping: a tag-free body wrapped in `<trans>…</trans>` comes back stripped. |
| ScriptFactory.TransContentWrapped | j2j_v3_converter/j2j/generators/script_factory.py:97-101 | The content of a wrapped body free of `</trans>` is the body itself. |
| ScriptFactory.MatchCallText | j2j_v3_converter/j2j/generators/script_factory.py:139-163 | A call `fn("<prefix>.<uuid>")` written without spaces is matched as a whole and its uuid captured. |
| ScriptFactory.RewriteCallText | j2j_v3_converter/j2j/generators/script_factory.py:110-167 | A matched call whose id has a non-empty name becomes the `<TAG>` form, an unmapped one is kept verbatim, and the rest of the text is rewritten on its own. |
| ScriptFactory.RewriteUnmappedIdentity | j2j_v3_converter/j2j/generators/script_factory.py:110-167 | With no names, rewriting leaves every text unchanged. |
| ScriptFactory.RewriteNoMatch | j2j_v3_converter/j2j/generators/script_factory.py:110-167 | A text in which no call matches is unchanged. |
| ScriptFactory.TransformWithoutNames | j2j_v3_converter/j2j/generators/script_factory.py:110-167 | Empty operation and script maps leave a script body unchanged. |
| ScriptFactory.TransformOne | j2j_v3_converter/j2j/generators/script_factory.py:169-202 | A script without a `RunOperation("op.` or `RunScript("sc.` opening is untouched; otherwise both the body and the cleansed body become the reference-rewritten body and every other field is kept. |
| ScriptFactory.TransformOneWithoutNames | j2j_v3_converter/j2j/generators/script_factory.py:169-202 | With empty operation and script maps a script keeps its body; a script with a call opening only gets its cleansed body set to that body. |
| ScriptFactory.TransformAllPointwise | j2j_v3_converter/j2j/generators/script_factory.py:169-202 | Every script is rewritten on its own, in order. |
| ScriptFactory.TransformAllScripts | j2j_v3_converter/j2j/generators/script_factory.py:169-202 | The array afterwards holds every script rewritten in place, and the count is the number of scripts that needed rewriting. |
| TransformationConverter.LoopCandidatesFrom | j2j_v3_converter/j2j/generators/jpk_transformation_converter.py:1010-1027 | Every candidate comes from a mapping whose target marks a loop. |
| TransformationConverter.NoCandidates | j2j_v3_converter/j2j/generators/jpk_transformation_converter.py:1010-1031 | There are no candidates exactly when no mapping marks a loop. |
| TransformationConverter.FirstMinIndex | j2j_v3_converter/j2j/generators/jpk_transformation_converter.py:1035 | The chosen candidate has the least target depth, and no earlier candidate has that depth. |
| TransformationConverter.LoopTargetPath | j2j_v3_converter/j2j/generators/jpk_transformation_converter.py:1042 | The loop target path holds no `$`. |
| TransformationConverter.LoopRulesSpec | j2j_v3_converter/j2j/generators/jpk_transformation_converter.py:986-1075 | There is a loop rule exactly when some mapping marks a loop, and then one: the rule of the first candidate of least depth. |
| TransformationConverter.MainLoopRuleShape | j2j_v3_converter/j2j/generators/jpk_transformation_converter.py:1037-1075 | The target path uses `/` alone and the source path is empty; loop paths are kept when translation is skipped and a translated loop path comes with a translated target path. |
| TransformationConverter.TranslatedLoopPath | j2j_v3_converter/j2j/generators/jpk_transformation_converter.py:1042-1062 | A loop path under `Contacts$` has a target path under `Contacts/`. |
| TransformationConverter.TargetDocument | j2j_v3_converter/j2j/generators/jpk_transformation_converter.py:916-937 | Without a namespaced target root there is no reference document. |
| TransformationConverter.NoDocumentKeepsAll | j2j_v3_converter/j2j/generators/jpk_transformation_converter.py:945-951 | Without a reference document no converted mapping is dropped as a complex element. |
| TransformationConverter.ConvertAndKeep | j2j_v3_converter/j2j/generators/jpk_transformation_converter.py:939-957 | The loop returns exactly the kept rules and the target paths of the preconditions among them. |
| TransformationConverter.JpkTransformationConverter.constructor | j2j_v3_converter/j2j/generators/jpk_transformation_converter.py:27-63 | Empty GUID cache and empty conversion context. |
| TransformationConverter.JpkTransformationConverter.SetContext | j2j_v3_converter/j2j/generators/jpk_transformation_converter.py:143-149 | Sets the source root, target root and Salesforce object name, leaving the GUID cache alone. |
| TransformationConverter.JpkTransformationConverter.GenerateGuid | j2j_v3_converter/j2j/generators/jpk_transformation_converter.py:1639-1648 | Returns the seed's uuid5 and caches it under the seed, changing nothing else. |
| TransformationConverter.JpkTransformationConverter.ExtractLoopMappingRules | j2j_v3_converter/j2j/generators/jpk_transformation_converter.py:986-1075 | The method returns the specified loop rules for the converter's translation context. |
| TransformationConverter.JpkTransformationConverter.ConvertMappingRules | j2j_v3_converter/j2j/generators/jpk_transformation_converter.py:890-984 | The result is a converted rule list for the kept rules: preconditions shallowest first, then the field mappings. |
| ConverterPaths.PreconditionCleanedEndsWithDot | j2j_v3_converter/j2j/generators/jpk_transformation_converter.py:1213-1217 | A target recognised as a precondition still ends with `.` once stripped of whitespace and brackets. |
| ConverterPaths.CollapseSlashes | j2j_v3_converter/j2j/generators/jpk_transformation_converter.py:1261-1263 | Collapsing slash runs introduces no other character and keeps the first character. |
| ConverterPaths.CollapseNoLongRun | j2j_v3_converter/j2j/generators/jpk_transformation_converter.py:1261-1263 | After collapsing, no run of four or more slashes remains. |
| ConverterPaths.SlashPathShape | j2j_v3_converter/j2j/generators/jpk_transformation_converter.py:1245-1263 | The slash form of a JPK path holds no `$` or `.` and no run of four slashes. |
| ConverterPaths.TranslateRootPrefix | j2j_v3_converter/j2j/generators/jpk_transformation_converter.py:1283-1319 | Root translation rewrites exactly `Contacts` and paths under `Contacts/` to `records`, leaving every other path unchanged. |
| ConverterPaths.ConvertPathNotation | j2j_v3_converter/j2j/generators/jpk_transformation_converter.py:1219-1281 | The converted path never holds a JPK separator and never four slashes in a row. |
| ConverterPaths.TranslateKeepsShape | j2j_v3_converter/j2j/generators/jpk_transformation_converter.py:1283-1319 | Root translation keeps a path free of separators and long slash runs. |
| ConverterPaths.ParentPathAt | j2j_v3_converter/j2j/generators/jpk_transformation_converter.py:1654-1676 | The i-th parent of a path joins its first i+1 segments. |
| ConverterPaths.ParentPathsShape | j2j_v3_converter/j2j/generators/jpk_transformation_converter.py:1654-1676 | A path of k segments has k-1 parents; the i-th has depth i and is a proper prefix of the path and of every later parent. |
| ConverterPaths.JpkNotationEnding | j2j_v3_converter/j2j/generators/jpk_transformation_converter.py:1678-1733 | A single segment gets `$`; a longer path ends with `.` when it is a loop element or has two segments, with `$` otherwise. |
| ConverterPaths.JpkOfJoin | j2j_v3_converter/j2j/generators/jpk_transformation_converter.py:1678-1733 | The JPK form of a joined path is its segments each followed by a separator, only the last of which may become `.`. |
| ConverterPaths.JpkNotationRoundTrip | j2j_v3_converter/j2j/generators/jpk_transformation_converter.py:1219-1281 | Writing a slash path in JPK notation and converting it back gives the same path, for non-empty segments free of separators. |
| SourcePaths.CodeLines | j2j_v3_converter/j2j/generators/jpk_transformation_converter.py:1451 | The code lines are non-empty and none is a `//` comment. |
| SourcePaths.Words | j2j_v3_converter/j2j/generators/jpk_transformation_converter.py:1472 | Whitespace splitting yields only non-empty words. |
| SourcePaths.NonEmpty | j2j_v3_converter/j2j/generators/jpk_transformation_converter.py:1400-1567 | Every kept part is a non-empty part of the input, and every non-empty part of the input is kept. |
| SourcePaths.NonEmptyAppend | j2j_v3_converter/j2j/generators/jpk_transformation_converter.py:1400-1567 | Dropping empty parts from a concatenation drops them from each part, so the kept parts keep their order and their repeats. |
| SourcePaths.PathSegmentsFree | j2j_v3_converter/j2j/generators/jpk_transformation_converter.py:1400-1567 | The segments of a source reference are non-empty and free of `$`, `.` and `#`. |
| SourcePaths.DropDigitSegments | j2j_v3_converter/j2j/generators/jpk_transformation_converter.py:1549-1563 | Exactly the non-digit segments are kept. |
| SourcePaths.SourcePathsOf | j2j_v3_converter/j2j/generators/jpk_transformation_converter.py:1400-1567 | At most one non-empty path, and only when the expression has schema segments; none for an empty expression, a variable reference, a quoted literal, a last code line that is a constant or a local variable, or an expression that starts with `//`. |
| SourcePaths.SchemaSegmentsFree | j2j_v3_converter/j2j/generators/jpk_transformation_converter.py:1400-1567 | The schema segments are non-empty and free of `$`, `.` and `#`. |
| SourcePaths.SourcePathShape | j2j_v3_converter/j2j/generators/jpk_transformation_converter.py:1400-1567 | The path is the join of the non-digit schema segments, so it holds no digit segment and no separator. |
| SourcePaths.SchemaStart | j2j_v3_converter/j2j/generators/jpk_transformation_converter.py:1400-1567 | The loop finds where the navigation prefix ends. |
| SourcePaths.FilterDigitSegments | j2j_v3_converter/j2j/generators/jpk_transformation_converter.py:1549-1563 | The loop keeps exactly the non-digit segments. |
| SourcePaths.ExtractSourcePaths | j2j_v3_converter/j2j/generators/jpk_transformation_converter.py:1400-1567 | The method with its loops returns exactly the specified source paths. |
| SourcePaths.JbrootMatchesFrom | j2j_v3_converter/j2j/generators/jpk_transformation_converter.py:1346-1350 | Every match starts with `jbroot$` and has at least one more character. |
| SourcePaths.KeepSegments | j2j_v3_converter/j2j/generators/jpk_transformation_converter.py:1375-1387 | Kept segments are non-empty and no more than the input. |
| SourcePaths.KeptDigitsPrecedeCapitals | j2j_v3_converter/j2j/generators/jpk_transformation_converter.py:1375-1387 | A kept digit segment stands right before a segment that starts with a capital letter. |
| SourcePaths.ScriptSourcePath | j2j_v3_converter/j2j/generators/jpk_transformation_converter.py:1354-1394 | A produced path starts with `jbroot/` and has at least one segment after it. |
| SourcePaths.MatchPaths | j2j_v3_converter/j2j/generators/jpk_transformation_converter.py:1352-1398 | One optional path per match, each the path of that match. |
| SourcePaths.CollectPathsMembers | j2j_v3_converter/j2j/generators/jpk_transformation_converter.py:1352-1398 | A path is collected iff some match produced it. |
| SourcePaths.CollectPathsDistinct | j2j_v3_converter/j2j/generators/jpk_transformation_converter.py:1352-1398 | Each path is collected once. |
| SourcePaths.SrcPathsFromScript | j2j_v3_converter/j2j/generators/jpk_transformation_converter.py:1321-1398 | A non-empty result needs a `jbroot$` reference, and every path starts with `jbroot/`. |
| SourcePaths.KeepSegmentsStep | j2j_v3_converter/j2j/generators/jpk_transformation_converter.py:1375-1387 | Filtering decides each segment from the segment after it, one step at a time. |
| SourcePaths.FilterScriptSegments | j2j_v3_converter/j2j/generators/jpk_transformation_converter.py:1375-1387 | The loop keeps exactly the specified segments. |
| SourcePaths.ExtractSrcPathsFromScript | j2j_v3_converter/j2j/generators/jpk_transformation_converter.py:1321-1398 | The method with its loops returns exactly the specified result. |
| SchemaTrees.Kept | j2j_v3_converter/j2j/generators/jpk_transformation_converter.py:82-100 | The kept children are no more than the input. |
| SchemaTrees.FilterKeepsOtherKeys | j2j_v3_converter/j2j/generators/jpk_transformation_converter.py:82-100 | Filtering a node changes only its child list: every other key, and its name, stay as they were. |
| SchemaTrees.FilterPrefixKeepsOrder | j2j_v3_converter/j2j/generators/jpk_transformation_converter.py:82-100 | The filtered children are the non-PRESCRIPT children, each filtered, in their original order. |
| SchemaTrees.FilterChildrenClean | j2j_v3_converter/j2j/generators/schema_generator.py:60-78 | After filtering no PRESCRIPT node remains at any depth; the schema generator runs the same filter as the transformation converter. |
| SchemaTrees.FilterPrescriptNodesSpec | j2j_v3_converter/j2j/generators/jpk_transformation_converter.py:66-105 | Every key but `root` is kept as it was; the tree under `root` keeps its name and is free of PRESCRIPT nodes. |
| SchemaTrees.FindChild | j2j_v3_converter/j2j/generators/jpk_transformation_converter.py:843-888 | A found child is listed and has the name; none means no child has it. |
| SchemaTrees.Navigate | j2j_v3_converter/j2j/generators/jpk_transformation_converter.py:843-888 | A node reached by a non-empty path is named by the path's last segment. |
| SchemaTrees.ComplexElementSpec | j2j_v3_converter/j2j/generators/jpk_transformation_converter.py:843-888 | A complex element is a node reached along the path, named by its last segment, with children; a path leaving the tree is never complex. |
| FieldNotation.InferOccursSpec | j2j_v3_converter/j2j/generators/jpk_transformation_converter.py:719-736 | Minimum 1 iff the type code is a required code; unbounded iff the code is `0x9`; every other maximum is 1. |
| FieldNotation.MapValueType | j2j_v3_converter/j2j/generators/jpk_transformation_converter.py:738-747 | One of the five JSON type names, and a name other than `string` only for a one-digit code. |
| FieldNotation.MapValueTypeNumberOrText | j2j_v3_converter/j2j/generators/jpk_transformation_converter.py:738-747 | A code given as a number or as its decimal text maps to the same type. |
| FieldNotation.SplitCamel | j2j_v3_converter/j2j/generators/jpk_transformation_converter.py:757 | The result keeps the first character, holds only the text's characters and spaces, and has no lower-case letter directly followed by an upper-case one: every camel-case boundary is split. |
| FieldNotation.SplitCamelKeepsText | j2j_v3_converter/j2j/generators/jpk_transformation_converter.py:757 | The text survives in order inside the result (a subsequence): splitting only inserts characters. |
| FieldNotation.TitleFromSpec | j2j_v3_converter/j2j/generators/jpk_transformation_converter.py:763 | Each title-cased character depends only on itself and on whether the character before it is a letter. |
| FieldNotation.CustomSuffixRemovalInert | j2j_v3_converter/j2j/generators/jpk_transformation_converter.py:760-761 | Underscores are replaced before the `__c` suffix is looked for, so its removal never changes the label. |
| FieldNotation.TitleShape | j2j_v3_converter/j2j/generators/jpk_transformation_converter.py:763 | Title casing keeps every non-letter, and a letter is upper-case exactly when it starts a run of letters. |
| FieldNotation.LabelShape | j2j_v3_converter/j2j/generators/jpk_transformation_converter.py:749-763 | A label has no underscore, no surrounding whitespace, and upper-case letters exactly at the start of each run of letters. |
| FieldNotation.JtrUnboundedSpec | j2j_v3_converter/j2j/generators/jpk_transformation_converter.py:617-664 | A JTR maximum of -1, as text or number, is unbounded and, without a JTR minimum, required. |
| FieldNotation.JtrDefaultMinSpec | j2j_v3_converter/j2j/generators/jpk_transformation_converter.py:633-649 | Without a JTR minimum, a maximum above one makes the element optional and any other integer maximum required; a non-integer textual maximum raises. |
| FieldNotation.JtrExplicitMinSpec | j2j_v3_converter/j2j/generators/jpk_transformation_converter.py:626-664 | An explicit JTR minimum is used as given, 0 when not an integer; a missing maximum is 1. |
| FieldNotation.ChildResults | j2j_v3_converter/j2j/generators/jpk_transformation_converter.py:704-707 | One conversion outcome per child field. |
| FieldNotation.ConvertFieldShape | j2j_v3_converter/j2j/generators/jpk_transformation_converter.py:601-717 | The node carries the field's name and its occurrence bounds; `NIL` iff the minimum is 0, `T` iff a value type, `O` iff a name, `C` iff children. |
| FieldNotation.ConvertFieldChildren | j2j_v3_converter/j2j/generators/jpk_transformation_converter.py:702-708 | Each child of a converted node is the conversion of the matching child field under the current path. |
| FieldNotation.RecordsChildRepeats | j2j_v3_converter/j2j/generators/jpk_transformation_converter.py:667-679 | Without JTR bounds, a field directly under `records` is required and unbounded, whatever its type code. |
| MappingRules.StripPrescript | j2j_v3_converter/j2j/generators/jpk_transformation_converter.py:1125-1128 | The target path with a trailing PRESCRIPT marker removed is a prefix of the original. |
| MappingRules.TranslateJpkRootSpec | j2j_v3_converter/j2j/generators/jpk_transformation_converter.py:1283-1319 | A script changes iff its first JPK segment is `Contacts`; then only the leading `Contacts` becomes `records`. |
| MappingRules.FormatTransformScript | j2j_v3_converter/j2j/generators/jpk_transformation_converter.py:1622-1637 | The formatted script is empty iff the expression is empty. |
| MappingRules.ScriptContentRoundTrip | j2j_v3_converter/j2j/generators/jpk_transformation_converter.py:1148-1159 | Reading the script content back from a formatted transform script gives the stripped content it was formatted from. |
| MappingRules.NonEmptyPaths | j2j_v3_converter/j2j/generators/jpk_transformation_converter.py:1167-1183 | An empty path list is stored as none; a stored list is non-empty. |
| MappingRules.ScriptSrcPaths | j2j_v3_converter/j2j/generators/jpk_transformation_converter.py:1161-1174 | A script's source paths, when present, are non-empty. |
| MappingRules.SingleMappingDropped | j2j_v3_converter/j2j/generators/jpk_transformation_converter.py:1100-1104 | A mapping is dropped exactly when its cleaned target path is empty. |
| MappingRules.SingleMappingShape | j2j_v3_converter/j2j/generators/jpk_transformation_converter.py:1077-1211 | The target path holds no JPK separator; no empty path list is stored; a mapping without a script has no transform script and, as a precondition, no source paths. |
| MappingRules.SingleMappingPrecondition | j2j_v3_converter/j2j/generators/jpk_transformation_converter.py:1115-1131 | Without a script and outside flat schemas, a rule is a precondition exactly when its target ends with `.`. |
| MappingRules.SingleMappingScript | j2j_v3_converter/j2j/generators/jpk_transformation_converter.py:1148-1159 | The transform script is the content wrapped in `<trans>` tags, and its content reads back unchanged. |
| MappingRules.PreconditionRule | j2j_v3_converter/j2j/generators/jpk_transformation_converter.py:1735-1759 | A precondition rule on the path with no source paths and no transform script. |
| MappingRules.PreconditionRoundTrip | j2j_v3_converter/j2j/generators/jpk_transformation_converter.py:1735-1759 | The target script of a precondition reads back, through JPK notation, as its path. |
| MappingRules.ParentPathSetMembers | j2j_v3_converter/j2j/generators/jpk_transformation_converter.py:1779-1793 | A path is collected iff it is a parent path of some field mapping that has a target. |
| MappingRules.ParentPathIsProperPrefix | j2j_v3_converter/j2j/generators/jpk_transformation_converter.py:1779-1793 | Every collected path, followed by `/`, is a prefix of some field mapping's target. |
| MappingRules.CollectParentPaths | j2j_v3_converter/j2j/generators/jpk_transformation_converter.py:1779-1793 | The loop collects exactly the specified parent-path set. |
| MappingRules.GenerateIntermediatePreconditions | j2j_v3_converter/j2j/generators/jpk_transformation_converter.py:1761-1812 | One precondition per parent path not already covered, shallowest first, with the loop flag set at depth one. |
| MappingRules.SortByDepthSpec | j2j_v3_converter/j2j/generators/jpk_transformation_converter.py:977-979 | Sorting by depth is a permutation, shallowest first, and stable among rules of equal depth. |
| MappingRules.SplitByKind | j2j_v3_converter/j2j/generators/jpk_transformation_converter.py:959-961 | Splitting into preconditions and field mappings loses no rule. |
| MappingRules.PreconditionPathsAppend | j2j_v3_converter/j2j/generators/jpk_transformation_converter.py:955-957 | A converted rule adds its path to the existing precondition paths exactly when it is a precondition. |
| MappingRules.SkipIffFlatTarget | j2j_v3_converter/j2j/generators/jpk_transformation_converter.py:963-968 | Precondition generation is skipped exactly when some field mapping targets a `__flat__/` path. |
| MappingRules.KeepConvertedMembers | j2j_v3_converter/j2j/generators/jpk_transformation_converter.py:939-953 | A rule is kept exactly when its mapping converts and it does not target a complex element. |
| MappingRules.AssembleRules | j2j_v3_converter/j2j/generators/jpk_transformation_converter.py:959-982 | Steps 2 to 5 produce an assembled rule list for the kept rules. |
| MappingRules.AssembledShape | j2j_v3_converter/j2j/generators/jpk_transformation_converter.py:977-982 | Every precondition precedes every field mapping, preconditions come shallowest first, and existing and generated preconditions all appear. |
| TraceLogging.VerbosityFromString | j2j_v3_converter/j2j/utils/trace_logger.py:25-46 | Succeeds exactly for the level names in any letter case, and the level found has that name. |
| TraceLogging.VerbosityNameRoundTrip | j2j_v3_converter/j2j/utils/trace_logger.py:25-46 | Every level is found again from its own name spelled in any case. |
| TraceLogging.ContextOrEmpty | j2j_v3_converter/j2j/utils/trace_logger.py:99 | A truthy context is kept; any other becomes the empty dict. |
| TraceLogging.TraceLogger.constructor | j2j_v3_converter/j2j/utils/trace_logger.py:57-77 | Stores the settings and starts with no entries. |
| TraceLogging.TraceLogger.Append | j2j_v3_converter/j2j/utils/trace_logger.py:79-149 | An entry is appended exactly when its level is admitted by the verbosity; the settings are unchanged. |
| TraceLogging.TraceLogger.LogDecision | j2j_v3_converter/j2j/utils/trace_logger.py:79-101 | Appends a decision entry at NORMAL by default exactly when admitted; nothing else changes. |
| TraceLogging.TraceLogger.LogSourceData | j2j_v3_converter/j2j/utils/trace_logger.py:103-125 | Appends a source-data entry at DETAILED by default exactly when admitted; nothing else changes. |
| TraceLogging.TraceLogger.LogReasoning | j2j_v3_converter/j2j/utils/trace_logger.py:127-149 | Appends a reasoning entry at DETAILED by default exactly when admitted; nothing else changes. |
| TraceLogging.TraceLogger.WriteLog | j2j_v3_converter/j2j/utils/trace_logger.py:151-183 | No file iff disabled; the file lies in the output directory, named as configured or a timestamped `.md` name. |
| TraceLogging.OfKind | j2j_v3_converter/j2j/utils/trace_logger.py:209-211 | Exactly the entries of that kind, and only entries of that kind. |
| TraceLogging.OfKindAppend | j2j_v3_converter/j2j/utils/trace_logger.py:209-211 | Selecting from a concatenation selects from each part, so a section lists its entries in buffer order. |
| TraceLogging.SectionCountsSum | j2j_v3_converter/j2j/utils/trace_logger.py:264-266 | The three section counts add up to the total entry count. |
| ConfigModels.ValidateTraceLog | j2j_v3_converter/j2j/config/models.py:106-115 | Accepts exactly a verbosity naming a level in any letter case, returning the config unchanged. |
| ConfigModels.FromDict | j2j_v3_converter/j2j/config/models.py:131-212 | A missing `baseline` section or path is an error. A built config has the baseline path and a valid verbosity. Each other field is read from its section or given its default: version `v327`, templates `j2j_templates`, schema references `schema_references`, the five validation flags (all true), output prefix `output_v327_config_based`, no timestamp, converter version `327`, trace log off, verbosity `normal`, directory `trace_logs`. |
| ConfigModels.MinimalConfigDefaults | j2j_v3_converter/j2j/config/models.py:131-212 | A config with only a baseline path takes every documented default. |
| ConfigModels.VerbosityChecked | j2j_v3_converter/j2j/config/models.py:106-115 | Building a config succeeds exactly when the trace-log verbosity is valid. |
| TemplateManagement.LoadOrNull | j2j_v3_converter/j2j/generators/template_manager.py:52-65 | A file that cannot be loaded or parsed gives None; otherwise its parsed content. |
| TemplateManagement.ReadTemplates | j2j_v3_converter/j2j/generators/template_manager.py:47-86 | Exactly the Salesforce and NetSuite keys, each holding the template loaded from its file in the directory or None. |
| TemplateManagement.TemplateManager.constructor | j2j_v3_converter/j2j/generators/template_manager.py:25-28 | Starts with an empty, unloaded cache. |
| TemplateManagement.TemplateManager.LoadTemplates | j2j_v3_converter/j2j/generators/template_manager.py:30-89 | The cached copy when the cache is loaded and the directory is the default, otherwise a fresh read; only a default-directory read fills the cache. |
| TemplateManagement.TemplateManager.GetTemplate | j2j_v3_converter/j2j/generators/template_manager.py:91-103 | The loaded template of a known adapter, None for any other; the cache evolves as in loading. |
| TemplateManagement.TemplateManager.ClearCache | j2j_v3_converter/j2j/generators/template_manager.py:134-137 | Empties the cache and marks it unloaded. |
| TemplateManagement.TemplateManager.IsTemplateAvailable | j2j_v3_converter/j2j/generators/template_manager.py:139-151 | True exactly when the adapter is known and its loaded template passes validation. |
| TemplateManagement.LoadTwice | j2j_v3_converter/j2j/generators/template_manager.py:44-45 | A second load of the default directory returns the first load's templates, whatever the files hold by then. |
| AdapterFilter.UsedAdapterIdsMembers | j2j_v3_converter/j2j_templates/adapter_filter_function.py:14-22 | An id is used exactly when it is truthy, not built in, and some component names it as its `adapterId`. |
| AdapterFilter.CollectUsedAdapters | j2j_v3_converter/j2j_templates/adapter_filter_function.py:17-22 | The loop collects exactly the used adapter ids. |
| AdapterFilter.HasNullDefaultValues | j2j_v3_converter/j2j_templates/adapter_filter_function.py:44-50 | True exactly when some endpoint property other than `entityId` has a null default; never for an adapter without properties. |
| AdapterFilter.FilterAdapters | j2j_v3_converter/j2j_templates/adapter_filter_function.py:24-42 | Only used adapters without null defaults are kept, and no more than the baseline holds. |
| AdapterFilter.FilterIsSubsequence | j2j_v3_converter/j2j_templates/adapter_filter_function.py:24-42 | The kept adapters keep the baseline order. |
| AdapterFilter.FilterKeepsEligible | j2j_v3_converter/j2j_templates/adapter_filter_function.py:24-42 | Every baseline adapter that is used and has all its defaults is kept. |
| AdapterFilter.FilterAdaptersByUsage | j2j_v3_converter/j2j_templates/adapter_filter_function.py:2-42 | The result is the baseline adapters filtered by the used ids, in baseline order. |
| XsdParsing.ExtractType | j2j_v3_converter/j2j/parsers/xsd_parser.py:212-224 | An empty attribute gives `string`; a result never holds `:`. |
| XsdParsing.ExtractTypeNames | j2j_v3_converter/j2j/parsers/xsd_parser.py:212-224 | A prefixed type name loses its prefix; an unprefixed one is kept. |
| XsdParsing.ParseMaxOccurs | j2j_v3_converter/j2j/parsers/xsd_parser.py:226-241 | -1 for `unbounded`, the number for integer text, 1 for anything else. |
| XsdParsing.MaxOccursRoundTrip | j2j_v3_converter/j2j/parsers/xsd_parser.py:226-241 | A decimal bound reads back as itself. |
| XsdParsing.FieldDict | j2j_v3_converter/j2j/parsers/xsd_parser.py:160-175 | The field dict carries name, index, level, `NIL` and the maximum; `C` is present exactly when there are children. |
| XsdParsing.FieldFor | j2j_v3_converter/j2j/parsers/xsd_parser.py:158-178 | A built field is numbered and named as its element, with the parsed maximum; a non-integer `minOccurs` raises. |
| XsdParsing.Fields | j2j_v3_converter/j2j/parsers/xsd_parser.py:144-210 | The fields are the named elements, numbered from 1 in order. |
| XsdParsing.FieldsErrorPropagates | j2j_v3_converter/j2j/parsers/xsd_parser.py:144-210 | An error on an earlier element is the error of the whole list. |
| XsdParsing.ExtractChildElements | j2j_v3_converter/j2j/parsers/xsd_parser.py:182-210 | The counter loop yields the named descendant elements numbered from 1 at level 3. |
| XsdParsing.BuildFieldStructure | j2j_v3_converter/j2j/parsers/xsd_parser.py:144-180 | The counter loop yields the named elements numbered from 1 at level 2. |
| XsdParsing.FirstNamed | j2j_v3_converter/j2j/parsers/xsd_parser.py:255-258 | The index of the first field with the name, none exactly when no field has it. |
| XsdParsing.FindRootField | j2j_v3_converter/j2j/parsers/xsd_parser.py:243-261 | None exactly for no fields; the first field named as the root element, else the first field. |
| XsdParsing.FindRootFieldFirst | j2j_v3_converter/j2j/parsers/xsd_parser.py:243-261 | The first field named as the root element is the one chosen. |
| XsdParsing.CreateFallbackSchema | j2j_v3_converter/j2j/parsers/xsd_parser.py:263-290 | A root named after the root element (default `root`) with fields `Id` and `Name`, occurring once at level 0. |
| XsdParsing.CreateSchemaDocument | j2j_v3_converter/j2j/parsers/xsd_parser.py:89-142 | A structure without fields gives the fallback schema; the root always occurs once at level 0; no fields give an empty root. |
| XsdParsing.SchemaDocumentUsesRootField | j2j_v3_converter/j2j/parsers/xsd_parser.py:89-142 | A field named as the root element becomes the root, carrying its own children. |
| XmlParsing.ExtractHeaderInfo | j2j_v3_converter/j2j/parsers/xml_parser.py:99-119 | Without a `Header` child both fields are missing; otherwise they are that child's `ID` and `Name`, and an id always comes from a `Header` child. |
| XmlParsing.GetHeaderAttribute | j2j_v3_converter/j2j/parsers/xml_parser.py:121-138 | The `Header` child's attribute when both exist, the default otherwise. |
| XmlParsing.HeaderLookupsAgree | j2j_v3_converter/j2j/parsers/xml_parser.py:121-138 | The header info and the attribute lookup give the same id and name. |
| XmlParsing.FindComponentFiles | j2j_v3_converter/j2j/parsers/xml_parser.py:140-152 | Exactly the archive names under `/<type>/` that end in `.xml`, in archive order. |
| XmlParsing.PropertiesOf | j2j_v3_converter/j2j/parsers/xml_parser.py:168-172 | The empty key is never stored. |
| XmlParsing.PropertiesLastWins | j2j_v3_converter/j2j/parsers/xml_parser.py:168-172 | A non-empty key is present exactly when some `Item` carries it, with the value of the last such item. |
| XmlParsing.ExtractProperties | j2j_v3_converter/j2j/parsers/xml_parser.py:154-174 | The loop over the `Item` elements builds exactly the specified dictionary. |
| XmlParsing.ValidateXmlStructure | j2j_v3_converter/j2j/parsers/xml_parser.py:176-190 | True exactly when every required element is a direct child of the root. |
| XmlParsing.GetComponentTypeFromPath | j2j_v3_converter/j2j/parsers/xml_parser.py:192-205 | A type exactly for paths of at least three parts under `Data`, and it never holds `/`. |
| XmlParsing.ComponentTypeOfDataPath | j2j_v3_converter/j2j/parsers/xml_parser.py:192-205 | `Data/<type>/<rest>` names `<type>`; a path whose first part is not `Data` names none. |
| Type500Generation.MapConnectorToAdapter | jpk2json/generate_type500_from_jpk.py:193-203 | The table's adapter for the lower-cased connector type, `tempstorage` for any other type. |
| Type500Generation.MapConnectorIgnoresCase | jpk2json/generate_type500_from_jpk.py:193-203 | Spellings that differ only in letter case map to the same adapter. |
| Type500Generation.XmlFiles | jpk2json/generate_type500_from_jpk.py:139 | Exactly the listed files ending in `.xml`. |
| Type500Generation.ExtractConnectors | jpk2json/generate_type500_from_jpk.py:106-149 | Only known connector directories holding at least one `.xml` file, no more than the listing. |
| Type500Generation.ExtractConnectorsMembers | jpk2json/generate_type500_from_jpk.py:106-149 | Every known connector directory with an `.xml` file yields its connector. |
| Type500Generation.ExtractConnectorsSound | jpk2json/generate_type500_from_jpk.py:106-149 | Every connector found is the connector of some listed connector directory holding an `.xml` file: nothing else is returned. |
| Type500Generation.FunctionName | jpk2json/generate_type500_from_jpk.py:231 | The function name has the name's length and no space. |
| Type500Generation.FileProperties | jpk2json/generate_type500_from_jpk.py:307-330 | Two properties, the first the hidden type-3 marker. |
| Type500Generation.GenericProperties | jpk2json/generate_type500_from_jpk.py:249-257 | Salesforce and NetSuite get their fixed property lists, every other adapter the file properties for the polarity. |
| Type500Generation.GenericPropertiesDistinct | jpk2json/generate_type500_from_jpk.py:249-304 | The three property shapes differ, so the adapter can be told from the properties. |
| Type500Generation.CreateGenericType500 | jpk2json/generate_type500_from_jpk.py:206-246 | An outbound Type 500 with the given id, name, adapter and polarity; file-based discovery iff tempstorage; input required iff target; the adapter's properties; an endpoint reference of type 600. |
| Type500Generation.AdapterIds | jpk2json/generate_type500_from_jpk.py:76 | Each connector's adapter is the mapped adapter of its type. |
| Type500Generation.ConnectorPairShape | jpk2json/generate_type500_from_jpk.py:78-91 | Each connector gives `Source <name>` then `Target <name>`, both with its adapter. |
| Type500Generation.ConnectorActivitiesAt | jpk2json/generate_type500_from_jpk.py:71-91 | Connector i yields positions 2i and 2i+1, so the pairs come in connector order. |
| Type500Generation.LoggingActivitiesShape | jpk2json/generate_type500_from_jpk.py:333-359 | Exactly eight tempstorage logging activities, alternating source and target. |
| Type500Generation.RenderedActivity | jpk2json/generate_type500_from_jpk.py:206-246 | Every rendered activity is an outbound Type 500 carrying the record's id, name, adapter and polarity. |
| Type500Generation.Render | jpk2json/generate_type500_from_jpk.py:82-90 | One component dict per activity, in order. |
| Type500Generation.ConnectorStep | jpk2json/generate_type500_from_jpk.py:79-91 | The inner loop yields the connector's specified pair. |
| Type500Generation.GenerateType500 | jpk2json/generate_type500_from_jpk.py:18-103 | Nothing without a `project.xml`; otherwise two activities per connector then the eight logging activities. |
| Type500Generation.IdentityFields | jpk2json/generate_type500_from_jpk.py:206-246 | The identifying fields are the given adapter id, polarity, name, type 500 and id; every other key keeps its value. |
| Type500Generation.AdapterFields | jpk2json/generate_type500_from_jpk.py:206-246 | Discovery type by adapter, input required exactly for targets, the function name, the adapter's properties and a Type 600 endpoint reference. |
| EndpointFactory.NetSuiteProperties | j2j_v3_converter/j2j/generators/endpoint_factory.py:260-306 | A single `list-object-page` pagination property. |
| EndpointFactory.Type500Fields | j2j_v3_converter/j2j/generators/endpoint_factory.py:100-194 | Every Type 500 shape carries the given id, type 500, the endpoint reference, kind, polarity, function name, name and adapter, and keeps its own properties. |
| EndpointFactory.NetSuiteObjectName | j2j_v3_converter/j2j/generators/endpoint_factory.py:155 | The object name defaults to `Contact`, so it is never empty. |
| EndpointFactory.CreateNetSuiteType500 | j2j_v3_converter/j2j/generators/endpoint_factory.py:196-258 | An outbound Type 500 with the NetSuite polarity rule, the given ids and the NetSuite properties for the object. |
| EndpointFactory.CreateType500 | j2j_v3_converter/j2j/generators/endpoint_factory.py:100-194 | Given id, name, adapter and endpoint reference; tempstorage, NetSuite and other adapters each get their own kind rule and properties. |
| EndpointFactory.KindConventionsOpposite | j2j_v3_converter/j2j/generators/endpoint_factory.py:100-194 | Tempstorage and generic adapters use opposite `kind` conventions for every polarity. |
| EndpointFactory.NetSuiteDefaults | j2j_v3_converter/j2j/generators/endpoint_factory.py:100-258 | A NetSuite activity without an object name uses `Contact`, and an empty polarity becomes `neutral`. |
| EndpointFactory.CreatedType500Validates | j2j_v3_converter/j2j/generators/endpoint_factory.py:346-375 | Every Type 500 the factory builds validates as type 500 and not as type 600. |
| EndpointFactory.FallbackType600Validates | j2j_v3_converter/j2j/generators/endpoint_factory.py:346-375 | The fallback Type 600 validates as type 600 and not as type 500. |
| EndpointFactory.OverwriteTemplate | j2j_v3_converter/j2j/generators/endpoint_factory.py:63-77 | The template's keys plus the overwritten ones; other template fields are kept and the overwritten ones hold the fixed values. |
| EndpointFactory.FallbackType600 | j2j_v3_converter/j2j/generators/endpoint_factory.py:79-98 | The generic record carries the id, type 600, `<display name> Endpoint` and the adapter. |
| EndpointFactory.Type600From | j2j_v3_converter/j2j/generators/endpoint_factory.py:40-98 | An error exactly for a truthy non-dict business template; a business template is overwritten keeping its other fields; otherwise the fallback record. |
| EndpointFactory.EndpointFactory.constructor | j2j_v3_converter/j2j/generators/endpoint_factory.py:30-38 | Keeps the given template manager. |
| EndpointFactory.EndpointFactory.CreateType600 | j2j_v3_converter/j2j/generators/endpoint_factory.py:40-98 | The record built from the adapter's loaded template, with the template cache filled as loading does. |
| JpkParsing.CollectMembers | j2j_v3_converter/j2j/parsers/jpk_parser.py:64-73 | A collected record is exactly what the reader yields for one of the files, and every file that yields one contributes it. |
| JpkParsing.ScriptDataOf | j2j_v3_converter/j2j/parsers/jpk_parser.py:500-526 | A script file yields a record exactly when it parses and has a header id; the record carries that id and a non-empty name. |
| JpkParsing.ScriptTableKeys | j2j_v3_converter/j2j/parsers/jpk_parser.py:499-526 | Every readable script file's id is a key, and each key holds the record read from one of the files. |
| JpkParsing.RenamedApart | j2j_v3_converter/j2j/parsers/jpk_parser.py:533-547 | Two scripts sharing an original name never get the same new name. |
| JpkParsing.RenamingCanClash | j2j_v3_converter/j2j/parsers/jpk_parser.py:540-544 | The renaming only counts earlier equal names, so a name already of the form `x_2` can clash with a renamed `x`. |
| JpkParsing.NameCountsOccurrences | j2j_v3_converter/j2j/parsers/jpk_parser.py:533-547 | The counter holds the number of occurrences of each name seen so far. |
| JpkParsing.OneScriptPerContentId | j2j_v3_converter/j2j/parsers/jpk_parser.py:533-561 | Exactly one script per content id in the table, whose component id is that content id. |
| JpkParsing.ActivityMapSound | j2j_v3_converter/j2j/parsers/jpk_parser.py:569-576 | The map holds only activities whose non-empty content id is an extracted script. |
| JpkParsing.ActivityMapComplete | j2j_v3_converter/j2j/parsers/jpk_parser.py:569-576 | Every activity whose non-empty content id is an extracted script is in the map. |
| JpkParsing.NameScripts | j2j_v3_converter/j2j/parsers/jpk_parser.py:533-561 | The renaming loop builds one script per table entry, in table order, with repeated names suffixed. |
| JpkParsing.ExtractScriptsFromOperations | j2j_v3_converter/j2j/parsers/jpk_parser.py:475-583 | The scripts are the table's scripts in order with renamed names, and the activity map is built from the operations against the table's ids. |
| JpkParsing.DeclaredIdentifiers | j2j_v3_converter/j2j/parsers/jpk_parser.py:295-308 | Every name found by the assignment pattern is an identifier: a letter or `_`, then letters, digits, `_` or `.`. |
| JpkParsing.DeclaredAssignment | j2j_v3_converter/j2j/parsers/jpk_parser.py:295-308 | An assignment `$name = …` is found, and scanning continues after it. |
| JpkParsing.NewNamesSound | j2j_v3_converter/j2j/parsers/jpk_parser.py:309-312 | The names kept are new, distinct, and cover every scanned name not already seen. |
| JpkParsing.ScriptMatchesMembers | j2j_v3_converter/j2j/parsers/jpk_parser.py:297-308 | Every assignment in any script file is among the matches. |
| JpkParsing.FileVariableOf | j2j_v3_converter/j2j/parsers/jpk_parser.py:240-277 | A `GlobalVariable` file yields a variable with a non-empty id. |
| JpkParsing.ScriptVariablesAt | j2j_v3_converter/j2j/parsers/jpk_parser.py:309-334 | The k-th script-declared variable has the k-th new name and the k-th fresh id. |
| JpkParsing.DeclareNew | j2j_v3_converter/j2j/parsers/jpk_parser.py:308-334 | The inner loop adds exactly the variables of the new names, in order, and records them as seen. |
| JpkParsing.ReadFileVariables | j2j_v3_converter/j2j/parsers/jpk_parser.py:238-277 | The loop reads exactly the collected file variables and records their names. |
| JpkParsing.ScanScripts | j2j_v3_converter/j2j/parsers/jpk_parser.py:285-339 | The outer loop adds the variables of the names still new across all scripts, in scan order. |
| JpkParsing.ExtractGlobalVariables | j2j_v3_converter/j2j/parsers/jpk_parser.py:221-351 | The file variables, then one variable with a fresh id for each script-assigned name no earlier variable has. |
| JpkParsing.ScriptVariablesUnique | j2j_v3_converter/j2j/parsers/jpk_parser.py:221-351 | Script-declared names are distinct and differ from every file variable's name, and every scanned assignment has a variable. |
| JpkParsing.TempstorageEndpointOf | j2j_v3_converter/j2j/parsers/jpk_parser.py:353-398 | Nothing without a parse or a header id; otherwise a tempstorage Type 500 named `Read <name>` for a source and `Write <name>` otherwise, pointing at the shared Type 600. |
| JpkParsing.ReadTempstorage | j2j_v3_converter/j2j/parsers/jpk_parser.py:139-152 | The loop collects the endpoint of every readable file of the polarity. |
| JpkParsing.ExtractTempstorageEndpoints | j2j_v3_converter/j2j/parsers/jpk_parser.py:123-162 | One id drawn for the shared Type 600, then the read endpoints of the `Source` files followed by the write endpoints of the `Target` files. |
| JpkParsing.TempstorageShared | j2j_v3_converter/j2j/parsers/jpk_parser.py:133-152 | Every endpoint read is a tempstorage endpoint of its polarity pointing at the shared Type 600. |
| JpkParsing.TasksOver | j2j_v3_converter/j2j/parsers/jpk_parser.py:60-62 | The business files are exactly the `.xml` files under each business component type's directory. |
| JpkParsing.BusinessRecordOf | j2j_v3_converter/j2j/parsers/jpk_parser.py:66-76 | A business file yields a record exactly when it parses and has a header id; the name defaults to the component type. |
| JpkParsing.ProducedPerDraw | j2j_v3_converter/j2j/parsers/jpk_parser.py:78-96 | One Type 500 per drawn id. |
| JpkParsing.Type600For | j2j_v3_converter/j2j/parsers/jpk_parser.py:78-105 | A Type 500 entry's Type 600 gets the drawn id and the adapter's display name; a Type 600 entry's gets the header id and name. |
| JpkParsing.Business600Pairing | j2j_v3_converter/j2j/parsers/jpk_parser.py:78-105 | Record k yields the k-th Type 600: a Type 500 entry's carries the id drawn for it, a Type 600 entry's its header id and name. |
| JpkParsing.Business500Pairing | j2j_v3_converter/j2j/parsers/jpk_parser.py:78-96 | A Type 500 entry's endpoint sits at the index of its drawn id, keeps the header id and points at the Type 600 with that id. |
| JpkParsing.JpkExtractor.constructor | j2j_v3_converter/j2j/parsers/jpk_parser.py:30-42 | Keeps the given endpoint factory. |
| JpkParsing.JpkExtractor.BusinessType600 | j2j_v3_converter/j2j/parsers/jpk_parser.py:94-105 | The record's Type 600 through the factory; the loaded templates stay as they were. |
| JpkParsing.JpkExtractor.AddRecord | j2j_v3_converter/j2j/parsers/jpk_parser.py:64-105 | The loop body appends the record's Type 500 and Type 600 as specified. |
| JpkParsing.JpkExtractor.ExtractFromTasks | j2j_v3_converter/j2j/parsers/jpk_parser.py:60-105 | The loop over the business files builds exactly the specified Type 500 and Type 600 lists. |
| JpkParsing.JpkExtractor.ExtractBusinessEndpoints | j2j_v3_converter/j2j/parsers/jpk_parser.py:44-121 | Per readable business file, a Type 500 entry yields a Type 500 pointing at a freshly drawn id and a Type 600 with that id; a Type 600 entry yields its Type 600. |
| JpkParsing.NamedEntryOf | j2j_v3_converter/j2j/parsers/jpk_parser.py:613-619 | A file yields an entry exactly when it parses and its header has a non-empty id and name. |
| JpkParsing.EntryMapLastWins | j2j_v3_converter/j2j/parsers/jpk_parser.py:611-619 | An entry whose id no later file repeats is the one the dict keeps. |
| JpkParsing.ReadNameMap | j2j_v3_converter/j2j/parsers/jpk_parser.py:611-619 | The loop builds exactly the specified id-to-name dict. |
| JpkParsing.ExtractReferenceMaps | j2j_v3_converter/j2j/parsers/jpk_parser.py:585-644 | The operation and script id-to-name dicts of the archive. |
| JpkParsing.ReferenceMapNamed | j2j_v3_converter/j2j/parsers/jpk_parser.py:585-644 | Keys and names are non-empty, and every file with a header id and name has its id in the dict. |
| JpkParsing.ScriptFiles | j2j_v3_converter/j2j/parsers/jpk_parser.py:288 | Exactly the archive names containing `/Data/Script/` and ending in `.xml`. |
| JpkParsing.TasksFor | j2j_v3_converter/j2j/parsers/jpk_parser.py:61-62 | Exactly the archive names containing `Data/<type>/` and ending in `.xml`, each paired with its table entry. |
| JpkParsing.HeaderId | j2j_v3_converter/j2j/parsers/jpk_parser.py:71-75 | An id only when the header's id is non-empty, and then that id. |
| JpkParsing.HeaderNameOr | j2j_v3_converter/j2j/parsers/jpk_parser.py:76 | With a non-empty default the name is never empty. |
| SchemaGeneration.CanonicalFileIncluded | j2j_v3_converter/j2j/generators/schema_generator.py:792-794 | A file whose lower-cased name starts with `jb-canonical` is always an asset. |
| SchemaGeneration.ForeignNamespaceIncluded | j2j_v3_converter/j2j/generators/schema_generator.py:800-802 | A schema under a `.com`, `.net` or `.org` namespace without `jitterbit` is an asset whatever its file name. |
| SchemaGeneration.InternalSchemaExcluded | j2j_v3_converter/j2j/generators/schema_generator.py:778-809 | An internal Jitterbit schema that is not canonical is left out unless its file name is canonical or names an external connector. |
| SchemaGeneration.InclusionIgnoresCase | j2j_v3_converter/j2j/generators/schema_generator.py:789-790 | The rule ignores letter case in both file name and namespace. |
| SchemaGeneration.FirstContained | j2j_v3_converter/j2j/generators/schema_generator.py:832-837 | The first listed name occurring in the text; none means no listed name occurs. |
| SchemaGeneration.SchemaTypeFirstConnector | j2j_v3_converter/j2j/generators/schema_generator.py:828-837 | `external` exactly when no connector occurs in the lower-cased namespace; otherwise the first connector in list order that occurs. |
| SchemaGeneration.GenerateXsdProperties | j2j_v3_converter/j2j/generators/schema_generator.py:811-839 | Exactly four entries: `IsTopLevel` "0", the namespace, the decimal file size, then the schema type. |
| SchemaGeneration.NetSuiteMatchSound | j2j_v3_converter/j2j/generators/schema_generator.py:539 | A match is laid out in the name as the NetSuite file-name pattern says, with every group in its character class. |
| SchemaGeneration.NetSuiteMatchComplete | j2j_v3_converter/j2j/generators/schema_generator.py:539 | Every name of the NetSuite pattern is matched, yielding the operation id it carries. |
| SchemaGeneration.IsConnectorSchema | j2j_v3_converter/j2j/generators/schema_generator.py:516-552 | Non-connectors carry nothing; the adapter is Salesforce exactly for names containing `salesforce` or starting `sf_`, which give the fixed query tuple. |
| SchemaGeneration.NetSuiteConnector | j2j_v3_converter/j2j/generators/schema_generator.py:537-549 | A NetSuite-pattern name that is not a Salesforce name is a `netsuite` connector with its operation id, direction `input` exactly when the suffix contains `request`. |
| SchemaGeneration.TypeIdToDirection | j2j_v3_converter/j2j/generators/schema_generator.py:453-478 | `input` exactly for the integer 101, `output` for every other value. |
| SchemaGeneration.NotationShape | j2j_v3_converter/j2j/generators/schema_generator.py:343-373 | The notation is well formed, keeps the field's name, has `C` exactly when there are children, one child per child, and one node per field. |
| SchemaGeneration.ChildNotationsShape | j2j_v3_converter/j2j/generators/schema_generator.py:370-371 | Each child notation is the notation of the matching child field. |
| SchemaGeneration.PyIn | j2j_v3_converter/j2j/generators/schema_generator.py:972-975 | Membership raises exactly on a null, boolean or number container. |
| SchemaGeneration.ValidateSchemaComponent | j2j_v3_converter/j2j/generators/schema_generator.py:947-977 | True exactly for a dict with the four keys, type 900 and properties holding the three entries; an error exactly when the properties value cannot be searched. |
| SchemaGeneration.ValidationIgnoresOtherKeys | j2j_v3_converter/j2j/generators/schema_generator.py:947-977 | Keys other than the four required ones do not change the verdict. |
| SchemaGeneration.SideLookup | j2j_v3_converter/j2j/generators/schema_generator.py:245-258 | A side gives an id only when it is a dict named as the file and the id is truthy. |
| SchemaGeneration.SchemaIdFirst | j2j_v3_converter/j2j/generators/schema_generator.py:242-262 | A found id is that of the first transformation that gives one, every earlier one giving none; no transformation giving one means none. |
| SchemaGeneration.ExtractSchemaIdFromTransformations | j2j_v3_converter/j2j/generators/schema_generator.py:226-262 | The loop with its early returns yields exactly the specified id. |
| SchemaGeneration.SchemaGenerator.constructor | j2j_v3_converter/j2j/generators/schema_generator.py:85-89 | Starts with an empty GUID cache. |
| SchemaGeneration.SchemaGenerator.GenerateGuid | j2j_v3_converter/j2j/generators/schema_generator.py:91-111 | Returns the seed's uuid5 and caches it under the seed. |
| SchemaGeneration.SameSeedSameGuid | j2j_v3_converter/j2j/generators/schema_generator.py:91-111 | Two calls with the same seed give the same GUID, whatever calls come in between. |
| StringOrder.LexLeTotal | j2j_v3_converter/jpk_discover_transformations.py:1046 | Python's string order is total, so `sorted` can compare any two variable names. |
| StringOrder.LexLeTransitive | j2j_v3_converter/jpk_discover_transformations.py:1046 | Python's string order is transitive. |
| StringOrder.SortStrings | j2j_v3_converter/jpk_discover_transformations.py:1046 | `sorted` yields the same names in non-decreasing order. |
| StringOrder.SortedUnique | j2j_v3_converter/jpk_discover_transformations.py:1373 | Two sorted lists with the same elements are equal, so `sorted` has one answer. |
| DiscoveryFields.FlattenAppend | j2j_v3_converter/jpk_discover_transformations.py:834-848 | The fields of two concatenated forests are the fields of each, in order. |
| DiscoveryFields.CountAllFields | j2j_v3_converter/jpk_discover_transformations.py:834-848 | The count is the number of fields in the whole tree, children at every depth included. |
| DiscoveryFields.DomainValues | j2j_v3_converter/jpk_discover_transformations.py:890-894 | At most ten values, a prefix of the `\|`-split domain, which rejoins to the domain when it has ten values or fewer. |
| DiscoveryFields.AttrInfoOf | j2j_v3_converter/jpk_discover_transformations.py:887-894 | Attribute metadata exists exactly when some `Attr` lies below the element, with at most ten domain values. |
| DiscoveryFields.CromField | j2j_v3_converter/jpk_discover_transformations.py:851-905 | None exactly for an element without a non-empty `Name`; a field carries that name and the path under its parent. |
| DiscoveryFields.ParseCromElement | j2j_v3_converter/jpk_discover_transformations.py:851-905 | The method, child by child, yields exactly the specified field. |
| DiscoveryFields.ChildFieldsFrom | j2j_v3_converter/jpk_discover_transformations.py:897-903 | Each child field comes from a kept CROM child, one whose name is non-empty and does not start with `xsi:`. |
| DiscoveryFields.CromFieldWellFormed | j2j_v3_converter/jpk_discover_transformations.py:851-905 | Every parsed field is well formed: its children's paths extend its own path by their names. |
| DiscoveryFields.ChildFieldsCount | j2j_v3_converter/jpk_discover_transformations.py:897-903 | The i-th field is the field parsed from the i-th kept CROM child: one field per kept child, in the same order. |
| DiscoveryFields.KeptChildrenAppend | j2j_v3_converter/jpk_discover_transformations.py:897-903 | The kept children of a concatenation are the kept children of each part, so document order is kept. |
| DiscoveryFields.ResolveChild | j2j_v3_converter/jpk_discover_transformations.py:797-831 | A resolved child keeps its name and takes the path under its parent; running out of recursion depth is an error. |
| DiscoveryFields.ResolveAll | j2j_v3_converter/jpk_discover_transformations.py:813-829 | One resolved child per child, each its own resolution, in order. |
| DiscoveryFields.ResolveChildWithPath | j2j_v3_converter/jpk_discover_transformations.py:797-831 | The method with its loops yields exactly the specified resolution. |
| DiscoveryFields.ResolveAllPrefixErr | j2j_v3_converter/jpk_discover_transformations.py:813-829 | Once a child fails to resolve, the whole list fails the same way. |
| DiscoveryFields.ResolvedPathsConsistent | j2j_v3_converter/jpk_discover_transformations.py:797-831 | A resolved tree has consistent paths throughout, whatever paths its input carried. |
| DiscoveryFields.ResolveWithoutTypes | j2j_v3_converter/jpk_discover_transformations.py:797-831 | Without type definitions resolving only re-paths the tree, given enough recursion depth. |
| DiscoveryFields.NamesOf | j2j_v3_converter/jpk_discover_transformations.py:636-639 | Exactly the non-empty `Name` attributes. |
| DiscoveryFields.NamesOfAppend | j2j_v3_converter/jpk_discover_transformations.py:636-639 | The names of a concatenation are the names of each part, so `flat_fields` keeps document order and repeated names. |
| DiscoveryFields.ParseFlatJtr | j2j_v3_converter/jpk_discover_transformations.py:631-645 | A `Text` root is flat, with no fields, the named CROM elements as its flat fields and their number as its count. |
| DiscoveryFields.BuildSalesforceFieldStructure | j2j_v3_converter/jpk_discover_transformations.py:1350-1390 | None without fields; otherwise one root with a leaf per sorted field name, the count one more than the fields, and the query metadata kept. |
| DiscoveryFields.SalesforceStructureConsistent | j2j_v3_converter/jpk_discover_transformations.py:1350-1390 | The Salesforce structure's count is what `count_all_fields` gives for it, and its paths are consistent. |
| DiscoveryMappings.ScriptSource | j2j_v3_converter/jpk_discover_transformations.py:1432-1440 | A source part without `<trans>` is its own source expression; with a closed pair, the stripped text between the tags. |
| DiscoveryMappings.MappingOf | j2j_v3_converter/jpk_discover_transformations.py:1411-1427 | A mapping is raw exactly when the stripped expression has no tab, and then keeps that text; otherwise the target path holds no tab. |
| DiscoveryMappings.MappingSplit | j2j_v3_converter/jpk_discover_transformations.py:1419-1453 | A clean target and a clean source part joined by a tab split back into that target and that source part's expression, flagged as a script exactly when it holds `<trans>`. |
| DiscoveryMappings.MappingRoundTrip | j2j_v3_converter/jpk_discover_transformations.py:1446-1453 | A target and a plain source joined by a tab read back as that simple mapping. |
| DiscoveryMappings.MappingScriptRoundTrip | j2j_v3_converter/jpk_discover_transformations.py:1431-1445 | A target and a script wrapped in `<trans>` tags read back as that script, flagged as a transformation script. |
| DiscoveryMappings.ExprElement | j2j_v3_converter/jpk_discover_transformations.py:1411 | The expression element found is a child `konga.string` whose `name` is `expr`. |
| DiscoveryMappings.MappingsIn | j2j_v3_converter/jpk_discover_transformations.py:1409-1453 | At most one mapping per `Mapping` element, each the reading of some element's expression text. |
| DiscoveryMappings.MappingsInAppend | j2j_v3_converter/jpk_discover_transformations.py:1409-1453 | The mappings of a split element list are the mappings of its parts, concatenated: document order is kept. |
| DiscoveryMappings.ExtractMappings | j2j_v3_converter/jpk_discover_transformations.py:1393-1457 | The loop over the `Mapping` elements yields exactly the specified mapping list. |
| DiscoveryMappings.VariableAt | j2j_v3_converter/jpk_discover_transformations.py:1027 | A match starting at a position captures a dotted name written either in brackets or between dollar signs at that position. |
| DiscoveryMappings.VariablesFrom | j2j_v3_converter/jpk_discover_transformations.py:1029-1042 | Every name found by the scan is a dotted word name. |
| DiscoveryMappings.BracketedVariable | j2j_v3_converter/jpk_discover_transformations.py:1027 | A bracketed dotted name is found as exactly itself. |
| DiscoveryMappings.DollarVariable | j2j_v3_converter/jpk_discover_transformations.py:1027 | A word between dollar signs is found as exactly itself. |
| DiscoveryMappings.TextVariables | j2j_v3_converter/jpk_discover_transformations.py:1036-1042 | The names a text contributes after the `$` filter are every name the pattern finds in it. |
| DiscoveryMappings.NoDollarInNames | j2j_v3_converter/jpk_discover_transformations.py:1040-1041 | No name the pattern captures holds a `$`, so the filter removes nothing. |
| DiscoveryMappings.VariablesOfIncludes | j2j_v3_converter/jpk_discover_transformations.py:1031-1042 | Every variable of every mapping, from source or target, is collected. |
| DiscoveryMappings.VariablesOfFrom | j2j_v3_converter/jpk_discover_transformations.py:1031-1042 | Every collected variable comes from some mapping. |
| DiscoveryMappings.ExtractVariables | j2j_v3_converter/jpk_discover_transformations.py:1044-1048 | The variable list is strictly sorted, so each name once, and holds exactly the collected names. |
| DiscoveryMappings.SortedDistinct | j2j_v3_converter/jpk_discover_transformations.py:1045 | Sorting a list without repeats gives a strictly increasing list with the same members. |
| DiscoveryMappings.TypeName | j2j_v3_converter/jpk_discover_transformations.py:1460-1478 | A listed id gives its table name, any other id `Unknown (<id>)`; the target table is the same. |
| DiscoveryMappings.UnknownExactlyUnlisted | j2j_v3_converter/jpk_discover_transformations.py:1460-1478 | A name starts with `Unknown (` exactly when the id is not in the table, and then carries that id. |
| ActivitySchemas.DropEnvelope | j2j_v3_converter/j2j/converters/jpk_to_json.py:2562-2566 | A leading `jbroot` is dropped and then a leading `jbresponse`: `jbroot/jbresponse/x` and `jbresponse/x` both become `x`, `jbroot/x` becomes `x`; at most two segments go, and other paths are unchanged. |
| ActivitySchemas.CleanSegments | j2j_v3_converter/j2j/converters/jpk_to_json.py:2570-2580 | At most as many segments as given, and none ends in `$`. |
| ActivitySchemas.PathExistsInSchema | j2j_v3_converter/j2j/converters/jpk_to_json.py:2543-2596 | True exactly when the path and the schema are non-empty and the cleaned segments, envelope dropped, lead from the root through children named by each segment. |
| ActivitySchemas.CleanFromAppend | j2j_v3_converter/j2j/converters/jpk_to_json.py:2570-2580 | The cleaning loop over a concatenation is the loop over the second part continued from the first. |
| ActivitySchemas.CleanPlain | j2j_v3_converter/j2j/converters/jpk_to_json.py:2570-2580 | Segments without `$` and without `baseRef` pass through cleaning unchanged. |
| ActivitySchemas.IndexAfterBaseRefIgnored | j2j_v3_converter/j2j/converters/jpk_to_json.py:2572-2577 | A numeric index or `RecordRef` right after `baseRef` is ignored in the lookup. |
| ActivitySchemas.EnvelopeOnlyPathExists | j2j_v3_converter/j2j/converters/jpk_to_json.py:2543-2596 | A path made only of envelope segments exists exactly when the schema is non-empty. |
| ActivitySchemas.RootAloneExists | j2j_v3_converter/j2j/converters/jpk_to_json.py:2543-2596 | `jbroot` alone exists exactly when the schema is non-empty. |
| ActivitySchemas.RootPrefixIgnored | j2j_v3_converter/j2j/converters/jpk_to_json.py:2563-2564 | A leading `jbroot/` does not change whether a path exists. |
| ActivitySchemas.CountSchemaElements | j2j_v3_converter/j2j/converters/jpk_to_json.py:1293-1298 | At least 1; exactly 1 for a node without a child list; otherwise more than the number of children. |
| ActivitySchemas.ChildCountSmaller | j2j_v3_converter/j2j/converters/jpk_to_json.py:1293-1298 | Every child's count is strictly below its parent's count. |
| ActivitySchemas.CountIsPreorderLength | j2j_v3_converter/j2j/converters/jpk_to_json.py:1293-1298 | The count equals the number of nodes in the preorder flattening of the tree (the node, then each child's subtree in order). |
| ActivitySchemas.CountPrefix | j2j_v3_converter/j2j/converters/jpk_to_json.py:1296-1297 | The counts of the first `n` children add up to at least `n`, one node at least per child. |
| ActivitySchemas.CountPrefixCovers | j2j_v3_converter/j2j/converters/jpk_to_json.py:1296-1297 | Each of the first `n` children counts no more than the first `n` children together. |
| ActivitySchemas.OptText | j2j_v3_converter/j2j/converters/jpk_to_json.py:1128-1131 | An entry exactly when the child exists with non-empty text, and then that text. |
| ActivitySchemas.MinOccursOf | j2j_v3_converter/j2j/converters/jpk_to_json.py:1139-1144 | Present exactly when `MN` has text; text that is not an integer reads as 0. |
| ActivitySchemas.MaxOccursOf | j2j_v3_converter/j2j/converters/jpk_to_json.py:1147-1155 | Present exactly when `MX` has text; unbounded exactly when that text is `unbounded` in any letter case. |
| ActivitySchemas.FlagOf | j2j_v3_converter/j2j/converters/jpk_to_json.py:1168-1175 | Present exactly when the child has text; true exactly when that text is `true` in any letter case. |
| ActivitySchemas.IntOf | j2j_v3_converter/j2j/converters/jpk_to_json.py:1183-1212 | Present exactly when the child's text is an integer, and then that integer. |
| ActivitySchemas.ParseJtrElement | j2j_v3_converter/j2j/converters/jpk_to_json.py:1098-1224 | The name and type are the `N` and `T` texts; there are at most as many children as child elements, and none of them is empty. |
| ActivitySchemas.ParsedChildren | j2j_v3_converter/j2j/converters/jpk_to_json.py:1215-1219 | At most one parsed child per element, and none of them empty. |
| ActivitySchemas.EmptyChildDropped | j2j_v3_converter/j2j/converters/jpk_to_json.py:1216-1219 | A `C` child that parses to an empty node adds nothing. |
| ActivitySchemas.MinFromText | j2j_v3_converter/j2j/converters/jpk_to_json.py:1139-1144 | `MN` text written from a count reads back as that count. |
| ActivitySchemas.MaxFromText | j2j_v3_converter/j2j/converters/jpk_to_json.py:1147-1155 | `MX` text written from a bound, or `unbounded`, reads back as that bound. |
| ActivitySchemas.EmittedBounds | j2j_v3_converter/j2j/converters/jpk_to_json.py:1139-1155 | The bounds read back from an emitted element are the node's bounds. |
| ActivitySchemas.ParseEmit | j2j_v3_converter/j2j/converters/jpk_to_json.py:1098-1224 | Reading the JTR element written for a named node gives back that node, children included. |
| ActivitySchemas.Words | j2j_v3_converter/j2j/converters/jpk_to_json.py:1366 | Python's `split()`: non-empty runs without whitespace, none at all exactly for a blank text. |
| ActivitySchemas.WordsSnoc | j2j_v3_converter/j2j/converters/jpk_to_json.py:1366 | A word appended after a space becomes the last part of `split()`. |
| ActivitySchemas.ObjectName | j2j_v3_converter/j2j/converters/jpk_to_json.py:1357-1373 | The object name is non-empty unless a truthy `objectName` is set. |
| ActivitySchemas.RootName | j2j_v3_converter/j2j/converters/jpk_to_json.py:1380-1382 | The root name ends with the element name, and starts with `{namespace}` exactly when both are given. |
| ActivitySchemas.ActivitySchemaOField | j2j_v3_converter/j2j/converters/jpk_to_json.py:1340-1392 | Five keys; both file paths are the same `jitterbit.….request.xsd`; the root name goes to the request side only for input and to the response side only for output; content type `xml`. |
| ActivitySchemas.ObjectFromName | j2j_v3_converter/j2j/converters/jpk_to_json.py:1361-1369 | Without an object name, the last word of a name of two or more words is used. |
| ActivitySchemas.ObjectNameInPath | j2j_v3_converter/j2j/converters/jpk_to_json.py:1377-1387 | The object name ends both file paths, before `.request.xsd`. |
| ActivitySchemas.ObjectFallback | j2j_v3_converter/j2j/converters/jpk_to_json.py:1361-1373 | Without an object name and without a second word, the object is `Object`. |
| TransformationPasses.FirstStepIds | j2j_v3_converter/j2j/converters/jpk_to_json.py:2372-2382 | Only truthy ids are collected as first-step ids. |
| TransformationPasses.FirstStepIdsExact | j2j_v3_converter/j2j/converters/jpk_to_json.py:2372-2382 | An id is a first-step id exactly when some operation's first step is a transformation (type 700) with that id. |
| TransformationPasses.WithoutFirstStepSource | j2j_v3_converter/j2j/converters/jpk_to_json.py:2385-2401 | A dict keeps `source` unless it is a first step, by id or by original JPK id, and its source has an origin; every other entry stays; a transformation that is not a first step is unchanged. |
| TransformationPasses.WithoutFirstStepSourceIdempotent | j2j_v3_converter/j2j/converters/jpk_to_json.py:2385-2401 | Running the removal a second time changes nothing more. |
| TransformationPasses.CollectFirstStepIds | j2j_v3_converter/j2j/converters/jpk_to_json.py:2372-2382 | The first loop collects exactly the first-step ids. |
| TransformationPasses.RemoveSourceFromFirstStepTransformations | j2j_v3_converter/j2j/converters/jpk_to_json.py:2347-2413 | Every transformation in the array is replaced by its cleaned form, in place. |
| TransformationPasses.StepEntries | j2j_v3_converter/j2j/converters/jpk_to_json.py:2436-2440 | Adding an operation's transformation steps keeps every earlier key and only records valid positions. |
| TransformationPasses.Positions | j2j_v3_converter/j2j/converters/jpk_to_json.py:2433-2440 | Every recorded id points to an operation and to a transformation step with that id. |
| TransformationPasses.StepEntriesComplete | j2j_v3_converter/j2j/converters/jpk_to_json.py:2436-2440 | Every transformation step with an id is recorded. |
| TransformationPasses.PositionsComplete | j2j_v3_converter/j2j/converters/jpk_to_json.py:2433-2440 | Every transformation step of every operation has its id in the position map. |
| TransformationPasses.NearestActivity | j2j_v3_converter/j2j/converters/jpk_to_json.py:2476-2483 | The nearest script or activity step before the transformation: none exactly when no such step precedes it. |
| TransformationPasses.PrecedingActivity | j2j_v3_converter/j2j/converters/jpk_to_json.py:2475-2483 | The backward scan finds the id of the nearest preceding script or activity step. |
| TransformationPasses.UpdatedOrigin | j2j_v3_converter/j2j/converters/jpk_to_json.py:2443-2488 | A transformation changes only when it can be relinked and the preceding step has an id, and then only its origin id is set to that id; Salesforce write responses are never changed. |
| TransformationPasses.UpdatedOriginPointsBack | j2j_v3_converter/j2j/converters/jpk_to_json.py:2485-2487 | After the pass a relinkable transformation's origin names the preceding activity. |
| TransformationPasses.UpdatedOriginFrame | j2j_v3_converter/j2j/converters/jpk_to_json.py:2485-2487 | Only `source.origin.id` changes; every other entry of the transformation, its source and its origin stays. |
| TransformationPasses.UpdatedOriginIdempotent | j2j_v3_converter/j2j/converters/jpk_to_json.py:2443-2488 | Running the relinking twice changes nothing more than running it once. |
| TransformationPasses.BuildPositions | j2j_v3_converter/j2j/converters/jpk_to_json.py:2433-2440 | The first loop builds exactly the position map, later steps with the same id winning. |
| TransformationPasses.AddStepEntries | j2j_v3_converter/j2j/converters/jpk_to_json.py:2436-2440 | The inner loop adds exactly the operation's transformation steps, in order. |
| TransformationPasses.UpdateTransformationOriginIds | j2j_v3_converter/j2j/converters/jpk_to_json.py:2415-2503 | Every transformation in the array is replaced by its relinked form, in place. |
| TransformationPasses.UpdateOne | j2j_v3_converter/j2j/converters/jpk_to_json.py:2444-2488 | The loop body gives exactly the relinked transformation. |
| TransformationPasses.TruthyValuesExact | j2j_v3_converter/j2j/converters/jpk_to_json.py:2612-2618 | A value is collected exactly when it is truthy and some schema component holds it under the key. |
| TransformationPasses.SideIssue | j2j_v3_converter/j2j/converters/jpk_to_json.py:2626-2648 | At most one issue per side; none exactly when the reference resolves; a name-not-found issue exactly when the name is not among the schema names. |
| TransformationPasses.NoMissingReferencesIff | j2j_v3_converter/j2j/converters/jpk_to_json.py:2622-2673 | The report is empty exactly when every source and target reference of every transformation resolves. |
| TransformationPasses.MissingReferencesBound | j2j_v3_converter/j2j/converters/jpk_to_json.py:2622-2673 | Each transformation contributes at most two issues. |
| TransformationPasses.CollectSchemaKeys | j2j_v3_converter/j2j/converters/jpk_to_json.py:2610-2618 | The first loop collects exactly the truthy schema names and ids. |
| TransformationPasses.ValidateTransformationSchemaReferences | j2j_v3_converter/j2j/converters/jpk_to_json.py:2598-2687 | The reported issues are exactly the missing references of the specification. |
| ComponentMerge.KeptBaseline | j2j_v3_converter/j2j/converters/jpk_to_json.py:1638-1646 | Exactly the baseline components that are not transformations, operations or scripts. |
| ComponentMerge.KeptBaselineAppend | j2j_v3_converter/j2j/converters/jpk_to_json.py:1638-1646 | Filtering a concatenation filters each part, so the kept baseline components stay in their original order. |
| ComponentMerge.OfType | j2j_v3_converter/j2j/converters/jpk_to_json.py:1656-1661 | Exactly the components with the given type key. |
| ComponentMerge.OfTypeKeepsOrder | j2j_v3_converter/j2j/converters/jpk_to_json.py:1656-1661 | The components of one type keep their original order. |
| ComponentMerge.TypeKeys | j2j_v3_converter/j2j/converters/jpk_to_json.py:1656-1661 | Each type key that occurs, and each once. |
| ComponentMerge.TypeKeysFirstAppearance | j2j_v3_converter/j2j/converters/jpk_to_json.py:1656-1661 | The keys come in order of first appearance: an earlier key first occurs earlier in the components. So the unlisted types are appended in that order. |
| ComponentMerge.NewEndpoints600 | j2j_v3_converter/j2j/converters/jpk_to_json.py:1683-1686 | Exactly the extracted Type 600 endpoints whose lower-cased name no baseline Type 600 endpoint has. |
| ComponentMerge.NewEndpointsKeepDuplicates | j2j_v3_converter/j2j/converters/jpk_to_json.py:1683-1686 | Extracted endpoints that share a name with each other but not with the baseline are all kept. |
| ComponentMerge.BlockPosition | j2j_v3_converter/j2j/converters/jpk_to_json.py:1673-1703 | The block of each listed type sits between the blocks of the types before it and after it. |
| ComponentMerge.BlocksMembers | j2j_v3_converter/j2j/converters/jpk_to_json.py:1673-1703 | A component is placed in the ordered blocks exactly when it is a kept baseline component or an extracted component of a listed type. |
| ComponentMerge.RestMembers | j2j_v3_converter/j2j/converters/jpk_to_json.py:1706-1709 | The rest is exactly the kept components whose type is not in the component order. |
| ComponentMerge.MergedMembers | j2j_v3_converter/j2j/converters/jpk_to_json.py:1622-1813 | The merged list holds exactly the baseline components other than transformations, operations and scripts, plus the extracted components, where a Type 600 endpoint is left out when the baseline has its name. |
| ComponentMerge.ReplacedOnlyFromExtracted | j2j_v3_converter/j2j/converters/jpk_to_json.py:1638-1646 | Every transformation, operation or script in the merged list is an extracted one. |
| ComponentMerge.RestComesLast | j2j_v3_converter/j2j/converters/jpk_to_json.py:1705-1709 | After the ordered blocks come only kept baseline components whose type the order does not list. |
| ComponentMerge.Baseline600Named | j2j_v3_converter/j2j/converters/jpk_to_json.py:1667-1670 | Every baseline Type 600 endpoint contributes its lower-cased name. |
| ComponentMerge.Baseline600NameSource | j2j_v3_converter/j2j/converters/jpk_to_json.py:1667-1670 | Every collected name belongs to a baseline Type 600 endpoint. |
| ComponentMerge.Endpoint600Placed | j2j_v3_converter/j2j/converters/jpk_to_json.py:1683-1686 | An extracted Type 600 endpoint is placed exactly when no baseline Type 600 endpoint has its lower-cased name. |
| ComponentMerge.GroupByType | j2j_v3_converter/j2j/converters/jpk_to_json.py:1656-1661 | The grouping loop gives the type keys in first-appearance order and under each the components of that type. |
| ComponentMerge.PlaceBlocks | j2j_v3_converter/j2j/converters/jpk_to_json.py:1673-1703 | The loop over the component order builds exactly the ordered blocks. |
| ComponentMerge.PlaceRest | j2j_v3_converter/j2j/converters/jpk_to_json.py:1706-1709 | The loop over the remaining types collects exactly the rest. |
| ComponentMerge.OrderComponents | j2j_v3_converter/j2j/converters/jpk_to_json.py:1655-1709 | The ordering gives exactly the merged component list. |
| ComponentMerge.ConvertedOpIds | j2j_v3_converter/j2j/converters/jpk_to_json.py:1723-1726 | Every name maps to the id of some converted operation. |
| ComponentMerge.SyncRefsExact | j2j_v3_converter/j2j/converters/jpk_to_json.py:1737-1745 | A sync workflow references exactly the converted operations with a truthy id and name. |
| ComponentMerge.SyncSalesforceIsSync | j2j_v3_converter/j2j/converters/jpk_to_json.py:1735 | A name containing `sync-salesforce` contains `sync`, so the first test adds nothing. |
| ComponentMerge.RemapRefs | j2j_v3_converter/j2j/converters/jpk_to_json.py:1752-1778 | No more references than before; each kept one is a converted operation id, or an object whose "id" is one. |
| ComponentMerge.RemapRefsCount | j2j_v3_converter/j2j/converters/jpk_to_json.py:1752-1778 | Every reference is either re-pointed or dropped, one for one. |
| ComponentMerge.UpdatedWorkflow | j2j_v3_converter/j2j/converters/jpk_to_json.py:1730-1780 | A sync workflow lists the qualifying converted operations; only `operations` changes; a non-sync workflow without operations is unchanged. |
| ComponentMerge.NonEmptyWorkflows | j2j_v3_converter/j2j/converters/jpk_to_json.py:1788 | Exactly the workflows whose operation list is non-empty. |
| ComponentMerge.NonEmptyWorkflowsAppend | j2j_v3_converter/j2j/converters/jpk_to_json.py:1788 | Pruning a concatenation prunes each part, so the surviving workflows keep their order. |
| ComponentMerge.MergedWorkflowsNonEmpty | j2j_v3_converter/j2j/converters/jpk_to_json.py:1729-1788 | No workflow is left with an empty operation list, and a sync workflow survives exactly when some converted operation qualifies. |
| ComponentMerge.UpdateWorkflows | j2j_v3_converter/j2j/converters/jpk_to_json.py:1730-1780 | Every workflow in the array is replaced by its updated form, in place. |
| ComponentMerge.SyncOperationList | j2j_v3_converter/j2j/converters/jpk_to_json.py:1737-1745 | The loop lists exactly the sync references. |
| ComponentMerge.RemapOperations | j2j_v3_converter/j2j/converters/jpk_to_json.py:1752-1778 | The loop re-points exactly as specified. |
| ComponentMerge.PruneWorkflows | j2j_v3_converter/j2j/converters/jpk_to_json.py:1788 | The pruning loop keeps exactly the specified non-empty workflows. |
| ComponentMerge.ProjectName | j2j_v3_converter/j2j/converters/jpk_to_json.py:1798 | The name starts with `JPK-<version>-Modular-` followed by at most eight characters of the uuid. |
| ComponentMerge.MergedBaseline | j2j_v3_converter/j2j/converters/jpk_to_json.py:1622-1813 | Succeeds exactly when the baseline's `project` is a dict; the project then gets the unique name and the merged components. |
| ComponentMerge.MergedBaselineWorkflowsNonEmpty | j2j_v3_converter/j2j/converters/jpk_to_json.py:1622-1813 | After the merge every workflow of the project has a non-empty operation list. |
| ComponentMerge.MergeComponents | j2j_v3_converter/j2j/converters/jpk_to_json.py:1622-1813 | The method gives exactly the specified merged baseline. |
| StepRemapping.TransformationIds | j2j_v3_converter/j2j/converters/jpk_to_json.py:1898-1905 | Only truthy original JPK ids are keys of the id table. |
| StepRemapping.ExistingContentIds | j2j_v3_converter/j2j/converters/jpk_to_json.py:1899-1905 | The empty string is never an existing content id. |
| StepRemapping.TransformationIdsMember | j2j_v3_converter/j2j/converters/jpk_to_json.py:1900-1905 | An original id is mapped exactly when it is truthy and some transformation carries it. |
| StepRemapping.TransformationIdsLast | j2j_v3_converter/j2j/converters/jpk_to_json.py:1900-1905 | A mapped original id maps to the id of the last transformation that carries it. |
| StepRemapping.ExistingContentIdsMapped | j2j_v3_converter/j2j/converters/jpk_to_json.py:1900-1905 | A content id is an existing transformation exactly when the id table maps it. |
| StepRemapping.IndexTransformations | j2j_v3_converter/j2j/converters/jpk_to_json.py:1898-1905 | The loop builds exactly both tables. |
| StepRemapping.Candidates | j2j_v3_converter/j2j/converters/jpk_to_json.py:1920-1927 | Exactly the endpoints filed under the adapter and function key. |
| StepRemapping.CandidatesKeepOrder | j2j_v3_converter/j2j/converters/jpk_to_json.py:1920-1927 | The candidates under one key keep their order in the endpoint list. |
| StepRemapping.IndexEndpoints | j2j_v3_converter/j2j/converters/jpk_to_json.py:1920-1927 | The loop files every endpoint under its key, in order. |
| StepRemapping.LastWithId | j2j_v3_converter/j2j/converters/jpk_to_json.py:1930 | A lookup by id finds a listed element with that id, and finds none exactly when no element has it. |
| StepRemapping.LastWithIdIsLast | j2j_v3_converter/j2j/converters/jpk_to_json.py:1930 | Later elements with the same id override earlier ones. |
| StepRemapping.FirstActivity | j2j_v3_converter/j2j/converters/jpk_to_json.py:1955-1958 | The first activity whose `activity_id` is the step id, none exactly when there is no such activity. |
| StepRemapping.FindActivity | j2j_v3_converter/j2j/converters/jpk_to_json.py:1955-1958 | The scan stops at exactly that first matching activity. |
| StepRemapping.MapStepsToActivities | j2j_v3_converter/j2j/converters/jpk_to_json.py:1949-1958 | The loop maps every script and endpoint step to its first matching activity. |
| StepRemapping.ChosenEndpointKey | j2j_v3_converter/j2j/converters/jpk_to_json.py:1981-2061 | A chosen endpoint is listed and is filed under the key the activity's role calls for: NetSuite upsert for a NetSuite function, temp storage read or Salesforce query for a source, temp storage write for a target, Salesforce query otherwise. |
| StepRemapping.SalesforceQueryUnique | j2j_v3_converter/j2j/converters/jpk_to_json.py:2029-2061 | A Salesforce query endpoint is chosen only when it is the only one filed. |
| StepRemapping.NetSuitePrefersCurrent | j2j_v3_converter/j2j/converters/jpk_to_json.py:1988-1993 | A NetSuite function gets an endpoint exactly when some NetSuite upsert endpoint is filed, and one whose name lacks `_old` whenever there is one. |
| StepRemapping.NetSuiteSourceReadsTempStorage | j2j_v3_converter/j2j/converters/jpk_to_json.py:2012-2025 | A source in a NetSuite operation reads temp storage when any is filed, preferring a canonical or contact name among several. |
| StepRemapping.TransformationStepTarget | j2j_v3_converter/j2j/converters/jpk_to_json.py:1965-1970 | A transformation step never raises; it takes the id of the last transformation converted from its JPK id, and is kept when none was. |
| StepRemapping.DirectEndpointKept | j2j_v3_converter/j2j/converters/jpk_to_json.py:1976-1979 | An endpoint step that already names an endpoint keeps its id. |
| StepRemapping.EndpointStepTarget | j2j_v3_converter/j2j/converters/jpk_to_json.py:1975-2064 | A renamed endpoint step names an endpoint of the list. |
| StepRemapping.ScriptStepTarget | j2j_v3_converter/j2j/converters/jpk_to_json.py:2072-2093 | A script step never raises; it takes its activity's content id exactly when a script has that id. |
| StepRemapping.OtherStepsKept | j2j_v3_converter/j2j/converters/jpk_to_json.py:1960-2095 | Steps of other types, and steps without an id, are left alone. |
| StepRemapping.Rewrites | j2j_v3_converter/j2j/converters/jpk_to_json.py:1960-2095 | One rewrite per step, in order. |
| StepRemapping.AppliedShape | j2j_v3_converter/j2j/converters/jpk_to_json.py:1960-2097 | Applying the rewrites fails exactly when one of them raises; otherwise every step stays in place, renamed steps carry their new id, and nothing else changes. |
| StepRemapping.RemappedStepsShape | j2j_v3_converter/j2j/converters/jpk_to_json.py:1960-2097 | The step loop fails exactly when some step raises; otherwise it keeps the steps in order and changes at most their ids. |
| StepRemapping.AppliedFailPrefix | j2j_v3_converter/j2j/converters/jpk_to_json.py:2100-2102 | A step that raises makes the whole operation fail. |
| StepRemapping.RemapStepList | j2j_v3_converter/j2j/converters/jpk_to_json.py:1960-2097 | The loop gives exactly the specified step list. |
| StepRemapping.WithRemappedStepsShape | j2j_v3_converter/j2j/converters/jpk_to_json.py:2097 | Replacing the steps keeps every other entry of the operation and changes at most the steps' ids. |
| StepRemapping.OperationFields | j2j_v3_converter/j2j/converters/jpk_to_json.py:1909-1916 | The created operation carries type 200 and the JPK operation's id, name and steps. |
| StepRemapping.ConvertedOperationShape | j2j_v3_converter/j2j/converters/jpk_to_json.py:1907-2102 | A converted operation keeps the JPK operation's id and name and the factory's steps, in order, changing at most their ids; it is skipped exactly when an endpoint or script is not a dict or a step raises. |
| StepRemapping.PresentKept | j2j_v3_converter/j2j/converters/jpk_to_json.py:2098-2102 | Every kept operation comes from some conversion, and with none raising there is one per conversion. |
| StepRemapping.Conversions | j2j_v3_converter/j2j/converters/jpk_to_json.py:1907-2102 | One conversion per JPK operation, in order. |
| StepRemapping.ConvertedOperationsKept | j2j_v3_converter/j2j/converters/jpk_to_json.py:1907-2102 | Every output operation converts some JPK operation; when none raises there is one per JPK operation, in order. |
| StepRemapping.ConvertOperation | j2j_v3_converter/j2j/converters/jpk_to_json.py:1908-2098 | The loop body gives exactly the specified conversion. |
| StepRemapping.ConvertOperations | j2j_v3_converter/j2j/converters/jpk_to_json.py:1873-2104 | The method gives exactly the specified list of converted operations. |

## Left out

- File, zip and compression plumbing: opening the JPK archive, `gzip`/`zlib`/`base64` in the JTR cache readers, and XML text parsing. The archive is its name list plus parsed element trees; a file that is missing or does not parse yields no document, as the per-file `try`/`except` blocks skip it.
- `uuid.uuid4()` draws are parameters: endpoint and variable ids, outcome ids (`outcomeIds` of `StepRemapping.ConvertOperations`) and the project-name uuid. `uuid5` is a function parameter of the GUID caches.
- Timestamps, `print` output and the Markdown text of the trace log, apart from its per-type section counts.
- Unicode: `lower`, `title`, `isdigit`, `isspace` and the regular-expression class `\w` are modelled on ASCII only.
- Floating point: numbers are integers; the file-size formatting is not modelled.
- Dict key order: JSON objects are maps, so the order in which keys are written is not represented, nor is the order of a dict's iteration except where the source's result depends on it (those places keep an explicit list).
- Aliasing: the passes in `jpk_to_json.py` mutate nested dicts shared with other components (a transformation's `source.origin`). Here each transformation is one value in an array, so a change made through one reference is not seen through another.
- Non-dict and non-list values where the source calls `.get`, `.lower()` or iterates: the model reads a non-list `steps`, `operations` or `workflows` value as empty, a non-string name or endpoint key as `""`, and `_conversion_metadata` or `source` set to `None` as empty. Python raises in those cases. The exceptions: a non-dict `baseline['project']` (`ComponentMerge.MergedBaseline`), a non-dict endpoint or script (`StepRemapping.ConvertedOperation`), and a truthy non-dict Type 600 template (`EndpointFactory.Type600From`) are modelled as errors.
- Unhashable dict keys (a list used as an id) and Python's `True == 1` when ids are hashed, except in `validate_template` and `validate_endpoint`, where the bool/int equality is modelled.
- `get_adapter_display_name` and `create_endpoint_metadata` come from `config/endpoint_rules.py`, which is not part of this model; their results are parameters of the endpoint factory.
- `create_salesforce_properties` and `create_netsuite_properties` in the Type 500 generator are fixed constant lists; only the dispatch to them is modelled.
- `extract_operations` and `extract_project_variables` of the JPK parser, `extract_activity_entities_from_jpk` (its entities are only counted and printed) and the statistics printed by the parsers.
- `XSDParser.parse_structure`: it reads the XSD from the archive; the field building it calls is `XsdParsing.BuildFieldStructure`, and an exception there makes it return `{}`.
- The schema generator's archive and reference-file methods: `generate_assets_from_jpk`, `generate_schema_components`, `_load_schema_from_transformations`, `_load_schema_structure`, `_parse_jtr_to_json_notation`, `_resolve_jtr_type`, `_get_direction_from_transformations`, `_extract_schema_name_from_transformations`, `_extract_human_readable_schema_name`, `_extract_connector_from_namespace` and `_format_schema_name`.
- The converter driver of `jpk_to_json.py` beyond the functions modelled here: `analyze`, `convert`, configuration loading, `_extract_components`, `_create_type_900_from_jpk_schema`, `_extract_jtr_from_cache`, `_read_jtr_cache_raw`, `_populate_activity_schemas`, `_link_transformation_schema_ids`, `_extract_transformations` (a subprocess call) and `_save_result`. These read files, call other processes or import modules at run time.
- `discover_transformations` itself (the driver that fills `source_info`), `load_web_service_call` and the `InputStructure`/`OutputStructure` operation references of `extract_dependencies`: they read further archive files. Only the variable list of `extract_dependencies` is modelled.
- The structured (non-`Text`) branch of `parse_jtr_xml`: `DiscoveryFields.ParseFlatJtr` gives `None` for it; its field building is `DiscoveryFields.ParseCromElement` and `DiscoveryFields.ResolveChildWithPath`.
- `DiscoveryFields.ResolveChild`: Python's recursion limit is the explicit `depth` parameter; running out of it is the `RecursionError` result. Type definitions that refer to themselves recurse until that limit in Python.
- Salesforce query keys in `build_salesforce_field_structure` are carried as an opaque record; only the field list and count are modelled.
- `_jtr_field_to_json_notation`: a field here always carries its type entry (`None` for a `None` value); the `'0x1'` default for a field dict without a `type` key is the caller passing `Some("0x1")`.
- `BaselineConfig`, `TemplatesConfig` and `SchemaReferencesConfig.validate` are filesystem existence checks, and `config/loader.py` reads JSON files.
- Web service, authentication, persistence, CLI wrappers and comparison tooling of the repository are outside the converter core.
- `TransformationPasses.UpdatedOriginPointsBack` requires the transformation, its source and its origin to be dicts: with a truthy non-dict origin Python raises at `origin['id'] = ...`, which the model does not represent (`TransformationPasses.WithOriginIdChangesDicts` shows nothing changes then).
- `ComponentMerge.MergedBaseline`: the extracted components arrive as one record with one list per kind; the three comprehensions that drop types 700, 200 and 400 are one filter; a non-list `workflows` value is read as empty.
- `JpkParsing.JpkExtractor.ExtractBusinessEndpoints`: the two nested loops (configurations, then their files) are one loop over the flattened list of (configuration, file) pairs, in the same order.
- `StepRemapping.ConvertOperations`: warning prints are left out; a `None` script list or content-id map is read as empty; the set of existing transformation content ids holds only the string ids, the only ones it is ever queried with.
- Strings.ParseInt: does not accept the underscores that Python's `int()` allows between digits (`"1_0"` is 10 in Python); such text is read as not a number.
- TransformationPasses.UpdateOne: the progress `print` at jpk_to_json.py:2490 slices `old_origin_id[:8]` and `source_activity_id[:8]`, which raises `TypeError` when either id is neither a string nor a list (an integer id, or an origin id present as `None`); the assignment to `origin['id']` has already happened then, but the exception ends the pass. Prints are not modelled, so the model goes on to the remaining transformations where Python would stop.
- Trace-log decisions of the transformation passes: `RemoveSourceFromFirstStepTransformations`, `UpdateTransformationOriginIds` and `ValidateTransformationSchemaReferences` (module `TransformationPasses`) take no trace logger and record no entry. In Python they call `log_decision` at jpk_to_json.py:2404-2409 (NORMAL), 2491-2500 and 2680-2685 (DETAILED). The logger itself is modelled as `TraceLogging.TraceLogger`, but these calls are not.
- TransformationPasses.ValidateTransformationSchemaReferences: Python returns `None` (jpk_to_json.py:2598) and only prints the list of missing references and logs it at DETAILED. The model returns that list so that its contents can be stated.
- ActivitySchemas.Format: renders a list or dict value as `""`. Python's f-string (jpk_to_json.py:1377) writes its `repr`. Such values of `objectName` and the other activity fields are not modelled beyond that.
