/**
 * The rule tables and predicates that steer transformation conversion:
 * schema format selection, flat-schema naming and target paths, numeric
 * path segments, response transformations, schema reference validation and
 * the Salesforce root translation.
 */
module TransformationRules {
  import opened Wrappers
  import opened Strings
  import opened JsonValues

  // ---------------------------------------------------------------------
  // Type-id tables
  // ---------------------------------------------------------------------

  /** `TYPE_ID_TO_ADAPTER.get(type_id)`. */
  function GetAdapterId(typeId: string): Option<string> {
    if typeId == "12" || typeId == "14" then Some("salesforce")
    else if typeId == "101" || typeId == "102" then Some("netsuite")
    else None
  }

  /** `TYPE_ID_TO_SCHEMA_TYPE.get(type_id)`. */
  function GetSchemaType(typeId: string): Option<string> {
    if typeId in {"12", "14", "101", "102"} then Some("connector")
    else if typeId == "1" then Some("user")
    else if typeId == "4" then Some("canonical")
    else None
  }

  /** `TYPE_ID_TO_FUNCTION_NAME.get(type_id)`. */
  function GetFunctionName(typeId: string): Option<string> {
    if typeId == "101" || typeId == "102" then Some("upsert") else None
  }

  /** `TYPE_ID_TO_DIRECTION.get(type_id)`. */
  function GetDirection(typeId: string): Option<string> {
    if typeId == "12" || typeId == "101" then Some("input")
    else if typeId == "14" || typeId == "102" then Some("output")
    else None
  }

  /** Connector schemas keep an origin reference instead of an embedded document. */
  predicate ShouldUseOriginReference(typeId: string) {
    GetAdapterId(typeId).Some?
  }

  /**
   * The four tables agree: a type id has an adapter exactly when it has a
   * direction, exactly when its schema type is `connector`; function names
   * are known only for NetSuite ids.
   */
  lemma TypeTablesAgree(typeId: string)
    ensures GetAdapterId(typeId).Some? <==> GetDirection(typeId).Some?
    ensures GetAdapterId(typeId).Some? <==> GetSchemaType(typeId) == Some("connector")
    ensures ShouldUseOriginReference(typeId) <==> GetSchemaType(typeId) == Some("connector")
    ensures GetFunctionName(typeId).Some? <==> GetAdapterId(typeId) == Some("netsuite")
  {
  }

  // ---------------------------------------------------------------------
  // Flat schemas and schema format
  // ---------------------------------------------------------------------

  /** A schema is flat when its `nature` is `Flat` or its `type` is `Text`. */
  predicate IsFlatSchema(jpkSchema: Json) {
    Get(jpkSchema, "nature") == Str("Flat") || Get(jpkSchema, "type") == Str("Text")
  }

  /** (format, metadata version) for a schema; the flat rule wins over the connector rule. */
  function GetSchemaFormat(isFlat: bool, isConnector: bool): (r: (string, string))
    ensures isFlat ==> r == ("csv", "3.0.1")
    ensures r.0 == "csv" <==> isFlat || isConnector
    ensures r.1 == "2.0.0" <==> !isFlat && isConnector
    ensures r.0 == "xml" ==> r.1 == "3.0.1"
    ensures !isFlat && isConnector ==> r == ("csv", "2.0.0")
    ensures !isFlat && !isConnector ==> r == ("xml", "3.0.1")
  {
    if isFlat then ("csv", "3.0.1")
    else if isConnector then ("csv", "2.0.0")
    else ("xml", "3.0.1")
  }

  /** `SCHEMA_FORMAT_RULES`: (format, metadata version) for flat, connector and user schemas, in that order. */
  const SchemaFormatRules: seq<(string, string)> := [("csv", "3.0.1"), ("csv", "2.0.0"), ("xml", "3.0.1")]

  /**
   * The format function picks the first rule of the table whose condition
   * holds, the user-schema rule applying to every schema; the three rules
   * are pairwise different, so each kind of schema gets its own format.
   */
  lemma SchemaFormatFollowsRules(isFlat: bool, isConnector: bool)
    ensures var k := if isFlat then 0 else if isConnector then 1 else 2;
      GetSchemaFormat(isFlat, isConnector) == SchemaFormatRules[k]
    ensures forall i, j :: 0 <= i < j < |SchemaFormatRules| ==> SchemaFormatRules[i] != SchemaFormatRules[j]
  {
  }

  /** `USE_JPK_FLAT_FIELD_NAMES` is switched on in the source. */
  const UseJpkFlatFieldNames: bool := true
  const FlatSchemaDefaultName: string := "New Flat Schema"
  const FlatSchemaDefaultField: string := "field"

  /** The field name of a flat schema: the first JPK field name, if any. */
  function GetFlatSchemaFieldName(jpkFieldNames: seq<string>): (r: string)
    ensures |jpkFieldNames| > 0 ==> r == jpkFieldNames[0]
    ensures |jpkFieldNames| == 0 ==> r == FlatSchemaDefaultField
  {
    if UseJpkFlatFieldNames && |jpkFieldNames| > 0 then jpkFieldNames[0] else FlatSchemaDefaultField
  }

  /** The name of a flat schema: the JPK name unless it is empty or missing. */
  function GetFlatSchemaName(jpkSchemaName: string): (r: string)
    ensures r != ""
    ensures jpkSchemaName != "" ==> r == jpkSchemaName
    ensures jpkSchemaName == "" ==> r == FlatSchemaDefaultName
  {
    if UseJpkFlatFieldNames && jpkSchemaName != "" then jpkSchemaName else FlatSchemaDefaultName
  }

  /** The prefix as it stands when the functions below run (reassigned with a slash). */
  const FlatPrefix: string := "__flat__/"

  /** Maps a JPK target path of a flat schema to its `__flat__/<field>` form. */
  function MapFlatSchemaTargetPath(targetPath: string, flatFieldNames: seq<string>): (r: string)
    ensures IsPrefix(FlatPrefix, targetPath) ==> r == targetPath
    ensures r == targetPath || r == FlatPrefix + GetFlatSchemaFieldName(flatFieldNames)
    ensures '/' in targetPath && targetPath != "data" && targetPath !in flatFieldNames ==> r == targetPath
    ensures targetPath != "" && '/' !in targetPath ==> r == FlatPrefix + GetFlatSchemaFieldName(flatFieldNames)
  {
    if IsPrefix(FlatPrefix, targetPath) then
      assert targetPath[8] == FlatPrefix[8] == '/';
      targetPath
    else
      var actualField := GetFlatSchemaFieldName(flatFieldNames);
      if |flatFieldNames| > 0 && targetPath in flatFieldNames then FlatPrefix + actualField
      else if targetPath == "data" then FlatPrefix + actualField
      else if '/' !in targetPath && targetPath != "" then FlatPrefix + actualField
      else targetPath
  }

  /** Every path the mapping rewrites carries the prefix, so mapping twice changes nothing. */
  lemma MapFlatSchemaTargetPathIdempotent(targetPath: string, flatFieldNames: seq<string>)
    ensures var once := MapFlatSchemaTargetPath(targetPath, flatFieldNames);
            once != targetPath ==> IsPrefix(FlatPrefix, once)
    ensures var once := MapFlatSchemaTargetPath(targetPath, flatFieldNames);
            MapFlatSchemaTargetPath(once, flatFieldNames) == once
  {
    var once := MapFlatSchemaTargetPath(targetPath, flatFieldNames);
    if once != targetPath {
      var f := GetFlatSchemaFieldName(flatFieldNames);
      assert once == FlatPrefix + f;
      assert once[..|FlatPrefix|] == FlatPrefix;
    }
  }

  /** Preconditions are not generated for flat targets (`targetPath` starts with the prefix). */
  predicate ShouldSkipPreconditionGeneration(mappingRules: seq<Json>) {
    exists i :: 0 <= i < |mappingRules| && IsPrefix(FlatPrefix, AsStr(GetOr(mappingRules[i], "targetPath", Str(""))))
  }

  /** `O.customSchemaIsFlat` of a document, read with the source's defaults. */
  predicate CustomSchemaIsFlat(doc: Json) {
    doc.Obj? && Truthy(GetOr(GetOr(doc, "O", Obj(map[])), "customSchemaIsFlat", Bool(false)))
  }

  /** For a flat target document, the first schema component whose document is flat. */
  function MatchTargetSchemaByStructure(targetDoc: Json, schemaComponents: seq<Json>): (r: Option<Json>)
    ensures !CustomSchemaIsFlat(targetDoc) ==> r == None
    ensures r.Some? ==>
      r.value in schemaComponents && CustomSchemaIsFlat(GetOr(r.value, "schemaTypeDocument", Obj(map[])))
    ensures r.None? && CustomSchemaIsFlat(targetDoc) ==>
      forall i :: 0 <= i < |schemaComponents| ==>
        !CustomSchemaIsFlat(GetOr(schemaComponents[i], "schemaTypeDocument", Obj(map[])))
  {
    if CustomSchemaIsFlat(targetDoc) then FirstFlatSchema(schemaComponents) else None
  }

  function FirstFlatSchema(schemaComponents: seq<Json>): (r: Option<Json>)
    ensures r.Some? ==>
      r.value in schemaComponents && CustomSchemaIsFlat(GetOr(r.value, "schemaTypeDocument", Obj(map[])))
    ensures r.None? ==> forall i :: 0 <= i < |schemaComponents| ==>
      !CustomSchemaIsFlat(GetOr(schemaComponents[i], "schemaTypeDocument", Obj(map[])))
  {
    if |schemaComponents| == 0 then None
    else if CustomSchemaIsFlat(GetOr(schemaComponents[0], "schemaTypeDocument", Obj(map[]))) then Some(schemaComponents[0])
    else FirstFlatSchema(schemaComponents[1..])
  }

  // ---------------------------------------------------------------------
  // Path extraction rules
  // ---------------------------------------------------------------------

  const NavigationPrefixes: seq<string> := ["root", "transaction", "response", "body", "queryresponse", "result"]
  const CollectionRoots: seq<string> := ["records", "rows", "row", "data", "items", "list", "entry", "element"]

  /** `^[$][A-Za-z_][A-Za-z0-9_]*[$]$`: a whole expression that is one `$Name$` reference. */
  predicate IsVariableReference(s: string) {
    |s| >= 3 && s[0] == '$' && s[|s| - 1] == '$'
    && (IsAlpha(s[1]) || s[1] == '_')
    && forall i :: 1 <= i < |s| - 1 ==> IsWordChar(s[i])
  }

  /** A quoted literal such as `"Id"`, possibly inside brackets. */
  predicate IsLiteralStringConstant(expression: string) {
    var e := Strip(StripSet(Strip(expression), {'[', ']'}));
    IsPrefix("\"", e) && IsSuffix("\"", e)
  }

  /**
   * A digit segment is kept only when the next segment starts with an
   * upper-case letter (schema structure such as `baseRef/1/RecordRef`);
   * at the end of a path or before a lower-case name it is an array index.
   */
  predicate ShouldKeepNumericSegment(segment: string, nextSegment: Option<string>) {
    if !IsDigits(segment) then true
    else if nextSegment.None? then false
    else |nextSegment.value| > 0 && IsUpper(nextSegment.value[0])
  }

  lemma NumericSegmentRule(segment: string, nextSegment: Option<string>)
    ensures !IsDigits(segment) ==> ShouldKeepNumericSegment(segment, nextSegment)
    ensures IsDigits(segment) && nextSegment.None? ==> !ShouldKeepNumericSegment(segment, nextSegment)
    ensures IsDigits(segment) && nextSegment.Some? ==>
      (ShouldKeepNumericSegment(segment, nextSegment) <==> nextSegment.value != "" && 'A' <= nextSegment.value[0] <= 'Z')
  {
  }

  // ---------------------------------------------------------------------
  // Response transformations
  // ---------------------------------------------------------------------

  predicate IsResponseTransformation(transformationName: string) {
    Contains(transformationName, "Response")
  }

  /** Some mapping rule carries a truthy `transformScript`. */
  predicate HasScriptBasedMappings(mappingRules: seq<Json>) {
    exists i :: 0 <= i < |mappingRules| && Truthy(Get(mappingRules[i], "transformScript"))
  }

  predicate ShouldRemoveSourceOrigin(transformationName: string, mappingRules: seq<Json>) {
    IsResponseTransformation(transformationName) && HasScriptBasedMappings(mappingRules)
  }

  lemma ShouldRemoveSourceOriginIff(transformationName: string, mappingRules: seq<Json>)
    ensures ShouldRemoveSourceOrigin(transformationName, mappingRules) <==>
      (exists i :: OccursAt("Response", transformationName, i))
      && (exists j :: 0 <= j < |mappingRules| && Truthy(Get(mappingRules[j], "transformScript")))
  {
    if Contains(transformationName, "Response") {
      var i := ContainsWitness(transformationName, "Response");
    }
    if exists i :: OccursAt("Response", transformationName, i) {
      var i :| OccursAt("Response", transformationName, i);
      ContainsAt(transformationName, "Response", i);
    }
  }

  // ---------------------------------------------------------------------
  // Validation
  // ---------------------------------------------------------------------

  /**
   * A schema reference resolves when a component with a truthy id has the
   * given (non-empty) id, or a component with a truthy name has the given name.
   */
  function ValidateSchemaReference(schemaName: string, schemaId: string, schemaComponents: seq<Json>): (r: bool)
    ensures r <==>
      || (schemaId != "" && exists i :: 0 <= i < |schemaComponents| && Get(schemaComponents[i], "id") == Str(schemaId))
      || (schemaName != "" && exists i :: 0 <= i < |schemaComponents| && Get(schemaComponents[i], "name") == Str(schemaName))
  {
    (schemaId != "" && AnyHasValue(schemaComponents, "id", Str(schemaId)))
    || (schemaName != "" && AnyHasValue(schemaComponents, "name", Str(schemaName)))
  }

  /** Some component has `key` set to `v` (scanned front to back). */
  function AnyHasValue(comps: seq<Json>, key: string, v: Json): (r: bool)
    ensures r <==> exists i :: 0 <= i < |comps| && Get(comps[i], key) == v
  {
    if |comps| == 0 then false
    else if Get(comps[0], key) == v then true
    else
      var r := AnyHasValue(comps[1..], key, v);
      assert forall i :: 1 <= i < |comps| ==> comps[i] == comps[1..][i - 1];
      r
  }

  // ---------------------------------------------------------------------
  // Root translation
  // ---------------------------------------------------------------------

  /**
   * Translation is skipped for a namespaced (canonical) root and when no
   * Salesforce object was detected.
   */
  predicate ShouldSkipRootTranslation(sourceRoot: string, salesforceObjectName: string) {
    if sourceRoot != "" && '}' in sourceRoot then true
    else salesforceObjectName == ""
  }

  /** `SALESFORCE_ROOT_TRANSLATIONS.get(root, root)` unless skipped. */
  function GetRootTranslation(rootElement: string, skipTranslation: bool): (r: string)
    ensures skipTranslation ==> r == rootElement
    ensures !skipTranslation ==> r == (if rootElement == "Contacts" then "records" else rootElement)
  {
    if skipTranslation then rootElement
    else if rootElement == "Contacts" then "records"
    else rootElement
  }

  lemma RootTranslationRule(sourceRoot: string, salesforceObjectName: string, root: string)
    ensures !ShouldSkipRootTranslation(sourceRoot, salesforceObjectName) <==>
      '}' !in sourceRoot && salesforceObjectName != ""
    ensures GetRootTranslation(root, true) == root
    ensures GetRootTranslation(root, false) != root <==> root == "Contacts"
  {
  }
}
