/**
 * Type 500 (activity) and Type 600 (endpoint) component records. A Type 500
 * takes one of three shapes (tempstorage, NetSuite, any other adapter) that
 * differ in `kind`, discovery type and properties; a Type 600 is a copy of
 * the adapter's template with eight fields overwritten, or a generic
 * file-based record when there is no template. The adapter display names
 * and the NetSuite metadata come from a rules module that is not part of
 * this model; they are parameters here.
 */
module EndpointFactory {
  import opened Wrappers
  import opened JsonValues
  import opened TemplateManagement

  const EndpointType := 500
  const ConnectionType := 600
  const Checksum := "1"
  const MetadataVersion := "3.0.1"
  const ValidationState := 300

  /** The adapters whose Type 600 may come from a template. */
  const BusinessAdapters: seq<string> := ["salesforce", "netsuite", "tempstorage"]

  /** `{"id": endpoint_id, "type": 600}`: the Type 600 a Type 500 points at. */
  function EndpointRef(endpointId: string): Json {
    Obj(map["id" := Str(endpointId), "type" := Num(ConnectionType)])
  }

  /** The `pageStatus` list shared by every Type 500. */
  const PageStatus: Json := Arr([
    Obj(map["configured" := Bool(true), "visited" := Bool(true)]),
    Obj(map["configured" := Bool(true)])])

  /** A hidden `string` property with a default value. */
  function HiddenProperty(name: string, defaultValue: Json): Json {
    Obj(map["type" := Str("string"), "multiple" := Bool(false), "name" := Str(name),
            "hidden" := Bool(true), "defaultValue" := defaultValue])
  }

  /** `_create_default_properties`. */
  const DefaultProperties: seq<Json> := [
    HiddenProperty("entityId", Num(5)),
    HiddenProperty("source_type_id", Num(15)),
    HiddenProperty("target_type_id", Num(16)),
    HiddenProperty("file_share_id", Num(1))]

  /** `_create_tempstorage_properties`; the polarity argument is not used. */
  const TempstorageProperties: seq<Json> := [
    HiddenProperty("entityId", Num(3)),
    Obj(map[
      "name" := Str("page1"),
      "displayName" := Str("File configuration"),
      "type" := Str("pagination"),
      "children" := Arr([
        Obj(map["type" := Str("string"), "multiple" := Bool(false), "name" := Str("locator"),
                "displayName" := Str("Path (Optional)"),
                "validators" := Arr([Obj(map["name" := Str("pattern"), "args" := Arr([Str("[^~%$\"<>:?]*")])])]),
                "value" := Str("[DataPath]")]),
        Obj(map["type" := Str("string"), "multiple" := Bool(false), "name" := Str("file_name"),
                "displayName" := Str("Filename(s)"),
                "validators" := Arr([Obj(map["name" := Str("required")]),
                                     Obj(map["name" := Str("pattern"), "args" := Arr([Str("[^*?\",:<>|]*")])])]),
                "variables" := Obj(map["fileVars" := Bool(true)]),
                "value" := Str("[DataFilename]")])])])]

  /** The `value` of the NetSuite `list-object` property. */
  function NetSuiteObjectValue(objectName: string): Json {
    Obj(map["N" := Str(objectName), "T" := Str("standard"),
            "D" := Str("urn:relationships_2018_2.lists.webservices.netsuite.com"), "selectedIndex" := Num(40)])
  }

  /** `_create_netsuite_properties`: one `list-object-page` pagination property. */
  function NetSuiteProperties(objectName: string): (r: seq<Json>)
    ensures |r| == 1 && Get(r[0], "name") == Str("list-object-page")
  {
    var listObject := Obj(map[
      "type" := Str("list-object"), "multiple" := Bool(false), "name" := Str("list-object"),
      "displayName" := Str("Select an Object"),
      "use" := Obj(map[
        "ui" := Obj(map[
          "selectObjectLabel" := Str("Selected NetSuite Object: "),
          "tableHeaders" := Arr([Str("Name"), Str("Type"), Str("Object Description")]),
          "tableItems" := Arr([Str("objectName"), Str("objectType"), Str("objecDescription")])]),
        "discoveryType" := Str("provided"), "orientation" := Str("inputoutput"), "documentIdPath" := Str("this")]),
      "value" := NetSuiteObjectValue(objectName)]);
    var entity := Obj(map["type" := Str("number"), "multiple" := Bool(false), "name" := Str("entityId"),
                          "hidden" := Bool(true), "defaultValue" := Num(232)]);
    [Obj(map["type" := Str("pagination"), "children" := Arr([entity, listObject]), "name" := Str("list-object-page")])]
  }

  /**
   * The fields every Type 500 shape shares, written over the shape's own
   * fields `base`, the identifying ones last.
   */
  function Type500Fields(base: map<string, Json>, name: string, polarity: string, kind: string, adapterId: string,
                         functionName: string, endpointId: string, componentId: string): (m: map<string, Json>)
    ensures "id" in m && m["id"] == Str(componentId)
    ensures "type" in m && m["type"] == Num(EndpointType)
    ensures "endpoint" in m && m["endpoint"] == EndpointRef(endpointId)
    ensures "kind" in m && m["kind"] == Str(kind)
    ensures "polarity" in m && m["polarity"] == Str(polarity)
    ensures "functionName" in m && m["functionName"] == Str(functionName)
    ensures "name" in m && m["name"] == Str(name)
    ensures "adapterId" in m && m["adapterId"] == Str(adapterId)
    ensures "properties" in base ==> "properties" in m && m["properties"] == base["properties"]
  {
    base["pageStatus" := PageStatus]
      ["checksum" := Str(Checksum)]
      ["metadataVersion" := Str(MetadataVersion)]
      ["encryptedAtRest" := Bool(true)]
      ["validationState" := Num(ValidationState)]
      ["hidden" := Bool(false)]
      ["isSchemaDiscovered" := Bool(true)]
      ["isConfigurationComplete" := Bool(true)]
      ["requiresDeploy" := Bool(true)]
      ["adapterId" := Str(adapterId)]
      ["name" := Str(name)]
      ["functionName" := Str(functionName)]
      ["polarity" := Str(polarity)]
      ["kind" := Str(kind)]
      ["endpoint" := EndpointRef(endpointId)]
      ["type" := Num(EndpointType)]
      ["id" := Str(componentId)]
  }

  /** The fields only the tempstorage and generic shapes have. */
  function FileBasedFields(properties: seq<Json>, withInputRequired: bool): (r: map<string, Json>)
    ensures "properties" in r && r["properties"] == Arr(properties)
  {
    var m := map["discoveryType" := Str("FileBasedDiscovery"), "passwordEncAtAppLevel" := Bool(true),
                 "partial" := Bool(false), "plugins" := Arr([]), "chunks" := Num(1)];
    (if withInputRequired then m["inputRequired" := Bool(false)] else m)["properties" := Arr(properties)]
  }

  /** The fields only the NetSuite shape has. */
  function NetSuiteFields(objectName: string, metadata: Json): (r: map<string, Json>)
    ensures "properties" in r && r["properties"] == Arr(NetSuiteProperties(objectName))
  {
    map[
      "discoveryType" := Str("ServerBasedDiscovery"),
      "inputRequired" := Bool(false),
      "operationTypePatterns" := Arr([
        Obj(map["pattern" := Str("^s*Ss*xA(xs*T?)?s*$"), "type" := Num(6)]),
        Obj(map["pattern" := Str("^s*S?s*xAx?s*T?s*$"), "type" := Num(6)])]),
      "metadata" := metadata,
      "errorMessage" := Str("")
    ]["properties" := Arr(NetSuiteProperties(objectName))]
  }

  /** `polarity if polarity else "neutral"`. */
  function NetSuitePolarity(polarity: string): string {
    if polarity != "" then polarity else "neutral"
  }

  /** `object_name or "Contact"`. */
  function NetSuiteObjectName(objectName: Option<string>): (r: string)
    ensures r != ""
  {
    if objectName.Some? && objectName.value != "" then objectName.value else "Contact"
  }

  /** `_create_netsuite_type_500`; `metadata` is what the rules module builds for NetSuite Type 500s. */
  function CreateNetSuiteType500(name: string, polarity: string, functionName: string, endpointId: string,
                                 componentId: string, objectName: string, metadata: Json): (r: Json)
    ensures Get(r, "kind") == Str("outbound")
    ensures Get(r, "polarity") == Str(NetSuitePolarity(polarity))
    ensures Get(r, "id") == Str(componentId) && Get(r, "type") == Num(EndpointType)
    ensures Get(r, "endpoint") == EndpointRef(endpointId)
    ensures Get(r, "properties") == Arr(NetSuiteProperties(objectName))
  {
    Obj(Type500Fields(NetSuiteFields(objectName, metadata), name, NetSuitePolarity(polarity), "outbound", "netsuite",
                      functionName, endpointId, componentId))
  }

  /** The `kind` of a tempstorage Type 500: `outbound` for a source. */
  function TempstorageKind(polarity: string): string {
    if polarity == "source" then "outbound" else "inbound"
  }

  /** The `kind` of a generic Type 500: `inbound` for a source, the opposite convention. */
  function GenericKind(polarity: string): string {
    if polarity == "source" then "inbound" else "outbound"
  }

  /** `create_type_500`. */
  function CreateType500(name: string, polarity: string, adapterId: string, functionName: string,
                         endpointId: string, componentId: string, objectName: Option<string>,
                         netSuiteMetadata: Json): (r: Json)
    ensures Get(r, "id") == Str(componentId) && Get(r, "type") == Num(EndpointType)
    ensures Get(r, "name") == Str(name) && Get(r, "adapterId") == Str(adapterId)
    ensures Get(r, "endpoint") == EndpointRef(endpointId)
    ensures adapterId == "tempstorage" ==>
      (Get(r, "kind") == Str(TempstorageKind(polarity))
       && Get(r, "properties") == Arr(TempstorageProperties) && Get(r, "polarity") == Str(polarity))
    ensures adapterId == "netsuite" ==> r == CreateNetSuiteType500(name, polarity, functionName, endpointId,
      componentId, NetSuiteObjectName(objectName), netSuiteMetadata)
    ensures adapterId != "tempstorage" && adapterId != "netsuite" ==>
      (Get(r, "kind") == Str(GenericKind(polarity))
       && Get(r, "properties") == Arr(DefaultProperties) && Get(r, "polarity") == Str(polarity))
  {
    if adapterId == "tempstorage" then
      Obj(Type500Fields(FileBasedFields(TempstorageProperties, true), name, polarity, TempstorageKind(polarity),
                        adapterId, functionName, endpointId, componentId))
    else if adapterId == "netsuite" then
      CreateNetSuiteType500(name, polarity, functionName, endpointId, componentId, NetSuiteObjectName(objectName), netSuiteMetadata)
    else
      Obj(Type500Fields(FileBasedFields(DefaultProperties, false), name, polarity, GenericKind(polarity),
                        adapterId, functionName, endpointId, componentId))
  }

  /** The two adapter conventions for `kind` are opposite for every polarity. */
  lemma KindConventionsOpposite(polarity: string, endpointId: string, componentId: string, metadata: Json)
    ensures var t := CreateType500("n", polarity, "tempstorage", "f", endpointId, componentId, None, metadata);
      var g := CreateType500("n", polarity, "ftp", "f", endpointId, componentId, None, metadata);
      (Get(t, "kind") == Str("outbound") <==> polarity == "source")
      && (Get(g, "kind") == Str("inbound") <==> polarity == "source")
      && Get(t, "kind") != Get(g, "kind")
  {
  }

  /** A NetSuite object name defaults to `Contact` and an empty polarity becomes `neutral`. */
  lemma NetSuiteDefaults(name: string, functionName: string, endpointId: string, componentId: string, metadata: Json)
    ensures var r := CreateType500(name, "", "netsuite", functionName, endpointId, componentId, None, metadata);
      Get(r, "polarity") == Str("neutral") && Get(r, "properties") == Arr(NetSuiteProperties("Contact"))
  {
    assert NetSuiteObjectName(None) == "Contact" && NetSuitePolarity("") == "neutral";
    var r := CreateNetSuiteType500(name, "", functionName, endpointId, componentId, "Contact", metadata);
    assert CreateType500(name, "", "netsuite", functionName, endpointId, componentId, None, metadata) == r;
  }

  /** Python's `v == n` for an integer `n`: a `bool` compares as 0 or 1. */
  predicate EqualsInt(v: Json, n: int) {
    (v.Num? && v.n == n) || (v.Bool? && (if v.b then 1 else 0) == n)
  }

  /** `validate_endpoint`. */
  predicate ValidateEndpoint(endpoint: Json, expectedType: int) {
    endpoint.Obj? && Has(endpoint, "id") && Has(endpoint, "type") && Has(endpoint, "name")
    && EqualsInt(Get(endpoint, "type"), expectedType)
    && (expectedType == EndpointType ==> Has(endpoint, "polarity") && Has(endpoint, "functionName"))
  }

  /** Every Type 500 the factory builds passes `validate_endpoint` for type 500 and fails it for 600. */
  lemma CreatedType500Validates(name: string, polarity: string, adapterId: string, functionName: string,
                                endpointId: string, componentId: string, objectName: Option<string>, metadata: Json)
    ensures ValidateEndpoint(CreateType500(name, polarity, adapterId, functionName, endpointId, componentId, objectName, metadata), EndpointType)
    ensures !ValidateEndpoint(CreateType500(name, polarity, adapterId, functionName, endpointId, componentId, objectName, metadata), ConnectionType)
  {
    var r := CreateType500(name, polarity, adapterId, functionName, endpointId, componentId, objectName, metadata);
    assert Has(r, "name") && Has(r, "polarity") && Has(r, "functionName");
  }

  /** The fallback Type 600 passes `validate_endpoint` for type 600 and fails it for 500. */
  lemma FallbackType600Validates(endpointId: string, adapterId: string, displayName: string)
    ensures ValidateEndpoint(FallbackType600(endpointId, adapterId, displayName), ConnectionType)
    ensures !ValidateEndpoint(FallbackType600(endpointId, adapterId, displayName), EndpointType)
  {
    var r := FallbackType600(endpointId, adapterId, displayName);
    assert Has(r, "name");
  }

  /** The keys the template branch of `create_type_600` overwrites. */
  const OverwrittenKeys: set<string> := {"id", "checksum", "metadataVersion", "encryptedAtRest",
    "passwordEncAtAppLevel", "validationState", "hidden", "requiresDeploy"}

  /** The template with the fields `create_type_600` overwrites, each one in turn. */
  function OverwriteTemplate(fields: map<string, Json>, endpointId: string): (m: map<string, Json>)
    ensures m.Keys == fields.Keys + OverwrittenKeys
    ensures forall k :: k in fields && k !in OverwrittenKeys ==> m[k] == fields[k]
    ensures m["id"] == Str(endpointId) && m["requiresDeploy"] == Bool(true)
    ensures m["hidden"] == Bool(false) && m["checksum"] == Str(Checksum)
    ensures m["metadataVersion"] == Str(MetadataVersion) && m["validationState"] == Num(ValidationState)
  {
    fields["id" := Str(endpointId)]
      ["checksum" := Str(Checksum)]
      ["metadataVersion" := Str(MetadataVersion)]
      ["encryptedAtRest" := Bool(true)]
      ["passwordEncAtAppLevel" := Bool(true)]
      ["validationState" := Num(ValidationState)]
      ["hidden" := Bool(false)]
      ["requiresDeploy" := Bool(true)]
  }

  /** The fallback Type 600 for adapters without a usable template. */
  function FallbackType600(endpointId: string, adapterId: string, displayName: string): (r: Json)
    ensures Get(r, "id") == Str(endpointId) && Get(r, "requiresDeploy") == Bool(true)
    ensures Get(r, "type") == Num(ConnectionType) && Get(r, "name") == Str(displayName + " Endpoint")
    ensures Get(r, "adapterId") == Str(adapterId)
  {
    Obj(map[
      "isFileBased" := Bool(true),
      "properties" := Arr(DefaultProperties),
      "checksum" := Str(Checksum),
      "metadataVersion" := Str(MetadataVersion),
      "encryptedAtRest" := Bool(true),
      "passwordEncAtAppLevel" := Bool(true),
      "validationState" := Num(ValidationState),
      "hidden" := Bool(false)
    ]["adapterId" := Str(adapterId)]
     ["name" := Str(displayName + " Endpoint")]
     ["type" := Num(ConnectionType)]
     ["requiresDeploy" := Bool(true)]
     ["id" := Str(endpointId)])
  }

  /** The directory `create_type_600` loads templates from: the given one when truthy. */
  function TemplatesDirOrDefault(templatesDir: Option<string>): string {
    if templatesDir.Some? && templatesDir.value != "" then templatesDir.value else DefaultTemplatesDir
  }

  /** `get_template` on loaded templates: the adapter's entry, `None` for other adapters. */
  function TemplateOf(templates: map<string, Json>, adapterId: string): Json {
    if adapterId in templates then templates[adapterId] else Null
  }

  /** The exception a truthy template that is not a dict raises in `create_type_600`. */
  function TemplateError(template: Json): string {
    if template.Arr? then "TypeError: list indices must be integers" else "AttributeError: the template has no copy()"
  }

  /**
   * What `create_type_600` returns once `template` is loaded: the template
   * with its fields overwritten when it is truthy and the adapter is a
   * business adapter, the generic record otherwise. A truthy template that
   * is not a dict raises: `copy` is missing on text, numbers and booleans
   * (`AttributeError`) and a list copy refuses the key assignment (`TypeError`).
   */
  function Type600From(template: Json, endpointId: string, adapterId: string, displayName: string): (r: Result<Json>)
    ensures r.Err? <==> Truthy(template) && adapterId in BusinessAdapters && !template.Obj?
    ensures r.Ok? ==> r.value.Obj? && Get(r.value, "id") == Str(endpointId)
    ensures r.Ok? ==> Get(r.value, "requiresDeploy") == Bool(true) && Get(r.value, "checksum") == Str(Checksum)
    ensures !(Truthy(template) && adapterId in BusinessAdapters) ==>
      r == Ok(FallbackType600(endpointId, adapterId, displayName))
    ensures Truthy(template) && adapterId in BusinessAdapters && template.Obj? ==>
      r.Ok? && forall k :: k in template.fields && k !in OverwrittenKeys ==> Get(r.value, k) == template.fields[k]
  {
    if Truthy(template) && adapterId in BusinessAdapters then
      if template.Obj? then Ok(Obj(OverwriteTemplate(template.fields, endpointId)))
      else Err(TemplateError(template))
    else Ok(FallbackType600(endpointId, adapterId, displayName))
  }

  class EndpointFactory {
    const templateManager: TemplateManager

    constructor(templateManager: TemplateManager)
      ensures this.templateManager == templateManager
    {
      this.templateManager := templateManager;
    }

    /**
     * `create_type_600`: the template, copied and overwritten field by field,
     * when one exists and the adapter is a business adapter; the generic
     * record otherwise. `displayName` stands for the rules module's
     * `get_adapter_display_name`.
     */
    method CreateType600(endpointId: string, adapterId: string, templatesDir: Option<string>,
                         files: string -> Option<Json>, displayName: string -> string) returns (r: Result<Json>)
      requires templateManager.Valid()
      modifies templateManager
      ensures templateManager.Valid()
      ensures r == Type600From(TemplateOf(old(templateManager.Templates(TemplatesDirOrDefault(templatesDir), files)), adapterId),
                               endpointId, adapterId, displayName(adapterId))
      ensures TemplatesDirOrDefault(templatesDir) == DefaultTemplatesDir ==>
        (templateManager.cacheLoaded &&
         templateManager.templateCache == old(templateManager.Templates(DefaultTemplatesDir, files)))
    {
      var dir := TemplatesDirOrDefault(templatesDir);
      var template := templateManager.GetTemplate(adapterId, dir, files);
      if Truthy(template) && adapterId in BusinessAdapters {
        if !template.Obj? {
          return Err(TemplateError(template));
        }
        var endpoint := template;
        endpoint := Set(endpoint, "id", Str(endpointId));
        endpoint := Set(endpoint, "checksum", Str(Checksum));
        endpoint := Set(endpoint, "metadataVersion", Str(MetadataVersion));
        endpoint := Set(endpoint, "encryptedAtRest", Bool(true));
        endpoint := Set(endpoint, "passwordEncAtAppLevel", Bool(true));
        endpoint := Set(endpoint, "validationState", Num(ValidationState));
        endpoint := Set(endpoint, "hidden", Bool(false));
        endpoint := Set(endpoint, "requiresDeploy", Bool(true));
        r := Ok(endpoint);
      } else {
        r := Ok(FallbackType600(endpointId, adapterId, displayName(adapterId)));
      }
    }
  }
}
