/**
 * The generic Type 500 generator: two activities (source, then target) per
 * connector directory found under the project's `Data` folder, followed by
 * eight tempstorage logging activities. Every `uuid4()` draw is the
 * parameter `uuid` applied to the number of draws made before it.
 */
module Type500Generation {
  import opened Strings
  import opened JsonValues

  /** `connector_mappings`: connector directory name to connector type. */
  const ConnectorDirectories: map<string, string> := map[
    "SalesforceConnector" := "salesforce",
    "NetSuiteEndpoint" := "netsuite",
    "NetSuiteUpsert" := "netsuite",
    "FileConnector" := "file",
    "DatabaseConnector" := "database",
    "HTTPConnector" := "http",
    "FTPConnector" := "ftp"]

  /** The table of `map_connector_to_adapter`. */
  const AdapterOfConnector: map<string, string> := map[
    "salesforce" := "salesforce",
    "netsuite" := "netsuite",
    "file" := "tempstorage",
    "database" := "database",
    "http" := "http",
    "ftp" := "ftp"]

  /** `map_connector_to_adapter`: a case-insensitive lookup defaulting to `tempstorage`. */
  function MapConnectorToAdapter(connectorType: string): (r: string)
    ensures Lower(connectorType) in AdapterOfConnector ==> r == AdapterOfConnector[Lower(connectorType)]
    ensures Lower(connectorType) !in AdapterOfConnector ==> r == "tempstorage"
  {
    var key := Lower(connectorType);
    if key in AdapterOfConnector then AdapterOfConnector[key] else "tempstorage"
  }

  /** Every spelling of a type differing only in ASCII case maps to the same adapter. */
  lemma MapConnectorIgnoresCase(a: string, b: string)
    requires Lower(a) == Lower(b)
    ensures MapConnectorToAdapter(a) == MapConnectorToAdapter(b)
  {
  }

  /** One entry of the `Data` directory: its name, whether it is a directory, and the files in it. */
  datatype DirEntry = DirEntry(name: string, isDir: bool, files: seq<string>)

  /** A connector found by `extract_connectors_from_jpk`. */
  datatype Connector = Connector(connectorType: string, name: string, directory: string, fileCount: nat)

  function XmlFiles(files: seq<string>): (r: seq<string>)
    ensures forall f :: f in r <==> f in files && IsSuffix(".xml", f)
  {
    if |files| == 0 then []
    else
      var init := XmlFiles(files[..|files| - 1]);
      var last := files[|files| - 1];
      assert forall f :: f in files <==> f in files[..|files| - 1] || f == last;
      if IsSuffix(".xml", last) then init + [last] else init
  }

  /** A listed directory that holds connector configurations. */
  predicate IsConnectorDir(e: DirEntry) {
    e.isDir && e.name in ConnectorDirectories && |XmlFiles(e.files)| > 0
  }

  /** The connector of a connector directory: `SalesforceConnector` is named `Salesforce`. */
  function ConnectorOf(dataDir: string, e: DirEntry): Connector
    requires e.name in ConnectorDirectories
  {
    Connector(ConnectorDirectories[e.name], ReplaceAll(ReplaceAll(e.name, "Connector", ""), "Endpoint", ""),
              dataDir + "/" + e.name, |XmlFiles(e.files)|)
  }

  /** `extract_connectors_from_jpk` over the listing of the `Data` directory, in listing order. */
  function ExtractConnectors(dataDir: string, listing: seq<DirEntry>): (r: seq<Connector>)
    ensures |r| <= |listing|
    ensures forall c :: c in r ==> c.connectorType in ConnectorDirectories.Values && c.fileCount > 0
  {
    if |listing| == 0 then []
    else
      var init := ExtractConnectors(dataDir, listing[..|listing| - 1]);
      var e := listing[|listing| - 1];
      if IsConnectorDir(e) then init + [ConnectorOf(dataDir, e)] else init
  }

  /** A known connector directory with an `.xml` file yields its connector. */
  lemma {:induction false} ExtractConnectorsMembers(dataDir: string, listing: seq<DirEntry>, e: DirEntry)
    requires e in listing && e.name in ConnectorDirectories
    ensures ConnectorOf(dataDir, e) in ExtractConnectors(dataDir, listing) <== IsConnectorDir(e)
  {
    var init := listing[..|listing| - 1];
    if e != listing[|listing| - 1] {
      assert e in init by {
        var k :| 0 <= k < |listing| && listing[k] == e;
        assert init[k] == e;
      }
      ExtractConnectorsMembers(dataDir, init, e);
    }
  }

  /** Every connector found is the connector of a listed connector directory. */
  lemma {:induction false} ExtractConnectorsSound(dataDir: string, listing: seq<DirEntry>)
    ensures forall c :: c in ExtractConnectors(dataDir, listing) ==>
      exists e :: e in listing && IsConnectorDir(e) && c == ConnectorOf(dataDir, e)
  {
    if |listing| > 0 {
      var init := listing[..|listing| - 1];
      var last := listing[|listing| - 1];
      ExtractConnectorsSound(dataDir, init);
      forall c | c in ExtractConnectors(dataDir, listing)
        ensures exists e :: e in listing && IsConnectorDir(e) && c == ConnectorOf(dataDir, e)
      {
        if c in ExtractConnectors(dataDir, init) {
          var e :| e in init && IsConnectorDir(e) && c == ConnectorOf(dataDir, e);
          assert e in listing;
        } else {
          assert IsConnectorDir(last) && c == ConnectorOf(dataDir, last);
        }
      }
    }
  }

  /** The two polarities the generator emits. */
  datatype Polarity = Source | Target
  {
    /** The polarity as the component dict spells it. */
    function Name(): string {
      match this
      case Source => "source"
      case Target => "target"
    }

    /** `polarity.title()`. */
    function Title(): string {
      match this
      case Source => "Source"
      case Target => "Target"
    }
  }

  /** `name.lower().replace(" ", "_")`. */
  function FunctionName(name: string): (r: string)
    ensures |r| == |name| && ' ' !in r
  {
    ReplaceChar(Lower(name), ' ', '_')
  }

  /** A hidden `string` property with a default value. */
  function HiddenProperty(defaultValue: Json): Json {
    Obj(map["type" := Str("string"), "multiple" := Bool(false), "name" := Str("entityId"),
            "hidden" := Bool(true), "defaultValue" := defaultValue])
  }

  /** `create_salesforce_properties`. */
  const SalesforceProperties: seq<Json> := [HiddenProperty(Str("1"))]

  /** `create_netsuite_properties`: a generic object, whatever the polarity. */
  const NetSuiteProperties: seq<Json> := [Obj(map[
    "name" := Str("list-object-page"),
    "type" := Str("pagination"),
    "children" := Arr([
      Obj(map["type" := Str("number"), "multiple" := Bool(false), "name" := Str("entityId"),
              "hidden" := Bool(true), "defaultValue" := Num(232)]),
      Obj(map["type" := Str("list-object"), "multiple" := Bool(false), "name" := Str("list-object"),
              "displayName" := Str("Select an Object"),
              "use" := Obj(map[
                "ui" := Obj(map[
                  "selectObjectLabel" := Str("Selected NetSuite Object: "),
                  "tableHeaders" := Arr([Str("Name"), Str("Type"), Str("Object Description")]),
                  "tableItems" := Arr([Str("objectName"), Str("objectType"), Str("objecDescription")])]),
                "discoveryType" := Str("provided"), "orientation" := Str("inputoutput"),
                "documentIdPath" := Str("this")]),
              "value" := Obj(map["N" := Str("Generic Object"), "T" := Str("standard"),
                                 "D" := Str("urn:generic.webservices.netsuite.com"), "selectedIndex" := Num(1)])])])])]

  /** `create_file_properties`: the locator defaults to `/tmp/<polarity>_file.txt`. */
  function FileProperties(polarity: string): (r: seq<Json>)
    ensures |r| == 2 && r[0] == HiddenProperty(Num(3))
  {
    var locator := Obj(map[
      "type" := Str("string"), "multiple" := Bool(false), "name" := Str("locator"),
      "displayName" := Str("Path (Optional)"),
      "validators" := Arr([Obj(map["name" := Str("pattern"), "args" := Arr([Str("[^~%$\"<>:?]*")])])]),
      "defaultValue" := Str("/tmp/" + polarity + "_file.txt")]);
    [HiddenProperty(Num(3)),
     Obj(map["name" := Str("page1"), "displayName" := Str("File configuration"), "type" := Str("pagination"),
             "children" := Arr([locator])])]
  }

  /** `create_generic_properties`. */
  function GenericProperties(adapterId: string, polarity: string): (r: seq<Json>)
    ensures adapterId == "salesforce" ==> r == SalesforceProperties
    ensures adapterId == "netsuite" ==> r == NetSuiteProperties
    ensures adapterId != "salesforce" && adapterId != "netsuite" ==> r == FileProperties(polarity)
  {
    if adapterId == "salesforce" then SalesforceProperties
    else if adapterId == "netsuite" then NetSuiteProperties
    else FileProperties(polarity)
  }

  /** The three property shapes are distinct, so the dispatch can be read back from the properties. */
  lemma GenericPropertiesDistinct(polarity: string)
    ensures GenericProperties("salesforce", polarity) != GenericProperties("netsuite", polarity)
    ensures GenericProperties("salesforce", polarity) != GenericProperties("tempstorage", polarity)
    ensures GenericProperties("netsuite", polarity) != GenericProperties("tempstorage", polarity)
  {
    assert |SalesforceProperties| == 1 && |FileProperties(polarity)| == 2;
    assert NetSuiteProperties[0] != SalesforceProperties[0] by {
      assert Get(NetSuiteProperties[0], "name") != Get(SalesforceProperties[0], "name");
    }
  }

  /** The fields of a generic Type 500 that do not depend on the arguments. */
  const FixedFields: map<string, Json> := map[
    "kind" := Str("outbound"),
    "checksum" := Str("1"),
    "chunks" := Num(1),
    "encryptedAtRest" := Bool(true),
    "hidden" := Bool(false),
    "isConfigurationComplete" := Bool(true),
    "isSchemaDiscovered" := Bool(false),
    "metadataVersion" := Str("3.0.1"),
    "pageStatus" := Obj(map[]),
    "partial" := Bool(false),
    "passwordEncAtAppLevel" := Bool(false),
    "plugins" := Arr([]),
    "requiresDeploy" := Bool(true),
    "validationState" := Num(100)]

  /** The fields of a generic Type 500 that its adapter and polarity decide, written over `base`. */
  function AdapterFields(base: map<string, Json>, name: string, adapterId: string, polarity: string,
                         endpointId: string): (m: map<string, Json>)
    ensures "discoveryType" in m
      && m["discoveryType"] == Str(if adapterId == "tempstorage" then "FileBasedDiscovery" else "ConnectorBasedDiscovery")
    ensures "inputRequired" in m && m["inputRequired"] == Bool(polarity == "target")
    ensures "functionName" in m && m["functionName"] == Str(FunctionName(name))
    ensures "properties" in m && m["properties"] == Arr(GenericProperties(adapterId, polarity))
    ensures "endpoint" in m && m["endpoint"] == Obj(map["id" := Str(endpointId), "type" := Num(600)])
    ensures "kind" in base ==> "kind" in m && m["kind"] == base["kind"]
  {
    base
      ["discoveryType" := Str(if adapterId == "tempstorage" then "FileBasedDiscovery" else "ConnectorBasedDiscovery")]
      ["inputRequired" := Bool(polarity == "target")]
      ["functionName" := Str(FunctionName(name))]
      ["properties" := Arr(GenericProperties(adapterId, polarity))]
      ["endpoint" := Obj(map["id" := Str(endpointId), "type" := Num(600)])]
  }

  /** The identifying fields of a generic Type 500, written over `base`; every other key keeps its value. */
  function IdentityFields(base: map<string, Json>, name: string, componentId: string, adapterId: string,
                          polarity: string): (m: map<string, Json>)
    ensures "adapterId" in m && m["adapterId"] == Str(adapterId)
    ensures "polarity" in m && m["polarity"] == Str(polarity)
    ensures "name" in m && m["name"] == Str(name)
    ensures "type" in m && m["type"] == Num(500)
    ensures "id" in m && m["id"] == Str(componentId)
    ensures forall k :: k in base && k !in {"adapterId", "polarity", "name", "type", "id"} ==> k in m && m[k] == base[k]
  {
    base["adapterId" := Str(adapterId)]["polarity" := Str(polarity)]["name" := Str(name)]
      ["type" := Num(500)]["id" := Str(componentId)]
  }

  /** `create_generic_type500_component`; `endpointId` is the `uuid4()` drawn for its endpoint reference. */
  function CreateGenericType500(name: string, componentId: string, adapterId: string, polarity: string,
                                endpointId: string): (r: Json)
    ensures r.Obj?
    ensures Get(r, "discoveryType") == Str("FileBasedDiscovery") <==> adapterId == "tempstorage"
    ensures Get(r, "inputRequired") == Bool(polarity == "target")
    ensures Get(r, "kind") == Str("outbound")
    ensures Get(r, "functionName") == Str(FunctionName(name))
    ensures Get(r, "type") == Num(500) && Get(r, "id") == Str(componentId) && Get(r, "name") == Str(name)
    ensures Get(r, "polarity") == Str(polarity) && Get(r, "adapterId") == Str(adapterId)
    ensures Get(r, "properties") == Arr(GenericProperties(adapterId, polarity))
    ensures Get(r, "endpoint") == Obj(map["id" := Str(endpointId), "type" := Num(600)])
  {
    assert "kind" in FixedFields && FixedFields["kind"] == Str("outbound");
    var m := AdapterFields(FixedFields, name, adapterId, polarity, endpointId);
    Obj(IdentityFields(m, name, componentId, adapterId, polarity))
  }

  /**
   * A generated activity before rendering: what distinguishes one generic
   * Type 500 from another.
   */
  datatype GenericActivity = GenericActivity(name: string, componentId: string, adapterId: string,
                                             polarity: Polarity, endpointId: string)
  {
    /** The component dict `create_generic_type500_component` builds for these arguments. */
    function ToJson(): Json {
      CreateGenericType500(name, componentId, adapterId, polarity.Name(), endpointId)
    }
  }

  /**
   * The activity for one polarity of a connector or logging type, drawn as
   * the `k`-th generated component: its id is draw `2k` and its endpoint id
   * draw `2k + 1`.
   */
  function Activity(polarity: Polarity, caption: string, adapterId: string, uuid: nat -> string, k: nat): GenericActivity {
    GenericActivity(polarity.Title() + " " + caption, uuid(2 * k), adapterId, polarity, uuid(2 * k + 1))
  }

  /** The polarities the per-connector loop runs through, in order. */
  const Polarities: seq<Polarity> := [Source, Target]

  /** The two activities of the `n`-th connector, whose adapter is `adapterId`. */
  function ConnectorPair(c: Connector, adapterId: string, uuid: nat -> string, n: nat): (r: seq<GenericActivity>)
    ensures |r| == 2
  {
    [Activity(Source, c.name, adapterId, uuid, 2 * n), Activity(Target, c.name, adapterId, uuid, 2 * n + 1)]
  }

  /** The adapter `map_connector_to_adapter` picks for each connector. */
  function AdapterIds(connectors: seq<Connector>): (r: seq<string>)
    ensures |r| == |connectors|
    ensures forall i :: 0 <= i < |connectors| ==> r[i] == MapConnectorToAdapter(connectors[i].connectorType)
  {
    seq(|connectors|, i requires 0 <= i < |connectors| => MapConnectorToAdapter(connectors[i].connectorType))
  }

  /** The activities the per-connector loop emits: source then target for each connector. */
  function ConnectorActivities(connectors: seq<Connector>, adapters: seq<string>, uuid: nat -> string): (r: seq<GenericActivity>)
    requires |adapters| == |connectors|
    ensures |r| == 2 * |connectors|
  {
    if |connectors| == 0 then []
    else
      var n := |connectors| - 1;
      ConnectorActivities(connectors[..n], adapters[..n], uuid) + ConnectorPair(connectors[n], adapters[n], uuid, n)
  }

  /** The pair of connector `n`: `Source <name>` then `Target <name>`, both of the same adapter. */
  lemma ConnectorPairShape(c: Connector, adapterId: string, uuid: nat -> string, n: nat)
    ensures var pair := ConnectorPair(c, adapterId, uuid, n);
      pair[0].name == "Source " + c.name && pair[1].name == "Target " + c.name
      && pair[0].polarity == Source && pair[1].polarity == Target
      && pair[0].adapterId == pair[1].adapterId == adapterId
      && pair[0].componentId == uuid(4 * n) && pair[1].componentId == uuid(4 * n + 2)
  {
    var pair := ConnectorPair(c, adapterId, uuid, n);
    assert pair[0].name == "Source" + " " + c.name;
    assert pair[1].name == "Target" + " " + c.name;
  }

  /** Connector `i` yields positions `2i` and `2i + 1`: the loop emits the pairs in connector order. */
  lemma {:induction false} ConnectorActivitiesAt(connectors: seq<Connector>, adapters: seq<string>, uuid: nat -> string, i: nat)
    requires |adapters| == |connectors| && i < |connectors|
    ensures ConnectorActivities(connectors, adapters, uuid)[2 * i] == ConnectorPair(connectors[i], adapters[i], uuid, i)[0]
    ensures ConnectorActivities(connectors, adapters, uuid)[2 * i + 1] == ConnectorPair(connectors[i], adapters[i], uuid, i)[1]
  {
    var n := |connectors| - 1;
    var init := ConnectorActivities(connectors[..n], adapters[..n], uuid);
    var pair := ConnectorPair(connectors[n], adapters[n], uuid, n);
    assert ConnectorActivities(connectors, adapters, uuid) == init + pair;
    if i < n {
      ConnectorActivitiesAt(connectors[..n], adapters[..n], uuid, i);
      assert connectors[..n][i] == connectors[i] && adapters[..n][i] == adapters[i];
      assert (init + pair)[2 * i] == init[2 * i] && (init + pair)[2 * i + 1] == init[2 * i + 1];
    } else {
      assert (init + pair)[2 * i] == pair[0] && (init + pair)[2 * i + 1] == pair[1];
    }
  }

  /** The logging activities, as (caption, polarity) pairs in emission order. */
  const LogTypes: seq<(string, Polarity)> := [
    ("Success Count", Source), ("Success Count", Target),
    ("Failure Count", Source), ("Failure Count", Target),
    ("Data Error", Source), ("Data Error", Target),
    ("Summary Log", Source), ("Summary Log", Target)]

  /** `generate_generic_logging_components`, its first activity being the `start`-th drawn. */
  function LoggingActivities(uuid: nat -> string, start: nat): (r: seq<GenericActivity>)
    ensures |r| == |LogTypes|
  {
    seq(|LogTypes|, j requires 0 <= j < |LogTypes| =>
      Activity(LogTypes[j].1, LogTypes[j].0, "tempstorage", uuid, start + j))
  }

  /** Exactly eight tempstorage logging activities, alternating source and target. */
  lemma LoggingActivitiesShape(uuid: nat -> string, start: nat)
    ensures |LoggingActivities(uuid, start)| == 8
    ensures forall j :: 0 <= j < 8 ==>
      LoggingActivities(uuid, start)[j].adapterId == "tempstorage"
      && LoggingActivities(uuid, start)[j].polarity == (if j % 2 == 0 then Source else Target)
  {
  }

  /** Every rendered activity is a Type 500 of kind `outbound` whose id, name, adapter and polarity are the record's. */
  lemma RenderedActivity(a: GenericActivity)
    ensures var j := a.ToJson();
      Get(j, "type") == Num(500) && Get(j, "kind") == Str("outbound")
      && Get(j, "id") == Str(a.componentId) && Get(j, "name") == Str(a.name)
      && Get(j, "adapterId") == Str(a.adapterId) && Get(j, "polarity") == Str(a.polarity.Name())
      && (Get(j, "discoveryType") == Str("FileBasedDiscovery") <==> a.adapterId == "tempstorage")
      && Get(j, "inputRequired") == Bool(a.polarity == Target)
  {
  }

  /** The activities `generate_type500_from_jpk` returns once the project file is found. */
  function Type500Activities(connectors: seq<Connector>, uuid: nat -> string): seq<GenericActivity> {
    ConnectorActivities(connectors, AdapterIds(connectors), uuid) + LoggingActivities(uuid, 2 * |connectors|)
  }

  /** The component dicts, in order. */
  function Render(activities: seq<GenericActivity>): (r: seq<Json>)
    ensures |r| == |activities| && forall k :: 0 <= k < |r| ==> r[k] == activities[k].ToJson()
  {
    seq(|activities|, k requires 0 <= k < |activities| => activities[k].ToJson())
  }

  /** The inner loop of `generate_type500_from_jpk`: one activity per polarity of the `i`-th connector. */
  method ConnectorStep(connector: Connector, adapterId: string, i: nat, uuid: nat -> string) returns (pair: seq<GenericActivity>)
    ensures pair == ConnectorPair(connector, adapterId, uuid, i)
  {
    var draws := 4 * i;
    pair := [];
    for p := 0 to 2
      invariant pair == ConnectorPair(connector, adapterId, uuid, i)[..p]
      invariant draws == 4 * i + 2 * p
    {
      var componentId := uuid(draws);
      var endpointId := uuid(draws + 1);
      pair := pair + [GenericActivity(Polarities[p].Title() + " " + connector.name, componentId,
                                      adapterId, Polarities[p], endpointId)];
      draws := draws + 2;
      assert Polarities[p] == if p == 0 then Source else Target;
    }
  }

  /**
   * The loop of `generate_type500_from_jpk`, over the activity records.
   * `hasProjectFile` is whether the archive holds a `project.xml`; without
   * one the result is empty.
   */
  method GenerateType500(hasProjectFile: bool, connectors: seq<Connector>, uuid: nat -> string)
    returns (activities: seq<GenericActivity>)
    ensures !hasProjectFile ==> activities == []
    ensures hasProjectFile ==> activities == Type500Activities(connectors, uuid)
    ensures hasProjectFile ==> |activities| == 2 * |connectors| + 8
  {
    if !hasProjectFile {
      return [];
    }
    activities := [];
    ghost var adapters := AdapterIds(connectors);
    for i := 0 to |connectors|
      invariant activities == ConnectorActivities(connectors[..i], adapters[..i], uuid)
    {
      var adapterId := MapConnectorToAdapter(connectors[i].connectorType);
      var pair := ConnectorStep(connectors[i], adapterId, i, uuid);
      activities := activities + pair;
      assert connectors[..i + 1][..i] == connectors[..i] && adapters[..i + 1][..i] == adapters[..i];
    }
    assert adapters[..|connectors|] == adapters;
    assert connectors[..|connectors|] == connectors;
    activities := activities + LoggingActivities(uuid, 2 * |connectors|);
  }
}
