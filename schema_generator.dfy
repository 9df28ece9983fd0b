/**
 * The rules of the schema generator that decide which XSD files become
 * assets and how schema components are described: the inclusion rule, the
 * asset property list, the connector classification of a schema file name
 * (including the NetSuite file-name pattern), the type-id to direction
 * table, the JTR field to JSON notation conversion, the schema component
 * validation, the schema id lookup in transformations and the GUID cache.
 */
module SchemaGeneration {
  import opened Wrappers
  import opened Strings
  import opened JsonValues

  // ---------------------------------------------------------------------
  // XSD inclusion
  // ---------------------------------------------------------------------

  /** The file-name words that mark an external connector schema. */
  const ExternalIndicators: seq<string> := ["connector", "api", "service", "webservice"]

  /** The namespace domains that mark a non-Jitterbit schema. */
  const ExternalDomains: seq<string> := [".com", ".net", ".org"]

  /** Python's `any(w in s for w in words)`. */
  predicate ContainsAny(s: string, words: seq<string>) {
    exists i :: 0 <= i < |words| && Contains(s, words[i])
  }

  /** `_should_include_xsd_as_asset`: the four inclusion rules, tried in order on the lower-cased texts. */
  function ShouldIncludeXsdAsAsset(filename: string, namespace: string): bool {
    var filenameLower := Lower(filename);
    var namespaceLower := Lower(namespace);
    if IsPrefix("jb-canonical", filenameLower) then true
    else if Contains(namespaceLower, "jitterbit.com") && Contains(namespaceLower, "canonical") then true
    else if ContainsAny(namespaceLower, ExternalDomains) && !Contains(namespaceLower, "jitterbit") then true
    else if ContainsAny(filenameLower, ExternalIndicators) then true
    else false
  }

  /** A canonical schema file is always an asset, whatever its namespace. */
  lemma CanonicalFileIncluded(filename: string, namespace: string)
    requires IsPrefix("jb-canonical", Lower(filename))
    ensures ShouldIncludeXsdAsAsset(filename, namespace)
  {
  }

  /** A schema under a foreign `.com`, `.net` or `.org` namespace is an asset, whatever its file name. */
  lemma ForeignNamespaceIncluded(filename: string, namespace: string, domain: nat)
    requires domain < |ExternalDomains| && Contains(Lower(namespace), ExternalDomains[domain])
    requires !Contains(Lower(namespace), "jitterbit")
    ensures ShouldIncludeXsdAsAsset(filename, namespace)
  {
  }

  /**
   * An internal Jitterbit schema (a `jitterbit` namespace that is not
   * canonical) is left out unless its file name is canonical or names an
   * external connector.
   */
  lemma InternalSchemaExcluded(filename: string, namespace: string)
    requires Contains(Lower(namespace), "jitterbit") && !Contains(Lower(namespace), "canonical")
    requires !IsPrefix("jb-canonical", Lower(filename))
    requires forall i :: 0 <= i < |ExternalIndicators| ==> !Contains(Lower(filename), ExternalIndicators[i])
    ensures !ShouldIncludeXsdAsAsset(filename, namespace)
  {
  }

  lemma LowerTwice(s: string)
    ensures Lower(Lower(s)) == Lower(s)
  {
    assert forall i :: 0 <= i < |s| ==> LowerChar(LowerChar(s[i])) == LowerChar(s[i]);
  }

  /** The rule ignores letter case in both the file name and the namespace. */
  lemma InclusionIgnoresCase(filename: string, namespace: string)
    ensures ShouldIncludeXsdAsAsset(Lower(filename), Lower(namespace)) == ShouldIncludeXsdAsAsset(filename, namespace)
  {
    LowerTwice(filename);
    LowerTwice(namespace);
  }

  // ---------------------------------------------------------------------
  // XSD asset properties
  // ---------------------------------------------------------------------

  datatype Property = Property(key: string, value: string)

  /** The connectors recognised in a namespace, in the order they are tried. */
  const Connectors: seq<string> := ["netsuite", "salesforce", "sap", "oracle", "workday", "dynamics", "servicenow"]

  /** The first of `names` that occurs in `s`. */
  function FirstContained(s: string, names: seq<string>): (r: Option<nat>)
    ensures r.Some? ==> r.value < |names| && Contains(s, names[r.value])
    ensures r.Some? ==> forall j :: 0 <= j < r.value ==> !Contains(s, names[j])
    ensures r.None? ==> forall j :: 0 <= j < |names| ==> !Contains(s, names[j])
  {
    if |names| == 0 then None
    else if Contains(s, names[0]) then Some(0)
    else
      match FirstContained(s, names[1..])
      case None => None
      case Some(k) => Some(k + 1)
  }

  /** The `SchemaType` of a namespace: its first connector, or `external`. */
  function SchemaTypeOf(namespace: string): string {
    match FirstContained(Lower(namespace), Connectors)
    case None => "external"
    case Some(k) => Connectors[k]
  }

  /**
   * The schema type is `external` exactly when no connector occurs in the
   * lower-cased namespace; otherwise it is the first connector, in list
   * order, that occurs there.
   */
  lemma SchemaTypeFirstConnector(namespace: string)
    ensures SchemaTypeOf(namespace) == "external" <==>
      forall j :: 0 <= j < |Connectors| ==> !Contains(Lower(namespace), Connectors[j])
    ensures SchemaTypeOf(namespace) != "external" ==>
      exists k :: 0 <= k < |Connectors| && SchemaTypeOf(namespace) == Connectors[k] &&
        Contains(Lower(namespace), Connectors[k]) &&
        forall j :: 0 <= j < k ==> !Contains(Lower(namespace), Connectors[j])
  {
    var r := FirstContained(Lower(namespace), Connectors);
    if r.Some? {
      assert Connectors[r.value] != "external";
    }
  }

  /**
   * `_generate_xsd_properties`: always four entries, `IsTopLevel` `"0"`,
   * the namespace, the file size in decimal and the schema type found by
   * trying the connectors in order.
   */
  method GenerateXsdProperties(namespace: string, fileSize: nat) returns (properties: seq<Property>)
    ensures |properties| == 4
    ensures properties[0] == Property("IsTopLevel", "0")
    ensures properties[1] == Property("TargetNamespace", namespace)
    ensures properties[2] == Property("FileSize", NatToString(fileSize))
    ensures properties[3] == Property("SchemaType", SchemaTypeOf(namespace))
  {
    var namespaceLower := Lower(namespace);
    var schemaType := "external";
    var i := 0;
    var found := false;
    while i < |Connectors| && !found
      invariant 0 <= i <= |Connectors|
      invariant forall j :: 0 <= j < i && (!found || j < i - 1) ==> !Contains(namespaceLower, Connectors[j])
      invariant found ==> 0 < i && Contains(namespaceLower, Connectors[i - 1]) && schemaType == Connectors[i - 1]
      invariant !found ==> schemaType == "external"
    {
      if Contains(namespaceLower, Connectors[i]) {
        schemaType := Connectors[i];
        found := true;
      }
      i := i + 1;
    }
    if found {
      FirstContainedIs(namespaceLower, Connectors, i - 1);
    }
    properties := [Property("IsTopLevel", "0"), Property("TargetNamespace", namespace),
                   Property("FileSize", NatToString(fileSize)), Property("SchemaType", schemaType)];
  }

  /** The first name found is the one before which none occurs. */
  lemma FirstContainedIs(s: string, names: seq<string>, k: nat)
    requires k < |names| && Contains(s, names[k])
    requires forall j :: 0 <= j < k ==> !Contains(s, names[j])
    ensures FirstContained(s, names) == Some(k)
  {
  }

  // ---------------------------------------------------------------------
  // Connector schemas
  // ---------------------------------------------------------------------

  /** What `_is_connector_schema` returns: the flag, adapter, function, direction and operation id. */
  datatype ConnectorInfo = ConnectorInfo(isConnector: bool, adapterId: Option<string>, functionName: Option<string>,
                                         direction: Option<string>, operationId: Option<string>)

  /** The groups of the NetSuite file-name pattern. */
  datatype NetSuiteParts = NetSuiteParts(operationId: string, functionName: string, objectName: string, suffix: string)

  const NetSuitePrefix := "jitterbit.netsuite."

  /** The class `[a-f0-9-]` of the operation id. */
  predicate IsOperationIdChar(c: char) { 'a' <= c <= 'f' || '0' <= c <= '9' || c == '-' }

  /** The class `[\w\.]` of the suffix. */
  predicate IsSuffixChar(c: char) { IsWordChar(c) || c == '.' }

  predicate AllOperationIdChars(s: string) { forall i :: 0 <= i < |s| ==> IsOperationIdChar(s[i]) }
  predicate AllWordChars(s: string) { forall i :: 0 <= i < |s| ==> IsWordChar(s[i]) }
  predicate AllSuffixChars(s: string) { forall i :: 0 <= i < |s| ==> IsSuffixChar(s[i]) }

  /**
   * Where `(\w+)_(\w+)` splits a run of word characters: the last `_` that
   * leaves a non-empty word on each side, looked for below `k`.
   */
  function UnderscoreSplit(seg: string, k: nat): (r: Option<nat>)
    requires k <= |seg|
    ensures r.Some? ==> 1 <= r.value < k && seg[r.value] == '_'
    ensures r.Some? ==> forall u :: r.value < u < k ==> seg[u] != '_'
    ensures r.None? ==> forall u :: 1 <= u < k ==> seg[u] != '_'
  {
    if k <= 1 then None
    else if seg[k - 1] == '_' then Some(k - 1)
    else UnderscoreSplit(seg, k - 1)
  }

  /** The end of the longest run of `[\w\.]` characters starting at `i`. */
  function SuffixRun(s: string, i: nat): (r: nat)
    requires i <= |s|
    ensures i <= r <= |s| && AllSuffixChars(s[i..r])
    ensures r < |s| ==> !IsSuffixChar(s[r])
    decreases |s| - i
  {
    if i == |s| || !IsSuffixChar(s[i]) then i
    else
      var r := SuffixRun(s, i + 1);
      assert s[i..r] == [s[i]] + s[i + 1..r];
      r
  }

  /** Where the greedy `([\w\.]+)\.xsd` stops: the last `.xsd` starting in `1..k`. */
  function XsdAtOrBefore(s: string, k: nat): (r: Option<nat>)
    ensures r.Some? ==> 1 <= r.value <= k && OccursAt(".xsd", s, r.value)
    ensures r.Some? ==> forall j :: r.value < j <= k ==> !OccursAt(".xsd", s, j)
    ensures r.None? ==> forall j :: 1 <= j <= k ==> !OccursAt(".xsd", s, j)
  {
    if k == 0 then None
    else if OccursAt(".xsd", s, k) then Some(k)
    else XsdAtOrBefore(s, k - 1)
  }

  /** `([a-f0-9-]+)\.`: where the operation id ends, at the first dot. */
  function OperationIdEnd(rest: string): (r: Option<nat>)
    ensures r.Some? ==> 0 < r.value < |rest| && rest[r.value] == '.' && AllOperationIdChars(rest[..r.value])
  {
    match Find(rest, ".")
    case None => None
    case Some(i) => if i == 0 || !AllOperationIdChars(rest[..i]) then None else Some(i)
  }

  /** `(\w+)_(\w+)\.`: the dot ending the words and the underscore the greedy first word stops at. */
  function WordsSplit(after: string): (r: Option<(nat, nat)>)
    ensures r.Some? ==> var (j, u) := r.value;
      1 <= u && u + 1 < j < |after| && after[j] == '.' && after[u] == '_' &&
      AllWordChars(after[..u]) && AllWordChars(after[u + 1..j])
  {
    match Find(after, ".")
    case None => None
    case Some(j) =>
      var seg := after[..j];
      if |seg| < 3 || !AllWordChars(seg) then None
      else
        match UnderscoreSplit(seg, |seg| - 1)
        case None => None
        case Some(u) =>
          assert after[..u] == seg[..u] && after[u + 1..j] == seg[u + 1..];
          Some((j, u))
  }

  /** `([\w\.]+)\.xsd`: where the greedy suffix stops. */
  function SuffixEnd(tail: string): (r: Option<nat>)
    ensures r.Some? ==> 1 <= r.value && OccursAt(".xsd", tail, r.value) && AllSuffixChars(tail[..r.value])
  {
    var run := SuffixRun(tail, 0);
    match XsdAtOrBefore(tail, run)
    case None => None
    case Some(k) =>
      assert tail[..k] == tail[0..run][..k];
      Some(k)
  }

  /**
   * `re.match(r'jitterbit\.netsuite\.([a-f0-9-]+)\.(\w+)_(\w+)\.([\w\.]+)\.xsd', name)`:
   * anchored at the start only, with the greedy choices of the regular
   * expression engine.
   */
  function MatchNetSuite(name: string): (r: Option<NetSuiteParts>) {
    if !IsPrefix(NetSuitePrefix, name) then None
    else MatchOperationId(name[|NetSuitePrefix|..])
  }

  /** The pattern after `jitterbit\.netsuite\.`: the operation id and its dot first. */
  function MatchOperationId(rest: string): (r: Option<NetSuiteParts>) {
    match OperationIdEnd(rest)
    case None => None
    case Some(i) => MatchWords(rest[..i], rest[i + 1..])
  }

  /** Then `(\w+)_(\w+)\.`: the function and object names. */
  function MatchWords(operationId: string, after: string): (r: Option<NetSuiteParts>) {
    match WordsSplit(after)
    case None => None
    case Some((j, u)) => MatchSuffix(operationId, after[..u], after[u + 1..j], after[j + 1..])
  }

  /** Then `([\w\.]+)\.xsd`: the suffix. */
  function MatchSuffix(operationId: string, functionName: string, objectName: string, tail: string): (r: Option<NetSuiteParts>) {
    match SuffixEnd(tail)
    case None => None
    case Some(k) => Some(NetSuiteParts(operationId, functionName, objectName, tail[..k]))
  }

  /** Each group of `p` is non-empty and made of the characters of its class. */
  predicate GroupsInClass(p: NetSuiteParts) {
    |p.operationId| > 0 && AllOperationIdChars(p.operationId) &&
    |p.functionName| > 0 && AllWordChars(p.functionName) &&
    |p.objectName| > 0 && AllWordChars(p.objectName) &&
    |p.suffix| > 0 && AllSuffixChars(p.suffix)
  }

  /** The length of the part of a file name the pattern matches, given its groups. */
  function NetSuiteLength(p: NetSuiteParts): nat {
    |NetSuitePrefix| + |p.operationId| + 1 + |p.functionName| + 1 + |p.objectName| + 1 + |p.suffix| + 4
  }

  /** What a match gives is a real match of the pattern: groups in their classes... */
  lemma NetSuiteMatchClasses(name: string)
    ensures MatchNetSuite(name).Some? ==> GroupsInClass(MatchNetSuite(name).value)
  {
  }

  lemma RestLayout(rest: string, i: nat)
    requires OperationIdEnd(rest) == Some(i)
    ensures rest == rest[..i] + ("." + rest[i + 1..])
  {
    assert rest == rest[..i] + rest[i..];
    assert rest[i..] == "." + rest[i + 1..];
  }

  lemma AfterLayout(after: string, j: nat, u: nat)
    requires WordsSplit(after) == Some((j, u))
    ensures after == after[..u] + ("_" + (after[u + 1..j] + ("." + after[j + 1..])))
  {
    assert after[u..] == "_" + after[u + 1..];
    assert after[u + 1..] == after[u + 1..j] + after[j..];
    assert after[j..] == "." + after[j + 1..];
    assert after == after[..u] + after[u..];
  }

  lemma TailLayout(tail: string, k: nat)
    requires SuffixEnd(tail) == Some(k)
    ensures tail == tail[..k] + (".xsd" + tail[k + 4..])
  {
    assert tail[k..] == tail[k..k + 4] + tail[k + 4..];
    assert tail == tail[..k] + tail[k..];
  }

  /** The stages a successful match went through. */
  lemma MatchNetSuiteStagesOf(name: string) returns (rest: string, i: nat, after: string, j: nat, u: nat, tail: string, k: nat)
    requires MatchNetSuite(name).Some?
    ensures IsPrefix(NetSuitePrefix, name) && rest == name[|NetSuitePrefix|..]
    ensures OperationIdEnd(rest) == Some(i) && after == rest[i + 1..]
    ensures WordsSplit(after) == Some((j, u)) && tail == after[j + 1..]
    ensures SuffixEnd(tail) == Some(k)
  {
    rest := name[|NetSuitePrefix|..];
    assert MatchOperationId(rest).Some?;
    i := OperationIdEnd(rest).value;
    after := rest[i + 1..];
    assert MatchWords(rest[..i], after).Some?;
    j, u := WordsSplit(after).value.0, WordsSplit(after).value.1;
    tail := after[j + 1..];
    assert MatchSuffix(rest[..i], after[..u], after[u + 1..j], tail).Some?;
    k := SuffixEnd(tail).value;
  }

  /** The groups a match gives, once each stage of the pattern has matched. */
  lemma MatchNetSuiteIs(name: string, rest: string, i: nat, after: string, j: nat, u: nat, tail: string, k: nat)
    requires IsPrefix(NetSuitePrefix, name) && rest == name[|NetSuitePrefix|..]
    requires OperationIdEnd(rest) == Some(i) && after == rest[i + 1..]
    requires WordsSplit(after) == Some((j, u)) && tail == after[j + 1..]
    requires SuffixEnd(tail) == Some(k)
    ensures MatchNetSuite(name) == Some(NetSuiteParts(rest[..i], after[..u], after[u + 1..j], tail[..k]))
  {
    var p := NetSuiteParts(rest[..i], after[..u], after[u + 1..j], tail[..k]);
    MatchSuffixIs(rest[..i], after[..u], after[u + 1..j], tail, k);
    MatchWordsIs(rest[..i], after, j, u, p);
    MatchOperationIdIs(rest, i, p);
  }

  lemma MatchSuffixIs(operationId: string, functionName: string, objectName: string, tail: string, k: nat)
    requires SuffixEnd(tail) == Some(k)
    ensures k <= |tail|
    ensures MatchSuffix(operationId, functionName, objectName, tail) == Some(NetSuiteParts(operationId, functionName, objectName, tail[..k]))
  {
  }

  lemma MatchWordsIs(operationId: string, after: string, j: nat, u: nat, p: NetSuiteParts)
    requires WordsSplit(after) == Some((j, u))
    requires MatchSuffix(operationId, after[..u], after[u + 1..j], after[j + 1..]) == Some(p)
    ensures MatchWords(operationId, after) == Some(p)
  {
  }

  lemma MatchOperationIdIs(rest: string, i: nat, p: NetSuiteParts)
    requires OperationIdEnd(rest) == Some(i)
    requires MatchWords(rest[..i], rest[i + 1..]) == Some(p)
    ensures MatchOperationId(rest) == Some(p)
  {
  }

  /** Substituting the three layouts into one another gives the whole name. */
  lemma ComposeNetSuiteName(name: string, rest: string, after: string, tail: string, p: NetSuiteParts, more: string)
    requires name == NetSuitePrefix + rest
    requires rest == p.operationId + ("." + after)
    requires after == p.functionName + ("_" + (p.objectName + ("." + tail)))
    requires tail == p.suffix + (".xsd" + more)
    ensures LaidOut(name, p)
  {
    assert name == NetSuiteName(p.operationId, p.functionName, p.objectName, p.suffix, more);
    NetSuiteNameSplit(name, p, more);
  }

  /** The pieces of a name that went through the stages, laid out. */
  lemma StagesLaidOut(name: string, rest: string, i: nat, after: string, j: nat, u: nat, tail: string, k: nat)
    requires IsPrefix(NetSuitePrefix, name) && rest == name[|NetSuitePrefix|..]
    requires OperationIdEnd(rest) == Some(i) && after == rest[i + 1..]
    requires WordsSplit(after) == Some((j, u)) && tail == after[j + 1..]
    requires SuffixEnd(tail) == Some(k)
    ensures LaidOut(name, NetSuiteParts(rest[..i], after[..u], after[u + 1..j], tail[..k]))
  {
    TailLayout(tail, k);
    AfterLayout(after, j, u);
    RestLayout(rest, i);
    assert name == NetSuitePrefix + rest;
    ComposeNetSuiteName(name, rest, after, tail, NetSuiteParts(rest[..i], after[..u], after[u + 1..j], tail[..k]), tail[k + 4..]);
  }

  /** The remainder of a laid-out name is what follows its matched part. */
  lemma NetSuiteNameRemainder(p: NetSuiteParts, more: string)
    ensures NetSuiteName(p.operationId, p.functionName, p.objectName, p.suffix, more)[NetSuiteLength(p)..] == more
  {
    var name := NetSuiteName(p.operationId, p.functionName, p.objectName, p.suffix, more);
    var L := NetSuiteLength(p);
    assert |name| == L + |more|;
    forall x | 0 <= x < |more|
      ensures name[L + x] == more[x]
    {
    }
  }

  /** `name` starts with the text the pattern matches for the groups `p`. */
  predicate LaidOut(name: string, p: NetSuiteParts) {
    NetSuiteLength(p) <= |name| &&
    name == NetSuiteName(p.operationId, p.functionName, p.objectName, p.suffix, name[NetSuiteLength(p)..])
  }

  /** A name laid out from `p` and a remainder is laid out from `p` and its own tail. */
  lemma NetSuiteNameSplit(name: string, p: NetSuiteParts, more: string)
    requires name == NetSuiteName(p.operationId, p.functionName, p.objectName, p.suffix, more)
    ensures LaidOut(name, p)
  {
    NetSuiteNameRemainder(p, more);
  }

  /** ... laid out in the name as the pattern says, followed by whatever the name goes on with. */
  lemma NetSuiteMatchSound(name: string)
    ensures MatchNetSuite(name).Some? ==> LaidOut(name, MatchNetSuite(name).value)
  {
    if MatchNetSuite(name).Some? {
      var rest, i, after, j, u, tail, k := MatchNetSuiteStagesOf(name);
      MatchNetSuiteIs(name, rest, i, after, j, u, tail, k);
      StagesLaidOut(name, rest, i, after, j, u, tail, k);
    }
  }

  /** The operation id of a well-formed name ends at its first dot. */
  lemma OperationIdEndOf(operationId: string, after: string)
    requires |operationId| > 0 && AllOperationIdChars(operationId)
    ensures OperationIdEnd(operationId + ("." + after)) == Some(|operationId|)
  {
    var rest := operationId + ("." + after);
    assert OccursAt(".", rest, |operationId|);
    forall x | 0 <= x < |operationId|
      ensures !OccursAt(".", rest, x)
    {
      assert rest[x] == operationId[x];
    }
    assert rest[..|operationId|] == operationId;
  }

  /** The words of a well-formed name are split somewhere, before the dot that ends them. */
  lemma WordsSplitOf(functionName: string, objectName: string, tail: string)
    requires |functionName| > 0 && AllWordChars(functionName)
    requires |objectName| > 0 && AllWordChars(objectName)
    ensures var r := WordsSplit(functionName + ("_" + (objectName + ("." + tail))));
      r.Some? && r.value.0 == |functionName| + 1 + |objectName|
  {
    var after := functionName + ("_" + (objectName + ("." + tail)));
    var n := |functionName| + 1 + |objectName|;
    var seg := after[..n];
    assert after[n] == '.';
    assert OccursAt(".", after, n);
    forall x | 0 <= x < n
      ensures !OccursAt(".", after, x) && IsWordChar(after[x])
    {
      if x < |functionName| {
        assert after[x] == functionName[x];
      } else if x > |functionName| {
        assert after[x] == objectName[x - |functionName| - 1];
      }
    }
    assert Find(after, ".") == Some(n);
    assert forall x :: 0 <= x < n ==> seg[x] == after[x];
    assert seg[|functionName|] == '_';
  }

  /** The suffix of a well-formed name can stop before its `.xsd`. */
  lemma SuffixEndOf(suffix: string, rest: string)
    requires |suffix| > 0 && AllSuffixChars(suffix)
    ensures SuffixEnd(suffix + (".xsd" + rest)).Some?
  {
    var tail := suffix + (".xsd" + rest);
    assert tail[|suffix|..|suffix| + 4] == ".xsd";
    assert OccursAt(".xsd", tail, |suffix|);
    forall x | 0 <= x < |suffix| + 4
      ensures IsSuffixChar(tail[x])
    {
      if x < |suffix| {
        assert tail[x] == suffix[x];
      }
    }
    assert forall x :: 0 <= x < |suffix| + 4 ==> tail[..|suffix| + 4][x] == tail[x];
    SuffixRunCovers(tail, |suffix| + 4);
  }

  /** The file name laid out by the NetSuite pattern from its groups, followed by anything. */
  function NetSuiteName(operationId: string, functionName: string, objectName: string, suffix: string, rest: string): string {
    NetSuitePrefix + (operationId + ("." + (functionName + ("_" + (objectName + ("." + (suffix + (".xsd" + rest))))))))
  }

  /** The three stages of the match succeeding make the match succeed. */
  lemma MatchNetSuiteStages(name: string, restName: string, i: nat, after: string, j: nat, tail: string)
    requires IsPrefix(NetSuitePrefix, name) && restName == name[|NetSuitePrefix|..]
    requires OperationIdEnd(restName) == Some(i) && after == restName[i + 1..]
    requires WordsSplit(after).Some? && WordsSplit(after).value.0 == j && tail == after[j + 1..]
    requires SuffixEnd(tail).Some?
    ensures MatchNetSuite(name).Some? && MatchNetSuite(name).value.operationId == restName[..i]
  {
  }

  /** A file name of the NetSuite pattern is recognised, with the operation id it carries. */
  lemma NetSuiteMatchComplete(operationId: string, functionName: string, objectName: string, suffix: string, rest: string)
    requires |operationId| > 0 && AllOperationIdChars(operationId)
    requires |functionName| > 0 && AllWordChars(functionName)
    requires |objectName| > 0 && AllWordChars(objectName)
    requires |suffix| > 0 && AllSuffixChars(suffix)
    ensures var r := MatchNetSuite(NetSuiteName(operationId, functionName, objectName, suffix, rest));
      r.Some? && r.value.operationId == operationId
  {
    var tail := suffix + (".xsd" + rest);
    var after := functionName + ("_" + (objectName + ("." + tail)));
    var restName := operationId + ("." + after);
    var name := NetSuiteName(operationId, functionName, objectName, suffix, rest);
    assert name == NetSuitePrefix + restName;
    assert name[|NetSuitePrefix|..] == restName;
    OperationIdEndOf(operationId, after);
    assert restName[..|operationId|] == operationId && restName[|operationId| + 1..] == after;
    WordsSplitOf(functionName, objectName, tail);
    var j := |functionName| + 1 + |objectName|;
    assert after[j + 1..] == tail;
    SuffixEndOf(suffix, rest);
    MatchNetSuiteStages(name, restName, |operationId|, after, j, tail);
  }

  /** The run of suffix characters reaches past any all-suffix prefix. */
  lemma SuffixRunCovers(s: string, n: nat)
    requires n <= |s| && AllSuffixChars(s[..n])
    ensures n <= SuffixRun(s, 0)
  {
    assert forall x :: 0 <= x < n ==> s[..n][x] == s[x];
  }

  /** `_is_connector_schema`: Salesforce names first, then the NetSuite pattern, on the lower-cased name. */
  function IsConnectorSchema(schemaName: string): (r: ConnectorInfo)
    ensures !r.isConnector ==> r == ConnectorInfo(false, None, None, None, None)
    ensures r.adapterId == Some("salesforce") <==>
      Contains(Lower(schemaName), "salesforce") || IsPrefix("sf_", Lower(schemaName))
    ensures r.adapterId == Some("salesforce") ==> r == ConnectorInfo(true, Some("salesforce"), Some("query"), None, None)
  {
    var nameLower := Lower(schemaName);
    if Contains(nameLower, "salesforce") || IsPrefix("sf_", nameLower) then
      ConnectorInfo(true, Some("salesforce"), Some("query"), None, None)
    else
      match MatchNetSuite(nameLower)
      case None => ConnectorInfo(false, None, None, None, None)
      case Some(p) =>
        var direction := if Contains(Lower(p.suffix), "request") then "input" else "output";
        ConnectorInfo(true, Some("netsuite"), Some(p.functionName), Some(direction), Some(p.operationId))
  }

  /**
   * A NetSuite schema name that is not a Salesforce name is a connector of
   * the `netsuite` adapter carrying the operation id of its name, whose
   * direction is `input` exactly when its suffix mentions `request`.
   */
  lemma NetSuiteConnector(operationId: string, functionName: string, objectName: string, suffix: string, rest: string)
    requires |operationId| > 0 && AllOperationIdChars(operationId)
    requires |functionName| > 0 && AllWordChars(functionName)
    requires |objectName| > 0 && AllWordChars(objectName)
    requires |suffix| > 0 && AllSuffixChars(suffix)
    ensures var name := NetSuiteName(operationId, functionName, objectName, suffix, rest);
      var info := IsConnectorSchema(name);
      !Contains(Lower(name), "salesforce") && !IsPrefix("sf_", Lower(name)) && Lower(name) == name ==>
        info.isConnector && info.adapterId == Some("netsuite") && info.operationId == Some(operationId) &&
        (info.direction == Some("input") <==> Contains(Lower(MatchNetSuite(name).value.suffix), "request")) &&
        (info.direction == Some("output") <==> !Contains(Lower(MatchNetSuite(name).value.suffix), "request"))
  {
    NetSuiteMatchComplete(operationId, functionName, objectName, suffix, rest);
  }

  // ---------------------------------------------------------------------
  // Directions
  // ---------------------------------------------------------------------

  /** `_type_id_to_direction`: 101 (NetSuite request) is input; 102, 14 and everything else is output. */
  function TypeIdToDirection(typeId: Json): (r: string)
    ensures r == "input" || r == "output"
    ensures r == "input" <==> typeId == Num(101)
  {
    if typeId == Num(101) then "input"
    else if typeId == Num(102) then "output"
    else if typeId == Num(14) then "output"
    else "output"
  }

  // ---------------------------------------------------------------------
  // JTR fields as JSON notation
  // ---------------------------------------------------------------------

  /** A field of a JTR type library: its name, its type code (`None` for Python's `None`) and its resolved children. */
  datatype JtrField = JtrField(name: string, typeCode: Option<string>, children: seq<JtrField>)

  /** The `(MN, MX)` pair of a type code, `(0, 1)` for codes outside the table. */
  function Occurrences(typeCode: Option<string>): (Json, Json) {
    if typeCode == Some("0x1") then (Num(1), Num(1))
    else if typeCode == Some("0x9") then (Num(0), Str("unbounded"))
    else if typeCode == Some("0x24") then (Num(0), Num(1))
    else if typeCode == Some("0x21") then (Num(1), Num(1))
    else (Num(0), Num(1))
  }

  /** `_jtr_field_to_json_notation`: `N`, `MN`, `MX`, and `C` only when the field has children. */
  function FieldToNotation(field: JtrField): Json
    decreases field, 1
  {
    var occurs := Occurrences(field.typeCode);
    var base := map["N" := Str(field.name), "MN" := occurs.0, "MX" := occurs.1];
    if |field.children| > 0 then Obj(base["C" := Arr(ChildNotations(field, |field.children|))])
    else Obj(base)
  }

  /** The notations of the first `n` children. */
  function ChildNotations(field: JtrField, n: nat): (r: seq<Json>)
    requires n <= |field.children|
    ensures |r| == n
    decreases field, 0, n
  {
    if n == 0 then []
    else ChildNotations(field, n - 1) + [FieldToNotation(field.children[n - 1])]
  }

  /** A well-formed notation node: a name, `MN` 0 or 1, `MX` 1 or `unbounded` and at least `MN`, and well-formed children. */
  predicate WellFormedNotation(node: Json)
    decreases node
  {
    node.Obj? && "N" in node.fields && node.fields["N"].Str? &&
    "MN" in node.fields && "MX" in node.fields &&
    (node.fields["MN"] == Num(0) || node.fields["MN"] == Num(1)) &&
    (node.fields["MX"] == Num(1) || node.fields["MX"] == Str("unbounded")) &&
    ("C" in node.fields ==>
       node.fields["C"].Arr? && |node.fields["C"].items| > 0 &&
       forall i :: 0 <= i < |node.fields["C"].items| ==> WellFormedNotation(node.fields["C"].items[i]))
  }

  /** The number of fields of a field tree. */
  function FieldCount(field: JtrField): nat
    decreases field, 1
  {
    1 + ChildrenCount(field, |field.children|)
  }

  function ChildrenCount(field: JtrField, n: nat): nat
    requires n <= |field.children|
    decreases field, 0, n
  {
    if n == 0 then 0 else ChildrenCount(field, n - 1) + FieldCount(field.children[n - 1])
  }

  /** The number of nodes of a notation tree. */
  function NodeCount(node: Json): nat
    decreases node, 1
  {
    if node.Obj? && "C" in node.fields && node.fields["C"].Arr? then 1 + NodesCount(node.fields["C"].items, |node.fields["C"].items|)
    else 1
  }

  function NodesCount(nodes: seq<Json>, n: nat): nat
    requires n <= |nodes|
    decreases nodes, n
  {
    if n == 0 then 0 else NodesCount(nodes, n - 1) + NodeCount(nodes[n - 1])
  }

  /**
   * The notation of a field tree is well formed, keeps the field's name,
   * and has one node per field and one child per child.
   */
  lemma {:induction false} NotationShape(field: JtrField)
    ensures WellFormedNotation(FieldToNotation(field))
    ensures FieldToNotation(field).fields["N"] == Str(field.name)
    ensures ("C" in FieldToNotation(field).fields) <==> |field.children| > 0
    ensures |field.children| > 0 ==> |FieldToNotation(field).fields["C"].items| == |field.children|
    ensures NodeCount(FieldToNotation(field)) == FieldCount(field)
    decreases field, 1
  {
    ChildNotationsShape(field, |field.children|);
  }

  lemma {:induction false} ChildNotationsShape(field: JtrField, n: nat)
    requires n <= |field.children|
    ensures forall i :: 0 <= i < n ==> ChildNotations(field, n)[i] == FieldToNotation(field.children[i])
    ensures forall i :: 0 <= i < n ==> WellFormedNotation(ChildNotations(field, n)[i])
    ensures NodesCount(ChildNotations(field, n), n) == ChildrenCount(field, n)
    decreases field, 0, n
  {
    if n > 0 {
      ChildNotationsShape(field, n - 1);
      NotationShape(field.children[n - 1]);
      var prev := ChildNotations(field, n - 1);
      var all := ChildNotations(field, n);
      assert all == prev + [FieldToNotation(field.children[n - 1])];
      NodesCountPrefix(all, n - 1);
      assert all[..n - 1] == prev;
    }
  }

  /** Counting the first `n` nodes only looks at those nodes. */
  lemma {:induction false} NodesCountPrefix(nodes: seq<Json>, n: nat)
    requires n <= |nodes|
    ensures NodesCount(nodes, n) == NodesCount(nodes[..n], n)
    decreases n
  {
    if n > 0 {
      NodesCountPrefix(nodes, n - 1);
      NodesCountPrefix(nodes[..n], n - 1);
      assert nodes[..n][..n - 1] == nodes[..n - 1];
    }
  }

  // ---------------------------------------------------------------------
  // Schema component validation
  // ---------------------------------------------------------------------

  /** The component type of a schema document. */
  const SchemaComponentType := 900

  /** The keys the validation requires of a component. */
  predicate HasRequiredFields(component: Json)
    requires component.Obj?
  {
    "id" in component.fields && "name" in component.fields && "type" in component.fields && "properties" in component.fields
  }

  /** Python's `key in container`: keys of a dict, items of a list, substrings of a string; a `TypeError` otherwise. */
  function PyIn(key: string, container: Json): (r: Option<bool>)
    ensures r.None? <==> container.Null? || container.Bool? || container.Num?
  {
    match container
    case Obj(fields) => Some(key in fields)
    case Arr(items) => Some(Str(key) in items)
    case Str(s) => Some(Contains(s, key))
    case _ => None
  }

  /**
   * `validate_schema_component`: a dict with the four required keys, type
   * 900, and properties holding the three required entries. Looking for
   * an entry in properties that are neither a dict, a list nor a string
   * raises the `TypeError` modelled as `Err`.
   */
  function ValidateSchemaComponent(component: Json): (r: Result<bool>)
    ensures r == Ok(true) <==>
      component.Obj? && HasRequiredFields(component) && component.fields["type"] == Num(SchemaComponentType) &&
      PyIn("SchemaPath", component.fields["properties"]) == Some(true) &&
      PyIn("SchemaType", component.fields["properties"]) == Some(true) &&
      PyIn("FileName", component.fields["properties"]) == Some(true)
    ensures r.Err? <==>
      component.Obj? && HasRequiredFields(component) && component.fields["type"] == Num(SchemaComponentType) &&
      PyIn("SchemaPath", component.fields["properties"]).None?
  {
    if !component.Obj? then Ok(false)
    else if !HasRequiredFields(component) then Ok(false)
    else if Get(component, "type") != Num(SchemaComponentType) then Ok(false)
    else
      var properties := GetOr(component, "properties", Obj(map[]));
      match PyIn("SchemaPath", properties)
      case None => Err("TypeError: argument of type is not iterable")
      case Some(hasPath) =>
        Ok(hasPath && PyIn("SchemaType", properties) == Some(true) && PyIn("FileName", properties) == Some(true))
  }

  /** Keys other than the required ones do not change the verdict on a component. */
  lemma ValidationIgnoresOtherKeys(component: Json, key: string, value: Json)
    requires component.Obj? && key != "id" && key != "name" && key != "type" && key != "properties"
    ensures ValidateSchemaComponent(Obj(component.fields[key := value])) == ValidateSchemaComponent(component)
  {
  }

  // ---------------------------------------------------------------------
  // Schema ids from transformations
  // ---------------------------------------------------------------------

  /** What looking at one side, or one transformation, gives: an id, nothing, or an exception. */
  datatype Lookup = Found(id: Json) | NotFound | Raised

  /**
   * A `source` or `target` dict: its id when its name is the file name and
   * the id is truthy. Calling `.get` on a non-dict raises, and so does
   * slicing an id that is neither a string nor a list for the log line.
   */
  function SideLookup(side: Json, schemaFilename: string): (r: Lookup)
    ensures r.Found? ==> side.Obj? && Get(side, "name") == Str(schemaFilename) && r.id == Get(side, "id") && Truthy(r.id)
  {
    if !side.Obj? then Raised
    else if Get(side, "name") != Str(schemaFilename) then NotFound
    else
      var id := Get(side, "id");
      if !Truthy(id) then NotFound
      else if id.Str? || id.Arr? then Found(id)
      else Raised
  }

  /** One transformation: its source first, then its target. */
  function TransformationLookup(transformation: Json, schemaFilename: string): Lookup {
    if !transformation.Obj? then Raised
    else
      match SideLookup(GetOr(transformation, "source", Obj(map[])), schemaFilename)
      case NotFound => SideLookup(GetOr(transformation, "target", Obj(map[])), schemaFilename)
      case other => other
  }

  /** The first transformation that gives an id; an exception ends the search with nothing. */
  function SchemaIdFrom(transformations: seq<Json>, schemaFilename: string): Option<Json> {
    if |transformations| == 0 then None
    else
      match TransformationLookup(transformations[0], schemaFilename)
      case Found(id) => Some(id)
      case Raised => None
      case NotFound => SchemaIdFrom(transformations[1..], schemaFilename)
  }

  /**
   * A schema id found is the id of the first transformation that gives one,
   * and every transformation before it neither gives an id nor raises.
   */
  lemma {:induction false} SchemaIdFirst(transformations: seq<Json>, schemaFilename: string)
    ensures SchemaIdFrom(transformations, schemaFilename).Some? ==>
      exists i :: 0 <= i < |transformations| &&
        TransformationLookup(transformations[i], schemaFilename) == Found(SchemaIdFrom(transformations, schemaFilename).value) &&
        forall j :: 0 <= j < i ==> TransformationLookup(transformations[j], schemaFilename) == NotFound
    ensures (forall i :: 0 <= i < |transformations| ==> TransformationLookup(transformations[i], schemaFilename) == NotFound) ==>
      SchemaIdFrom(transformations, schemaFilename).None?
  {
    if |transformations| > 0 {
      var tail := transformations[1..];
      SchemaIdFirst(tail, schemaFilename);
      if TransformationLookup(transformations[0], schemaFilename).NotFound? && SchemaIdFrom(tail, schemaFilename).Some? {
        var i :| 0 <= i < |tail| &&
          TransformationLookup(tail[i], schemaFilename) == Found(SchemaIdFrom(tail, schemaFilename).value) &&
          forall j :: 0 <= j < i ==> TransformationLookup(tail[j], schemaFilename) == NotFound;
        assert transformations[i + 1] == tail[i];
        assert forall j :: 1 <= j < i + 1 ==> transformations[j] == tail[j - 1];
      }
      if forall i :: 0 <= i < |transformations| ==> TransformationLookup(transformations[i], schemaFilename) == NotFound {
        assert forall i :: 0 <= i < |tail| ==> tail[i] == transformations[i + 1];
      }
    }
  }

  /** `_extract_schema_id_from_transformations`: the loop with its early returns, inside the `try`. */
  method ExtractSchemaIdFromTransformations(schemaFilename: string, transformations: seq<Json>) returns (r: Option<Json>)
    ensures r == SchemaIdFrom(transformations, schemaFilename)
  {
    var i := 0;
    while i < |transformations|
      invariant 0 <= i <= |transformations|
      invariant SchemaIdFrom(transformations[i..], schemaFilename) == SchemaIdFrom(transformations, schemaFilename)
    {
      var trans := transformations[i];
      assert transformations[i..][0] == trans && transformations[i..][1..] == transformations[i + 1..];
      if !trans.Obj? {
        return None;
      }
      var source := GetOr(trans, "source", Obj(map[]));
      var found := SideLookup(source, schemaFilename);
      if found.Found? {
        return Some(found.id);
      } else if found.Raised? {
        return None;
      }
      var target := GetOr(trans, "target", Obj(map[]));
      found := SideLookup(target, schemaFilename);
      if found.Found? {
        return Some(found.id);
      } else if found.Raised? {
        return None;
      }
      i := i + 1;
    }
    return None;
  }

  // ---------------------------------------------------------------------
  // Deterministic GUIDs
  // ---------------------------------------------------------------------

  /** The part of the schema generator that keeps the GUID cache. */
  class SchemaGenerator {
    /** `uuid5` under the fixed namespace of the converter. */
    const uuid5: string -> string
    var guidCache: map<string, string>

    /** Every cached GUID is the one its seed determines. */
    ghost predicate Valid()
      reads this
    {
      forall seed :: seed in guidCache ==> guidCache[seed] == uuid5(seed)
    }

    constructor(uuid5: string -> string)
      ensures Valid() && this.uuid5 == uuid5 && guidCache == map[]
    {
      this.uuid5 := uuid5;
      guidCache := map[];
    }

    /**
     * `_generate_guid`: a cached seed answers from the cache, any other is
     * hashed and cached, so the same seed always gives the same GUID.
     */
    method GenerateGuid(seed: string) returns (guid: string)
      requires Valid()
      modifies this
      ensures Valid()
      ensures guid == uuid5(seed)
      ensures guidCache == old(guidCache)[seed := guid]
    {
      if seed in guidCache {
        guid := guidCache[seed];
        return;
      }
      guid := uuid5(seed);
      guidCache := guidCache[seed := guid];
    }
  }

  /** Two calls with the same seed, with any calls in between, give the same GUID. */
  method SameSeedSameGuid(generator: SchemaGenerator, seed: string, other: string) returns (first: string, second: string)
    requires generator.Valid()
    modifies generator
    ensures first == second
  {
    first := generator.GenerateGuid(seed);
    var _ := generator.GenerateGuid(other);
    second := generator.GenerateGuid(seed);
  }
}
