/**
 * The JPK extractor: reading Type 400 scripts, global and project
 * variables, operations, business and tempstorage endpoints and the
 * id→name reference maps out of a JPK archive.
 *
 * An opened archive is its name list plus the parsed root of every XML
 * file in it that parses; a file that is missing or does not parse yields
 * no document, and every extractor skips such a file (the per-file
 * `try`/`except` of each loop). `uuid.uuid4()` draws are the parameter
 * `uuid`, indexed by draw number within one extractor call.
 */
module JpkParsing {
  import opened Wrappers
  import opened Strings
  import opened JsonValues
  import opened XmlTrees
  import opened XmlParsing
  import opened JpkRecords
  import opened ScriptFactory
  import opened TemplateManagement
  import EF = EndpointFactory

  /** An opened archive: `namelist()` and the parsed XML documents. */
  datatype Archive = Archive(names: seq<string>, documents: map<string, Element>)

  /** `parse_xml_from_jpk`: the document, or nothing for a file that is missing or does not parse. */
  function ParseXml(archive: Archive, file: string): Option<Element> {
    if file in archive.documents then Some(archive.documents[file]) else None
  }

  /** `header_info['id']` when it is truthy. */
  function HeaderId(root: Element): (r: Option<string>)
    ensures r.Some? ==> r.value != "" && ExtractHeaderInfo(root).id == r
    ensures r.None? ==> ExtractHeaderInfo(root).id.None? || ExtractHeaderInfo(root).id.value == ""
  {
    var id := ExtractHeaderInfo(root).id;
    if id.Some? && id.value != "" then id else None
  }

  /** `header_info['name'] or default`. */
  function HeaderNameOr(root: Element, default: string): (r: string)
    ensures default != "" ==> r != ""
  {
    var name := ExtractHeaderInfo(root).name;
    if name.Some? && name.value != "" then name.value else default
  }

  /**
   * What a per-file reader yields for a list of files, in order, leaving
   * out the files it yields nothing for: the list the extractor loops
   * append to.
   */
  function Collect<S, T>(files: seq<S>, read: S -> Option<T>): (r: seq<T>)
    ensures |r| <= |files|
  {
    if |files| == 0 then []
    else
      var init := Collect(files[..|files| - 1], read);
      match read(files[|files| - 1])
      case None => init
      case Some(x) => init + [x]
  }

  /** A collected record is exactly what the reader yields for one of the files. */
  lemma {:induction false} CollectMembers<S, T>(files: seq<S>, read: S -> Option<T>)
    ensures forall x :: x in Collect(files, read) ==> exists i :: 0 <= i < |files| && read(files[i]) == Some(x)
    ensures forall i :: 0 <= i < |files| && read(files[i]).Some? ==> read(files[i]).value in Collect(files, read)
  {
    if |files| > 0 {
      var init := files[..|files| - 1];
      CollectMembers(init, read);
      forall i | 0 <= i < |files| - 1 && read(files[i]).Some?
        ensures read(files[i]).value in Collect(files, read)
      {
        assert init[i] == files[i];
      }
      forall x | x in Collect(files, read)
        ensures exists i :: 0 <= i < |files| && read(files[i]) == Some(x)
      {
        if x in Collect(init, read) {
          var i :| 0 <= i < |init| && read(init[i]) == Some(x);
          assert files[i] == init[i];
        } else {
          assert read(files[|files| - 1]) == Some(x);
        }
      }
    }
  }

  /** The loop step that `Collect` describes. */
  lemma CollectStep<S, T>(files: seq<S>, i: nat, read: S -> Option<T>)
    requires i < |files|
    ensures read(files[i]).None? ==> Collect(files[..i + 1], read) == Collect(files[..i], read)
    ensures read(files[i]).Some? ==> Collect(files[..i + 1], read) == Collect(files[..i], read) + [read(files[i]).value]
  {
    assert files[..i + 1][..i] == files[..i];
  }

  // ---------------------------------------------------------------------
  // Scripts

  /** The first `konga.string` element whose `name` attribute is `script`. */
  function FirstScriptElement(cs: seq<Element>): (r: Option<Element>)
    ensures r.Some? ==> r.value in cs && r.value.tag == "konga.string" && Attr(r.value, "name", "") == "script"
  {
    if |cs| == 0 then None
    else if cs[0].tag == "konga.string" && Attr(cs[0], "name", "") == "script" then Some(cs[0])
    else FirstScriptElement(cs[1..])
  }

  /** The text of `root.find('.//konga.string[@name="script"]')`, or `""`. */
  function ScriptTextOf(root: Element): string {
    match FirstScriptElement(DescendantsIn(root.children))
    case None => ""
    case Some(e) => e.text
  }

  /** The dict `script_by_content_id` holds per script file. */
  datatype ScriptData = ScriptData(id: string, name: string, body: string, content: string)

  /** One script file read: nothing without a parsed document or a header id. */
  function ScriptDataOf(archive: Archive, file: string): (r: Option<ScriptData>)
    ensures r.Some? <==> ParseXml(archive, file).Some? && HeaderId(ParseXml(archive, file).value).Some?
    ensures r.Some? ==> r.value.id == HeaderId(ParseXml(archive, file).value).value && r.value.name != ""
  {
    match ParseXml(archive, file)
    case None => None
    case Some(root) =>
      match HeaderId(root)
      case None => None
      case Some(id) =>
        var content := ScriptTextOf(root);
        Some(ScriptData(id, HeaderNameOr(root, "Unknown Script"),
                        if content != "" then ExtractScriptBodyFromXml(content) else "", content))
  }

  /**
   * A dict keyed by content id as Python keeps it: a key keeps the place of
   * its first insertion and the value of its last.
   */
  datatype ScriptTable = ScriptTable(order: seq<string>, entries: map<string, ScriptData>)
  {
    /** Each key once, in insertion order, and exactly the keys of the dict. */
    ghost predicate Valid() {
      (forall i, j :: 0 <= i < j < |order| ==> order[i] != order[j]) &&
      (forall k :: k in entries <==> k in order)
    }
  }

  /** `script_by_content_id[d.id] = d`. */
  function InsertScript(t: ScriptTable, d: ScriptData): ScriptTable {
    if d.id in t.entries then ScriptTable(t.order, t.entries[d.id := d])
    else ScriptTable(t.order + [d.id], t.entries[d.id := d])
  }

  /** The dict after inserting the records in order. */
  function TableOf(ds: seq<ScriptData>): (t: ScriptTable)
    ensures t.Valid()
    ensures forall k :: k in t.entries ==> t.entries[k].id == k
  {
    if |ds| == 0 then ScriptTable([], map[]) else InsertScript(TableOf(ds[..|ds| - 1]), ds[|ds| - 1])
  }

  /** Every inserted record's id is a key, and each key holds one of the records. */
  lemma {:induction false} TableOfKeys(ds: seq<ScriptData>)
    ensures forall j :: 0 <= j < |ds| ==> ds[j].id in TableOf(ds).entries
    ensures forall k :: k in TableOf(ds).entries ==> TableOf(ds).entries[k] in ds
  {
    if |ds| > 0 {
      var init := ds[..|ds| - 1];
      TableOfKeys(init);
      var t0 := TableOf(init);
      var t := TableOf(ds);
      forall j | 0 <= j < |ds| - 1
        ensures ds[j].id in t.entries
      {
        assert init[j] == ds[j];
      }
      forall k | k in t.entries
        ensures t.entries[k] in ds
      {
        if ds[|ds| - 1].id != k {
          assert t.entries[k] == t0.entries[k];
        }
      }
    }
  }

  /** Reading one script file, as a function of the file name. */
  function ScriptReader(archive: Archive): string -> Option<ScriptData> {
    file => ScriptDataOf(archive, file)
  }

  /** `script_by_content_id` after reading `files` in order. */
  function ScriptTableOf(archive: Archive, files: seq<string>): (t: ScriptTable)
    ensures t.Valid()
    ensures forall k :: k in t.entries ==> t.entries[k].id == k
  {
    TableOf(Collect(files, ScriptReader(archive)))
  }

  /** The table has an entry for every script file with a header id, and each entry was read from one of the files. */
  lemma ScriptTableKeys(archive: Archive, files: seq<string>)
    ensures forall i :: 0 <= i < |files| && ScriptDataOf(archive, files[i]).Some? ==>
      ScriptDataOf(archive, files[i]).value.id in ScriptTableOf(archive, files).entries
    ensures forall k :: k in ScriptTableOf(archive, files).entries ==>
      exists i :: 0 <= i < |files| && ScriptDataOf(archive, files[i]) == Some(ScriptTableOf(archive, files).entries[k])
  {
    var ds := Collect(files, ScriptReader(archive));
    CollectMembers(files, ScriptReader(archive));
    TableOfKeys(ds);
    forall i | 0 <= i < |files| && ScriptDataOf(archive, files[i]).Some?
      ensures ScriptDataOf(archive, files[i]).value.id in TableOf(ds).entries
    {
      assert ScriptReader(archive)(files[i]) == ScriptDataOf(archive, files[i]);
      var j :| 0 <= j < |ds| && ds[j] == ScriptDataOf(archive, files[i]).value;
    }
    forall k | k in TableOf(ds).entries
      ensures exists i :: 0 <= i < |files| && ScriptDataOf(archive, files[i]) == Some(TableOf(ds).entries[k])
    {
      var i :| 0 <= i < |files| && ScriptReader(archive)(files[i]) == Some(TableOf(ds).entries[k]);
    }
  }

  /** The script names in the table's order. */
  function TableNames(t: ScriptTable): (names: seq<string>)
    requires t.Valid()
    ensures |names| == |t.order|
    ensures forall j :: 0 <= j < |names| ==> names[j] == t.entries[t.order[j]].name
  {
    seq(|t.order|, j requires 0 <= j < |t.order| => t.entries[t.order[j]].name)
  }

  /**
   * The name the `j`-th script gets: its own name the first time that name
   * occurs, `name_n` for the `n`-th occurrence.
   */
  function RenamedAt(names: seq<string>, j: nat): string
    requires j < |names|
  {
    var seen := multiset(names[..j])[names[j]];
    if seen == 0 then names[j] else names[j] + "_" + NatToString(seen + 1)
  }

  /** Occurrences of a name counted up to position `i` grow strictly past each occurrence. */
  lemma OccurrencesGrow(names: seq<string>, i: nat, j: nat)
    requires i < j <= |names|
    ensures multiset(names[..i])[names[i]] < multiset(names[..j])[names[i]]
  {
    assert names[..j] == names[..i] + [names[i]] + names[i + 1..j];
  }

  /** Different counters give different suffixed names. */
  lemma SuffixedApart(x: string, a: nat, b: nat)
    requires a != b
    ensures x + "_" + NatToString(a) != x + "_" + NatToString(b)
  {
    var p := x + "_";
    if p + NatToString(a) == p + NatToString(b) {
      assert NatToString(a) == (p + NatToString(a))[|p|..];
      assert NatToString(b) == (p + NatToString(b))[|p|..];
      ParseNatToString(a);
      ParseNatToString(b);
    }
  }

  /** Two scripts sharing an original name never get the same new name. */
  lemma RenamedApart(names: seq<string>, i: nat, j: nat)
    requires i < j < |names| && names[i] == names[j]
    ensures RenamedAt(names, i) != RenamedAt(names, j)
  {
    OccurrencesGrow(names, i, j);
    var a := multiset(names[..i])[names[i]];
    var b := multiset(names[..j])[names[j]];
    var x := names[i];
    assert b > 0 && RenamedAt(names, j) == x + "_" + NatToString(b + 1);
    if a == 0 {
      assert RenamedAt(names, i) == x;
      assert |RenamedAt(names, j)| > |x|;
    } else {
      assert RenamedAt(names, i) == x + "_" + NatToString(a + 1);
      SuffixedApart(x, a + 1, b + 1);
    }
  }

  /** The renaming only looks at earlier names, so a name already of the form `x_2` can clash with a renamed `x`. */
  lemma RenamingCanClash()
    ensures var names := ["x", "x", "x_2"];
      RenamedAt(names, 1) == RenamedAt(names, 2) == "x_2"
  {
    var names := ["x", "x", "x_2"];
    assert names[..1] == ["x"] && names[..2] == ["x", "x"];
    assert multiset(names[..2])["x_2"] == 0;
  }

  /** The `j`-th script component: the `j`-th content id, its renamed name and its body. */
  function ScriptAt(t: ScriptTable, j: nat): (r: ScriptComponent)
    requires t.Valid() && j < |t.order|
    ensures r.id == t.order[j]
  {
    CreateScript(t.order[j], RenamedAt(TableNames(t), j), t.entries[t.order[j]].body, t.order[j])
  }

  /** The script components built from the table, in its order. */
  function ScriptsOf(t: ScriptTable): (scripts: seq<ScriptComponent>)
    requires t.Valid()
    ensures |scripts| == |t.order|
    ensures forall j :: 0 <= j < |scripts| ==> scripts[j] == ScriptAt(t, j)
  {
    seq(|t.order|, j requires 0 <= j < |t.order| => ScriptAt(t, j))
  }

  /** Exactly one script per content id in the table, whose component id is that content id. */
  lemma OneScriptPerContentId(t: ScriptTable)
    requires t.Valid()
    ensures forall k :: k in t.entries <==> exists j :: 0 <= j < |ScriptsOf(t)| && ScriptsOf(t)[j].id == k
    ensures forall i, j :: 0 <= i < j < |ScriptsOf(t)| ==> ScriptsOf(t)[i].id != ScriptsOf(t)[j].id
  {
    var s := ScriptsOf(t);
    forall k | k in t.entries
      ensures exists j :: 0 <= j < |s| && s[j].id == k
    {
      var j :| 0 <= j < |t.order| && t.order[j] == k;
      assert s[j].id == k;
    }
  }

  /** Adds the script activities of one operation to `activity_id_to_content_id`. */
  function AddActivities(m: map<string, string>, acts: seq<Activity>, scriptIds: set<string>): map<string, string>
    decreases |acts|
  {
    if |acts| == 0 then m
    else
      var a := acts[0];
      AddActivities(if a.contentId != "" && a.contentId in scriptIds then m[a.activityId := a.contentId] else m,
                    acts[1..], scriptIds)
  }

  /** `activity_id_to_content_id` built over the operations in order. */
  function AddOperations(m: map<string, string>, ops: seq<JpkOperation>, scriptIds: set<string>): map<string, string>
    decreases |ops|
  {
    if |ops| == 0 then m else AddOperations(AddActivities(m, ops[0].activities, scriptIds), ops[1..], scriptIds)
  }

  /** A map entry points at a non-empty content id of an extracted script. */
  predicate PointsAtScripts(m: map<string, string>, scriptIds: set<string>) {
    forall a :: a in m ==> m[a] != "" && m[a] in scriptIds
  }

  lemma {:induction false} AddActivitiesSound(m: map<string, string>, acts: seq<Activity>, scriptIds: set<string>)
    requires PointsAtScripts(m, scriptIds)
    ensures PointsAtScripts(AddActivities(m, acts, scriptIds), scriptIds)
    ensures m.Keys <= AddActivities(m, acts, scriptIds).Keys
    decreases |acts|
  {
    if |acts| > 0 {
      var a := acts[0];
      AddActivitiesSound(if a.contentId != "" && a.contentId in scriptIds then m[a.activityId := a.contentId] else m,
                         acts[1..], scriptIds);
    }
  }

  /** The map holds only activities whose non-empty content id is an extracted script. */
  lemma {:induction false} ActivityMapSound(m: map<string, string>, ops: seq<JpkOperation>, scriptIds: set<string>)
    requires PointsAtScripts(m, scriptIds)
    ensures PointsAtScripts(AddOperations(m, ops, scriptIds), scriptIds)
    ensures m.Keys <= AddOperations(m, ops, scriptIds).Keys
    decreases |ops|
  {
    if |ops| > 0 {
      AddActivitiesSound(m, ops[0].activities, scriptIds);
      ActivityMapSound(AddActivities(m, ops[0].activities, scriptIds), ops[1..], scriptIds);
    }
  }

  lemma {:induction false} AddActivitiesComplete(m: map<string, string>, acts: seq<Activity>, scriptIds: set<string>)
    ensures m.Keys <= AddActivities(m, acts, scriptIds).Keys
    ensures forall j :: 0 <= j < |acts| && acts[j].contentId != "" && acts[j].contentId in scriptIds ==>
      acts[j].activityId in AddActivities(m, acts, scriptIds)
    decreases |acts|
  {
    if |acts| > 0 {
      var a := acts[0];
      var m1 := if a.contentId != "" && a.contentId in scriptIds then m[a.activityId := a.contentId] else m;
      AddActivitiesComplete(m1, acts[1..], scriptIds);
      forall j | 0 < j < |acts|
        ensures acts[j] == acts[1..][j - 1]
      {
      }
    }
  }

  /** Every activity whose non-empty content id is an extracted script is in the map. */
  lemma {:induction false} ActivityMapComplete(m: map<string, string>, ops: seq<JpkOperation>, scriptIds: set<string>)
    ensures m.Keys <= AddOperations(m, ops, scriptIds).Keys
    ensures forall i, j ::
      (0 <= i < |ops| && 0 <= j < |ops[i].activities| &&
       ops[i].activities[j].contentId != "" && ops[i].activities[j].contentId in scriptIds) ==>
      ops[i].activities[j].activityId in AddOperations(m, ops, scriptIds)
    decreases |ops|
  {
    if |ops| > 0 {
      var m1 := AddActivities(m, ops[0].activities, scriptIds);
      AddActivitiesComplete(m, ops[0].activities, scriptIds);
      ActivityMapComplete(m1, ops[1..], scriptIds);
      forall i | 0 < i < |ops|
        ensures ops[i] == ops[1..][i - 1]
      {
      }
    }
  }

  /** The inner loop over one operation's activities. */
  method MapActivities(m: map<string, string>, acts: seq<Activity>, scriptIds: set<string>)
    returns (r: map<string, string>)
    ensures r == AddActivities(m, acts, scriptIds)
  {
    r := m;
    var i := 0;
    while i < |acts|
      invariant 0 <= i <= |acts|
      invariant AddActivities(r, acts[i..], scriptIds) == AddActivities(m, acts, scriptIds)
    {
      var activity := acts[i];
      assert acts[i..][1..] == acts[i + 1..];
      if activity.contentId != "" && activity.contentId in scriptIds {
        r := r[activity.activityId := activity.contentId];
      }
      i := i + 1;
    }
  }

  /** The first loop of `extract_scripts_from_operations`: `script_by_content_id`. */
  /** Inserting one more record. */
  lemma TableSnoc(ds: seq<ScriptData>, d: ScriptData)
    ensures TableOf(ds + [d]) == InsertScript(TableOf(ds), d)
  {
    assert (ds + [d])[..|ds|] == ds;
  }

  /** One step of the first loop. */
  lemma ReadScriptStep(archive: Archive, files: seq<string>, i: nat)
    requires i < |files|
    ensures var before := TableOf(Collect(files[..i], ScriptReader(archive)));
      var data := ScriptReader(archive)(files[i]);
      TableOf(Collect(files[..i + 1], ScriptReader(archive))) ==
        if data.Some? then InsertScript(before, data.value) else before
  {
    CollectStep(files, i, ScriptReader(archive));
    var data := ScriptReader(archive)(files[i]);
    if data.Some? {
      TableSnoc(Collect(files[..i], ScriptReader(archive)), data.value);
    }
  }

  method ReadScriptTable(archive: Archive, files: seq<string>) returns (table: ScriptTable)
    ensures table == ScriptTableOf(archive, files)
  {
    table := ScriptTable([], map[]);
    for i := 0 to |files|
      invariant table == TableOf(Collect(files[..i], ScriptReader(archive)))
    {
      ReadScriptStep(archive, files, i);
      var data := ScriptReader(archive)(files[i]);
      if data.Some? {
        table := InsertScript(table, data.value);
      }
    }
    assert files[..|files|] == files;
  }

  /** `script_name_count` after the names in order: how often each name has occurred. */
  function NameCounts(names: seq<string>): (count: map<string, nat>)
    ensures forall n :: n in count <==> n in names
  {
    if |names| == 0 then map[]
    else
      var count := NameCounts(names[..|names| - 1]);
      var x := names[|names| - 1];
      assert forall n :: n in names <==> n in names[..|names| - 1] || n == x;
      count[x := if x in count then count[x] + 1 else 1]
  }

  /** The counter holds the number of occurrences. */
  lemma {:induction false} NameCountsOccurrences(names: seq<string>, n: string)
    requires n in names
    ensures NameCounts(names)[n] == multiset(names)[n]
  {
    var init := names[..|names| - 1];
    assert names == init + [names[|names| - 1]];
    if n in init {
      NameCountsOccurrences(init, n);
    }
  }

  /** The loop step of the renaming: the counter's value for the name gives `RenamedAt`. */
  lemma RenameStep(names: seq<string>, j: nat)
    requires j < |names|
    ensures NameCounts(names[..j + 1]) == NameCounts(names[..j])[names[j] :=
      if names[j] in NameCounts(names[..j]) then NameCounts(names[..j])[names[j]] + 1 else 1]
    ensures RenamedAt(names, j) == if names[j] in NameCounts(names[..j])
      then names[j] + "_" + NatToString(NameCounts(names[..j])[names[j]] + 1) else names[j]
  {
    assert names[..j + 1][..j] == names[..j];
    if names[j] in names[..j] {
      NameCountsOccurrences(names[..j], names[j]);
    } else {
      assert multiset(names[..j])[names[j]] == 0;
    }
  }

  /** One step of the renaming loop: the counter and the script list after the `j`-th entry. */
  lemma NextScript(t: ScriptTable, j: nat, count: map<string, nat>, occurrences: nat, scriptName: string)
    requires t.Valid() && j < |t.order|
    requires count == NameCounts(TableNames(t)[..j])
    requires var name := t.entries[t.order[j]].name;
      occurrences == (if name in count then count[name] + 1 else 1) &&
      scriptName == (if name in count then name + "_" + NatToString(occurrences) else name)
    ensures NameCounts(TableNames(t)[..j + 1]) == count[t.entries[t.order[j]].name := occurrences]
    ensures ScriptsOf(t)[..j + 1] ==
      ScriptsOf(t)[..j] + [CreateScript(t.order[j], scriptName, t.entries[t.order[j]].body, t.order[j])]
  {
    var names := TableNames(t);
    assert names[j] == t.entries[t.order[j]].name;
    RenameStep(names, j);
    assert ScriptsOf(t)[j] == CreateScript(t.order[j], scriptName, t.entries[t.order[j]].body, t.order[j]) by {
      assert RenamedAt(names, j) == scriptName;
    }
    TakeOneMore(ScriptsOf(t), j);
  }

  /** The second loop: one script per entry, renaming repeated names with `script_name_count`. */
  method NameScripts(table: ScriptTable) returns (scripts: seq<ScriptComponent>)
    requires table.Valid()
    ensures scripts == ScriptsOf(table)
  {
    var nameCount: map<string, nat> := map[];
    scripts := [];
    for j := 0 to |table.order|
      invariant nameCount == NameCounts(TableNames(table)[..j])
      invariant scripts == ScriptsOf(table)[..j]
    {
      var contentId := table.order[j];
      var data := table.entries[contentId];
      var originalName := data.name;
      var scriptName := originalName;
      var occurrences := 1;
      if originalName in nameCount {
        occurrences := nameCount[originalName] + 1;
        scriptName := originalName + "_" + NatToString(occurrences);
      }
      NextScript(table, j, nameCount, occurrences, scriptName);
      nameCount := nameCount[originalName := occurrences];
      scripts := scripts + [CreateScript(contentId, scriptName, data.body, contentId)];
    }
    assert ScriptsOf(table)[..|table.order|] == ScriptsOf(table);
  }

  /**
   * `extract_scripts_from_operations`: one Type 400 script per content id
   * read from the `Script` files, duplicate names renamed, and the map from
   * activity id to content id for the script activities of the operations.
   */
  method ExtractScriptsFromOperations(archive: Archive, operations: seq<JpkOperation>)
    returns (scripts: seq<ScriptComponent>, activityToContent: map<string, string>)
    ensures var t := ScriptTableOf(archive, FindComponentFiles(archive.names, "Script"));
      scripts == ScriptsOf(t) && activityToContent == AddOperations(map[], operations, t.entries.Keys)
  {
    var table := ReadScriptTable(archive, FindComponentFiles(archive.names, "Script"));
    scripts := NameScripts(table);
    activityToContent := map[];
    var i := 0;
    while i < |operations|
      invariant 0 <= i <= |operations|
      invariant AddOperations(activityToContent, operations[i..], table.entries.Keys)
        == AddOperations(map[], operations, table.entries.Keys)
    {
      assert operations[i..][1..] == operations[i + 1..];
      activityToContent := MapActivities(activityToContent, operations[i].activities, table.entries.Keys);
      i := i + 1;
    }
  }

  // ---------------------------------------------------------------------
  // Global variables

  predicate IsIdentStart(c: char) { IsAlpha(c) || c == '_' }
  predicate IsIdentChar(c: char) { IsWordChar(c) || c == '.' }

  /** A name the assignment pattern captures. */
  predicate IsIdentifier(n: string) {
    |n| > 0 && IsIdentStart(n[0]) && forall k :: 0 <= k < |n| ==> IsIdentChar(n[k])
  }

  /** The end of the run of identifier characters from `i`. */
  function IdentEnd(s: string, i: nat): (j: nat)
    requires i <= |s|
    ensures i <= j <= |s| && (j < |s| ==> !IsIdentChar(s[j]))
    ensures forall k :: i <= k < j ==> IsIdentChar(s[k])
    decreases |s| - i
  {
    if i < |s| && IsIdentChar(s[i]) then IdentEnd(s, i + 1) else i
  }

  /** The end of the run of whitespace from `i`. */
  function SpaceEnd(s: string, i: nat): (j: nat)
    requires i <= |s|
    ensures i <= j <= |s| && (j < |s| ==> !IsSpace(s[j]))
    decreases |s| - i
  {
    if i < |s| && IsSpace(s[i]) then SpaceEnd(s, i + 1) else i
  }

  /**
   * `re.findall(r'\$([a-zA-Z_][a-zA-Z0-9_.]*)\s*=', s[i:])`. Both runs are
   * greedy and no shorter run can be followed by `=`, so the scan never
   * needs to backtrack: after a match it resumes past the `=`, otherwise
   * one position later.
   */
  function DeclaredFrom(s: string, i: nat): seq<string>
    requires i <= |s|
    decreases |s| - i
  {
    if i == |s| then []
    else if s[i] == '$' && i + 1 < |s| && IsIdentStart(s[i + 1]) then
      var j := IdentEnd(s, i + 1);
      var k := SpaceEnd(s, j);
      if k < |s| && s[k] == '=' then [s[i + 1..j]] + DeclaredFrom(s, k + 1) else DeclaredFrom(s, i + 1)
    else DeclaredFrom(s, i + 1)
  }

  /** The variables a script declares, in order of appearance. */
  function Declared(s: string): seq<string> {
    DeclaredFrom(s, 0)
  }

  /** The run `IdentEnd` finds after an identifier start is an identifier. */
  lemma IdentSlice(s: string, i: nat)
    requires i < |s| && IsIdentStart(s[i])
    ensures IsIdentifier(s[i..IdentEnd(s, i)])
  {
    var n := s[i..IdentEnd(s, i)];
    assert forall m :: 0 <= m < |n| ==> n[m] == s[i + m];
  }

  /** Every name found is an identifier: a letter or `_`, then letters, digits, `_` or `.`. */
  lemma {:induction false} DeclaredIdentifiers(s: string, i: nat)
    requires i <= |s|
    ensures forall n :: n in DeclaredFrom(s, i) ==> IsIdentifier(n)
    decreases |s| - i
  {
    if i < |s| {
      if s[i] == '$' && i + 1 < |s| && IsIdentStart(s[i + 1]) {
        var j := IdentEnd(s, i + 1);
        var k := SpaceEnd(s, j);
        if k < |s| && s[k] == '=' {
          DeclaredIdentifiers(s, k + 1);
          IdentSlice(s, i + 1);
        } else {
          DeclaredIdentifiers(s, i + 1);
        }
      } else {
        DeclaredIdentifiers(s, i + 1);
      }
    }
  }

  /** An assignment to `$name` is found. */
  lemma DeclaredAssignment(name: string, rest: string)
    requires IsIdentifier(name)
    ensures Declared("$" + name + " = " + rest) == [name] + DeclaredFrom("$" + name + " = " + rest, |name| + 4)
  {
    var s := "$" + name + " = " + rest;
    assert forall k :: 1 <= k < |name| + 1 ==> s[k] == name[k - 1];
    IdentRun(s, 1, |name| + 1);
    assert s[|name| + 1] == ' ' && s[|name| + 2] == '=';
    assert SpaceEnd(s, |name| + 2) == |name| + 2;
    assert SpaceEnd(s, |name| + 1) == |name| + 2;
    assert s[1..|name| + 1] == name;
    assert s[0] == '$' && IsIdentStart(s[1]);
    assert s[|name| + 3] == ' ';
    assert DeclaredFrom(s, |name| + 3) == DeclaredFrom(s, |name| + 4);
  }

  /** A run of identifier characters ended by a non-identifier character is what `IdentEnd` finds. */
  lemma {:induction false} IdentRun(s: string, i: nat, j: nat)
    requires i <= j < |s| && !IsIdentChar(s[j])
    requires forall k :: i <= k < j ==> IsIdentChar(s[k])
    ensures IdentEnd(s, i) == j
    decreases j - i
  {
    if i < j {
      IdentRun(s, i + 1, j);
    }
  }

  /** The names in `names` not seen before, each added to the seen set as it is found. */
  function NewNames(seen: set<string>, names: seq<string>): seq<string>
    decreases |names|
  {
    if |names| == 0 then []
    else
      var init := names[..|names| - 1];
      var last := names[|names| - 1];
      NewNames(seen, init) + (if last in seen || last in init then [] else [last])
  }

  /** The names kept are new, distinct and cover every name not already seen. */
  lemma {:induction false} NewNamesSound(seen: set<string>, names: seq<string>)
    ensures forall n :: n in NewNames(seen, names) ==> n in names && n !in seen
    ensures forall i, j :: 0 <= i < j < |NewNames(seen, names)| ==> NewNames(seen, names)[i] != NewNames(seen, names)[j]
    ensures forall n :: n in names ==> n in seen || n in NewNames(seen, names)
    decreases |names|
  {
    if |names| > 0 {
      var init := names[..|names| - 1];
      assert forall n :: n in names <==> n in init || n == names[|names| - 1];
      NewNamesSound(seen, init);
    }
  }

  /** Scanning `a` then `b` keeps the names of `a`, then those of `b` not seen and not in `a`. */
  lemma {:induction false} NewNamesAppend(seen: set<string>, a: seq<string>, b: seq<string>)
    ensures NewNames(seen, a + b) == NewNames(seen, a) + NewNames(seen + Elements(a), b)
    decreases |b|
  {
    if |b| == 0 {
      assert a + b == a;
    } else {
      var b0 := b[..|b| - 1];
      var x := b[|b| - 1];
      assert (a + b)[..|a + b| - 1] == a + b0;
      assert (a + b)[|a + b| - 1] == x;
      ElementsMembers(a);
      assert (x in seen || x in a + b0) <==> (x in seen + Elements(a) || x in b0);
      NewNamesAppend(seen, a, b0);
    }
  }

  /** The elements of a list as a set. */
  function Elements(xs: seq<string>): set<string>
    decreases |xs|
  {
    if |xs| == 0 then {} else Elements(xs[..|xs| - 1]) + {xs[|xs| - 1]}
  }

  /** The set holds exactly the elements of the list. */
  lemma {:induction false} ElementsMembers(xs: seq<string>)
    ensures forall x :: x in Elements(xs) <==> x in xs
    decreases |xs|
  {
    if |xs| > 0 {
      var init := xs[..|xs| - 1];
      ElementsMembers(init);
      assert forall x :: x in xs <==> x in init || x == xs[|xs| - 1];
    }
  }

  /** The set of a concatenation is the union of the sets. */
  lemma ElementsAppend(a: seq<string>, b: seq<string>)
    ensures Elements(a + b) == Elements(a) + Elements(b)
  {
    ElementsMembers(a);
    ElementsMembers(b);
    ElementsMembers(a + b);
  }

  /** A name in the archive that the script scan reads. */
  predicate IsScriptFile(name: string) {
    Contains(name, "/Data/Script/") && IsSuffix(".xml", name)
  }

  /** The script files of the archive, in name-list order. */
  function ScriptFiles(names: seq<string>): (r: seq<string>)
    ensures forall f :: f in r <==> f in names && IsScriptFile(f)
  {
    if |names| == 0 then []
    else
      var init := names[..|names| - 1];
      var last := names[|names| - 1];
      assert forall f :: f in names <==> f in init || f == last;
      ScriptFiles(init) + (if IsScriptFile(last) then [last] else [])
  }

  /** The script text of a file, `""` when it does not parse or has none. */
  function ScriptFileText(archive: Archive, file: string): string {
    match ParseXml(archive, file)
    case None => ""
    case Some(root) => ScriptTextOf(root)
  }

  /** The assignments the scan finds in the script files, file after file. */
  function ScriptMatches(archive: Archive, files: seq<string>): seq<string>
    decreases |files|
  {
    if |files| == 0 then []
    else ScriptMatches(archive, files[..|files| - 1]) + Declared(ScriptFileText(archive, files[|files| - 1]))
  }

  /** Every assignment found in any one script file is among the matches. */
  lemma {:induction false} ScriptMatchesMembers(archive: Archive, files: seq<string>)
    ensures forall i, n :: 0 <= i < |files| && n in Declared(ScriptFileText(archive, files[i])) ==>
      n in ScriptMatches(archive, files)
    decreases |files|
  {
    if |files| > 0 {
      var init := files[..|files| - 1];
      ScriptMatchesMembers(archive, init);
      forall i | 0 <= i < |init|
        ensures files[i] == init[i]
      {
      }
    }
  }

  /** A global variable: from a `GlobalVariable` file or declared in a script. */
  datatype GlobalVariable =
    | FileVariable(name: string, id: string)
    | ScriptVariable(name: string, id: string)
  {
    function ToJson(): Json {
      var common := map[
        "name" := Str(name), "type" := Num(1300), "id" := Str(id), "checksum" := Str("1"),
        "usages" := Arr([]), "endpoints" := Arr([]), "value" := Str(""), "requiresDeploy" := Bool(true),
        "deployDirty" := Bool(true), "deployed" := Bool(false), "chunks" := Num(1), "partial" := Bool(false)];
      if FileVariable? then
        Obj(common["metadataVersion" := Str("3.0.1")]["encryptedAtRest" := Bool(true)]
                  ["passwordEncAtAppLevel" := Bool(true)]["validationState" := Num(300)]["hidden" := Bool(false)])
      else Obj(common)
    }
  }

  /** One `GlobalVariable` file read. */
  function FileVariableOf(archive: Archive, file: string): (r: Option<GlobalVariable>)
    ensures r.Some? ==> r.value.FileVariable? && r.value.id != ""
  {
    match ParseXml(archive, file)
    case None => None
    case Some(root) =>
      match HeaderId(root)
      case None => None
      case Some(id) => Some(FileVariable(HeaderNameOr(root, "Unknown Variable"), id))
  }

  function FileVariableReader(archive: Archive): string -> Option<GlobalVariable> {
    file => FileVariableOf(archive, file)
  }

  /** The names of a list of variables. */
  function VariableNames(vars: seq<GlobalVariable>): set<string>
    decreases |vars|
  {
    if |vars| == 0 then {} else VariableNames(vars[..|vars| - 1]) + {vars[|vars| - 1].name}
  }

  /** A name is among the names exactly when some variable carries it. */
  lemma {:induction false} VariableNamesMembers(vars: seq<GlobalVariable>)
    ensures forall i :: 0 <= i < |vars| ==> vars[i].name in VariableNames(vars)
    ensures forall n :: n in VariableNames(vars) ==> exists i :: 0 <= i < |vars| && vars[i].name == n
    decreases |vars|
  {
    if |vars| > 0 {
      var init := vars[..|vars| - 1];
      VariableNamesMembers(init);
      forall n | n in VariableNames(vars)
        ensures exists i :: 0 <= i < |vars| && vars[i].name == n
      {
        if n in VariableNames(init) {
          var i :| 0 <= i < |init| && init[i].name == n;
          assert vars[i].name == n;
        } else {
          assert vars[|vars| - 1].name == n;
        }
      }
      forall i | 0 <= i < |vars|
        ensures vars[i].name in VariableNames(vars)
      {
        if i < |init| {
          assert init[i] == vars[i];
        }
      }
    }
  }

  /** Script-declared variables for `names`, their ids drawn from `uuid` from draw `start` on. */
  function ScriptVariables(names: seq<string>, uuid: nat -> string, start: nat): (r: seq<GlobalVariable>)
    ensures |r| == |names|
  {
    if |names| == 0 then []
    else ScriptVariables(names[..|names| - 1], uuid, start) + [ScriptVariable(names[|names| - 1], uuid(start + |names| - 1))]
  }

  /** The `k`-th script variable has the `k`-th name and the `k`-th draw after `start`. */
  lemma {:induction false} ScriptVariablesAt(names: seq<string>, uuid: nat -> string, start: nat)
    ensures forall k :: 0 <= k < |names| ==> ScriptVariables(names, uuid, start)[k] == ScriptVariable(names[k], uuid(start + k))
    decreases |names|
  {
    if |names| > 0 {
      var init := names[..|names| - 1];
      ScriptVariablesAt(init, uuid, start);
      forall k | 0 <= k < |init|
        ensures names[k] == init[k]
      {
      }
    }
  }

  /** Appending names appends their variables, with the draws continuing. */
  lemma {:induction false} ScriptVariablesAppend(a: seq<string>, b: seq<string>, uuid: nat -> string, start: nat)
    ensures ScriptVariables(a + b, uuid, start) == ScriptVariables(a, uuid, start) + ScriptVariables(b, uuid, start + |a|)
    decreases |b|
  {
    if |b| > 0 {
      var b0 := b[..|b| - 1];
      ScriptVariablesAppend(a, b0, uuid, start);
      assert (a + b)[..|a + b| - 1] == a + b0;
      assert (a + b)[|a + b| - 1] == b[|b| - 1];
      assert ScriptVariables(b, uuid, start + |a|) ==
        ScriptVariables(b0, uuid, start + |a|) + [ScriptVariable(b[|b| - 1], uuid(start + |a| + |b| - 1))];
    } else {
      assert a + b == a;
      assert ScriptVariables(a, uuid, start) + [] == ScriptVariables(a, uuid, start);
    }
  }

  /** One more name, one more variable, with the next draw. */
  lemma ScriptVariablesSnoc(names: seq<string>, x: string, uuid: nat -> string, start: nat)
    ensures ScriptVariables(names + [x], uuid, start) ==
      ScriptVariables(names, uuid, start) + [ScriptVariable(x, uuid(start + |names|))]
  {
    assert (names + [x])[..|names|] == names;
  }

  /** One more name: kept when neither seen nor earlier in the list. */
  lemma NewNamesSnoc(seen: set<string>, names: seq<string>, i: nat)
    requires i < |names|
    ensures seen + Elements(names[..i + 1]) == seen + Elements(names[..i]) + {names[i]}
    ensures names[i] in seen + Elements(names[..i]) ==> NewNames(seen, names[..i + 1]) == NewNames(seen, names[..i])
    ensures names[i] !in seen + Elements(names[..i]) ==> NewNames(seen, names[..i + 1]) == NewNames(seen, names[..i]) + [names[i]]
  {
    var prefix := names[..i + 1];
    assert prefix[..|prefix| - 1] == names[..i] && prefix[|prefix| - 1] == names[i];
    ElementsMembers(names[..i]);
    assert NewNames(seen, names[..i]) + [] == NewNames(seen, names[..i]);
  }

  /** One step of the inner loop of the script scan on the names kept and seen so far. */
  lemma DeclareStep(seen: set<string>, names: seq<string>, i: nat, kept: seq<string>, seenAfter: set<string>)
    requires i < |names|
    requires kept == NewNames(seen, names[..i]) && seenAfter == seen + Elements(names[..i])
    ensures seenAfter + {names[i]} == seen + Elements(names[..i + 1])
    ensures names[i] in seenAfter ==> kept == NewNames(seen, names[..i + 1])
    ensures names[i] !in seenAfter ==> kept + [names[i]] == NewNames(seen, names[..i + 1])
  {
    NewNamesSnoc(seen, names, i);
  }

  /** The inner loop of the script scan: the matches of one script. */
  method DeclareNew(names: seq<string>, seen: set<string>, drawn: nat, uuid: nat -> string)
    returns (added: seq<GlobalVariable>, seenAfter: set<string>)
    ensures added == ScriptVariables(NewNames(seen, names), uuid, drawn)
    ensures seenAfter == seen + Elements(names)
  {
    added := [];
    seenAfter := seen;
    ghost var kept: seq<string> := [];
    for i := 0 to |names|
      invariant kept == NewNames(seen, names[..i])
      invariant seenAfter == seen + Elements(names[..i])
      invariant added == ScriptVariables(kept, uuid, drawn)
    {
      DeclareStep(seen, names, i, kept, seenAfter);
      var varName := names[i];
      if varName !in seenAfter {
        ScriptVariablesSnoc(kept, varName, uuid, drawn);
        assert |added| == |kept|;
        added := added + [ScriptVariable(varName, uuid(drawn + |added|))];
        kept := kept + [varName];
      }
      seenAfter := seenAfter + {varName};
    }
    assert names[..|names|] == names;
  }

  /** The matches of one more file follow those of the files before it. */
  lemma ScanStep(archive: Archive, files: seq<string>, i: nat)
    requires i < |files|
    ensures ScriptMatches(archive, files[..i + 1]) ==
      ScriptMatches(archive, files[..i]) + Declared(ScriptFileText(archive, files[i]))
  {
    assert files[..i + 1][..i] == files[..i];
  }

  /** Scanning `more` after `prev` appends the variables of the names of `more` still new, with the draws continuing. */
  lemma ScriptVariablesAfter(seen0: set<string>, prev: seq<string>, more: seq<string>, uuid: nat -> string)
    ensures Elements(prev + more) == Elements(prev) + Elements(more)
    ensures ScriptVariables(NewNames(seen0, prev + more), uuid, 0) ==
      ScriptVariables(NewNames(seen0, prev), uuid, 0) +
        ScriptVariables(NewNames(seen0 + Elements(prev), more), uuid, |NewNames(seen0, prev)|)
  {
    ElementsAppend(prev, more);
    NewNamesAppend(seen0, prev, more);
    ScriptVariablesAppend(NewNames(seen0, prev), NewNames(seen0 + Elements(prev), more), uuid, 0);
  }

  /** One step of the loop over the `GlobalVariable` files. */
  lemma FileVariablesStep(archive: Archive, files: seq<string>, i: nat)
    requires i < |files|
    ensures var v := FileVariableReader(archive)(files[i]);
      var prev := Collect(files[..i], FileVariableReader(archive));
      Collect(files[..i + 1], FileVariableReader(archive)) == prev + (if v.Some? then [v.value] else []) &&
      VariableNames(prev + (if v.Some? then [v.value] else [])) ==
        VariableNames(prev) + (if v.Some? then {v.value.name} else {})
  {
    CollectStep(files, i, FileVariableReader(archive));
    var v := FileVariableReader(archive)(files[i]);
    var prev := Collect(files[..i], FileVariableReader(archive));
    if v.Some? {
      assert (prev + [v.value])[..|prev|] == prev;
    } else {
      assert prev + [] == prev;
    }
  }

  /** The loop over the `GlobalVariable` files. */
  method ReadFileVariables(archive: Archive, files: seq<string>) returns (vars: seq<GlobalVariable>, seen: set<string>)
    ensures vars == Collect(files, FileVariableReader(archive))
    ensures seen == VariableNames(vars)
  {
    vars := [];
    seen := {};
    for i := 0 to |files|
      invariant vars == Collect(files[..i], FileVariableReader(archive))
      invariant seen == VariableNames(vars)
    {
      FileVariablesStep(archive, files, i);
      var v := FileVariableReader(archive)(files[i]);
      if v.Some? {
        seen := seen + {v.value.name};
        vars := vars + [v.value];
      }
    }
    assert files[..|files|] == files;
  }

  /** The outer loop of the script scan: the variables the scripts add after the names `seen0`. */
  method ScanScripts(archive: Archive, files: seq<string>, seen0: set<string>, uuid: nat -> string)
    returns (added: seq<GlobalVariable>)
    ensures added == ScriptVariables(NewNames(seen0, ScriptMatches(archive, files)), uuid, 0)
  {
    var seen := seen0;
    added := [];
    ghost var prev: seq<string> := [];
    for i := 0 to |files|
      invariant prev == ScriptMatches(archive, files[..i])
      invariant seen == seen0 + Elements(prev)
      invariant added == ScriptVariables(NewNames(seen0, prev), uuid, 0)
    {
      ScanStep(archive, files, i);
      var matches := Declared(ScriptFileText(archive, files[i]));
      ScriptVariablesAfter(seen0, prev, matches, uuid);
      var more;
      more, seen := DeclareNew(matches, seen, |added|, uuid);
      added := added + more;
      prev := prev + matches;
    }
    assert files[..|files|] == files;
  }

  /**
   * `extract_global_variables`: the variables of the `GlobalVariable`
   * files, then each name assigned in a script (`$name =`) that no earlier
   * variable has, with a fresh id.
   */
  method ExtractGlobalVariables(archive: Archive, uuid: nat -> string) returns (vars: seq<GlobalVariable>)
    ensures var fileVars := Collect(FindComponentFiles(archive.names, "GlobalVariable"), FileVariableReader(archive));
      vars == fileVars +
        ScriptVariables(NewNames(VariableNames(fileVars), ScriptMatches(archive, ScriptFiles(archive.names))), uuid, 0)
  {
    var fileVars, seen := ReadFileVariables(archive, FindComponentFiles(archive.names, "GlobalVariable"));
    var added := ScanScripts(archive, ScriptFiles(archive.names), seen, uuid);
    vars := fileVars + added;
  }

  /** Each script-declared variable has a name no other variable has, and every scanned assignment has a variable. */
  lemma ScriptVariablesUnique(archive: Archive, fileVars: seq<GlobalVariable>)
    ensures var names := NewNames(VariableNames(fileVars), ScriptMatches(archive, ScriptFiles(archive.names)));
      (forall i, j :: 0 <= i < j < |names| ==> names[i] != names[j]) &&
      (forall i, k :: 0 <= i < |names| && 0 <= k < |fileVars| ==> names[i] != fileVars[k].name)
    ensures var files := ScriptFiles(archive.names);
      forall i, n :: 0 <= i < |files| && n in Declared(ScriptFileText(archive, files[i])) ==>
        (exists k :: 0 <= k < |fileVars| && fileVars[k].name == n) ||
        n in NewNames(VariableNames(fileVars), ScriptMatches(archive, files))
  {
    var files := ScriptFiles(archive.names);
    NewNamesSound(VariableNames(fileVars), ScriptMatches(archive, files));
    ScriptMatchesMembers(archive, files);
    VariableNamesMembers(fileVars);
  }

  // ---------------------------------------------------------------------
  // Tempstorage endpoints

  /**
   * `_create_tempstorage_endpoint`: nothing without a header id; otherwise a
   * tempstorage Type 500 named `Read <name>` for a source, `Write <name>`
   * otherwise.
   */
  function TempstorageEndpointOf(archive: Archive, file: string, polarity: string, endpointId: string,
                                 functionName: string): (r: Option<Json>)
    ensures ParseXml(archive, file).None? ==> r.None?
    ensures ParseXml(archive, file).Some? ==>
      var root := ParseXml(archive, file).value;
      (r.None? <==> HeaderId(root).None?) &&
      (r.Some? ==>
        Get(r.value, "name") == Str((if polarity == "source" then "Read " else "Write ") + HeaderNameOr(root, "Unknown")) &&
        Get(r.value, "id") == Str(HeaderId(root).value) &&
        Get(r.value, "adapterId") == Str("tempstorage") &&
        Get(r.value, "endpoint") == EF.EndpointRef(endpointId) &&
        Get(r.value, "kind") == Str(EF.TempstorageKind(polarity)))
  {
    match ParseXml(archive, file)
    case None => None
    case Some(root) =>
      match HeaderId(root)
      case None => None
      case Some(componentId) =>
        var name := HeaderNameOr(root, "Unknown");
        var endpointName := if polarity == "source" then "Read " + name else "Write " + name;
        Some(EF.CreateType500(endpointName, polarity, "tempstorage", functionName, endpointId, componentId, None, Null))
  }

  /** Building the tempstorage endpoint of a file, as a function of the file name. */
  function TempstorageReader(archive: Archive, polarity: string, endpointId: string, functionName: string)
    : string -> Option<Json>
  {
    file => TempstorageEndpointOf(archive, file, polarity, endpointId, functionName)
  }

  /** The loop over the `Source` or the `Target` files. */
  method ReadTempstorage(archive: Archive, files: seq<string>, polarity: string, endpointId: string,
                         functionName: string) returns (endpoints: seq<Json>)
    ensures endpoints == Collect(files, TempstorageReader(archive, polarity, endpointId, functionName))
  {
    endpoints := [];
    for i := 0 to |files|
      invariant endpoints == Collect(files[..i], TempstorageReader(archive, polarity, endpointId, functionName))
    {
      CollectStep(files, i, TempstorageReader(archive, polarity, endpointId, functionName));
      var endpoint := TempstorageReader(archive, polarity, endpointId, functionName)(files[i]);
      if endpoint.Some? {
        endpoints := endpoints + [endpoint.value];
      }
    }
    assert files[..|files|] == files;
  }

  /**
   * `extract_tempstorage_endpoints`: one id drawn for the shared Type 600,
   * then a `tempstorage_read` endpoint per `Source` file and a
   * `tempstorage_write` endpoint per `Target` file that has a header id.
   */
  method ExtractTempstorageEndpoints(archive: Archive, uuid: nat -> string) returns (endpoints: seq<Json>, endpointId: string)
    ensures endpointId == uuid(0)
    ensures endpoints ==
      Collect(FindComponentFiles(archive.names, "Source"), TempstorageReader(archive, "source", endpointId, "tempstorage_read")) +
      Collect(FindComponentFiles(archive.names, "Target"), TempstorageReader(archive, "target", endpointId, "tempstorage_write"))
  {
    endpointId := uuid(0);
    var sources := ReadTempstorage(archive, FindComponentFiles(archive.names, "Source"), "source", endpointId, "tempstorage_read");
    var targets := ReadTempstorage(archive, FindComponentFiles(archive.names, "Target"), "target", endpointId, "tempstorage_write");
    endpoints := sources + targets;
  }

  /** What a record holds for every element the reader yields. */
  lemma {:induction false} CollectAll<S, T>(files: seq<S>, read: S -> Option<T>, holds: T -> bool)
    requires forall i :: 0 <= i < |files| && read(files[i]).Some? ==> holds(read(files[i]).value)
    ensures forall x :: x in Collect(files, read) ==> holds(x)
  {
    if |files| > 0 {
      var init := files[..|files| - 1];
      assert forall i :: 0 <= i < |init| ==> init[i] == files[i];
      CollectAll(init, read, holds);
    }
  }

  /** A tempstorage endpoint of the given polarity that points at the shared Type 600 `endpointId`. */
  predicate IsTempstorageEndpoint(e: Json, polarity: string, endpointId: string) {
    Get(e, "endpoint") == EF.EndpointRef(endpointId) && Get(e, "adapterId") == Str("tempstorage") &&
    Get(e, "kind") == Str(EF.TempstorageKind(polarity))
  }

  /**
   * Every endpoint read for one polarity is a tempstorage endpoint of that
   * polarity pointing at the shared Type 600.
   */
  lemma TempstorageShared(archive: Archive, files: seq<string>, polarity: string, endpointId: string, functionName: string)
    ensures forall e :: e in Collect(files, TempstorageReader(archive, polarity, endpointId, functionName)) ==>
      IsTempstorageEndpoint(e, polarity, endpointId)
  {
    var read := TempstorageReader(archive, polarity, endpointId, functionName);
    forall i | 0 <= i < |files| && read(files[i]).Some?
      ensures IsTempstorageEndpoint(read(files[i]).value, polarity, endpointId)
    {
      assert read(files[i]) == TempstorageEndpointOf(archive, files[i], polarity, endpointId, functionName);
    }
    CollectAll(files, read, e => IsTempstorageEndpoint(e, polarity, endpointId));
  }

  // ---------------------------------------------------------------------
  // Business endpoints

  /** An entry of the business component table: which files, and what they become. */
  datatype BusinessConfig =
    | Type500Config(componentType: string, adapterId: string, functionName: string, polarity: string)
    | Type600Config(componentType: string, adapterId: string)

  /** The business component table, in its declared order. */
  const BusinessComponents: seq<BusinessConfig> := [
    Type500Config("SalesforceQuery", "salesforce", "query", "source"),
    Type500Config("NetSuiteUpsert", "netsuite", "upsert", "neutral"),
    Type600Config("SalesforceConnector", "salesforce"),
    Type600Config("NetSuiteEndpoint", "netsuite")
  ]

  /** A name the business scan reads for a component type: under `Data/<type>/`, ending in `.xml`. */
  predicate IsBusinessFile(name: string, componentType: string) {
    Contains(name, "Data/" + componentType + "/") && IsSuffix(".xml", name)
  }

  /** One file to process under one table entry. */
  datatype BusinessTask = BusinessTask(config: BusinessConfig, file: string)

  /** The files of one table entry, in name-list order. */
  function TasksFor(config: BusinessConfig, names: seq<string>): (r: seq<BusinessTask>)
    ensures forall t :: t in r <==> t.config == config && t.file in names && IsBusinessFile(t.file, config.componentType)
  {
    if |names| == 0 then []
    else
      var init := names[..|names| - 1];
      var last := names[|names| - 1];
      assert forall f :: f in names <==> f in init || f == last;
      TasksFor(config, init) + (if IsBusinessFile(last, config.componentType) then [BusinessTask(config, last)] else [])
  }

  /** The files of several table entries, entry after entry. */
  function TasksOver(configs: seq<BusinessConfig>, names: seq<string>): (r: seq<BusinessTask>)
    ensures forall t :: t in r <==> t.config in configs && t.file in names && IsBusinessFile(t.file, t.config.componentType)
  {
    if |configs| == 0 then []
    else
      var init := configs[..|configs| - 1];
      assert forall c :: c in configs <==> c in init || c == configs[|configs| - 1];
      TasksOver(init, names) + TasksFor(configs[|configs| - 1], names)
  }

  /** What the nested loop over the table and its files visits, in order. */
  function BusinessTasks(names: seq<string>): seq<BusinessTask> {
    TasksOver(BusinessComponents, names)
  }

  /** A business component file that has a header id. */
  datatype BusinessRecord = BusinessRecord(config: BusinessConfig, componentId: string, name: string)

  /** Reading one business file: nothing without a parse or a header id; the name defaults to the component type. */
  function BusinessRecordOf(archive: Archive, task: BusinessTask): (r: Option<BusinessRecord>)
    ensures r.None? <==> ParseXml(archive, task.file).None? || HeaderId(ParseXml(archive, task.file).value).None?
    ensures r.Some? ==> r.value.config == task.config && r.value.componentId != ""
    ensures r.Some? ==> r.value.name == HeaderNameOr(ParseXml(archive, task.file).value, task.config.componentType)
  {
    match ParseXml(archive, task.file)
    case None => None
    case Some(root) =>
      match HeaderId(root)
      case None => None
      case Some(id) => Some(BusinessRecord(task.config, id, HeaderNameOr(root, task.config.componentType)))
  }

  function BusinessReader(archive: Archive): BusinessTask -> Option<BusinessRecord> {
    task => BusinessRecordOf(archive, task)
  }

  /** The number of Type 500 records: the ids drawn for them. */
  function Draws(recs: seq<BusinessRecord>): nat {
    if |recs| == 0 then 0
    else Draws(recs[..|recs| - 1]) + (if recs[|recs| - 1].config.Type500Config? then 1 else 0)
  }

  /** The list of an optional value. */
  function Listed<T>(o: Option<T>): (r: seq<T>)
    ensures o.Some? ==> r == [o.value]
    ensures o.None? ==> r == []
  {
    if o.Some? then [o.value] else []
  }

  /**
   * What the loop over the records appends, record after record: `make`
   * is given each record and the number of ids drawn before it.
   */
  function Produced<T>(recs: seq<BusinessRecord>, make: (BusinessRecord, nat) -> Option<T>): (r: seq<T>)
    ensures |r| <= |recs|
  {
    if |recs| == 0 then []
    else
      var init := recs[..|recs| - 1];
      Produced(init, make) + Listed(make(recs[|recs| - 1], Draws(init)))
  }

  /** One more record draws one more id when it is a Type 500 entry, and appends what `make` gives it. */
  lemma ProducedSnoc<T>(recs: seq<BusinessRecord>, rec: BusinessRecord, make: (BusinessRecord, nat) -> Option<T>)
    ensures Draws(recs + [rec]) == Draws(recs) + (if rec.config.Type500Config? then 1 else 0)
    ensures Produced(recs + [rec], make) == Produced(recs, make) + Listed(make(rec, Draws(recs)))
  {
    assert (recs + [rec])[..|recs|] == recs;
  }

  /** When `make` always yields something, the `k`-th element comes from the `k`-th record. */
  lemma {:induction false} ProducedEach<T>(recs: seq<BusinessRecord>, make: (BusinessRecord, nat) -> Option<T>, k: nat)
    requires forall rec, d :: make(rec, d).Some?
    requires k < |recs|
    ensures |Produced(recs, make)| == |recs|
    ensures Produced(recs, make)[k] == make(recs[k], Draws(recs[..k])).value
  {
    var n := |recs| - 1;
    var init := recs[..n];
    assert recs == init + [recs[n]];
    ProducedSnoc(init, recs[n], make);
    var before := Produced(init, make);
    if k < n {
      assert init[..k] == recs[..k] && init[k] == recs[k];
      ProducedEach(init, make, k);
      assert Produced(recs, make)[k] == before[k];
    } else {
      if n > 0 {
        ProducedEach(init, make, 0);
      }
      assert recs[..k] == init;
    }
  }

  /** When `make` yields something exactly for Type 500 records, one element per drawn id. */
  lemma {:induction false} ProducedPerDraw<T>(recs: seq<BusinessRecord>, make: (BusinessRecord, nat) -> Option<T>)
    requires forall rec, d :: make(rec, d).Some? <==> rec.config.Type500Config?
    ensures |Produced(recs, make)| == Draws(recs)
  {
    if |recs| > 0 {
      var n := |recs| - 1;
      var init := recs[..n];
      assert recs == init + [recs[n]];
      ProducedSnoc(init, recs[n], make);
      ProducedPerDraw(init, make);
    }
  }

  /** ... and the element of Type 500 record `k` sits at the index of the id drawn for it. */
  lemma {:induction false} ProducedAtDraw<T>(recs: seq<BusinessRecord>, make: (BusinessRecord, nat) -> Option<T>, k: nat)
    requires forall rec, d :: make(rec, d).Some? <==> rec.config.Type500Config?
    requires k < |recs| && recs[k].config.Type500Config?
    ensures Draws(recs[..k]) < |Produced(recs, make)|
    ensures Produced(recs, make)[Draws(recs[..k])] == make(recs[k], Draws(recs[..k])).value
  {
    var n := |recs| - 1;
    var init := recs[..n];
    assert recs == init + [recs[n]];
    ProducedSnoc(init, recs[n], make);
    ProducedPerDraw(init, make);
    ProducedPerDraw(recs, make);
    var before := Produced(init, make);
    if k < n {
      assert init[..k] == recs[..k] && init[k] == recs[k];
      ProducedAtDraw(init, make, k);
      assert Produced(recs, make)[Draws(recs[..k])] == before[Draws(recs[..k])];
    } else {
      assert recs[..k] == init;
    }
  }

  /** The Type 500 endpoint of a record whose Type 600 gets the id `endpointId`. */
  function Type500For(rec: BusinessRecord, endpointId: string, metadata: Json): (r: Json)
    requires rec.config.Type500Config?
    ensures Get(r, "id") == Str(rec.componentId) && Get(r, "endpoint") == EF.EndpointRef(endpointId)
    ensures Get(r, "name") == Str(rec.name) && Get(r, "adapterId") == Str(rec.config.adapterId)
  {
    EF.CreateType500(rec.name, rec.config.polarity, rec.config.adapterId, rec.config.functionName, endpointId,
                     rec.componentId, None, metadata)
  }

  /** A Type 500 record's Type 500 endpoint, given the number of ids drawn before it. */
  function Make500(uuid: nat -> string, metadata: Json): (BusinessRecord, nat) -> Option<Json> {
    (rec: BusinessRecord, d: nat) => if rec.config.Type500Config? then Some(Type500For(rec, uuid(d), metadata)) else None
  }

  /** The Type 500 endpoints of the records, each pointing at the id drawn for it. */
  function Business500(recs: seq<BusinessRecord>, uuid: nat -> string, metadata: Json): (r: seq<Json>)
    ensures |r| == Draws(recs)
  {
    ProducedPerDraw(recs, Make500(uuid, metadata));
    Produced(recs, Make500(uuid, metadata))
  }

  /** No template is truthy without being an object, so building a Type 600 never fails. */
  predicate TemplatesAreObjects(templates: map<string, Json>) {
    forall a :: a in templates && Truthy(templates[a]) ==> templates[a].Obj?
  }

  /**
   * The Type 600 of a record, renamed: for a Type 500 entry it gets the
   * drawn id and is named after the adapter; for a Type 600 entry it gets
   * the header id and name. Nothing when the template is not an object,
   * the error the loop reports and skips.
   */
  function Type600For(rec: BusinessRecord, templates: map<string, Json>, drawnId: string, displayName: string -> string)
    : (r: Option<Json>)
    ensures TemplatesAreObjects(templates) ==> r.Some?
    ensures r.Some? ==> Get(r.value, "id") == Str(if rec.config.Type500Config? then drawnId else rec.componentId)
    ensures r.Some? ==>
      Get(r.value, "name") == Str(if rec.config.Type500Config? then displayName(rec.config.adapterId) + " Endpoint" else rec.name)
  {
    var adapterId := rec.config.adapterId;
    var endpointId := if rec.config.Type500Config? then drawnId else rec.componentId;
    var name := if rec.config.Type500Config? then displayName(adapterId) + " Endpoint" else rec.name;
    match EF.Type600From(EF.TemplateOf(templates, adapterId), endpointId, adapterId, displayName(adapterId))
    case Err(_) => None
    case Ok(e) => Some(Set(e, "name", Str(name)))
  }

  /** A record's Type 600 endpoint, given the number of ids drawn before it. */
  function Make600(templates: map<string, Json>, uuid: nat -> string, displayName: string -> string)
    : (BusinessRecord, nat) -> Option<Json>
  {
    (rec: BusinessRecord, d: nat) => Type600For(rec, templates, uuid(d), displayName)
  }

  /** The Type 600 endpoints of the records, in order. */
  function Business600(recs: seq<BusinessRecord>, templates: map<string, Json>, uuid: nat -> string,
                       displayName: string -> string): seq<Json>
  {
    Produced(recs, Make600(templates, uuid, displayName))
  }

  /**
   * The Type 600 side of the pairing, when every template is an object:
   * record `k` yields the `k`-th Type 600; a Type 500 record's carries the
   * id drawn for it, a Type 600 record's its header id and name.
   */
  lemma Business600Pairing(recs: seq<BusinessRecord>, k: nat, templates: map<string, Json>, uuid: nat -> string,
                           displayName: string -> string)
    requires TemplatesAreObjects(templates) && k < |recs|
    ensures |Business600(recs, templates, uuid, displayName)| == |recs|
    ensures recs[k].config.Type500Config? ==>
      Get(Business600(recs, templates, uuid, displayName)[k], "id") == Str(uuid(Draws(recs[..k])))
    ensures recs[k].config.Type600Config? ==>
      Get(Business600(recs, templates, uuid, displayName)[k], "id") == Str(recs[k].componentId) &&
      Get(Business600(recs, templates, uuid, displayName)[k], "name") == Str(recs[k].name)
  {
    var make600 := Make600(templates, uuid, displayName);
    forall rec, d ensures make600(rec, d).Some? {
      assert make600(rec, d) == Type600For(rec, templates, uuid(d), displayName);
    }
    ProducedEach(recs, make600, k);
    var d := Draws(recs[..k]);
    assert make600(recs[k], d) == Type600For(recs[k], templates, uuid(d), displayName);
  }

  /**
   * The Type 500 side of the pairing: a Type 500 record's endpoint sits at
   * the index of the id drawn for it, keeps the header id and points at
   * the drawn id, the one its Type 600 carries.
   */
  lemma Business500Pairing(recs: seq<BusinessRecord>, k: nat, uuid: nat -> string, metadata: Json)
    requires k < |recs| && recs[k].config.Type500Config?
    ensures Draws(recs[..k]) < |Business500(recs, uuid, metadata)|
    ensures Get(Business500(recs, uuid, metadata)[Draws(recs[..k])], "id") == Str(recs[k].componentId)
    ensures Get(Business500(recs, uuid, metadata)[Draws(recs[..k])], "endpoint") == EF.EndpointRef(uuid(Draws(recs[..k])))
  {
    Make500Some(uuid, metadata);
    ProducedAtDraw(recs, Make500(uuid, metadata), k);
    var d := Draws(recs[..k]);
    assert Make500(uuid, metadata)(recs[k], d).value == Type500For(recs[k], uuid(d), metadata);
  }

  /** Exactly the Type 500 records make a Type 500 endpoint. */
  lemma Make500Some(uuid: nat -> string, metadata: Json)
    ensures forall rec, d :: Make500(uuid, metadata)(rec, d).Some? <==> rec.config.Type500Config?
  {
  }

  /** The extractor, holding the endpoint factory whose template cache it fills. */
  class JpkExtractor {
    const endpointFactory: EF.EndpointFactory

    constructor(endpointFactory: EF.EndpointFactory)
      ensures this.endpointFactory == endpointFactory
    {
      this.endpointFactory := endpointFactory;
    }

    /** The Type 600 of one record, through the factory; the cached templates stay as they were. */
    method BusinessType600(rec: BusinessRecord, drawnId: string, templateFiles: string -> Option<Json>,
                           displayName: string -> string) returns (endpoint: Option<Json>)
      requires endpointFactory.templateManager.Valid()
      modifies endpointFactory.templateManager
      ensures endpointFactory.templateManager.Valid()
      ensures endpointFactory.templateManager.Templates(DefaultTemplatesDir, templateFiles) ==
        old(endpointFactory.templateManager.Templates(DefaultTemplatesDir, templateFiles))
      ensures endpoint == Type600For(rec, old(endpointFactory.templateManager.Templates(DefaultTemplatesDir, templateFiles)),
                                     drawnId, displayName)
    {
      var adapterId := rec.config.adapterId;
      var endpointId := if rec.config.Type500Config? then drawnId else rec.componentId;
      var name := if rec.config.Type500Config? then displayName(adapterId) + " Endpoint" else rec.name;
      var created := endpointFactory.CreateType600(endpointId, adapterId, None, templateFiles, displayName);
      if created.Ok? {
        endpoint := Some(Set(created.value, "name", Str(name)));
      } else {
        endpoint := None;
      }
    }

    /**
     * The loop body for one record: a Type 500 entry appends its Type 500,
     * pointing at the next id drawn, and every record appends the Type 600
     * the factory builds for it unless building it fails.
     */
    method AddRecord(rec: BusinessRecord, ghost recs: seq<BusinessRecord>, type500: seq<Json>, type600: seq<Json>,
                     uuid: nat -> string, templateFiles: string -> Option<Json>, displayName: string -> string,
                     metadata: Json) returns (next500: seq<Json>, next600: seq<Json>)
      requires endpointFactory.templateManager.Valid()
      requires type500 == Business500(recs, uuid, metadata)
      requires type600 == Business600(recs, endpointFactory.templateManager.Templates(DefaultTemplatesDir, templateFiles),
                                      uuid, displayName)
      modifies endpointFactory.templateManager
      ensures endpointFactory.templateManager.Valid()
      ensures endpointFactory.templateManager.Templates(DefaultTemplatesDir, templateFiles) ==
        old(endpointFactory.templateManager.Templates(DefaultTemplatesDir, templateFiles))
      ensures next500 == Business500(recs + [rec], uuid, metadata)
      ensures next600 == Business600(recs + [rec], old(endpointFactory.templateManager.Templates(DefaultTemplatesDir, templateFiles)),
                                     uuid, displayName)
    {
      ghost var templates := endpointFactory.templateManager.Templates(DefaultTemplatesDir, templateFiles);
      ProducedSnoc(recs, rec, Make500(uuid, metadata));
      ProducedSnoc(recs, rec, Make600(templates, uuid, displayName));
      var drawnId := uuid(|type500|);
      next500 := type500;
      if rec.config.Type500Config? {
        next500 := type500 + [Type500For(rec, drawnId, metadata)];
      }
      var endpoint := BusinessType600(rec, drawnId, templateFiles, displayName);
      next600 := type600 + Listed(endpoint);
    }

    /**
     * `extract_business_endpoints`: per business file with a header id, a
     * Type 500 entry yields a Type 500 pointing at a freshly drawn id and a
     * Type 600 with that id; a Type 600 entry yields a Type 600 with the
     * header id. The templates are those of the default directory, read on
     * the first call and cached afterwards.
     */
    method ExtractBusinessEndpoints(archive: Archive, uuid: nat -> string, templateFiles: string -> Option<Json>,
                                    displayName: string -> string, metadata: Json)
      returns (type500: seq<Json>, type600: seq<Json>)
      requires endpointFactory.templateManager.Valid()
      modifies endpointFactory.templateManager
      ensures endpointFactory.templateManager.Valid()
      ensures type500 == Business500(Collect(BusinessTasks(archive.names), BusinessReader(archive)), uuid, metadata)
      ensures type600 == Business600(Collect(BusinessTasks(archive.names), BusinessReader(archive)),
                                     old(endpointFactory.templateManager.Templates(DefaultTemplatesDir, templateFiles)),
                                     uuid, displayName)
    {
      type500, type600 := ExtractFromTasks(archive, BusinessTasks(archive.names), uuid, templateFiles, displayName, metadata);
    }

    /** The loop over the business files, one record at a time. */
    method ExtractFromTasks(archive: Archive, tasks: seq<BusinessTask>, uuid: nat -> string,
                            templateFiles: string -> Option<Json>, displayName: string -> string, metadata: Json)
      returns (type500: seq<Json>, type600: seq<Json>)
      requires endpointFactory.templateManager.Valid()
      modifies endpointFactory.templateManager
      ensures endpointFactory.templateManager.Valid()
      ensures type500 == Business500(Collect(tasks, BusinessReader(archive)), uuid, metadata)
      ensures type600 == Business600(Collect(tasks, BusinessReader(archive)),
                                     old(endpointFactory.templateManager.Templates(DefaultTemplatesDir, templateFiles)),
                                     uuid, displayName)
    {
      ghost var templates := endpointFactory.templateManager.Templates(DefaultTemplatesDir, templateFiles);
      type500 := [];
      type600 := [];
      ghost var recs: seq<BusinessRecord> := [];
      for i := 0 to |tasks|
        invariant recs == Collect(tasks[..i], BusinessReader(archive))
        invariant endpointFactory.templateManager.Valid()
        invariant endpointFactory.templateManager.Templates(DefaultTemplatesDir, templateFiles) == templates
        invariant type500 == Business500(recs, uuid, metadata)
        invariant type600 == Business600(recs, templates, uuid, displayName)
      {
        CollectStep(tasks, i, BusinessReader(archive));
        var read := BusinessRecordOf(archive, tasks[i]);
        if read.Some? {
          type500, type600 := AddRecord(read.value, recs, type500, type600, uuid, templateFiles, displayName, metadata);
          recs := recs + [read.value];
        }
      }
      assert tasks[..|tasks|] == tasks;
    }
  }

  // ---------------------------------------------------------------------
  // Reference maps

  /** An id with its name. */
  datatype NamedEntry = NamedEntry(id: string, name: string)

  /** A header with a non-empty id and a non-empty name. */
  predicate HasIdAndName(header: HeaderInfo) {
    header.id.Some? && header.id.value != "" && header.name.Some? && header.name.value != ""
  }

  /** Reading one file's header: an entry only when both its id and its name are present and non-empty. */
  function NamedEntryOf(archive: Archive, file: string): (r: Option<NamedEntry>)
    ensures r.Some? ==> r.value.id != "" && r.value.name != ""
    ensures r.Some? <==>
      (ParseXml(archive, file).Some? && HasIdAndName(ExtractHeaderInfo(ParseXml(archive, file).value)))
  {
    match ParseXml(archive, file)
    case None => None
    case Some(root) =>
      var header := ExtractHeaderInfo(root);
      if HasIdAndName(header) then
        Some(NamedEntry(header.id.value, header.name.value))
      else None
  }

  function NamedEntryReader(archive: Archive): string -> Option<NamedEntry> {
    file => NamedEntryOf(archive, file)
  }

  /** The dict the entries build, a later entry for an id replacing an earlier one. */
  function EntryMap(entries: seq<NamedEntry>): map<string, string> {
    if |entries| == 0 then map[]
    else EntryMap(entries[..|entries| - 1])[entries[|entries| - 1].id := entries[|entries| - 1].name]
  }

  /** The dict has a key for each entry. */
  lemma {:induction false} EntryMapKeys(entries: seq<NamedEntry>)
    ensures forall i :: 0 <= i < |entries| ==> entries[i].id in EntryMap(entries)
  {
    if |entries| > 0 {
      var init := entries[..|entries| - 1];
      EntryMapKeys(init);
      assert forall i :: 0 <= i < |init| ==> init[i] == entries[i];
    }
  }

  /** Each pair of the dict is one of the entries. */
  lemma {:induction false} EntryMapPairs(entries: seq<NamedEntry>)
    ensures forall k :: k in EntryMap(entries) ==> NamedEntry(k, EntryMap(entries)[k]) in entries
  {
    if |entries| > 0 {
      var init := entries[..|entries| - 1];
      EntryMapPairs(init);
      assert forall e :: e in init ==> e in entries;
    }
  }

  /** An entry whose id no later entry repeats is the one the dict keeps. */
  lemma {:induction false} EntryMapLastWins(entries: seq<NamedEntry>, i: nat)
    requires i < |entries|
    requires forall j :: i < j < |entries| ==> entries[j].id != entries[i].id
    ensures entries[i].id in EntryMap(entries) && EntryMap(entries)[entries[i].id] == entries[i].name
  {
    var n := |entries| - 1;
    if i < n {
      var init := entries[..n];
      assert init[i] == entries[i];
      assert forall j :: i < j < |init| ==> init[j] == entries[j];
      EntryMapLastWins(init, i);
    }
  }

  /** The dict of one component type's files. */
  function NameMapOf(archive: Archive, componentType: string): map<string, string> {
    EntryMap(Collect(FindComponentFiles(archive.names, componentType), NamedEntryReader(archive)))
  }

  /** One more entry sets its id to its name. */
  lemma EntryMapSnoc(entries: seq<NamedEntry>, e: NamedEntry)
    ensures EntryMap(entries + [e]) == EntryMap(entries)[e.id := e.name]
  {
    assert (entries + [e])[..|entries|] == entries;
  }

  /** The loop over one component type's files. */
  method ReadNameMap(archive: Archive, files: seq<string>) returns (names: map<string, string>)
    ensures names == EntryMap(Collect(files, NamedEntryReader(archive)))
  {
    names := map[];
    ghost var entries: seq<NamedEntry> := [];
    for i := 0 to |files|
      invariant entries == Collect(files[..i], NamedEntryReader(archive))
      invariant names == EntryMap(entries)
    {
      CollectStep(files, i, NamedEntryReader(archive));
      var entry := NamedEntryOf(archive, files[i]);
      if entry.Some? {
        EntryMapSnoc(entries, entry.value);
        names := names[entry.value.id := entry.value.name];
        entries := entries + [entry.value];
      }
    }
    assert files[..|files|] == files;
  }

  /** `extract_reference_maps`: the id→name dicts of the operations and of the scripts. */
  method ExtractReferenceMaps(archive: Archive) returns (refs: ReferenceMaps)
    ensures refs == ReferenceMaps(NameMapOf(archive, "Operation"), NameMapOf(archive, "Script"))
  {
    var operations := ReadNameMap(archive, FindComponentFiles(archive.names, "Operation"));
    var scripts := ReadNameMap(archive, FindComponentFiles(archive.names, "Script"));
    refs := ReferenceMaps(operations, scripts);
  }

  /**
   * An id is in a reference map exactly when some file of that type has a
   * header with that id and a name, and the name recorded is non-empty.
   */
  lemma ReferenceMapNamed(archive: Archive, componentType: string)
    ensures forall k :: k in NameMapOf(archive, componentType) ==> k != "" && NameMapOf(archive, componentType)[k] != ""
    ensures var files := FindComponentFiles(archive.names, componentType);
      forall i :: 0 <= i < |files| && NamedEntryOf(archive, files[i]).Some? ==>
        NamedEntryOf(archive, files[i]).value.id in NameMapOf(archive, componentType)
  {
    var files := FindComponentFiles(archive.names, componentType);
    var entries := Collect(files, NamedEntryReader(archive));
    CollectMembers(files, NamedEntryReader(archive));
    EntryMapKeys(entries);
    EntryMapPairs(entries);
    forall k | k in EntryMap(entries)
      ensures k != "" && EntryMap(entries)[k] != ""
    {
      var e := NamedEntry(k, EntryMap(entries)[k]);
      assert e in entries;
      var i :| 0 <= i < |files| && NamedEntryReader(archive)(files[i]) == Some(e);
      assert NamedEntryOf(archive, files[i]) == Some(e);
    }
    forall i | 0 <= i < |files| && NamedEntryOf(archive, files[i]).Some?
      ensures NamedEntryOf(archive, files[i]).value.id in EntryMap(entries)
    {
      var e := NamedEntryOf(archive, files[i]).value;
      assert NamedEntryReader(archive)(files[i]) == Some(e);
      assert e in entries;
      var j :| 0 <= j < |entries| && entries[j] == e;
    }
  }
}
