/**
 * Mapping rules of the transformation discovery tool: splitting a mapping
 * expression into target path and source expression, pulling a
 * transformation script out of `<trans>` tags, collecting the project
 * variables the expressions mention, and naming source and target types.
 */
module DiscoveryMappings {
  import opened Wrappers
  import opened Strings
  import opened XmlTrees
  import opened StringOrder
  import ScriptFactory

  // ---------------------------------------------------------------------
  // Mapping expressions
  // ---------------------------------------------------------------------

  /**
   * One mapping: either the expression had no tab (`raw_expression`, with
   * target and source `None`), or it was split into `target_path` and
   * `source_expression`, with `has_transformation_script`.
   */
  datatype Mapping =
    | Raw(rawExpression: string)
    | Mapped(targetPath: string, sourceExpression: string, hasTransformationScript: bool)

  /**
   * The source expression of a source part: the stripped text between the
   * first `<trans>` and the next `</trans>`, or the whole part when no such
   * pair exists.
   */
  function ScriptSource(sourcePart: string): (r: string)
    ensures !Contains(sourcePart, ScriptFactory.TransOpen) ==> r == sourcePart
  {
    match ScriptFactory.TransContent(sourcePart)
    case Some(content) => Strip(content)
    case None => sourcePart
  }

  /** The mapping an `expr` text stands for: stripped, then split at its first tab, both halves stripped. */
  function MappingOf(text: string): (m: Mapping)
    ensures m.Raw? <==> !Contains(Strip(text), "\t")
    ensures m.Raw? ==> m.rawExpression == Strip(text)
    ensures m.Mapped? ==> '\t' !in m.targetPath
  {
    var exprText := Strip(text);
    match Find(exprText, "\t")
    case None => Raw(exprText)
    case Some(i) =>
      var target := Strip(exprText[..i]);
      var sourcePart := Strip(exprText[i + 1..]);
      NoTabBefore(exprText, i);
      Mapped(target, ScriptSource(sourcePart), Contains(sourcePart, ScriptFactory.TransOpen))
  }

  /** The text before the first tab, stripped, has no tab. */
  lemma NoTabBefore(s: string, i: nat)
    requires Find(s, "\t") == Some(i)
    ensures '\t' !in Strip(s[..i])
  {
    forall j | 0 <= j < i
      ensures s[..i][j] != '\t'
    {
      assert !OccursAt("\t", s, j);
      assert s[j..j + 1] == [s[j]];
    }
    StripIsSlice(s[..i]);
  }

  /** `strip()` keeps a contiguous part of the text. */
  lemma StripIsSlice(s: string)
    ensures exists a, b :: 0 <= a <= b <= |s| && Strip(s) == s[a..b]
  {
    var l := LStrip(s, Whitespace);
    var k := |s| - |l|;
    assert l == s[k..];
    var r := RStrip(l, Whitespace);
    assert r == l[..|r|] == s[k..k + |r|];
  }

  /** Position `i` of `s` holds a character `strip()` keeps. */
  predicate NoWhitespaceAt(s: string, i: int) {
    0 <= i < |s| && s[i] !in Whitespace
  }

  /** Non-empty text that `strip()` leaves alone. */
  predicate IsCleanPart(s: string) {
    NoWhitespaceAt(s, 0) && NoWhitespaceAt(s, |s| - 1)
  }

  /** Where the first tab of `target + "\t" + rest` is, for a tab-free target. */
  lemma FirstTab(target: string, rest: string)
    requires '\t' !in target
    ensures Find(target + "\t" + rest, "\t") == Some(|target|)
  {
    var s := target + "\t" + rest;
    assert s[|target|..|target| + 1] == "\t";
    assert OccursAt("\t", s, |target|);
    forall j | 0 <= j < |target| ensures !OccursAt("\t", s, j) {
      assert s[j] == target[j] && s[j..j + 1] == [s[j]];
    }
  }

  /** A clean target and a clean source part with a tab between them split back into the two. */
  lemma MappingSplit(target: string, sourcePart: string)
    requires IsCleanPart(target) && IsCleanPart(sourcePart) && '\t' !in target
    ensures MappingOf(target + "\t" + sourcePart) ==
      Mapped(target, ScriptSource(sourcePart), Contains(sourcePart, ScriptFactory.TransOpen))
  {
    var text := target + "\t" + sourcePart;
    StripFixed(target);
    StripFixed(sourcePart);
    StripFixed(text);
    FirstTab(target, sourcePart);
    assert text[..|target|] == target && text[|target| + 1..] == sourcePart;
  }

  /** Writing a target and a plain source with a tab between them gives that mapping back. */
  lemma MappingRoundTrip(target: string, source: string)
    requires IsCleanPart(target) && IsCleanPart(source) && '\t' !in target
    requires !Contains(source, ScriptFactory.TransOpen)
    ensures MappingOf(target + "\t" + source) == Mapped(target, source, false)
  {
    MappingSplit(target, source);
  }

  /** Writing a target and a script in `<trans>` tags with a tab between them gives the script back. */
  lemma MappingScriptRoundTrip(target: string, script: string)
    requires IsCleanPart(target) && '\t' !in target
    requires Strip(script) == script && !Contains(script, ScriptFactory.TransClose)
    ensures MappingOf(target + "\t" + ("<trans>" + script + "</trans>")) == Mapped(target, script, true)
  {
    var wrapped := "<trans>" + script + "</trans>";
    assert IsCleanPart(wrapped) by {
      assert wrapped[0] == '<' && wrapped[|wrapped| - 1] == '>';
    }
    assert Contains(wrapped, ScriptFactory.TransOpen) by {
      assert wrapped[..7] == ScriptFactory.TransOpen;
      PrefixContained(ScriptFactory.TransOpen, wrapped);
    }
    assert ScriptSource(wrapped) == script by {
      ScriptFactory.TransContentWrapped(script);
    }
    MappingSplit(target, wrapped);
  }

  /** The `konga.string` child whose `name` is `expr`: `mapping.find('konga.string[@name="expr"]')`. */
  function ExprElement(cs: seq<Element>): (r: Option<Element>)
    ensures r.Some? ==> r.value in cs && r.value.tag == "konga.string" && AttrOpt(r.value, "name") == Some("expr")
  {
    if |cs| == 0 then None
    else if cs[0].tag == "konga.string" && AttrOpt(cs[0], "name") == Some("expr") then Some(cs[0])
    else ExprElement(cs[1..])
  }

  /** The text of a `Mapping`'s expression, or `None` when it has none (ElementTree never gives empty text). */
  function ExprText(mapping: Element): Option<string> {
    match ExprElement(mapping.children)
    case None => None
    case Some(x) => if x.text == "" then None else Some(x.text)
  }

  /** The mappings of a list of `Mapping` elements, in document order, skipping those without an expression. */
  function MappingsIn(es: seq<Element>): (r: seq<Mapping>)
    ensures |r| <= |es|
    ensures forall m :: m in r ==> exists e :: e in es && ExprText(e).Some? && m == MappingOf(ExprText(e).value)
  {
    if |es| == 0 then []
    else
      var init := MappingsIn(es[..|es| - 1]);
      var last := es[|es| - 1];
      assert forall e :: e in es[..|es| - 1] ==> e in es;
      match ExprText(last)
      case None => init
      case Some(text) => init + [MappingOf(text)]
  }

  /** The mappings of a document split anywhere are those of the first part followed by those of the second. */
  lemma {:induction false} MappingsInAppend(a: seq<Element>, b: seq<Element>)
    ensures MappingsIn(a + b) == MappingsIn(a) + MappingsIn(b)
    decreases |b|
  {
    if |b| == 0 {
      assert a + b == a;
    } else {
      assert (a + b)[..|a + b| - 1] == a + b[..|b| - 1];
      MappingsInAppend(a, b[..|b| - 1]);
    }
  }

  /** `extract_mappings(root)`: the mappings of the `Mapping` children of `Mappings`, or none. */
  function MappingsOf(root: Element): seq<Mapping> {
    match FindChild(root, "Mappings")
    case None => []
    case Some(m) => MappingsIn(FindChildren(m, "Mapping"))
  }

  /** `extract_mappings`, mapping by mapping. */
  method ExtractMappings(root: Element) returns (mappings: seq<Mapping>)
    ensures mappings == MappingsOf(root)
  {
    mappings := [];
    var mappingsElem := FindChild(root, "Mappings");
    if mappingsElem.None? {
      return;
    }
    var es := FindChildren(mappingsElem.value, "Mapping");
    for i := 0 to |es|
      invariant mappings == MappingsIn(es[..i])
    {
      assert es[..i + 1][..i] == es[..i];
      var text := ExprText(es[i]);
      if text.None? {
        continue;
      }
      mappings := mappings + [MappingOf(text.value)];
    }
    assert es[..|es|] == es;
  }

  // ---------------------------------------------------------------------
  // Variables referenced by mappings
  // ---------------------------------------------------------------------

  /** `[\w.]` when `dots`, `\w` otherwise. */
  predicate InRun(c: char, dots: bool) {
    IsWordChar(c) || (dots && c == '.')
  }

  /** The end of the longest run of run characters starting at `i`. */
  function RunEnd(s: string, i: nat, dots: bool): (r: nat)
    requires i <= |s|
    ensures i <= r <= |s|
    ensures forall k :: i <= k < r ==> InRun(s[k], dots)
    ensures r < |s| ==> !InRun(s[r], dots)
    decreases |s| - i
  {
    if i == |s| || !InRun(s[i], dots) then i else RunEnd(s, i + 1, dots)
  }

  /** What `\w+(?:\.\w+)*` matches in full: word characters, single dots between them. */
  predicate IsDottedName(t: string) {
    |t| > 0 && IsWordChar(t[0]) && IsWordChar(t[|t| - 1]) &&
    (forall k :: 0 <= k < |t| ==> InRun(t[k], true)) &&
    (forall k :: 0 <= k < |t| - 1 && t[k] == '.' ==> t[k + 1] != '.')
  }

  /** A non-empty run of word characters: what `\w+` matches in full. */
  predicate IsWord(t: string) {
    |t| > 0 && forall k :: 0 <= k < |t| ==> IsWordChar(t[k])
  }

  /**
   * The match of `\[(\w+(?:\.\w+)*)\]|\$(\w+)\$` starting at `p`: the
   * captured name and where the match ends. Neither class holds `]` or `$`,
   * so the group can only be the whole run of its class after the opener.
   */
  function VariableAt(s: string, p: nat): (r: Option<(string, nat)>)
    requires p < |s|
    ensures r.Some? ==> p < r.value.1 <= |s| && IsDottedName(r.value.0)
    ensures r.Some? ==> OccursAt("[" + r.value.0 + "]", s, p) || OccursAt("$" + r.value.0 + "$", s, p)
  {
    if s[p] == '[' then
      var e := RunEnd(s, p + 1, true);
      if e < |s| && s[e] == ']' && IsDottedName(s[p + 1..e]) then
        assert s[p..e + 1] == "[" + s[p + 1..e] + "]";
        Some((s[p + 1..e], e + 1))
      else None
    else if s[p] == '$' then
      var e := RunEnd(s, p + 1, false);
      if e < |s| && s[e] == '$' && e > p + 1 then
        assert s[p..e + 1] == "$" + s[p + 1..e] + "$";
        Some((s[p + 1..e], e + 1))
      else None
    else None
  }

  /** `re.findall` of the variable pattern from position `p`: non-overlapping matches, left to right. */
  function VariablesFrom(s: string, p: nat): (r: seq<string>)
    requires p <= |s|
    ensures forall n :: n in r ==> IsDottedName(n)
    decreases |s| - p
  {
    if p == |s| then []
    else
      match VariableAt(s, p)
      case Some((name, e)) => [name] + VariablesFrom(s, e)
      case None => VariablesFrom(s, p + 1)
  }

  function VariableRefs(text: string): seq<string> {
    VariablesFrom(text, 0)
  }

  /** A bracketed dotted name is found as itself. */
  lemma BracketedVariable(name: string)
    requires IsDottedName(name)
    ensures VariableRefs("[" + name + "]") == [name]
  {
    var s := "[" + name + "]";
    forall k | 1 <= k < |name| + 1 ensures InRun(s[k], true) {
      assert s[k] == name[k - 1];
    }
    assert s[|name| + 1] == ']' && !InRun(']', true);
    var e := RunEnd(s, 1, true);
    assert e == |name| + 1;
    assert s[1..e] == name;
    assert VariablesFrom(s, |s|) == [];
  }

  /** A word between dollar signs is found as itself. */
  lemma DollarVariable(word: string)
    requires IsWord(word)
    ensures VariableRefs("$" + word + "$") == [word]
  {
    var s := "$" + word + "$";
    forall k | 1 <= k < |word| + 1 ensures InRun(s[k], false) {
      assert s[k] == word[k - 1];
    }
    assert s[|word| + 1] == '$' && !InRun('$', false);
    var e := RunEnd(s, 1, false);
    assert e == |word| + 1;
    assert s[1..e] == word;
    assert VariablesFrom(s, |s|) == [];
  }

  /** The names a text contributes: those without a `$` inside, which is every name found. */
  function TextVariables(text: string): (r: set<string>)
    ensures r == set n | n in VariableRefs(text)
  {
    NoDollarInNames(text);
    set n | n in VariableRefs(text) && '$' !in n
  }

  /** The filter on `$` in `extract_dependencies` never removes a name: none can hold a `$`. */
  lemma NoDollarInNames(text: string)
    ensures forall n :: n in VariableRefs(text) ==> '$' !in n
  {
    forall n | n in VariableRefs(text) ensures '$' !in n {
      assert IsDottedName(n);
      assert forall k :: 0 <= k < |n| ==> n[k] != '$';
    }
  }

  /** The variables of one mapping: from its source expression and its target path. */
  function MappingVariables(m: Mapping): set<string> {
    if m.Raw? then {} else TextVariables(m.sourceExpression) + TextVariables(m.targetPath)
  }

  /** The variables of all mappings. */
  function VariablesOf(mappings: seq<Mapping>): set<string> {
    if |mappings| == 0 then {} else VariablesOf(mappings[..|mappings| - 1]) + MappingVariables(mappings[|mappings| - 1])
  }

  /** Every mapping's variables are collected... */
  lemma {:induction false} VariablesOfIncludes(mappings: seq<Mapping>, i: nat)
    requires i < |mappings|
    ensures MappingVariables(mappings[i]) <= VariablesOf(mappings)
    decreases |mappings|
  {
    if i < |mappings| - 1 {
      var init := mappings[..|mappings| - 1];
      VariablesOfIncludes(init, i);
      assert init[i] == mappings[i];
    }
  }

  /** ... and nothing else is. */
  lemma {:induction false} VariablesOfFrom(mappings: seq<Mapping>, v: string)
    requires v in VariablesOf(mappings)
    ensures exists i :: 0 <= i < |mappings| && v in MappingVariables(mappings[i])
    decreases |mappings|
  {
    var init := mappings[..|mappings| - 1];
    if v in VariablesOf(init) {
      VariablesOfFrom(init, v);
      var i :| 0 <= i < |init| && v in MappingVariables(init[i]);
      assert mappings[i] == init[i];
    } else {
      assert v in MappingVariables(mappings[|mappings| - 1]);
    }
  }

  /** The variable names of `extract_dependencies`: each once, in sorted order. */
  method ExtractVariables(mappings: seq<Mapping>) returns (variables: seq<string>)
    ensures StrictlySorted(variables)
    ensures forall v :: v in variables <==> v in VariablesOf(mappings)
  {
    var found: set<string> := {};
    for i := 0 to |mappings|
      invariant found == VariablesOf(mappings[..i])
    {
      assert mappings[..i + 1][..i] == mappings[..i];
      var m := mappings[i];
      if m.Mapped? {
        var inSource := CollectTextVariables(m.sourceExpression);
        var inTarget := CollectTextVariables(m.targetPath);
        found := found + inSource + inTarget;
      }
    }
    assert mappings[..|mappings|] == mappings;
    variables := SortedMembers(found);
  }

  /** The `$`-free names found in one text, as the inner loops of `extract_dependencies` collect them. */
  method CollectTextVariables(text: string) returns (names: set<string>)
    ensures names == TextVariables(text)
  {
    names := {};
    if text != "" {
      var refs := VariableRefs(text);
      NoDollarInNames(text);
      for j := 0 to |refs|
        invariant names == set n | n in refs[..j]
      {
        assert refs[..j + 1] == refs[..j] + [refs[j]];
        if '$' !in refs[j] {
          names := names + {refs[j]};
        }
      }
      assert refs[..|refs|] == refs;
    } else {
      assert VariableRefs(text) == [];
    }
  }

  /** `sorted(variables)` on a set: its members, each once, in ascending order. */
  method SortedMembers(found: set<string>) returns (variables: seq<string>)
    ensures StrictlySorted(variables)
    ensures forall v :: v in variables <==> v in found
  {
    var listed := ListOf(found);
    variables := SortStrings(listed);
    SortedDistinct(variables, listed);
    forall v
      ensures v in variables <==> v in listed
    {
      assert v in variables <==> v in multiset(variables);
      assert v in listed <==> v in multiset(listed);
    }
  }

  /** The members of a set, once each, in some order. */
  method ListOf(s: set<string>) returns (r: seq<string>)
    ensures forall x :: x in r <==> x in s
    ensures forall x :: multiset(r)[x] <= 1
  {
    r := [];
    var rest := s;
    while rest != {}
      invariant forall x :: x in r || x in rest <==> x in s
      invariant forall x :: x in r ==> x !in rest
      invariant forall x :: multiset(r)[x] <= 1
      decreases |rest|
    {
      var x :| x in rest;
      assert multiset(r)[x] == 0;
      r := r + [x];
      rest := rest - {x};
    }
  }

  /** Sorting a list without repetitions gives a strictly sorted list of the same members. */
  lemma SortedDistinct(sorted: seq<string>, listed: seq<string>)
    requires Sorted(sorted) && multiset(sorted) == multiset(listed)
    requires forall x :: multiset(listed)[x] <= 1
    ensures StrictlySorted(sorted)
  {
    forall i, j | 0 <= i < j < |sorted|
      ensures sorted[i] != sorted[j]
    {
      var x := sorted[i];
      assert sorted == sorted[..j] + [sorted[j]] + sorted[j + 1..];
      assert sorted[..j][i] == x;
      assert multiset(sorted)[x] == multiset(sorted[..j])[x] + multiset([sorted[j]])[x] + multiset(sorted[j + 1..])[x];
    }
  }

  // ---------------------------------------------------------------------
  // Type names
  // ---------------------------------------------------------------------

  /** The table shared by `get_source_type_name` and `get_target_type_name`. */
  const TypeNames: map<string, string> := map[
    "1" := "Text", "2" := "Binary", "4" := "XML (Schema)", "14" := "Salesforce",
    "101" := "NetSuite Request", "102" := "NetSuite Response"]

  /** `get_source_type_name` / `get_target_type_name`: the table entry, or `Unknown (<id>)`. */
  function TypeName(typeId: string): (r: string)
    ensures typeId in TypeNames ==> r == TypeNames[typeId]
    ensures typeId !in TypeNames ==> r == "Unknown (" + typeId + ")"
  {
    if typeId in TypeNames then TypeNames[typeId] else "Unknown (" + typeId + ")"
  }

  /** A text that starts with a non-empty prefix starts with its first character. */
  lemma PrefixHead(p: string, s: string)
    requires |p| > 0
    ensures IsPrefix(p, s) ==> |s| > 0 && s[0] == p[0]
  {
    if IsPrefix(p, s) {
      assert s[..|p|][0] == s[0];
    }
  }

  /** A name reads `Unknown (...)` exactly for the ids outside the table, and names the id it was given. */
  lemma UnknownExactlyUnlisted(typeId: string)
    ensures IsPrefix("Unknown (", TypeName(typeId)) <==> typeId !in TypeNames
    ensures typeId !in TypeNames ==> TypeName(typeId)[9..|TypeName(typeId)| - 1] == typeId
  {
    var r := TypeName(typeId);
    if typeId in TypeNames {
      assert |r| > 0 && r[0] != 'U';
      PrefixHead("Unknown (", r);
    } else {
      assert r[..9] == "Unknown (";
    }
  }
}
