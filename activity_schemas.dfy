/**
 * Activity schema helpers of the JPK converter: whether a slash path names
 * an element of a schema tree, the size of a schema tree, the reading of a
 * JTR element into a schema node, and the `O` (options) block of an
 * activity schema.
 */
module ActivitySchemas {
  import opened Wrappers
  import opened Strings
  import opened JsonValues
  import opened XmlTrees
  import opened SchemaTrees

  // ---------------------------------------------------------------------
  // Path existence
  // ---------------------------------------------------------------------

  /** A leading `jbroot` segment dropped, then a leading `jbresponse` segment. */
  function DropEnvelope(segs: seq<string>): (r: seq<string>)
    ensures |r| <= |segs| && r == segs[|segs| - |r|..]
    ensures |segs| - |r| <= 2
    ensures |segs| > 0 && segs[0] != "jbroot" && segs[0] != "jbresponse" ==> r == segs
    ensures |segs| > 0 && segs[0] == "jbroot" && (|segs| == 1 || segs[1] != "jbresponse") ==> r == segs[1..]
    ensures |segs| >= 2 && segs[0] == "jbroot" && segs[1] == "jbresponse" ==> r == segs[2..]
    ensures |segs| > 0 && segs[0] == "jbresponse" ==> r == segs[1..]
  {
    var a := if |segs| > 0 && segs[0] == "jbroot" then segs[1..] else segs;
    if |a| > 0 && a[0] == "jbresponse" then a[1..] else a
  }

  /** An array index or a redundant `RecordRef` right after a kept `baseRef`. */
  predicate SkippedAfterBaseRef(cleaned: seq<string>, seg: string) {
    |cleaned| > 0 && cleaned[|cleaned| - 1] == "baseRef" && (IsDigits(seg) || seg == "RecordRef")
  }

  predicate NoTrailingDollar(s: string) {
    |s| == 0 || s[|s| - 1] != '$'
  }

  /** The cleaning loop, continued from the segments kept so far. */
  function CleanFrom(cleaned: seq<string>, segs: seq<string>): (r: seq<string>)
    ensures |cleaned| <= |r| <= |cleaned| + |segs| && r[..|cleaned|] == cleaned
    ensures forall i :: |cleaned| <= i < |r| ==> NoTrailingDollar(r[i])
    decreases |segs|
  {
    if |segs| == 0 then cleaned
    else if SkippedAfterBaseRef(cleaned, segs[0]) then CleanFrom(cleaned, segs[1..])
    else
      var r := CleanFrom(cleaned + [RStrip(segs[0], {'$'})], segs[1..]);
      assert r[..|cleaned|] == (r[..|cleaned| + 1])[..|cleaned|];
      r
  }

  /** The segments the traversal looks for: indices after `baseRef` skipped, trailing `$` removed. */
  function CleanSegments(segs: seq<string>): (r: seq<string>)
    ensures |r| <= |segs|
    ensures forall i :: 0 <= i < |r| ==> NoTrailingDollar(r[i])
  {
    CleanFrom([], segs)
  }

  /** `_path_exists_in_schema`. */
  function PathExistsInSchema(root: Json, path: string): (r: bool)
    ensures r <==> path != "" && Truthy(root) && Navigate(root, CleanSegments(DropEnvelope(Split(path, '/')))).Some?
  {
    if path == "" || !Truthy(root) then false
    else Navigate(root, CleanSegments(DropEnvelope(Split(path, '/')))).Some?
  }

  /** The cleaning loop runs over a concatenation in two stages. */
  lemma {:induction false} CleanFromAppend(c: seq<string>, a: seq<string>, b: seq<string>)
    ensures CleanFrom(c, a + b) == CleanFrom(CleanFrom(c, a), b)
    decreases |a|
  {
    if |a| > 0 {
      assert (a + b)[0] == a[0] && (a + b)[1..] == a[1..] + b;
      if SkippedAfterBaseRef(c, a[0]) {
        CleanFromAppend(c, a[1..], b);
      } else {
        CleanFromAppend(c + [RStrip(a[0], {'$'})], a[1..], b);
      }
    } else {
      assert a + b == b;
    }
  }

  lemma RStripAbsent(s: string)
    requires '$' !in s
    ensures RStrip(s, {'$'}) == s
  {
    var r := RStrip(s, {'$'});
    assert |r| == |s|;
  }

  /** Segments with no `$` and no `baseRef` come through cleaning unchanged. */
  lemma {:induction false} CleanPlain(c: seq<string>, segs: seq<string>)
    requires |c| == 0 || c[|c| - 1] != "baseRef"
    requires forall i :: 0 <= i < |segs| ==> '$' !in segs[i] && segs[i] != "baseRef"
    ensures CleanFrom(c, segs) == c + segs
    decreases |segs|
  {
    if |segs| == 0 {
      assert c + segs == c;
    } else {
      RStripAbsent(segs[0]);
      CleanPlain(c + [segs[0]], segs[1..]);
      assert c + [segs[0]] + segs[1..] == c + segs;
    }
  }

  /** `baseRef/1/x` and `baseRef/RecordRef/x` are looked up as `baseRef/x`. */
  lemma IndexAfterBaseRefIgnored(pre: seq<string>, d: string, post: seq<string>)
    requires IsDigits(d) || d == "RecordRef"
    ensures CleanSegments(pre + ["baseRef", d] + post) == CleanSegments(pre + ["baseRef"] + post)
  {
    var c0 := CleanFrom([], pre);
    assert RStrip("baseRef", {'$'}) == "baseRef";
    assert !IsDigits("baseRef") by {
      assert !IsAsciiDigit("baseRef"[0]);
    }
    var c1 := CleanFrom(c0, ["baseRef"]);
    assert c1 == c0 + ["baseRef"] by {
      assert CleanFrom(c0 + ["baseRef"], []) == c0 + ["baseRef"];
    }
    assert pre + ["baseRef", d] + post == pre + ["baseRef"] + ([d] + post);
    assert pre + ["baseRef"] + post == pre + ["baseRef"] + post;
    CleanFromAppend([], pre + ["baseRef"], [d] + post);
    CleanFromAppend([], pre + ["baseRef"], post);
    CleanFromAppend([], pre, ["baseRef"]);
    assert ([d] + post)[0] == d && ([d] + post)[1..] == post;
    assert SkippedAfterBaseRef(c1, d);
  }

  /** A path made of envelope segments alone exists in every non-empty schema. */
  lemma EnvelopeOnlyPathExists(root: Json, path: string)
    requires path != "" && DropEnvelope(Split(path, '/')) == []
    ensures PathExistsInSchema(root, path) == Truthy(root)
  {
    assert CleanSegments([]) == [];
    assert Navigate(root, []) == Some(root);
  }

  /** `jbroot` alone is such a path. */
  lemma RootAloneExists(root: Json)
    ensures PathExistsInSchema(root, "jbroot") == Truthy(root)
  {
    SplitNoSep("jbroot", '/');
    EnvelopeOnlyPathExists(root, "jbroot");
  }

  /** A leading `jbroot/` does not change the answer (unless the rest starts with another `jbroot`). */
  lemma RootPrefixIgnored(root: Json, p: string)
    requires p != "" && Split(p, '/')[0] != "jbroot"
    ensures PathExistsInSchema(root, "jbroot/" + p) == PathExistsInSchema(root, p)
  {
    var s := Split(p, '/');
    assert Split("jbroot/" + p, '/') == ["jbroot"] + s by {
      assert "jbroot/" + p == "jbroot" + ['/'] + p;
      SplitPrefix("jbroot", p, '/');
    }
    DropEnvelopeAfterRoot(s);
  }

  /** Below a leading `jbroot`, the envelope of the rest is dropped as if it stood alone. */
  lemma DropEnvelopeAfterRoot(s: seq<string>)
    requires |s| > 0 && s[0] != "jbroot"
    ensures DropEnvelope(["jbroot"] + s) == DropEnvelope(s)
  {
    assert (["jbroot"] + s)[1..] == s;
  }

  // ---------------------------------------------------------------------
  // Schema size
  // ---------------------------------------------------------------------

  /** `_count_schema_elements`: the node itself plus every node below it. */
  function CountSchemaElements(schema: Json): (r: nat)
    ensures r >= 1
    ensures !HasChildList(schema) ==> r == 1
    ensures HasChildList(schema) ==> r >= 1 + |Children(schema)|
    decreases schema, 1
  {
    1 + (if HasChildList(schema) then CountPrefix(schema, |Children(schema)|) else 0)
  }

  /** The sizes of the first `n` children added up. */
  function CountPrefix(schema: Json, n: nat): (r: nat)
    requires HasChildList(schema) && n <= |Children(schema)|
    ensures r >= n
    decreases schema, 0, n
  {
    if n == 0 then 0 else CountPrefix(schema, n - 1) + CountSchemaElements(Children(schema)[n - 1])
  }

  /** Each of the first `n` children counts no more than the first `n` together. */
  lemma {:induction false} CountPrefixCovers(schema: Json, n: nat, i: nat)
    requires HasChildList(schema) && i < n <= |Children(schema)|
    ensures CountSchemaElements(Children(schema)[i]) <= CountPrefix(schema, n)
  {
    if i < n - 1 {
      CountPrefixCovers(schema, n - 1, i);
    }
  }

  /** A child's subtree is strictly smaller than its parent's. */
  lemma ChildCountSmaller(schema: Json, i: nat)
    requires HasChildList(schema) && i < |Children(schema)|
    ensures CountSchemaElements(Children(schema)[i]) < CountSchemaElements(schema)
  {
    CountPrefixCovers(schema, |Children(schema)|, i);
  }

  /** The nodes of a schema tree in preorder: the node, then each child's subtree in turn. */
  function Preorder(schema: Json): (r: seq<Json>)
    ensures |r| >= 1 && r[0] == schema
    decreases schema, 1
  {
    [schema] + (if HasChildList(schema) then PreorderPrefix(schema, |Children(schema)|) else [])
  }

  /** The subtrees of the first `n` children, in preorder, one after another. */
  function PreorderPrefix(schema: Json, n: nat): seq<Json>
    requires HasChildList(schema) && n <= |Children(schema)|
    decreases schema, 0, n
  {
    if n == 0 then [] else PreorderPrefix(schema, n - 1) + Preorder(Children(schema)[n - 1])
  }

  /** The element count is the number of nodes met by a preorder walk of the tree. */
  lemma {:induction false} CountIsPreorderLength(schema: Json)
    ensures CountSchemaElements(schema) == |Preorder(schema)|
    decreases schema, 1
  {
    if HasChildList(schema) {
      CountPrefixIsPreorderLength(schema, |Children(schema)|);
    }
  }

  lemma {:induction false} CountPrefixIsPreorderLength(schema: Json, n: nat)
    requires HasChildList(schema) && n <= |Children(schema)|
    ensures CountPrefix(schema, n) == |PreorderPrefix(schema, n)|
    decreases schema, 0, n
  {
    if n > 0 {
      CountPrefixIsPreorderLength(schema, n - 1);
      CountIsPreorderLength(Children(schema)[n - 1]);
    }
  }

  // ---------------------------------------------------------------------
  // JTR elements
  // ---------------------------------------------------------------------

  /** `e.find(tag).text`, with a missing child or missing text read as `""`. */
  function TextOf(e: Element, tag: string): (r: string)
    ensures r != "" ==> XmlTrees.FindChild(e, tag).Some? && XmlTrees.FindChild(e, tag).value.text == r
  {
    match XmlTrees.FindChild(e, tag)
    case None => ""
    case Some(c) => c.text
  }

  /** The text of a child, or `None` when the child is missing or has no text. */
  function OptText(e: Element, tag: string): (r: Option<string>)
    ensures r.Some? <==> TextOf(e, tag) != ""
    ensures r.Some? ==> r.value == TextOf(e, tag)
  {
    var t := TextOf(e, tag);
    if t == "" then None else Some(t)
  }

  /** `maxOccurs` as JTR writes it: `unbounded` or a number. */
  datatype MaxValue = Unbounded | Limit(n: int)

  /**
   * A parsed schema node: each scalar entry is present only when its child
   * element has text, and `children` holds the non-empty parsed `C` children.
   */
  datatype SchemaNode = SchemaNode(
    name: Option<string>,         // N
    namespace: Option<string>,    // NS
    minOccurs: Option<int>,       // MN
    maxOccurs: Option<MaxValue>,  // MX
    typeName: Option<string>,     // T
    dataType: Option<string>,     // DT
    nillable: Option<bool>,       // NIL
    isAttribute: Option<bool>,    // ATR
    defaultValue: Option<string>, // DV
    index: Option<int>,           // I
    level: Option<int>,           // L
    begin: Option<int>,           // BG
    end: Option<int>,             // EN
    children: seq<SchemaNode>)    // C

  /** A node that would be the empty dict `{}`, which Python drops as falsy. */
  predicate IsEmptyNode(n: SchemaNode) {
    n.name.None? && n.namespace.None? && n.minOccurs.None? && n.maxOccurs.None? && n.typeName.None?
    && n.dataType.None? && n.nillable.None? && n.isAttribute.None? && n.defaultValue.None?
    && n.index.None? && n.level.None? && n.begin.None? && n.end.None? && |n.children| == 0
  }

  /** `MN`: `int(text)`, or 0 when `int` raises. */
  function MinOccursOf(e: Element): (r: Option<int>)
    ensures r.Some? <==> TextOf(e, "MN") != ""
    ensures r.Some? && ParseInt(TextOf(e, "MN")).None? ==> r.value == 0
  {
    var t := TextOf(e, "MN");
    if t == "" then None
    else match ParseInt(t)
      case Some(v) => Some(v)
      case None => Some(0)
  }

  /** `MX`: `unbounded` in any letter case, else `int(text)`, or 1 when `int` raises. */
  function MaxOccursOf(e: Element): (r: Option<MaxValue>)
    ensures r.Some? <==> TextOf(e, "MX") != ""
    ensures r == Some(Unbounded) <==> TextOf(e, "MX") != "" && Lower(TextOf(e, "MX")) == "unbounded"
  {
    var t := TextOf(e, "MX");
    if t == "" then None
    else if Lower(t) == "unbounded" then Some(Unbounded)
    else match ParseInt(t)
      case Some(v) => Some(Limit(v))
      case None => Some(Limit(1))
  }

  /** `NIL`/`ATR`: true exactly when the text is `true` in any letter case. */
  function FlagOf(e: Element, tag: string): (r: Option<bool>)
    ensures r.Some? <==> TextOf(e, tag) != ""
    ensures r == Some(true) <==> TextOf(e, tag) != "" && Lower(TextOf(e, tag)) == "true"
  {
    var t := TextOf(e, tag);
    if t == "" then None else Some(Lower(t) == "true")
  }

  /** `I`/`L`/`BG`/`EN`: present only when the text is an integer. */
  function IntOf(e: Element, tag: string): (r: Option<int>)
    ensures r.Some? ==> TextOf(e, tag) != "" && ParseInt(TextOf(e, tag)) == r
    ensures TextOf(e, tag) != "" && ParseInt(TextOf(e, tag)).Some? ==> r.Some?
  {
    var t := TextOf(e, tag);
    if t == "" then None else ParseInt(t)
  }

  /** `_parse_jtr_element`: the scalar entries, then the `C` children that parse to non-empty nodes. */
  function ParseJtrElement(e: Element): (r: SchemaNode)
    ensures r.name == OptText(e, "N") && r.typeName == OptText(e, "T")
    ensures |r.children| <= |e.children|
    ensures forall i :: 0 <= i < |r.children| ==> !IsEmptyNode(r.children[i])
    decreases e, 1
  {
    SchemaNode(
      OptText(e, "N"), OptText(e, "NS"), MinOccursOf(e), MaxOccursOf(e),
      OptText(e, "T"), OptText(e, "DT"), FlagOf(e, "NIL"), FlagOf(e, "ATR"), OptText(e, "DV"),
      IntOf(e, "I"), IntOf(e, "L"), IntOf(e, "BG"), IntOf(e, "EN"),
      ParsedChildren(e, |e.children|))
  }

  /** The parsed `C` children among the first `n` children, empty ones left out, in order. */
  function ParsedChildren(e: Element, n: nat): (r: seq<SchemaNode>)
    requires n <= |e.children|
    ensures |r| <= n
    ensures forall i :: 0 <= i < |r| ==> !IsEmptyNode(r[i])
    decreases e, 0, n
  {
    if n == 0 then []
    else
      var rest := ParsedChildren(e, n - 1);
      var c := e.children[n - 1];
      if c.tag == "C" && !IsEmptyNode(ParseJtrElement(c)) then rest + [ParseJtrElement(c)] else rest
  }

  /** A `C` child with no scalar entries and no children of its own is dropped. */
  lemma EmptyChildDropped(e: Element, n: nat)
    requires 0 < n <= |e.children| && IsEmptyNode(ParseJtrElement(e.children[n - 1]))
    ensures ParsedChildren(e, n) == ParsedChildren(e, n - 1)
  {
  }

  /** A schema node as a JTR file describes it: name, occurrence bounds and child nodes. */
  datatype JtrNode = JtrNode(name: string, minOccurs: nat, maxOccurs: Option<nat>, children: seq<JtrNode>)

  predicate Named(n: JtrNode)
    decreases n
  {
    n.name != "" && forall i :: 0 <= i < |n.children| ==> Named(n.children[i])
  }

  function MaxOccursText(m: Option<nat>): string {
    match m
    case None => "unbounded"
    case Some(k) => NatToString(k)
  }

  function Leaf(tag: string, text: string): Element {
    Element(tag, map[], text, [])
  }

  /** The JTR element that describes a node: `N`, `MN`, `MX`, then one `C` per child. */
  function Emit(n: JtrNode): (r: Element)
    ensures |r.children| == 3 + |n.children|
    decreases n
  {
    Element("C", map[], "",
      [Leaf("N", n.name), Leaf("MN", NatToString(n.minOccurs)), Leaf("MX", MaxOccursText(n.maxOccurs))]
      + seq(|n.children|, i requires 0 <= i < |n.children| => Emit(n.children[i])))
  }

  /** The parsed node the description stands for (`None` as the bound means unbounded). */
  function Described(n: JtrNode): (r: SchemaNode)
    ensures !IsEmptyNode(r)
    decreases n
  {
    SchemaNode(Some(n.name), None, Some(n.minOccurs),
      Some(match n.maxOccurs case None => Unbounded case Some(k) => Limit(k)),
      None, None, None, None, None, None, None, None, None,
      seq(|n.children|, i requires 0 <= i < |n.children| => Described(n.children[i])))
  }

  /** The text under a tag is the text of the first child with that tag. */
  lemma TextAt(e: Element, k: nat, tag: string)
    requires k < |e.children| && e.children[k].tag == tag
    requires forall j :: 0 <= j < k ==> e.children[j].tag != tag
    ensures TextOf(e, tag) == e.children[k].text
  {
    var r := FindIndex(e.children, tag);
    assert r.Some?;
    assert r.value == k;
  }

  /** Every child of an emitted node is tagged `N`, `MN`, `MX` or `C`. */
  lemma EmittedTags(n: JtrNode)
    ensures forall i :: 0 <= i < |Emit(n).children| ==> Emit(n).children[i].tag in {"N", "MN", "MX", "C"}
  {
    var e := Emit(n);
    forall i | 0 <= i < |e.children|
      ensures e.children[i].tag in {"N", "MN", "MX", "C"}
    {
      if 3 <= i {
        assert e.children[i] == Emit(n.children[i - 3]);
      }
    }
  }

  /** The text of each child of an emitted node: only `N`, `MN` and `MX` are present. */
  lemma EmittedTexts(n: JtrNode)
    ensures TextOf(Emit(n), "N") == n.name
    ensures TextOf(Emit(n), "MN") == NatToString(n.minOccurs)
    ensures TextOf(Emit(n), "MX") == MaxOccursText(n.maxOccurs)
    ensures forall t :: t in {"NS", "T", "DT", "NIL", "ATR", "DV", "I", "L", "BG", "EN"} ==> TextOf(Emit(n), t) == ""
  {
    var e := Emit(n);
    TextAt(e, 0, "N");
    TextAt(e, 1, "MN");
    TextAt(e, 2, "MX");
    EmittedTags(n);
    forall t | t in {"NS", "T", "DT", "NIL", "ATR", "DV", "I", "L", "BG", "EN"}
      ensures TextOf(e, t) == ""
    {
      assert t !in {"N", "MN", "MX", "C"};
      assert FindIndex(e.children, t).None?;
    }
  }

  lemma DigitsNotWord(k: nat, w: string)
    requires |w| > 0 && !IsAsciiDigit(w[0])
    ensures Lower(NatToString(k)) != w
  {
    var s := NatToString(k);
    assert IsAsciiDigit(s[0]);
    assert Lower(s)[0] == s[0];
  }

  /** `MN` text written from a count reads back as that count. */
  lemma MinFromText(e: Element, m: nat)
    requires TextOf(e, "MN") == NatToString(m)
    ensures MinOccursOf(e) == Some(m as int)
  {
    ParseNatToString(m);
  }

  /** `MX` text written from a bound reads back as that bound. */
  lemma MaxFromText(e: Element, m: Option<nat>)
    requires TextOf(e, "MX") == MaxOccursText(m)
    ensures MaxOccursOf(e) == Some(match m case None => Unbounded case Some(k) => Limit(k))
  {
    match m {
      case None =>
        assert Lower("unbounded") == "unbounded";
      case Some(k) =>
        ParseNatToString(k);
        DigitsNotWord(k, "unbounded");
    }
  }

  /** The bounds read back from an emitted node are the node's bounds. */
  lemma EmittedBounds(n: JtrNode)
    ensures MinOccursOf(Emit(n)) == Some(n.minOccurs as int)
    ensures MaxOccursOf(Emit(n)) == Described(n).maxOccurs
  {
    EmittedTexts(n);
    MinFromText(Emit(n), n.minOccurs);
    MaxFromText(Emit(n), n.maxOccurs);
  }

  /** The first three children of an emitted node are `N`, `MN` and `MX`, none of them a `C`. */
  lemma EmittedChildrenStart(n: JtrNode)
    ensures ParsedChildren(Emit(n), 3) == []
  {
    var e := Emit(n);
    assert e.children[0].tag == "N";
    assert ParsedChildren(e, 1) == ParsedChildren(e, 0) == [];
    assert e.children[1].tag == "MN";
    assert ParsedChildren(e, 2) == [];
    assert e.children[2].tag == "MX";
  }

  /** A `C` child that parses to a non-empty node is appended to the children before it. */
  lemma ParsedChildrenSnoc(e: Element, m: nat, d: SchemaNode)
    requires 0 < m <= |e.children| && e.children[m - 1].tag == "C"
    requires ParseJtrElement(e.children[m - 1]) == d && !IsEmptyNode(d)
    ensures ParsedChildren(e, m) == ParsedChildren(e, m - 1) + [d]
  {
  }

  /** The described children of the first `k` children, extended by one. */
  lemma DescribedSnoc(cs: seq<JtrNode>, k: nat)
    requires 0 < k <= |cs|
    ensures seq(k, i requires 0 <= i < k => Described(cs[i]))
         == seq(k - 1, i requires 0 <= i < k - 1 => Described(cs[i])) + [Described(cs[k - 1])]
  {
  }

  /** One more emitted child adds its described node. */
  lemma EmittedChildrenStep(n: JtrNode, k: nat)
    requires 0 < k <= |n.children|
    requires ParsedChildren(Emit(n), 3 + k - 1) == seq(k - 1, i requires 0 <= i < k - 1 => Described(n.children[i]))
    requires ParseJtrElement(Emit(n.children[k - 1])) == Described(n.children[k - 1])
    ensures ParsedChildren(Emit(n), 3 + k) == seq(k, i requires 0 <= i < k => Described(n.children[i]))
  {
    var e := Emit(n);
    assert e.children[3 + k - 1] == Emit(n.children[k - 1]);
    ParsedChildrenSnoc(e, 3 + k, Described(n.children[k - 1]));
    DescribedSnoc(n.children, k);
  }

  /** Children that read back as their descriptions give the first `k` described children, counted up to `3 + k`. */
  lemma {:induction false} EmittedChildren(n: JtrNode, k: nat)
    requires k <= |n.children|
    requires forall i :: 0 <= i < |n.children| ==> ParseJtrElement(Emit(n.children[i])) == Described(n.children[i])
    ensures ParsedChildren(Emit(n), 3 + k) == seq(k, i requires 0 <= i < k => Described(n.children[i]))
    decreases k
  {
    if k == 0 {
      EmittedChildrenStart(n);
    } else {
      EmittedChildren(n, k - 1);
      EmittedChildrenStep(n, k);
    }
  }

  lemma Snoc<T>(s: seq<T>)
    requires |s| > 0
    ensures s == s[..|s| - 1] + [s[|s| - 1]]
  {
  }

  /** Every scalar entry read from `e` is the one `d` holds. */
  predicate ScalarsAgree(e: Element, d: SchemaNode) {
    OptText(e, "N") == d.name && OptText(e, "NS") == d.namespace
    && MinOccursOf(e) == d.minOccurs && MaxOccursOf(e) == d.maxOccurs
    && OptText(e, "T") == d.typeName && OptText(e, "DT") == d.dataType
    && FlagOf(e, "NIL") == d.nillable && FlagOf(e, "ATR") == d.isAttribute && OptText(e, "DV") == d.defaultValue
    && IntOf(e, "I") == d.index && IntOf(e, "L") == d.level && IntOf(e, "BG") == d.begin && IntOf(e, "EN") == d.end
  }

  /** The scalar entries read back from an emitted node are the node's name and bounds and nothing else. */
  lemma EmittedScalars(n: JtrNode)
    requires n.name != ""
    ensures ScalarsAgree(Emit(n), Described(n))
  {
    EmittedTexts(n);
    EmittedBounds(n);
  }

  /** An element whose field readers and parsed children agree with `d` parses to `d`. */
  lemma ParsedFromParts(e: Element, d: SchemaNode)
    requires ScalarsAgree(e, d) && ParsedChildren(e, |e.children|) == d.children
    ensures ParseJtrElement(e) == d
  {
  }

  /** Reading the JTR element written for a named node gives back the node. */
  lemma {:induction false} ParseEmit(n: JtrNode)
    requires Named(n)
    ensures ParseJtrElement(Emit(n)) == Described(n)
    decreases n
  {
    forall i | 0 <= i < |n.children|
      ensures ParseJtrElement(Emit(n.children[i])) == Described(n.children[i])
    {
      ParseEmit(n.children[i]);
    }
    EmittedScalars(n);
    EmittedChildren(n, |n.children|);
    ParsedFromParts(Emit(n), Described(n));
  }

  // ---------------------------------------------------------------------
  // Activity schema options
  // ---------------------------------------------------------------------

  /** The end of the run of non-whitespace characters starting at `i`. */
  function WordEnd(s: string, i: nat): (k: nat)
    requires i <= |s|
    ensures i <= k <= |s|
    ensures forall j :: i <= j < k ==> !IsSpace(s[j])
    ensures k < |s| ==> IsSpace(s[k])
    decreases |s| - i
  {
    if i == |s| || IsSpace(s[i]) then i else WordEnd(s, i + 1)
  }

  /** Python `s.split()`: the maximal runs of non-whitespace characters. */
  function Words(s: string): (r: seq<string>)
    ensures forall i :: 0 <= i < |r| ==> |r[i]| > 0 && forall j :: 0 <= j < |r[i]| ==> !IsSpace(r[i][j])
    ensures |r| == 0 <==> forall j :: 0 <= j < |s| ==> IsSpace(s[j])
    decreases |s|
  {
    if |s| == 0 then []
    else if IsSpace(s[0]) then Words(s[1..])
    else
      var k := WordEnd(s, 0);
      [s[..k]] + Words(s[k..])
  }

  predicate IsWord(w: string) {
    |w| > 0 && forall j :: 0 <= j < |w| ==> !IsSpace(w[j])
  }

  lemma WordEndAppend(p: string, w: string, i: nat)
    requires IsWord(w) && i <= |p|
    ensures WordEnd(p + " " + w, i) == WordEnd(p, i)
    decreases |p| - i
  {
    var s := p + " " + w;
    assert s[|p|] == ' ';
    if i < |p| && !IsSpace(p[i]) {
      assert s[i] == p[i];
      WordEndAppend(p, w, i + 1);
    }
  }

  lemma WordsOfWord(w: string)
    requires IsWord(w)
    ensures Words(w) == [w]
  {
    var k := WordEnd(w, 0);
    assert k == |w|;
    assert w[..k] == w && w[k..] == [];
  }

  /** A word appended after a space becomes the last part of `split()`. */
  lemma {:induction false} WordsSnoc(p: string, w: string)
    requires IsWord(w)
    ensures Words(p + " " + w) == Words(p) + [w]
    decreases |p|
  {
    var s := p + " " + w;
    if |p| == 0 {
      assert s[1..] == w;
      WordsOfWord(w);
    } else if IsSpace(p[0]) {
      assert s[1..] == p[1..] + " " + w;
      WordsSnoc(p[1..], w);
    } else {
      var k := WordEnd(p, 0);
      WordEndAppend(p, w, 0);
      assert s[..k] == p[..k];
      assert s[k..] == p[k..] + " " + w;
      WordsSnoc(p[k..], w);
    }
  }

  /** `f"{value}"` for the scalar values an activity holds. */
  function Format(v: Json): string {
    match v
    case Str(s) => s
    case Num(n) => IntToString(n)
    case Null => "None"
    case Bool(b) => if b then "True" else "False"
    case _ => ""
  }

  /** The object name: `objectName`, else the last word of a name of two or more words, else `Object`. */
  function ObjectName(activity: Json): (r: string)
    ensures r != ""  || Truthy(Get(activity, "objectName"))
  {
    var objectName := Get(activity, "objectName");
    if Truthy(objectName) then Format(objectName)
    else
      var name := GetOr(activity, "name", Str(""));
      if Truthy(name) then
        var parts := Words(AsStr(name));
        if |parts| >= 2 then parts[|parts| - 1] else "Object"
      else "Object"
  }

  /** The root element name, written `{namespace}name` when both are given. */
  function RootName(rootElementName: string, rootNamespace: string): (r: string)
    ensures IsSuffix(rootElementName, r)
    ensures rootNamespace != "" && rootElementName != "" ==> IsPrefix("{" + rootNamespace + "}", r)
    ensures rootNamespace == "" || rootElementName == "" ==> r == rootElementName
  {
    if rootNamespace != "" && rootElementName != "" then "{" + rootNamespace + "}" + rootElementName
    else rootElementName
  }

  function XsdBase(activity: Json): string {
    "jitterbit." + Format(GetOr(activity, "adapterId", Str(""))) + "." + Format(GetOr(activity, "id", Str("")))
      + "." + Format(GetOr(activity, "functionName", Str(""))) + "_" + ObjectName(activity)
  }

  const OFieldKeys: set<string> := {"requestStructureFilePath", "requestRootName", "responseStructureFilePath", "responseRootName", "contentType"}

  /** `_generate_activity_schema_o_field`. */
  function ActivitySchemaOField(activity: Json, direction: string, rootElementName: string, rootNamespace: string): (r: Json)
    ensures r.Obj? && r.fields.Keys == OFieldKeys
    ensures r.fields["requestStructureFilePath"] == r.fields["responseStructureFilePath"]
    ensures IsSuffix(".request.xsd", AsStr(r.fields["requestStructureFilePath"]))
    ensures IsPrefix("jitterbit.", AsStr(r.fields["requestStructureFilePath"]))
    ensures Truthy(r.fields["requestRootName"]) ==> direction == "input"
    ensures Truthy(r.fields["responseRootName"]) ==> direction == "output"
    ensures direction == "input" ==> r.fields["requestRootName"] == Str(RootName(rootElementName, rootNamespace))
    ensures direction == "output" ==> r.fields["responseRootName"] == Str(RootName(rootElementName, rootNamespace))
    ensures r.fields["contentType"] == Str("xml")
  {
    var path := XsdBase(activity) + ".request.xsd";
    var root := RootName(rootElementName, rootNamespace);
    Obj(map[
      "requestStructureFilePath" := Str(path),
      "requestRootName" := Str(if direction == "input" then root else ""),
      "responseStructureFilePath" := Str(path),
      "responseRootName" := Str(if direction == "output" then root else ""),
      "contentType" := Str("xml")])
  }

  /** Without an object name, the last word of a multi-word activity name is used: `NetSuite Upsert Contact` gives `Contact`. */
  lemma ObjectFromName(activity: Json, p: string, w: string)
    requires activity.Obj? && !Truthy(Get(activity, "objectName"))
    requires Get(activity, "name") == Str(p + " " + w)
    requires IsWord(w) && exists j :: 0 <= j < |p| && !IsSpace(p[j])
    ensures ObjectName(activity) == w
  {
    WordsSnoc(p, w);
    var parts := Words(p + " " + w);
    assert |Words(p)| > 0;
    assert parts[|parts| - 1] == w;
    assert GetOr(activity, "name", Str("")) == Str(p + " " + w);
  }

  /** The object name ends both file paths, before `.request.xsd`. */
  lemma ObjectNameInPath(activity: Json, direction: string, root: string, ns: string)
    ensures IsSuffix("_" + ObjectName(activity) + ".request.xsd",
                     AsStr(ActivitySchemaOField(activity, direction, root, ns).fields["requestStructureFilePath"]))
  {
    var a := "jitterbit." + Format(GetOr(activity, "adapterId", Str(""))) + "." + Format(GetOr(activity, "id", Str("")))
      + "." + Format(GetOr(activity, "functionName", Str("")));
    var suffix := "_" + ObjectName(activity) + ".request.xsd";
    var path := XsdBase(activity) + ".request.xsd";
    assert path == a + suffix;
    assert path[|path| - |suffix|..] == suffix;
  }

  /** Without an object name and without a second word, the object is `Object`. */
  lemma ObjectFallback(activity: Json)
    requires !Truthy(Get(activity, "objectName"))
    requires |Words(AsStr(GetOr(activity, "name", Str(""))))| < 2
    ensures ObjectName(activity) == "Object"
  {
  }
}
