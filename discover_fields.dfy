/**
 * Field trees of the transformation discovery tool: parsing the CROM
 * elements of a JTR type library into fields, re-pathing the children a
 * type definition lends to a field, the flat (`Type="Text"`) JTR schema,
 * the field structure built from a Salesforce query, and counting fields.
 */
module DiscoveryFields {
  import opened Wrappers
  import opened Strings
  import opened XmlTrees
  import opened StringOrder

  /** The `Xml` child of a CROM element: `xml_type`, `min_occurs`, `max_occurs`, `namespace`. */
  datatype XmlInfo = XmlInfo(xmlType: Option<string>, minOccurs: Option<string>, maxOccurs: Option<string>, namespace: Option<string>)

  /** The first `Attr` below a CROM element: `value_type` and, when it has a domain, `domain_values`. */
  datatype AttrInfo = AttrInfo(valueType: Option<string>, domainValues: Option<seq<string>>)

  /** A field definition: `name`, `path`, `type`, the optional metadata and `children`. */
  datatype Field = Field(name: string, path: string, fieldType: Option<string>, xml: Option<XmlInfo>, attr: Option<AttrInfo>, children: seq<Field>)

  /** At most this many domain values are kept. */
  const DomainLimit: nat := 10

  // ---------------------------------------------------------------------
  // Counting fields
  // ---------------------------------------------------------------------

  /** The fields of a forest in pre-order: each field, then its subtree. */
  function Flatten(fields: seq<Field>): (r: seq<Field>)
    ensures |r| >= |fields|
    decreases fields
  {
    if |fields| == 0 then [] else [fields[0]] + Flatten(fields[0].children) + Flatten(fields[1..])
  }

  lemma {:induction false} FlattenAppend(a: seq<Field>, b: seq<Field>)
    ensures Flatten(a + b) == Flatten(a) + Flatten(b)
    decreases a
  {
    if |a| > 0 {
      assert (a + b)[1..] == a[1..] + b;
      FlattenAppend(a[1..], b);
    } else {
      assert a + b == b;
    }
  }

  /** `count_all_fields`: the fields of the list plus, for each, the count of its children. */
  method CountAllFields(fields: seq<Field>) returns (count: nat)
    ensures count == |Flatten(fields)|
    decreases fields
  {
    count := |fields|;
    for i := 0 to |fields|
      invariant count == |fields| - i + |Flatten(fields[..i])|
    {
      assert fields[..i + 1] == fields[..i] + [fields[i]];
      FlattenAppend(fields[..i], [fields[i]]);
      assert Flatten([fields[i]]) == [fields[i]] + Flatten(fields[i].children) by {
        assert [fields[i]][1..] == [];
      }
      if |fields[i].children| > 0 {
        var sub := CountAllFields(fields[i].children);
        count := count + sub;
      }
    }
    assert fields[..|fields|] == fields;
  }

  // ---------------------------------------------------------------------
  // CROM elements
  // ---------------------------------------------------------------------

  /** `f"{path}.{name}" if path else name`. */
  function ChildPath(path: string, name: string): string {
    if path == "" then name else path + "." + name
  }

  /** `domain.split('|')[:10]`. */
  function DomainValues(domain: string): (r: seq<string>)
    ensures |r| <= DomainLimit
    ensures |r| == if |Split(domain, '|')| <= DomainLimit then |Split(domain, '|')| else DomainLimit
    ensures r == Split(domain, '|')[..|r|]
    ensures |Split(domain, '|')| <= DomainLimit ==> Join(r, '|') == domain
  {
    var parts := Split(domain, '|');
    JoinSplit(domain, '|');
    if |parts| <= DomainLimit then parts else parts[..DomainLimit]
  }

  /** The metadata of the `Xml` child, if there is one. */
  function XmlInfoOf(e: Element): Option<XmlInfo> {
    match FindChild(e, "Xml")
    case None => None
    case Some(x) => Some(XmlInfo(AttrOpt(x, "Type"), AttrOpt(x, "Min"), AttrOpt(x, "Max"), AttrOpt(x, "NS")))
  }

  /** The metadata of the first `Attr` anywhere below the element (`.//Attr`), if there is one. */
  function AttrInfoOf(e: Element): (r: Option<AttrInfo>)
    ensures r.Some? && r.value.domainValues.Some? ==> |r.value.domainValues.value| <= DomainLimit
    ensures r.Some? <==> FindDescendant(e, "Attr").Some?
  {
    match FindDescendant(e, "Attr")
    case None => None
    case Some(a) =>
      var domain := Attr(a, "Domain", "");
      Some(AttrInfo(AttrOpt(a, "ValType"), if domain != "" then Some(DomainValues(domain)) else None))
  }

  /** A CROM child the parser descends into: a non-empty `Name` not starting with `xsi:`. */
  predicate KeptChild(c: Element) {
    var name := Attr(c, "Name", "");
    name != "" && !IsPrefix("xsi:", name)
  }

  /** `parse_crom_element(e, path)`: `None` for an element without a (non-empty) `Name`. */
  function CromField(e: Element, path: string): (r: Option<Field>)
    ensures r.None? <==> Attr(e, "Name", "") == ""
    ensures r.Some? ==> r.value.name == Attr(e, "Name", "") && r.value.path == ChildPath(path, r.value.name)
    decreases e, |e.children| + 1
  {
    var name := Attr(e, "Name", "");
    if name == "" then None
    else
      var current := ChildPath(path, name);
      var crom := FindChildren(e, "CROM");
      Some(Field(name, current, AttrOpt(e, "Type"), XmlInfoOf(e), AttrInfoOf(e), ChildFields(e, crom, current)))
  }

  /** The fields of the kept CROM children in `cs`, in order. */
  function ChildFields(parent: Element, cs: seq<Element>, path: string): (r: seq<Field>)
    requires forall c :: c in cs ==> c in parent.children
    ensures |r| <= |cs|
    decreases parent, |cs|
  {
    if |cs| == 0 then []
    else
      var init := ChildFields(parent, cs[..|cs| - 1], path);
      var last := cs[|cs| - 1];
      assert last in parent.children;
      if KeptChild(last) then
        match CromField(last, path)
        case Some(f) => init + [f]
        case None => init
      else init
  }

  /** `parse_crom_element`, child by child. */
  method ParseCromElement(e: Element, path: string) returns (r: Option<Field>)
    ensures r == CromField(e, path)
    decreases e
  {
    var name := Attr(e, "Name", "");
    if name == "" {
      return None;
    }
    var current := ChildPath(path, name);
    var crom := FindChildren(e, "CROM");
    var children: seq<Field> := [];
    for i := 0 to |crom|
      invariant children == ChildFields(e, crom[..i], current)
    {
      assert crom[..i + 1][..i] == crom[..i];
      var child := crom[i];
      assert child in e.children;
      if KeptChild(child) {
        var childDef := ParseCromElement(child, current);
        if childDef.Some? {
          children := children + [childDef.value];
        }
      }
    }
    assert crom[..|crom|] == crom;
    r := Some(Field(name, current, AttrOpt(e, "Type"), XmlInfoOf(e), AttrInfoOf(e), children));
  }

  /**
   * What the CROM parser builds: every child's path extends its parent's
   * with a dot and the child's name, no child is an `xsi:` attribute, every
   * name is non-empty and no field keeps more than ten domain values.
   */
  predicate WellFormedField(f: Field)
    decreases f
  {
    f.name != "" &&
    (f.attr.Some? && f.attr.value.domainValues.Some? ==> |f.attr.value.domainValues.value| <= DomainLimit) &&
    forall c :: c in f.children ==>
      c.path == f.path + "." + c.name && !IsPrefix("xsi:", c.name) && WellFormedField(c)
  }

  /** Each child field comes from a kept CROM child of the list. */
  lemma {:induction false} ChildFieldsFrom(parent: Element, cs: seq<Element>, path: string, f: Field)
    requires forall c :: c in cs ==> c in parent.children
    requires f in ChildFields(parent, cs, path)
    ensures exists c :: c in cs && KeptChild(c) && CromField(c, path) == Some(f)
    decreases |cs|
  {
    var init := cs[..|cs| - 1];
    var last := cs[|cs| - 1];
    if f in ChildFields(parent, init, path) {
      ChildFieldsFrom(parent, init, path, f);
      var c :| c in init && KeptChild(c) && CromField(c, path) == Some(f);
      assert c in cs;
    } else {
      assert last in cs;
    }
  }

  /** `parse_crom_element` yields only well-formed fields. */
  lemma {:induction false} CromFieldWellFormed(e: Element, path: string)
    requires CromField(e, path).Some?
    ensures WellFormedField(CromField(e, path).value)
    decreases e
  {
    var f := CromField(e, path).value;
    var crom := FindChildren(e, "CROM");
    forall c | c in f.children
      ensures c.path == f.path + "." + c.name && !IsPrefix("xsi:", c.name) && WellFormedField(c)
    {
      ChildFieldsFrom(e, crom, f.path, c);
      var x :| x in crom && KeptChild(x) && CromField(x, f.path) == Some(c);
      assert x in e.children;
      CromFieldWellFormed(x, f.path);
    }
  }

  /** Every kept CROM child contributes exactly one field, in document order. */
  lemma {:induction false} ChildFieldsCount(parent: Element, cs: seq<Element>, path: string)
    requires forall c :: c in cs ==> c in parent.children
    ensures |ChildFields(parent, cs, path)| == |KeptChildren(cs)|
    ensures forall i :: 0 <= i < |KeptChildren(cs)| ==>
      CromField(KeptChildren(cs)[i], path) == Some(ChildFields(parent, cs, path)[i])
    decreases |cs|
  {
    if |cs| > 0 {
      ChildFieldsCount(parent, cs[..|cs| - 1], path);
    }
  }

  /** The kept children of a list, in order. */
  function KeptChildren(cs: seq<Element>): (r: seq<Element>)
    ensures forall c :: c in r ==> c in cs && KeptChild(c)
  {
    if |cs| == 0 then []
    else
      var init := KeptChildren(cs[..|cs| - 1]);
      var last := cs[|cs| - 1];
      assert forall c :: c in cs[..|cs| - 1] ==> c in cs;
      if KeptChild(last) then init + [last] else init
  }

  /** The kept children of a concatenation are those of each part: document order is kept. */
  lemma {:induction false} KeptChildrenAppend(a: seq<Element>, b: seq<Element>)
    ensures KeptChildren(a + b) == KeptChildren(a) + KeptChildren(b)
    decreases |b|
  {
    if |b| == 0 {
      assert a + b == a;
    } else {
      var b' := b[..|b| - 1];
      assert (a + b)[..|a + b| - 1] == a + b';
      KeptChildrenAppend(a, b');
    }
  }

  // ---------------------------------------------------------------------
  // Children lent by type definitions
  // ---------------------------------------------------------------------

  /** The `xml_type` of a field, when it has a non-empty one. */
  function XmlTypeOf(f: Field): Option<string> {
    if f.xml.Some? && f.xml.value.xmlType.Some? && f.xml.value.xmlType.value != "" then f.xml.value.xmlType else None
  }

  /**
   * `resolve_child_with_path(child, parent_path, type_defs)`: the child with
   * its path under `parent_path` and its own children, or (when it has
   * none) those of the type definition its `xml_type` names, re-pathed in
   * turn. A type whose children refer back to it makes the Python recursion
   * run until Python gives up: `depth` is how many nested calls are left
   * before that `RecursionError`, modelled as `Err`.
   */
  function ResolveChild(child: Field, parentPath: string, typeDefs: map<string, Field>, depth: nat): (r: Result<Field>)
    ensures r.Ok? ==> r.value.name == child.name && r.value.path == parentPath + "." + child.name
    ensures depth == 0 ==> r.Err?
    decreases depth, 0
  {
    if depth == 0 then Err("RecursionError")
    else
      var path := parentPath + "." + child.name;
      if |child.children| > 0 then
        match ResolveAll(child.children, path, typeDefs, depth - 1)
        case Err(e) => Err(e)
        case Ok(cs) => Ok(child.(path := path, children := cs))
      else
        var xmlType := XmlTypeOf(child);
        if xmlType.Some? && xmlType.value in typeDefs && |typeDefs[xmlType.value].children| > 0 then
          match ResolveAll(typeDefs[xmlType.value].children, path, typeDefs, depth - 1)
          case Err(e) => Err(e)
          case Ok(cs) => Ok(child.(path := path, children := cs))
        else Ok(child.(path := path))
  }

  /** The children resolved one by one, in order; the first failure is the result. */
  function ResolveAll(cs: seq<Field>, path: string, typeDefs: map<string, Field>, depth: nat): (r: Result<seq<Field>>)
    ensures r.Ok? ==> |r.value| == |cs|
    ensures r.Ok? ==> forall i :: 0 <= i < |cs| ==> ResolveChild(cs[i], path, typeDefs, depth) == Ok(r.value[i])
    decreases depth, 1, |cs|
  {
    if |cs| == 0 then Ok([])
    else
      match ResolveAll(cs[..|cs| - 1], path, typeDefs, depth)
      case Err(e) => Err(e)
      case Ok(init) =>
        match ResolveChild(cs[|cs| - 1], path, typeDefs, depth)
        case Err(e) => Err(e)
        case Ok(f) => Ok(init + [f])
  }

  /** `resolve_child_with_path`, grandchild by grandchild. */
  method ResolveChildWithPath(child: Field, parentPath: string, typeDefs: map<string, Field>, depth: nat) returns (r: Result<Field>)
    ensures r == ResolveChild(child, parentPath, typeDefs, depth)
    decreases depth, 0
  {
    if depth == 0 {
      return Err("RecursionError");
    }
    var path := parentPath + "." + child.name;
    var source := child.children;
    var xmlType := XmlTypeOf(child);
    if |child.children| == 0 {
      if xmlType.Some? && xmlType.value in typeDefs && |typeDefs[xmlType.value].children| > 0 {
        source := typeDefs[xmlType.value].children;
      } else {
        return Ok(child.(path := path));
      }
    }
    var resolved := ResolveEach(source, path, typeDefs, depth - 1);
    match resolved
    case Err(e) => r := Err(e);
    case Ok(cs) => r := Ok(child.(path := path, children := cs));
  }

  /** The loop over the children of `resolve_child_with_path`. */
  method ResolveEach(cs: seq<Field>, path: string, typeDefs: map<string, Field>, depth: nat) returns (r: Result<seq<Field>>)
    ensures r == ResolveAll(cs, path, typeDefs, depth)
    decreases depth, 1
  {
    var children: seq<Field> := [];
    for i := 0 to |cs|
      invariant ResolveAll(cs[..i], path, typeDefs, depth) == Ok(children)
    {
      assert cs[..i + 1][..i] == cs[..i];
      var resolved := ResolveChildWithPath(cs[i], path, typeDefs, depth);
      if resolved.Err? {
        ResolveAllPrefixErr(cs, i + 1, path, typeDefs, depth);
        return Err(resolved.msg);
      }
      children := children + [resolved.value];
    }
    assert cs[..|cs|] == cs;
    r := Ok(children);
  }

  /** Once a prefix of the children fails, the whole list fails the same way. */
  lemma {:induction false} ResolveAllPrefixErr(cs: seq<Field>, n: nat, path: string, typeDefs: map<string, Field>, depth: nat)
    requires n <= |cs| && ResolveAll(cs[..n], path, typeDefs, depth).Err?
    ensures ResolveAll(cs, path, typeDefs, depth) == ResolveAll(cs[..n], path, typeDefs, depth)
    decreases |cs| - n
  {
    if n < |cs| {
      assert cs[..n + 1][..n] == cs[..n];
      ResolveAllPrefixErr(cs, n + 1, path, typeDefs, depth);
    } else {
      assert cs[..n] == cs;
    }
  }

  /** Every child's path extends its parent's by a dot and the child's name, all the way down. */
  predicate PathsConsistent(f: Field)
    decreases f
  {
    forall c :: c in f.children ==> c.path == f.path + "." + c.name && PathsConsistent(c)
  }

  /** A resolved field has consistent paths throughout, whatever paths the input carried. */
  lemma {:induction false} ResolvedPathsConsistent(child: Field, parentPath: string, typeDefs: map<string, Field>, depth: nat)
    requires ResolveChild(child, parentPath, typeDefs, depth).Ok?
    ensures PathsConsistent(ResolveChild(child, parentPath, typeDefs, depth).value)
    decreases depth
  {
    var f := ResolveChild(child, parentPath, typeDefs, depth).value;
    forall c | c in f.children
      ensures c.path == f.path + "." + c.name && PathsConsistent(c)
    {
      var source := if |child.children| > 0 then child.children else typeDefs[XmlTypeOf(child).value].children;
      if f.children != child.children || |child.children| > 0 {
        var i :| 0 <= i < |f.children| && f.children[i] == c;
        assert ResolveChild(source[i], f.path, typeDefs, depth - 1) == Ok(c);
        ResolvedPathsConsistent(source[i], f.path, typeDefs, depth - 1);
      }
    }
  }

  /** The height of a field tree: 1 for a leaf. */
  function Height(f: Field): (h: nat)
    ensures h >= 1
    ensures forall c :: c in f.children ==> Height(c) < h
    decreases f
  {
    1 + MaxHeight(f.children)
  }

  function MaxHeight(cs: seq<Field>): (h: nat)
    ensures forall c :: c in cs ==> Height(c) <= h
    decreases cs
  {
    if |cs| == 0 then 0
    else
      var h1 := Height(cs[|cs| - 1]);
      var h2 := MaxHeight(cs[..|cs| - 1]);
      assert forall c :: c in cs ==> c in cs[..|cs| - 1] || c == cs[|cs| - 1];
      if h1 < h2 then h2 else h1
  }

  /** The field moved under `parentPath`, with every descendant's path rebuilt from the names. */
  function Repath(f: Field, parentPath: string): (r: Field)
    decreases f
  {
    var path := parentPath + "." + f.name;
    f.(path := path, children := seq(|f.children|, i requires 0 <= i < |f.children| => Repath(f.children[i], path)))
  }

  /**
   * Without type definitions, resolving only re-paths the tree, as long as
   * the tree is shallower than the recursion allowance.
   */
  lemma {:induction false} ResolveWithoutTypes(child: Field, parentPath: string, depth: nat)
    requires depth >= Height(child)
    ensures ResolveChild(child, parentPath, map[], depth) == Ok(Repath(child, parentPath))
    decreases child
  {
    var path := parentPath + "." + child.name;
    if |child.children| > 0 {
      forall i | 0 <= i < |child.children|
        ensures ResolveChild(child.children[i], path, map[], depth - 1) == Ok(Repath(child.children[i], path))
      {
        assert child.children[i] in child.children;
        ResolveWithoutTypes(child.children[i], path, depth - 1);
      }
      ResolveAllOk(child.children, path, map[], depth - 1);
      var cs := ResolveAll(child.children, path, map[], depth - 1).value;
      assert cs == seq(|child.children|, i requires 0 <= i < |child.children| => Repath(child.children[i], path));
      assert ResolveChild(child, parentPath, map[], depth) == Ok(child.(path := path, children := cs));
    } else {
      var noTypes: map<string, Field> := map[];
      assert XmlTypeOf(child).None? || XmlTypeOf(child).value !in noTypes;
      assert Repath(child, parentPath).children == [] == child.children;
    }
  }

  /** A list whose children all resolve resolves. */
  lemma {:induction false} ResolveAllOk(cs: seq<Field>, path: string, typeDefs: map<string, Field>, depth: nat)
    requires forall i :: 0 <= i < |cs| ==> ResolveChild(cs[i], path, typeDefs, depth).Ok?
    ensures ResolveAll(cs, path, typeDefs, depth).Ok?
    decreases |cs|
  {
    if |cs| > 0 {
      ResolveAllOk(cs[..|cs| - 1], path, typeDefs, depth);
    }
  }

  // ---------------------------------------------------------------------
  // Flat JTR schemas
  // ---------------------------------------------------------------------

  /** What `parse_jtr_xml` returns: `field_count`, `fields`, `is_flat`, `flat_fields`. */
  datatype JtrSchema = JtrSchema(fieldCount: nat, fields: seq<Field>, isFlat: bool, flatFields: seq<string>)

  /** The non-empty `Name` attributes of a list of elements, in order. */
  function NamesOf(es: seq<Element>): (r: seq<string>)
    ensures forall n :: n in r <==> n != "" && exists e :: e in es && AttrOpt(e, "Name") == Some(n)
  {
    if |es| == 0 then []
    else
      var init := NamesOf(es[..|es| - 1]);
      var last := es[|es| - 1];
      assert forall e :: e in es <==> e in es[..|es| - 1] || e == last;
      var name := Attr(last, "Name", "");
      if name != "" then
        assert AttrOpt(last, "Name") == Some(name);
        init + [name]
      else init
  }

  /** The names of a concatenation are the names of each part: document order and repeats are kept. */
  lemma {:induction false} NamesOfAppend(a: seq<Element>, b: seq<Element>)
    ensures NamesOf(a + b) == NamesOf(a) + NamesOf(b)
    decreases |b|
  {
    if |b| == 0 {
      assert a + b == a;
    } else {
      var b' := b[..|b| - 1];
      assert (a + b)[..|a + b| - 1] == a + b';
      NamesOfAppend(a, b');
    }
  }

  /** `parse_jtr_xml` on a root with `Type="Text"`; `None` for the structured roots this model leaves out. */
  method ParseFlatJtr(root: Element) returns (r: Option<JtrSchema>)
    ensures r.Some? <==> Attr(root, "Type", "") == "Text"
    ensures r.Some? ==>
      (r.value.isFlat && r.value.fields == [] &&
       r.value.flatFields == NamesOf(FindDescendants(root, "CROM")) && r.value.fieldCount == |r.value.flatFields|)
  {
    if Attr(root, "Type", "") != "Text" {
      return None;
    }
    var crom := FindDescendants(root, "CROM");
    var flatFields: seq<string> := [];
    for i := 0 to |crom|
      invariant flatFields == NamesOf(crom[..i])
    {
      assert crom[..i + 1][..i] == crom[..i];
      var fieldName := Attr(crom[i], "Name", "");
      if fieldName != "" {
        flatFields := flatFields + [fieldName];
      }
    }
    assert crom[..|crom|] == crom;
    r := Some(JtrSchema(|flatFields|, [], true, flatFields));
  }

  // ---------------------------------------------------------------------
  // Salesforce query fields
  // ---------------------------------------------------------------------

  /** The Salesforce query data the builder reads: `fields`, `object_name`, `field_count`. */
  datatype SfQuery = SfQuery(fields: seq<string>, objectName: string, fieldCount: int)

  /** The structure built from it: `field_count`, `fields` and the `salesforce_metadata` pair. */
  datatype SfStructure = SfStructure(fieldCount: nat, fields: seq<Field>, metadataObjectName: string, metadataFieldCount: int)

  /** The node of one queried field under the object. */
  function SalesforceLeaf(objectName: string, fieldName: string): Field {
    Field(fieldName, objectName + "." + fieldName, Some("salesforce_field"), None, None, [])
  }

  /** `build_salesforce_field_structure`. */
  method BuildSalesforceFieldStructure(data: Option<SfQuery>, objectName: string) returns (r: Option<SfStructure>)
    ensures r.None? <==> data.None? || |data.value.fields| == 0
    ensures r.Some? ==>
      var sorted := SortStrings(data.value.fields);
      r.value.fieldCount == |data.value.fields| + 1 &&
      r.value.fields == [Field(objectName, objectName, Some("salesforce_object"), None, None,
                               seq(|sorted|, i requires 0 <= i < |sorted| => SalesforceLeaf(objectName, sorted[i])))] &&
      r.value.metadataObjectName == data.value.objectName && r.value.metadataFieldCount == data.value.fieldCount
  {
    if data.None? || |data.value.fields| == 0 {
      return None;
    }
    var sorted := SortStrings(data.value.fields);
    var children: seq<Field> := [];
    for i := 0 to |sorted|
      invariant children == seq(i, k requires 0 <= k < i => SalesforceLeaf(objectName, sorted[k]))
    {
      children := children + [SalesforceLeaf(objectName, sorted[i])];
    }
    var root := Field(objectName, objectName, Some("salesforce_object"), None, None, children);
    r := Some(SfStructure(|data.value.fields| + 1, [root], data.value.objectName, data.value.fieldCount));
  }

  /**
   * The Salesforce structure is consistent with the rest of the tool: its
   * `field_count` is what `count_all_fields` gives for its fields, and its
   * paths are consistent.
   */
  lemma SalesforceStructureConsistent(fieldNames: seq<string>, objectName: string)
    requires |fieldNames| > 0
    ensures var sorted := SortStrings(fieldNames);
      var children := seq(|sorted|, i requires 0 <= i < |sorted| => SalesforceLeaf(objectName, sorted[i]));
      var root := Field(objectName, objectName, Some("salesforce_object"), None, None, children);
      |Flatten([root])| == |fieldNames| + 1 && PathsConsistent(root)
  {
    var sorted := SortStrings(fieldNames);
    var children := seq(|sorted|, i requires 0 <= i < |sorted| => SalesforceLeaf(objectName, sorted[i]));
    LeavesFlatten(children);
    assert |sorted| == |multiset(sorted)| == |fieldNames|;
    assert [Field(objectName, objectName, Some("salesforce_object"), None, None, children)][1..] == [];
  }

  /** A forest of leaves flattens to itself. */
  lemma {:induction false} LeavesFlatten(fields: seq<Field>)
    requires forall f :: f in fields ==> f.children == []
    ensures |Flatten(fields)| == |fields|
    decreases |fields|
  {
    if |fields| > 0 {
      assert fields[0] in fields;
      assert forall f :: f in fields[1..] ==> f in fields;
      LeavesFlatten(fields[1..]);
    }
  }
}
