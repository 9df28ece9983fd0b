/**
 * The XSD parser's field builder and schema-document assembly: the named
 * `xs:element` nodes of a parsed XSD become numbered field dicts (`N`, `T`,
 * `MN`, `MX`, `NIL`, `I`, `L`, and `C` for a complex type's own elements),
 * and a schema document wraps a chosen root field, or a fallback root with
 * `Id` and `Name` children when there is no field list. Reading the XSD from
 * the archive is not modelled; the parsed element tree is the input.
 */
module XsdParsing {
  import opened Wrappers
  import opened Strings
  import opened JsonValues
  import opened XmlTrees

  const XsElement := "{http://www.w3.org/2001/XMLSchema}element"
  const XsComplexType := "{http://www.w3.org/2001/XMLSchema}complexType"

  /** `_extract_type`: the text after the last `:`, or `string` for an empty attribute. */
  function ExtractType(typeAttr: string): (r: string)
    ensures typeAttr == "" ==> r == "string"
    ensures ':' !in r
  {
    if typeAttr != "" then
      var parts := Split(typeAttr, ':');
      parts[|parts| - 1]
    else "string"
  }

  /** A prefixed type name loses its prefix; an unprefixed one is kept. */
  lemma ExtractTypeNames(prefix: string, local: string)
    requires ':' !in prefix && ':' !in local
    ensures ExtractType(prefix + ":" + local) == (if local == "" then "" else local)
    ensures local != "" ==> ExtractType(local) == local
  {
    SplitPrefix(prefix, local, ':');
    SplitNoSep(local, ':');
    assert prefix + ":" + local == prefix + [':'] + local;
  }

  /** `_parse_max_occurs`: -1 for `unbounded`, the number for numeric text, and 1 otherwise. */
  function ParseMaxOccurs(maxOccurs: string): (r: int)
    ensures maxOccurs == "unbounded" ==> r == -1
    ensures maxOccurs != "unbounded" && ParseInt(maxOccurs).Some? ==> r == ParseInt(maxOccurs).value
    ensures maxOccurs != "unbounded" && ParseInt(maxOccurs).None? ==> r == 1
  {
    if maxOccurs == "unbounded" then -1
    else match ParseInt(maxOccurs)
      case Some(n) => n
      case None => 1
  }

  /** A decimal bound reads back as itself. */
  lemma MaxOccursRoundTrip(n: nat)
    ensures ParseMaxOccurs(NatToString(n)) == n
  {
    ParseNatToString(n);
    assert NatToString(n)[0] != 'u';
  }

  /** `element.get('name')` is truthy. */
  predicate IsNamed(e: Element) {
    Attr(e, "name", "") != ""
  }

  /** The named elements, in order. */
  function NamedElements(es: seq<Element>): (r: seq<Element>)
    ensures |r| <= |es|
    ensures forall x :: x in r ==> IsNamed(x)
  {
    if |es| == 0 then []
    else if IsNamed(es[|es| - 1]) then NamedElements(es[..|es| - 1]) + [es[|es| - 1]]
    else NamedElements(es[..|es| - 1])
  }

  /** The fields are numbered 1..n at `level`, named after the named elements in order. */
  predicate NumberedFields(fs: seq<Json>, named: seq<Element>, level: int) {
    |fs| == |named| &&
    forall k :: 0 <= k < |fs| ==> FieldNumbered(fs[k], Attr(named[k], "name", ""), k + 1, level)
  }

  /** Top-level fields are at level 2 and may carry children; complex-type children are at level 3. */
  function Rank(level: int): nat {
    if level == 2 then 1 else 0
  }

  /** A field dict; `C` is present only when there are children. */
  function FieldDict(name: string, typeName: string, minOccurs: int, maxOccurs: int, index: int, level: int, children: seq<Json>): (m: map<string, Json>)
    ensures ("C" in m) <==> |children| > 0
    ensures "N" in m && m["N"] == Str(name)
    ensures "I" in m && m["I"] == Num(index)
    ensures "L" in m && m["L"] == Num(level)
    ensures "NIL" in m && m["NIL"] == Bool(true)
    ensures "MX" in m && m["MX"] == Num(maxOccurs)
  {
    var m := map["N" := Str(name), "T" := Str(typeName), "MN" := Num(minOccurs), "MX" := Num(maxOccurs),
        "NIL" := Bool(true), "I" := Num(index), "L" := Num(level)];
    if |children| > 0 then m["C" := Arr(children)] else m
  }

  /** Whether a field dict has the numbering and name the builders promise. */
  predicate FieldNumbered(f: Json, name: string, index: int, level: int) {
    f.Obj? && Get(f, "I") == Num(index) && Get(f, "L") == Num(level)
    && Get(f, "N") == Str(name) && Get(f, "NIL") == Bool(true)
  }

  /**
   * The field dict of a named element with index `index`; `int()` of a
   * non-numeric `minOccurs` raises, which is the `Err` case.
   */
  function FieldFor(e: Element, index: int, level: int): (r: Result<Json>)
    ensures r.Ok? ==> FieldNumbered(r.value, Attr(e, "name", ""), index, level)
    ensures r.Ok? ==> Get(r.value, "MX") == Num(ParseMaxOccurs(Attr(e, "maxOccurs", "1")))
    ensures ParseInt(Attr(e, "minOccurs", "0")).None? ==> r.Err?
    decreases Rank(level), 0, 0
  {
    match ParseInt(Attr(e, "minOccurs", "0"))
    case None => Err("ValueError: invalid minOccurs")
    case Some(mn) =>
      var children := if level == 2 then ChildrenOf(e) else Ok([]);
      if children.Err? then Err(children.msg)
      else
        Ok(Obj(FieldDict(Attr(e, "name", ""), ExtractType(Attr(e, "type", "string")), mn,
          ParseMaxOccurs(Attr(e, "maxOccurs", "1")), index, level, children.value)))
  }

  /** The level-3 fields of the first complex type under `e`, or none. */
  function ChildrenOf(e: Element): Result<seq<Json>>
    decreases 0, 2, 0
  {
    match FindDescendant(e, XsComplexType)
    case None => Ok([])
    case Some(ct) => Fields(FindDescendants(ct, XsElement), 3)
  }

  /** The fields of the named elements, numbered from 1; the first failing element's error otherwise. */
  function Fields(es: seq<Element>, level: int): (r: Result<seq<Json>>)
    ensures r.Ok? ==> NumberedFields(r.value, NamedElements(es), level)
    decreases Rank(level), 1, |es|
  {
    if |es| == 0 then Ok([])
    else
      match Fields(es[..|es| - 1], level)
      case Err(msg) => Err(msg)
      case Ok(fs) =>
        var e := es[|es| - 1];
        if !IsNamed(e) then Ok(fs)
        else
          match FieldFor(e, |fs| + 1, level)
          case Err(msg) => Err(msg)
          case Ok(f) =>
            NumberedSnoc(fs, NamedElements(es[..|es| - 1]), f, e, level);
            Ok(fs + [f])
  }

  lemma NumberedSnoc(fs: seq<Json>, named: seq<Element>, f: Json, e: Element, level: int)
    requires NumberedFields(fs, named, level)
    requires FieldNumbered(f, Attr(e, "name", ""), |fs| + 1, level)
    ensures NumberedFields(fs + [f], named + [e], level)
  {
  }

  /** An error in a prefix of the elements is the error of the whole list. */
  lemma {:induction false} FieldsErrorPropagates(es: seq<Element>, k: nat, level: int)
    requires k <= |es| && Fields(es[..k], level).Err?
    ensures Fields(es, level) == Err(Fields(es[..k], level).msg)
    decreases |es|
  {
    if k < |es| {
      var init := es[..|es| - 1];
      assert init[..k] == es[..k];
      FieldsErrorPropagates(init, k, level);
    } else {
      assert es[..k] == es;
    }
  }

  /** `_extract_child_elements`: a loop with a `child_index` counter. */
  method ExtractChildElements(complexType: Element) returns (r: Result<seq<Json>>)
    ensures r == Fields(FindDescendants(complexType, XsElement), 3)
    ensures r.Ok? ==> NumberedFields(r.value, NamedElements(FindDescendants(complexType, XsElement)), 3)
  {
    var elements := FindDescendants(complexType, XsElement);
    r := BuildFields(elements, 3);
  }

  /** `_build_field_structure`: a loop with a `field_index` counter. */
  method BuildFieldStructure(elements: seq<Element>) returns (r: Result<seq<Json>>)
    ensures r == Fields(elements, 2)
    ensures r.Ok? ==> NumberedFields(r.value, NamedElements(elements), 2)
  {
    r := BuildFields(elements, 2);
  }

  /** The counter loop shared by both builders. */
  method BuildFields(elements: seq<Element>, level: int) returns (r: Result<seq<Json>>)
    ensures r == Fields(elements, level)
  {
    var fields: seq<Json> := [];
    var index := 1;
    for i := 0 to |elements|
      invariant Fields(elements[..i], level) == Ok(fields)
      invariant index == |fields| + 1
    {
      var e := elements[i];
      assert elements[..i + 1][..i] == elements[..i];
      if Attr(e, "name", "") != "" {
        var f := FieldFor(e, index, level);
        if f.Err? {
          FieldsErrorPropagates(elements, i + 1, level);
          return Err(f.msg);
        }
        fields := fields + [f.value];
        index := index + 1;
      }
    }
    assert elements[..|elements|] == elements;
    r := Ok(fields);
  }

  /** The position of the first field named `name`. */
  function FirstNamed(fields: seq<Json>, name: string): (r: Option<nat>)
    ensures r.Some? ==> r.value < |fields| && Get(fields[r.value], "N") == Str(name)
    ensures r.Some? ==> forall j :: 0 <= j < r.value ==> Get(fields[j], "N") != Str(name)
    ensures r.None? <==> forall j :: 0 <= j < |fields| ==> Get(fields[j], "N") != Str(name)
  {
    if |fields| == 0 then None
    else if Get(fields[0], "N") == Str(name) then Some(0)
    else
      match FirstNamed(fields[1..], name)
      case None => None
      case Some(k) => Some(k + 1)
  }

  /** `root_element or 'root'`. */
  function RootName(rootElement: Option<string>): (r: string)
    ensures r != ""
  {
    if rootElement.Some? && rootElement.value != "" then rootElement.value else "root"
  }

  /** `_find_root_field`: the first field named `root_element`, else the first field, else none. */
  function FindRootField(fields: seq<Json>, rootElement: Option<string>): (r: Option<Json>)
    ensures r.None? <==> |fields| == 0
    ensures r.Some? ==> r.value in fields
    ensures rootElement.Some? && rootElement.value != "" && r.Some? && Get(r.value, "N") != Str(rootElement.value) ==>
      r.value == fields[0] && forall j :: 0 <= j < |fields| ==> Get(fields[j], "N") != Str(rootElement.value)
    ensures rootElement.None? || rootElement.value == "" ==> r == (if |fields| > 0 then Some(fields[0]) else None)
  {
    var named := if rootElement.Some? && rootElement.value != "" then FirstNamed(fields, rootElement.value) else None;
    match named
    case Some(k) => Some(fields[k])
    case None => if |fields| > 0 then Some(fields[0]) else None
  }

  /** The first field named `root_element` is the one chosen. */
  lemma FindRootFieldFirst(fields: seq<Json>, root: string, k: nat)
    requires root != "" && k < |fields| && Get(fields[k], "N") == Str(root)
    requires forall j :: 0 <= j < k ==> Get(fields[j], "N") != Str(root)
    ensures FindRootField(fields, Some(root)) == Some(fields[k])
  {
    var r := FirstNamed(fields, root);
    assert r.Some?;
    if r.value < k {
    } else if r.value > k {
    }
  }

  /** The `{"generatedAsInode": True}` options of a generated root. */
  const InodeOptions := Obj(map["generatedAsInode" := Bool(true)])

  /** The root node of a schema document, with MN = MX = 1 and I = L = 0. */
  function SchemaRootNode(n: Json, children: Json): (r: Json)
    ensures Get(r, "N") == n && Get(r, "C") == children
    ensures Get(r, "MN") == Num(1) && Get(r, "MX") == Num(1) && Get(r, "I") == Num(0) && Get(r, "L") == Num(0)
  {
    Obj(map["N" := n, "MN" := Num(1), "MX" := Num(1), "C" := children, "I" := Num(0), "L" := Num(0), "O" := InodeOptions])
  }

  /** A schema document named `name` around a root node. */
  function SchemaDocument(name: string, root: Json): (r: Json)
    ensures DocumentRoot(r) == root
    ensures Get(r, "name") == Str(name)
  {
    Obj(map["name" := Str(name), "document" := Obj(map["root" := root])])
  }

  function DocumentRoot(doc: Json): Json {
    Get(Get(doc, "document"), "root")
  }

  /** One of the two string fields of the fallback root. */
  function FallbackField(name: string, index: int): Json {
    Obj(map["NIL" := Bool(true), "MN" := Num(0), "MX" := Num(1), "N" := Str(name), "T" := Str("string"), "I" := Num(index), "L" := Num(2)])
  }

  /** `_create_fallback_schema`. */
  function CreateFallbackSchema(name: string, rootElement: Option<string>): (r: Json)
    ensures Get(DocumentRoot(r), "N") == Str(RootName(rootElement))
    ensures var c := Get(DocumentRoot(r), "C");
      c.Arr? && |c.items| == 2 && Get(c.items[0], "N") == Str("Id") && Get(c.items[1], "N") == Str("Name")
    ensures var root := DocumentRoot(r);
      Get(root, "MN") == Num(1) && Get(root, "MX") == Num(1) && Get(root, "I") == Num(0) && Get(root, "L") == Num(0)
  {
    SchemaDocument(name, SchemaRootNode(Str(RootName(rootElement)), Arr([FallbackField("Id", 1), FallbackField("Name", 2)])))
  }

  /** `create_schema_document`. */
  function CreateSchemaDocument(name: string, xsdStructure: Json, rootElement: Option<string>): (r: Json)
    ensures !Truthy(xsdStructure) || !Has(xsdStructure, "fields") ==> r == CreateFallbackSchema(name, rootElement)
    ensures var root := DocumentRoot(r);
      Get(root, "MN") == Num(1) && Get(root, "MX") == Num(1) && Get(root, "I") == Num(0) && Get(root, "L") == Num(0)
    ensures Get(r, "name") == Str(name)
    ensures Truthy(xsdStructure) && Has(xsdStructure, "fields") && |AsList(Get(xsdStructure, "fields"))| == 0 ==>
      DocumentRoot(r) == SchemaRootNode(Str(RootName(rootElement)), Arr([]))
  {
    if !Truthy(xsdStructure) || !Has(xsdStructure, "fields") then CreateFallbackSchema(name, rootElement)
    else
      var fields := AsList(xsdStructure.fields["fields"]);
      match FindRootField(fields, rootElement)
      case Some(rootField) =>
        if Truthy(rootField) then
          SchemaDocument(name, SchemaRootNode(GetOr(rootField, "N", Str(RootName(rootElement))), GetOr(rootField, "C", Arr(fields))))
        else
          SchemaDocument(name, SchemaRootNode(Str(RootName(rootElement)), Arr(fields)))
      case None =>
        SchemaDocument(name, SchemaRootNode(Str(RootName(rootElement)), Arr(fields)))
  }

  /** With a field named `root_element`, that field becomes the root, carrying its own children. */
  lemma SchemaDocumentUsesRootField(name: string, xsdStructure: Json, root: string, k: nat)
    requires Has(xsdStructure, "fields")
    requires var fields := AsList(Get(xsdStructure, "fields"));
      root != "" && k < |fields| && Get(fields[k], "N") == Str(root)
      && (forall j :: 0 <= j < k ==> Get(fields[j], "N") != Str(root))
      && Has(fields[k], "C")
    ensures var fields := AsList(Get(xsdStructure, "fields"));
      DocumentRoot(CreateSchemaDocument(name, xsdStructure, Some(root))) == SchemaRootNode(Str(root), Get(fields[k], "C"))
  {
    var fields := AsList(Get(xsdStructure, "fields"));
    FindRootFieldFirst(fields, root, k);
    assert Truthy(fields[k]);
  }
}
