/**
 * The XML helpers shared by the JPK extractors: header and property
 * extraction from a component document, the selection of component files
 * from an archive's name list, and the component type named by a path.
 * Opening the archive and parsing its text are not modelled.
 */
module XmlParsing {
  import opened Wrappers
  import opened Strings
  import opened XmlTrees
  import opened Sequences

  /** The `{'id': ..., 'name': ...}` dict of `extract_header_info`. */
  datatype HeaderInfo = HeaderInfo(id: Option<string>, name: Option<string>)

  /** `extract_header_info`. */
  function ExtractHeaderInfo(root: Element): (r: HeaderInfo)
    ensures FindChild(root, "Header").None? ==> r == HeaderInfo(None, None)
    ensures FindChild(root, "Header").Some? ==>
      var h := FindChild(root, "Header").value;
      r.id == AttrOpt(h, "ID") && r.name == AttrOpt(h, "Name")
    ensures r.id.Some? ==> exists h :: h in root.children && h.tag == "Header" && "ID" in h.attrs && h.attrs["ID"] == r.id.value
  {
    match FindChild(root, "Header")
    case None => HeaderInfo(None, None)
    case Some(h) => HeaderInfo(AttrOpt(h, "ID"), AttrOpt(h, "Name"))
  }

  /** `get_header_attribute`: the Header's attribute, or `default` when either is missing. */
  function GetHeaderAttribute(root: Element, attribute: string, default: Option<string>): (r: Option<string>)
    ensures FindChild(root, "Header").None? ==> r == default
    ensures FindChild(root, "Header").Some? && attribute in FindChild(root, "Header").value.attrs ==>
      r == Some(FindChild(root, "Header").value.attrs[attribute])
    ensures FindChild(root, "Header").Some? && attribute !in FindChild(root, "Header").value.attrs ==> r == default
  {
    match FindChild(root, "Header")
    case None => default
    case Some(h) => if attribute in h.attrs then Some(h.attrs[attribute]) else default
  }

  /** The two header lookups agree. */
  lemma HeaderLookupsAgree(root: Element)
    ensures ExtractHeaderInfo(root).id == GetHeaderAttribute(root, "ID", None)
    ensures ExtractHeaderInfo(root).name == GetHeaderAttribute(root, "Name", None)
  {
  }

  /** A name in the archive that lies in a `<type>` directory and is an XML file. */
  predicate IsComponentFile(name: string, componentType: string) {
    Contains(name, "/" + componentType + "/") && IsSuffix(".xml", name)
  }

  /** `find_component_files` over the archive's name list. */
  function FindComponentFiles(names: seq<string>, componentType: string): (r: seq<string>)
    ensures forall f :: f in r <==> f in names && IsComponentFile(f, componentType)
    ensures IsSubsequence(r, names)
  {
    if |names| == 0 then []
    else
      var init := names[..|names| - 1];
      var last := names[|names| - 1];
      var r := FindComponentFiles(init, componentType);
      SubsequenceSnoc(r, init, last);
      assert init + [last] == names;
      assert forall f :: f in names <==> f in init || f == last;
      if IsComponentFile(last, componentType) then r + [last] else r
  }

  /** The key/value pairs of the `Item` children of `Properties`. */
  function PropertyItems(root: Element): seq<Element> {
    match FindChild(root, "Properties")
    case None => []
    case Some(p) => FindChildren(p, "Item")
  }

  /** The dict built from the items, later items overwriting earlier ones with the same key. */
  function PropertiesOf(items: seq<Element>): (r: map<string, string>)
    ensures "" !in r
  {
    if |items| == 0 then map[]
    else
      var init := PropertiesOf(items[..|items| - 1]);
      var last := items[|items| - 1];
      var key := Attr(last, "key", "");
      if key != "" then init[key := Attr(last, "value", "")] else init
  }

  /**
   * A key is present exactly when some item carries it, and its value is
   * that of the last such item.
   */
  lemma {:induction false} PropertiesLastWins(items: seq<Element>, key: string)
    requires key != ""
    ensures key in PropertiesOf(items) <==> exists i :: 0 <= i < |items| && Attr(items[i], "key", "") == key
    ensures key in PropertiesOf(items) ==>
      exists i :: 0 <= i < |items| && Attr(items[i], "key", "") == key
        && PropertiesOf(items)[key] == Attr(items[i], "value", "")
        && forall j :: i < j < |items| ==> Attr(items[j], "key", "") != key
  {
    if |items| > 0 {
      var init := items[..|items| - 1];
      var n := |items| - 1;
      PropertiesLastWins(init, key);
      if Attr(items[n], "key", "") != key {
        if key in PropertiesOf(init) {
          var i :| 0 <= i < |init| && Attr(init[i], "key", "") == key
            && PropertiesOf(init)[key] == Attr(init[i], "value", "")
            && forall j :: i < j < |init| ==> Attr(init[j], "key", "") != key;
          assert Attr(items[i], "key", "") == key;
          assert forall j :: i < j < |items| ==> Attr(items[j], "key", "") != key by {
            forall j | i < j < |items| ensures Attr(items[j], "key", "") != key {
              if j < n { assert items[j] == init[j]; }
            }
          }
        }
        if exists i :: 0 <= i < |items| && Attr(items[i], "key", "") == key {
          var i :| 0 <= i < |items| && Attr(items[i], "key", "") == key;
          assert init[i] == items[i];
        }
      } else {
        assert Attr(items[n], "key", "") == key;
      }
    }
  }

  /** `extract_properties`: a loop filling a dict from the `Item` elements. */
  method ExtractProperties(root: Element) returns (properties: map<string, string>)
    ensures properties == PropertiesOf(PropertyItems(root))
  {
    properties := map[];
    var items := PropertyItems(root);
    for i := 0 to |items|
      invariant properties == PropertiesOf(items[..i])
    {
      var key := Attr(items[i], "key", "");
      var value := Attr(items[i], "value", "");
      assert items[..i + 1][..i] == items[..i];
      if key != "" {
        properties := properties[key := value];
      }
    }
    assert items[..|items|] == items;
  }

  /** `validate_xml_structure`: every required element is a direct child of the root. */
  method ValidateXmlStructure(root: Element, requiredElements: seq<string>) returns (ok: bool)
    ensures ok <==> forall i :: 0 <= i < |requiredElements| ==> FindChild(root, requiredElements[i]).Some?
  {
    for i := 0 to |requiredElements|
      invariant forall k :: 0 <= k < i ==> FindChild(root, requiredElements[k]).Some?
    {
      if FindChild(root, requiredElements[i]).None? {
        return false;
      }
    }
    return true;
  }

  /** `get_component_type_from_path`. */
  function GetComponentTypeFromPath(path: string): (r: Option<string>)
    ensures r.Some? ==> '/' !in r.value
    ensures r.Some? <==> |Split(path, '/')| >= 3 && Split(path, '/')[0] == "Data"
  {
    var parts := Split(path, '/');
    if |parts| >= 3 && parts[0] == "Data" then Some(parts[1]) else None
  }

  /** A path `Data/<type>/<rest>` with a non-empty remainder names `<type>`, and a path outside `Data` names none. */
  lemma ComponentTypeOfDataPath(componentType: string, rest: string)
    requires '/' !in componentType
    ensures GetComponentTypeFromPath("Data/" + componentType + "/" + rest) == Some(componentType)
    ensures forall top :: '/' !in top && top != "Data" ==> GetComponentTypeFromPath(top + "/" + rest).None?
  {
    var path := "Data/" + componentType + "/" + rest;
    assert path == "Data" + ['/'] + (componentType + ['/'] + rest);
    SplitPrefix("Data", componentType + ['/'] + rest, '/');
    SplitPrefix(componentType, rest, '/');
    forall top | '/' !in top && top != "Data"
      ensures GetComponentTypeFromPath(top + "/" + rest).None?
    {
      SplitPrefix(top, rest, '/');
    }
  }
}
