/**
 * Schema document trees as the transformation converter walks them: nodes
 * are dicts whose `N` is the element name and whose `C` is the list of
 * child nodes. Covers the removal of `PRESCRIPT` marker nodes and the test
 * whether a target path names an element with children.
 */
module SchemaTrees {
  import opened Wrappers
  import opened Strings
  import opened JsonValues

  /** `child.get('N', '')` for a dict child, `''` for anything else. */
  function NodeName(node: Json): string {
    if node.Obj? then AsStr(GetOr(node, "N", Str(""))) else ""
  }

  predicate IsPrescript(node: Json) {
    Contains(NodeName(node), "PRESCRIPT")
  }

  /** `'C' in node and isinstance(node['C'], list)`. */
  predicate HasChildList(node: Json) {
    node.Obj? && "C" in node.fields && node.fields["C"].Arr?
  }

  function Children(node: Json): seq<Json>
    requires HasChildList(node)
  {
    node.fields["C"].items
  }

  // ---------------------------------------------------------------------
  // PRESCRIPT filtering
  // ---------------------------------------------------------------------

  /** `filter_children`: a copy of the node whose child list has PRESCRIPT children dropped, recursively. */
  function FilterChildren(node: Json): Json
    decreases node, 1
  {
    if HasChildList(node) then Obj(node.fields["C" := Arr(FilterPrefix(node, |Children(node)|))])
    else node
  }

  /** The filtered forms of the first `n` children, PRESCRIPT ones left out. */
  function FilterPrefix(node: Json, n: nat): seq<Json>
    requires HasChildList(node) && n <= |Children(node)|
    decreases node, 0, n
  {
    if n == 0 then []
    else
      var child := Children(node)[n - 1];
      var rest := FilterPrefix(node, n - 1);
      if IsPrescript(child) then rest else rest + [FilterChildren(child)]
  }

  /** `_filter_prescript_nodes`: only the tree under `root` is filtered. */
  function FilterPrescriptNodes(schemaDoc: Json): Json {
    if !schemaDoc.Obj? || |schemaDoc.fields| == 0 then schemaDoc
    else if "root" in schemaDoc.fields then Obj(schemaDoc.fields["root" := FilterChildren(schemaDoc.fields["root"])])
    else schemaDoc
  }

  /** No node below `node`, at any depth, has a name mentioning PRESCRIPT. */
  predicate NoPrescript(node: Json)
    decreases node
  {
    HasChildList(node) ==>
      forall i :: 0 <= i < |Children(node)| ==> !IsPrescript(Children(node)[i]) && NoPrescript(Children(node)[i])
  }

  /** The children that are not PRESCRIPT markers, in order. */
  function Kept(children: seq<Json>): (r: seq<Json>)
    ensures |r| <= |children|
  {
    if |children| == 0 then []
    else
      var rest := Kept(children[..|children| - 1]);
      var last := children[|children| - 1];
      if IsPrescript(last) then rest else rest + [last]
  }

  /** Filtering touches nothing but the child list: every other key, the name included, is kept. */
  lemma FilterKeepsOtherKeys(node: Json)
    ensures FilterChildren(node).Obj? == node.Obj?
    ensures node.Obj? ==> FilterChildren(node).fields.Keys == node.fields.Keys
    ensures node.Obj? ==> forall k :: k in node.fields && k != "C" ==> FilterChildren(node).fields[k] == node.fields[k]
    ensures NodeName(FilterChildren(node)) == NodeName(node)
    ensures HasChildList(FilterChildren(node)) == HasChildList(node)
  {
  }

  /**
   * The filtered children are the kept children, each filtered, in their
   * original order.
   */
  lemma {:induction false} FilterPrefixKeepsOrder(node: Json, n: nat)
    requires HasChildList(node) && n <= |Children(node)|
    ensures var kept := Kept(Children(node)[..n]);
      |FilterPrefix(node, n)| == |kept|
      && forall i :: 0 <= i < |kept| ==> FilterPrefix(node, n)[i] == FilterChildren(kept[i])
  {
    if n > 0 {
      FilterPrefixKeepsOrder(node, n - 1);
      assert Children(node)[..n][..n - 1] == Children(node)[..n - 1];
    }
  }

  /** After filtering, no PRESCRIPT node is left at any depth. */
  lemma {:induction false} FilterChildrenClean(node: Json)
    ensures NoPrescript(FilterChildren(node))
    decreases node, 1
  {
    if HasChildList(node) {
      var r := FilterChildren(node);
      FilterPrefixClean(node, |Children(node)|);
      assert Children(r) == FilterPrefix(node, |Children(node)|);
    }
  }

  /** No node of `nodes` is a PRESCRIPT marker or has one below it. */
  predicate AllClean(nodes: seq<Json>) {
    forall i :: 0 <= i < |nodes| ==> !IsPrescript(nodes[i]) && NoPrescript(nodes[i])
  }

  lemma AllCleanAppend(nodes: seq<Json>, node: Json)
    requires AllClean(nodes) && !IsPrescript(node) && NoPrescript(node)
    ensures AllClean(nodes + [node])
  {
  }

  lemma {:induction false} FilterPrefixClean(node: Json, n: nat)
    requires HasChildList(node) && n <= |Children(node)|
    ensures AllClean(FilterPrefix(node, n))
    decreases node, 0, n
  {
    if n > 0 {
      var child := Children(node)[n - 1];
      FilterPrefixClean(node, n - 1);
      if !IsPrescript(child) {
        FilterChildrenClean(child);
        FilterKeepsOtherKeys(child);
        assert !IsPrescript(FilterChildren(child));
        AllCleanAppend(FilterPrefix(node, n - 1), FilterChildren(child));
      }
    }
  }

  /**
   * `_filter_prescript_nodes` leaves every key but `root` as it was,
   * and the tree under `root` free of PRESCRIPT nodes.
   */
  lemma FilterPrescriptNodesSpec(schemaDoc: Json)
    ensures var r := FilterPrescriptNodes(schemaDoc);
      r.Obj? == schemaDoc.Obj?
      && (schemaDoc.Obj? ==>
            (r.fields.Keys == schemaDoc.fields.Keys
             && (forall k :: k in schemaDoc.fields && k != "root" ==> r.fields[k] == schemaDoc.fields[k])
             && ("root" in r.fields ==> NoPrescript(r.fields["root"]) && NodeName(r.fields["root"]) == NodeName(schemaDoc.fields["root"]))))
  {
    if schemaDoc.Obj? && "root" in schemaDoc.fields {
      FilterChildrenClean(schemaDoc.fields["root"]);
      FilterKeepsOtherKeys(schemaDoc.fields["root"]);
      assert "root" in schemaDoc.fields.Keys;
    }
  }

  // ---------------------------------------------------------------------
  // Complex elements
  // ---------------------------------------------------------------------

  /** The first child whose `N` is `name`. */
  function FindChild(children: seq<Json>, name: string): (r: Option<Json>)
    ensures r.Some? ==> r.value in children && Get(r.value, "N") == Str(name)
    ensures r.None? ==> forall c :: c in children ==> Get(c, "N") != Str(name)
  {
    if |children| == 0 then None
    else if Get(children[0], "N") == Str(name) then Some(children[0])
    else FindChild(children[1..], name)
  }

  /** `current.get('C', [])` read as a list. */
  function ChildList(node: Json): seq<Json> {
    AsList(GetOr(node, "C", Arr([])))
  }

  /** The node reached from `current` by following `parts` through the child lists. */
  function Navigate(current: Json, parts: seq<string>): (r: Option<Json>)
    ensures r.Some? && |parts| > 0 ==> Get(r.value, "N") == Str(parts[|parts| - 1])
  {
    if |parts| == 0 then Some(current)
    else
      match FindChild(ChildList(current), parts[0])
      case None => None
      case Some(child) => Navigate(child, parts[1..])
  }

  /**
   * `_is_complex_element`: the path's first segment names the root, the
   * rest lead through the children, and the node reached has children.
   */
  predicate IsComplexElement(document: Json, targetPath: string) {
    if !Truthy(document) || !Has(document, "root") || targetPath == "" then false
    else
      var parts := Split(targetPath, '/');
      var root := document.fields["root"];
      if Get(root, "N") != Str(parts[0]) then false
      else
        match Navigate(root, parts[1..])
        case None => false
        case Some(node) => |ChildList(node)| > 0
  }

  /**
   * A complex element is a node of the document named by the last segment
   * of the path and having children; a path that leaves the tree is never
   * complex.
   */
  lemma ComplexElementSpec(document: Json, targetPath: string)
    ensures IsComplexElement(document, targetPath) ==>
      var parts := Split(targetPath, '/');
      var node := Navigate(document.fields["root"], parts[1..]);
      node.Some? && Get(node.value, "N") == Str(parts[|parts| - 1]) && |ChildList(node.value)| > 0
    ensures Has(document, "root") && targetPath != "" && Navigate(document.fields["root"], Split(targetPath, '/')[1..]).None? ==>
      !IsComplexElement(document, targetPath)
  {
  }
}
