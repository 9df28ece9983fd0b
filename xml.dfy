/**
 * Parsed XML elements as `xml.etree.ElementTree` presents them: a tag, the
 * attribute dict, the text before the first child, and the children in
 * document order. Namespaced tags are written `{uri}local`, as ElementTree does.
 */
module XmlTrees {
  import opened Wrappers

  datatype Element = Element(tag: string, attrs: map<string, string>, text: string, children: seq<Element>)

  /** `e.get(key, default)` / `e.attrib.get(key, default)`. */
  function Attr(e: Element, key: string, default: string): string {
    if key in e.attrs then e.attrs[key] else default
  }

  /** `e.attrib.get(key)`: the attribute or `None`. */
  function AttrOpt(e: Element, key: string): Option<string> {
    if key in e.attrs then Some(e.attrs[key]) else None
  }

  /** `e.find(tag)` for a plain tag: the first direct child with that tag. */
  function FindChild(e: Element, tag: string): (r: Option<Element>)
    ensures r.Some? ==> r.value in e.children && r.value.tag == tag
    ensures r.None? <==> forall i :: 0 <= i < |e.children| ==> e.children[i].tag != tag
  {
    match FindIndex(e.children, tag)
    case None => None
    case Some(k) => Some(e.children[k])
  }

  /** The position of the first element with the tag. */
  function FindIndex(cs: seq<Element>, tag: string): (r: Option<nat>)
    ensures r.Some? ==> r.value < |cs| && cs[r.value].tag == tag
    ensures r.Some? ==> forall j :: 0 <= j < r.value ==> cs[j].tag != tag
    ensures r.None? <==> forall i :: 0 <= i < |cs| ==> cs[i].tag != tag
  {
    if |cs| == 0 then None
    else if cs[0].tag == tag then Some(0)
    else
      match FindIndex(cs[1..], tag)
      case None => None
      case Some(k) => Some(k + 1)
  }

  /** `e.findall(tag)` for a plain tag: the direct children with that tag, in order. */
  function FindChildren(e: Element, tag: string): (r: seq<Element>)
    ensures forall x :: x in r <==> x in e.children && x.tag == tag
  {
    WithTag(e.children, tag)
  }

  /** The elements with a tag in a list, in order. */
  function WithTag(cs: seq<Element>, tag: string): (r: seq<Element>)
    ensures |r| <= |cs|
    ensures forall x :: x in r <==> x in cs && x.tag == tag
  {
    if |cs| == 0 then []
    else
      var init := WithTag(cs[..|cs| - 1], tag);
      var last := cs[|cs| - 1];
      assert forall x :: x in cs <==> x in cs[..|cs| - 1] || x == last;
      if last.tag == tag then init + [last] else init
  }

  /** The descendants of a list of elements in document order: each element, then its subtree. */
  function DescendantsIn(cs: seq<Element>): (r: seq<Element>)
    ensures |r| >= |cs|
    decreases cs
  {
    if |cs| == 0 then []
    else [cs[0]] + DescendantsIn(cs[0].children) + DescendantsIn(cs[1..])
  }

  /** `e.findall('.//tag')`: every descendant with the tag, in document order. */
  function FindDescendants(e: Element, tag: string): (r: seq<Element>)
    ensures forall x :: x in r ==> x.tag == tag
  {
    WithTag(DescendantsIn(e.children), tag)
  }

  /** `e.find('.//tag')`: the first descendant with the tag. */
  function FindDescendant(e: Element, tag: string): (r: Option<Element>)
    ensures r.Some? ==> r.value.tag == tag
    ensures r.None? <==> |FindDescendants(e, tag)| == 0
  {
    var ds := FindDescendants(e, tag);
    if |ds| == 0 then None else Some(ds[0])
  }
}
