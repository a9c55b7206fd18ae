/** The element tree the parser walks: what `xml.etree.ElementTree` hands back once a
    document is parsed. Only the three queries the parser uses are modelled. */
module ElementTree {
  import opened Wrappers

  datatype Element = Element(tag: string, attrib: map<string, string>, children: seq<Element>)

  /** `e.get(key, default)`. */
  function Get(e: Element, key: string, default: string): string {
    if key in e.attrib then e.attrib[key] else default
  }

  /** `e.findall(tag)`: the direct children with this tag, in document order. */
  function FindAll(e: Element, tag: string): (r: seq<Element>)
    ensures forall x :: x in r <==> x in e.children && x.tag == tag
  {
    ChildrenTagged(e.children, tag)
  }

  function ChildrenTagged(cs: seq<Element>, tag: string): (r: seq<Element>)
    ensures |r| <= |cs|
    ensures forall x :: x in r <==> x in cs && x.tag == tag
  {
    if cs == [] then []
    else (if cs[0].tag == tag then [cs[0]] else []) + ChildrenTagged(cs[1..], tag)
  }

  /** `findall` keeps document order and duplicates: the tagged children of `a + b` are
      those of `a` followed by those of `b`. */
  lemma FindAllConcat(tag0: string, attrib: map<string, string>, a: seq<Element>, b: seq<Element>, tag: string)
    ensures FindAll(Element(tag0, attrib, a + b), tag)
      == FindAll(Element(tag0, attrib, a), tag) + FindAll(Element(tag0, attrib, b), tag)
  {
    ChildrenTaggedConcat(a, b, tag);
  }

  /** One child is returned exactly when it carries the tag. */
  lemma FindAllSingle(tag0: string, attrib: map<string, string>, c: Element, tag: string)
    ensures FindAll(Element(tag0, attrib, [c]), tag) == if c.tag == tag then [c] else []
  {
    assert [c][1..] == [];
  }

  lemma {:induction false} ChildrenTaggedConcat(a: seq<Element>, b: seq<Element>, tag: string)
    ensures ChildrenTagged(a + b, tag) == ChildrenTagged(a, tag) + ChildrenTagged(b, tag)
  {
    if a == [] {
      assert a + b == b;
    } else {
      assert (a + b)[0] == a[0] && (a + b)[1..] == a[1..] + b;
      ChildrenTaggedConcat(a[1..], b, tag);
    }
  }

  /** `e.find(tag)`: the first direct child with this tag, or None. */
  function Find(e: Element, tag: string): Option<Element>
  {
    FirstTagged(e.children, tag)
  }

  function FirstTagged(cs: seq<Element>, tag: string): Option<Element>
  {
    if cs == [] then None
    else if cs[0].tag == tag then Some(cs[0])
    else FirstTagged(cs[1..], tag)
  }

  /** `find` returns the head of what `findall` returns: an element is found exactly when
      one child carries the tag, and the one found precedes every other such child. */
  lemma {:induction false} FindIsFirstOfFindAll(e: Element, tag: string)
    ensures Find(e, tag) == if FindAll(e, tag) == [] then None else Some(FindAll(e, tag)[0])
  {
    FirstTaggedIsHead(e.children, tag);
  }

  lemma {:induction false} FirstTaggedIsHead(cs: seq<Element>, tag: string)
    ensures var all := ChildrenTagged(cs, tag);
      FirstTagged(cs, tag) == if all == [] then None else Some(all[0])
  {
    if cs != [] && cs[0].tag != tag {
      FirstTaggedIsHead(cs[1..], tag);
    }
  }
}
