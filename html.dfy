/**
 * The parsed page as the analyser sees it: a read-only tree of elements and
 * text, and the few Beautiful Soup queries the analyser makes of it
 * (`find_all`, `find`, `select_one`, `get`, `.text`).
 *
 * A document is the sequence of its top-level nodes. Every query searches
 * the DESCENDANTS of the node it is asked on, never the node itself, in
 * document order (pre-order), as Beautiful Soup does.
 */
module Html {
  import opened Wrappers
  import opened Seqs
  import Strings

  datatype Node =
    | Element(tag: string, attrs: map<string, string>, children: seq<Node>)
    | Text(content: string)

  /**
   * Every element of the forest `ns`, in document order: each top-level
   * element comes before the elements below it.
   */
  function Elements(ns: seq<Node>): (r: seq<Node>)
    ensures forall i :: 0 <= i < |r| ==> r[i].Element?
    ensures forall i :: 0 <= i < |ns| && ns[i].Element? ==> ns[i] in r
    ensures |ns| > 0 && ns[0].Element? ==> |r| > 0 && r[0] == ns[0]
  {
    if ns == [] then []
    else match ns[0]
      case Text(_) => Elements(ns[1..])
      case Element(_, _, cs) => [ns[0]] + Elements(cs) + Elements(ns[1..])
  }

  /** An element is listed first, followed by the elements below it (pre-order). */
  lemma ElementsOfElement(e: Node)
    requires e.Element?
    ensures Elements([e]) == [e] + Elements(e.children)
  {
    assert [e][1..] == [];
  }

  /** The elements of a concatenated forest are those of each part, in order. */
  lemma {:induction false} ElementsConcat(a: seq<Node>, b: seq<Node>)
    ensures Elements(a + b) == Elements(a) + Elements(b)
  {
    if a == [] {
      assert a + b == b;
    } else {
      assert (a + b)[0] == a[0] && (a + b)[1..] == a[1..] + b;
      ElementsConcat(a[1..], b);
    }
  }

  predicate HasTag(n: Node, names: set<string>) {
    n.Element? && n.tag in names
  }

  /**
   * `find_all(names)`: the elements below `ns` whose tag is one of `names`,
   * in document order, each occurrence once.
   */
  function FindAll(ns: seq<Node>, names: set<string>): (r: seq<Node>)
    ensures forall i :: 0 <= i < |r| ==> HasTag(r[i], names)
    ensures forall i :: 0 <= i < |r| ==> r[i] in Elements(ns)
    ensures forall i :: 0 <= i < |Elements(ns)| && HasTag(Elements(ns)[i], names) ==> Elements(ns)[i] in r
    ensures |r| == Count(Elements(ns), (n: Node) => HasTag(n, names))
  {
    var p := (n: Node) => HasTag(n, names);
    CountIsFilterLength(Elements(ns), p);
    Filter(Elements(ns), p)
  }

  /**
   * Counting any property over `find_all`'s result counts the matching
   * elements of the document that have it: each occurrence is found once.
   */
  lemma FindAllCount(ns: seq<Node>, names: set<string>, q: Node -> bool)
    ensures Count(FindAll(ns, names), q) == Count(Elements(ns), (n: Node) => HasTag(n, names) && q(n))
  {
    CountFilter(Elements(ns), (n: Node) => HasTag(n, names), q, (n: Node) => HasTag(n, names) && q(n));
  }

  /** `find_all` over a concatenated forest finds those of each part, in order. */
  lemma FindAllConcat(a: seq<Node>, b: seq<Node>, names: set<string>)
    ensures FindAll(a + b, names) == FindAll(a, names) + FindAll(b, names)
  {
    ElementsConcat(a, b);
    FilterConcat(Elements(a), Elements(b), (n: Node) => HasTag(n, names));
  }

  /** `tag.get(name)`: the value of an attribute, if the node has it. */
  function Attr(n: Node, name: string): Option<string> {
    if n.Element? && name in n.attrs then Some(n.attrs[name]) else None
  }

  /** `tag.get(name, default)`. */
  function AttrOr(n: Node, name: string, default: string): string {
    if n.Element? && name in n.attrs then n.attrs[name] else default
  }

  /**
   * `.text`: the text nodes below `ns`, concatenated in document order. A
   * text node gives its content and an element the text of its children.
   */
  function TextOf(ns: seq<Node>): (r: string)
    ensures |ns| == 1 && ns[0].Text? ==> r == ns[0].content
    ensures ns == [] ==> r == []
  {
    if ns == [] then ""
    else match ns[0]
      case Text(t) => t + TextOf(ns[1..])
      case Element(_, _, cs) => TextOf(cs) + TextOf(ns[1..])
  }

  /** The text of a forest is the text of its parts, one after the other. */
  lemma {:induction false} TextOfConcat(a: seq<Node>, b: seq<Node>)
    ensures TextOf(a + b) == TextOf(a) + TextOf(b)
  {
    if a == [] {
      assert a + b == b;
    } else {
      assert (a + b)[0] == a[0] && (a + b)[1..] == a[1..] + b;
      TextOfConcat(a[1..], b);
    }
  }

  /** An element's text is the text of its children. */
  lemma ElementText(e: Node)
    requires e.Element?
    ensures TextOf([e]) == TextOf(e.children)
  {
    assert [e][1..] == [];
  }

  /**
   * The two selector shapes the layout table uses: a tag name (`nav`), and a
   * tag whose attribute contains a substring (`div[class*="nav"]`).
   */
  datatype Selector =
    | ByTag(name: string)
    | ByTagAttrContains(name: string, attr: string, sub: string)

  /**
   * CSS matching for the two shapes. As in CSS, `[attr*=""]` matches
   * nothing.
   */
  predicate Matches(sel: Selector, n: Node)
    ensures Matches(sel, n) ==> HasTag(n, {sel.name})
    ensures sel.ByTag? ==> (Matches(sel, n) <==> HasTag(n, {sel.name}))
    ensures sel.ByTagAttrContains? && sel.sub == [] ==> !Matches(sel, n)
  {
    && n.Element?
    && n.tag == sel.name
    && match sel
       case ByTag(_) => true
       case ByTagAttrContains(_, a, v) => v != [] && a in n.attrs && Strings.Contains(n.attrs[a], v)
  }

  /** `select_one(sel)`: the first element below `ns`, in document order, that matches. */
  function SelectOne(ns: seq<Node>, sel: Selector): (r: Option<Node>)
    ensures r.None? <==> forall i :: 0 <= i < |Elements(ns)| ==> !Matches(sel, Elements(ns)[i])
    ensures r.Some? ==>
      exists i :: 0 <= i < |Elements(ns)| && Elements(ns)[i] == r.value && Matches(sel, r.value)
                  && forall j :: 0 <= j < i ==> !Matches(sel, Elements(ns)[j])
  {
    var r := First(Elements(ns), (n: Node) => Matches(sel, n));
    if r.Some? then
      var i := FirstIndex(Elements(ns), (n: Node) => Matches(sel, n)).value;
      assert Elements(ns)[i] == r.value;
      r
    else r
  }
}
