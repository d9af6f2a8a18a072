/**
 * The part of the W3C DOM the newer descriptor reader uses: a tree of
 * element, text and comment nodes, `getTextContent` and `getElementsByTagName`.
 */
module Xml {
  import opened Platform

  datatype Node =
    | Element(tag: string, children: seq<Node>)
    | Text(data: string)        // text and CDATA sections, whitespace included
    | Comment(data: string)     // comments and processing instructions

  /** `getTextContent`: the data of every descendant text node in document order; comments add nothing. */
  function TextContent(n: Node): string
    decreases n, 1
  {
    match n
    case Element(_, cs) => ChildrenText(cs)
    case Text(d) => d
    case Comment(_) => ""
  }

  function ChildrenText(ns: seq<Node>): string
    decreases ns, 0
  {
    if ns == [] then "" else TextContent(ns[0]) + ChildrenText(ns[1..])
  }

  /**
   * `getElementsByTagName` over a forest: every element named `tag`, at any
   * depth, in document (pre-)order.
   */
  function ElementsByTag(ns: seq<Node>, tag: string): (r: seq<Node>)
    ensures forall i :: 0 <= i < |r| ==> r[i].Element? && r[i].tag == tag
    ensures forall i :: 0 <= i < |ns| && ns[i].Element? && ns[i].tag == tag ==> ns[i] in r
    ensures ns != [] && ns[0].Element? && ns[0].tag == tag ==> r != [] && r[0] == ns[0]
    decreases ns
  {
    if ns == [] then []
    else
      var here := match ns[0]
        case Element(t, cs) => (if t == tag then [ns[0]] else []) + ElementsByTag(cs, tag)
        case _ => [];
      here + ElementsByTag(ns[1..], tag)
  }

  /** `getElementsByTagName(tag).item(0)`: the first such element, or None where `item(0)` is null. */
  function FirstElement(ns: seq<Node>, tag: string): (r: Option<Node>)
    ensures r.Some? ==> r.value.Element? && r.value.tag == tag
    ensures r.None? ==> forall i :: 0 <= i < |ns| ==> !(ns[i].Element? && ns[i].tag == tag)
    ensures r.None? <==> ElementsByTag(ns, tag) == []
    ensures r.Some? ==> r.value == ElementsByTag(ns, tag)[0]
  {
    var found := ElementsByTag(ns, tag);
    if found == [] then None else Some(found[0])
  }

  /** `m` is a node of the forest `ns`, at any depth. */
  predicate OccursIn(m: Node, ns: seq<Node>)
    decreases ns
  {
    exists i :: 0 <= i < |ns| && (ns[i] == m || (ns[i].Element? && OccursIn(m, ns[i].children)))
  }

  /** An element named `tag` somewhere in the forest. */
  ghost predicate HasElement(ns: seq<Node>, tag: string) {
    exists m :: OccursIn(m, ns) && m.Element? && m.tag == tag
  }

  /** A node of a forest's first tree, or of the rest, is a node of the forest. */
  lemma OccursInCons(m: Node, ns: seq<Node>)
    requires ns != []
    ensures OccursIn(m, ns) <==>
            ns[0] == m || (ns[0].Element? && OccursIn(m, ns[0].children)) || OccursIn(m, ns[1..])
  {
    if OccursIn(m, ns) {
      var i :| 0 <= i < |ns| && (ns[i] == m || (ns[i].Element? && OccursIn(m, ns[i].children)));
      if i > 0 {
        assert ns[1..][i - 1] == ns[i];
      }
    }
    if OccursIn(m, ns[1..]) {
      var j :| 0 <= j < |ns[1..]| && (ns[1..][j] == m || (ns[1..][j].Element? && OccursIn(m, ns[1..][j].children)));
      assert ns[j + 1] == ns[1..][j];
    }
  }

  /** Every element it returns is a node of the forest. */
  lemma {:induction false} ElementsByTagSound(ns: seq<Node>, tag: string, m: Node)
    requires m in ElementsByTag(ns, tag)
    ensures OccursIn(m, ns)
    decreases ns
  {
    OccursInCons(m, ns);
    if ns[0].Element? && m in ElementsByTag(ns[0].children, tag) {
      ElementsByTagSound(ns[0].children, tag, m);
    } else if m in ElementsByTag(ns[1..], tag) {
      ElementsByTagSound(ns[1..], tag, m);
    }
  }

  /** Every element named `tag`, at any depth, is returned. */
  lemma {:induction false} ElementsByTagComplete(ns: seq<Node>, tag: string, m: Node)
    requires OccursIn(m, ns) && m.Element? && m.tag == tag
    ensures m in ElementsByTag(ns, tag)
    decreases ns
  {
    OccursInCons(m, ns);
    if ns[0] == m {
    } else if ns[0].Element? && OccursIn(m, ns[0].children) {
      ElementsByTagComplete(ns[0].children, tag, m);
    } else {
      ElementsByTagComplete(ns[1..], tag, m);
    }
  }

  /** Document order across siblings: the matches of an earlier tree all come before those of a later one. */
  lemma {:induction false} ElementsByTagAppend(a: seq<Node>, b: seq<Node>, tag: string)
    ensures ElementsByTag(a + b, tag) == ElementsByTag(a, tag) + ElementsByTag(b, tag)
    decreases a
  {
    if a == [] {
      assert a + b == b;
    } else {
      assert (a + b)[0] == a[0];
      assert (a + b)[1..] == a[1..] + b;
      ElementsByTagAppend(a[1..], b, tag);
    }
  }

  /**
   * Document order inside one element: the element itself comes before its
   * descendants, so an element not named `tag` answers as its children do.
   */
  lemma ElementsByTagNested(t: string, cs: seq<Node>, tag: string)
    ensures ElementsByTag([Element(t, cs)], tag) ==
            (if t == tag then [Element(t, cs)] else []) + ElementsByTag(cs, tag)
    ensures t != tag ==> FirstElement([Element(t, cs)], tag) == FirstElement(cs, tag)
  {
    assert [Element(t, cs)][1..] == [];
  }

  /** `item(0)` is null exactly when no element of the forest, at any depth, is named `tag`. */
  lemma FirstElementNoneIff(ns: seq<Node>, tag: string)
    ensures FirstElement(ns, tag).None? <==> !HasElement(ns, tag)
  {
    if HasElement(ns, tag) {
      var m :| OccursIn(m, ns) && m.Element? && m.tag == tag;
      ElementsByTagComplete(ns, tag, m);
    }
    if FirstElement(ns, tag).Some? {
      ElementsByTagSound(ns, tag, FirstElement(ns, tag).value);
    }
  }

  /** `item(0)` is the earliest match: a match in an earlier part of the forest wins over anything after it. */
  lemma FirstElementPrefersEarlier(a: seq<Node>, b: seq<Node>, tag: string)
    requires HasElement(a, tag)
    ensures FirstElement(a + b, tag) == FirstElement(a, tag)
  {
    FirstElementNoneIff(a, tag);
    ElementsByTagAppend(a, b, tag);
  }
}
