/** The parsed XML document, as the marshalling code sees it through
    minidom: elements with a tag name, attributes and child nodes; text
    nodes; and every other kind of character-data node (comments, CDATA
    sections, processing instructions), which carry data but are not
    TEXT_NODE. */
module Xml {

  datatype Node =
    | Element(name: string, attrs: map<string, string>, children: seq<Node>)
    | Text(data: string)
    | Other(data: string)

  /** Number of nodes in a subtree; the measure that the recursive
      decoders decrease. */
  function Size(n: Node): (r: nat)
    decreases n
    ensures r >= 1
  {
    match n
    case Element(_, _, cs) => 1 + SizeOf(cs)
    case Text(_) => 1
    case Other(_) => 1
  }

  function SizeOf(cs: seq<Node>): (r: nat)
    decreases cs
    ensures r >= |cs|
  {
    if cs == [] then 0 else Size(cs[0]) + SizeOf(cs[1..])
  }

  lemma {:induction false} SizeOfMember(cs: seq<Node>, i: nat)
    requires i < |cs|
    ensures Size(cs[i]) <= SizeOf(cs)
  {
    if i > 0 {
      SizeOfMember(cs[1..], i - 1);
    }
  }

  /** `childNodes`: the children of an element; text and other character
      data nodes have none. */
  function Children(n: Node): seq<Node> {
    if n.Element? then n.children else []
  }

  /** Every child of a node is strictly smaller than the node. */
  lemma ChildSmaller(n: Node, i: nat)
    requires i < |Children(n)|
    ensures Size(Children(n)[i]) < Size(n)
  {
    SizeOfMember(n.children, i);
  }

  // ---------------------------------------------------------------------
  // getElementsByTagName: every element of the subtree, the root included,
  // whose tag is the given name, in document (pre-)order.

  function ElementsByTagName(n: Node, name: string): seq<Node>
    decreases Size(n), 1
  {
    match n
    case Element(tag, _, cs) =>
      (if tag == name then [n] else []) + ElementsIn(cs, name)
    case Text(_) => []
    case Other(_) => []
  }

  function ElementsIn(cs: seq<Node>, name: string): seq<Node>
    decreases SizeOf(cs), 2
  {
    if cs == [] then []
    else ElementsByTagName(cs[0], name) + ElementsIn(cs[1..], name)
  }

  /** Every match is an element carrying the searched name and lies inside
      the searched subtree, so it is no larger than the subtree's root. */
  lemma {:induction false} MatchesAreNamedElements(n: Node, name: string)
    decreases Size(n), 1
    ensures forall m :: m in ElementsByTagName(n, name) ==>
      m.Element? && m.name == name && Size(m) <= Size(n)
  {
    if n.Element? {
      MatchesInAreNamedElements(n.children, name);
    }
  }

  lemma {:induction false} MatchesInAreNamedElements(cs: seq<Node>, name: string)
    decreases SizeOf(cs), 2
    ensures forall m :: m in ElementsIn(cs, name) ==>
      m.Element? && m.name == name && Size(m) <= SizeOf(cs)
  {
    if cs != [] {
      MatchesAreNamedElements(cs[0], name);
      MatchesInAreNamedElements(cs[1..], name);
    }
  }

  /** Conversely, an element named `name` anywhere among the children is found. */
  lemma {:induction false} NamedChildIsFound(n: Node, name: string, i: nat)
    requires i < |Children(n)|
    requires Children(n)[i].Element? && Children(n)[i].name == name
    ensures Children(n)[i] in ElementsByTagName(n, name)
  {
    NamedMemberIsFound(n.children, name, i);
  }

  lemma {:induction false} NamedMemberIsFound(cs: seq<Node>, name: string, i: nat)
    requires i < |cs|
    requires cs[i].Element? && cs[i].name == name
    ensures cs[i] in ElementsIn(cs, name)
  {
    if i > 0 {
      NamedMemberIsFound(cs[1..], name, i - 1);
    }
  }

  /** When an element carrying the searched name is the only match of its
      own subtree, that match is the element itself. */
  lemma OnlyMatchIsRoot(n: Node, name: string)
    requires n.Element? && n.name == name
    requires |ElementsByTagName(n, name)| == 1
    ensures ElementsByTagName(n, name)[0] == n
  {
  }

  // ---------------------------------------------------------------------
  // Text content: the data of the TEXT_NODE nodes of a node list, in order.

  function TextOf(nodes: seq<Node>): string
  {
    if nodes == [] then ""
    else TextOf(nodes[..|nodes| - 1]) + TextPart(nodes[|nodes| - 1])
  }

  function TextPart(n: Node): string
  {
    if n.Text? then n.data else ""
  }

  /** The text of a concatenated node list is the concatenation of the texts. */
  lemma {:induction false} TextOfAppend(a: seq<Node>, b: seq<Node>)
    ensures TextOf(a + b) == TextOf(a) + TextOf(b)
    decreases |b|
  {
    if b == [] {
      assert a + b == a;
    } else {
      var b', last := b[..|b| - 1], b[|b| - 1];
      var ab := a + b;
      assert ab[..|ab| - 1] == a + b' && ab[|ab| - 1] == last;
      assert TextOf(ab) == TextOf(a + b') + TextPart(last);
      TextOfAppend(a, b');
      assert TextOf(b) == TextOf(b') + TextPart(last);
    }
  }

  /** A node list without any text node has the empty text, whatever data its
      comments, CDATA sections or elements hold. */
  lemma {:induction false} NoTextNodeNoText(nodes: seq<Node>)
    requires forall i :: 0 <= i < |nodes| ==> !nodes[i].Text?
    ensures TextOf(nodes) == ""
  {
    if nodes != [] {
      NoTextNodeNoText(nodes[..|nodes| - 1]);
    }
  }

  /** A single text node contributes its data, any other node nothing. */
  lemma TextOfSingle(n: Node)
    ensures TextOf([n]) == (if n.Text? then n.data else "")
  {
    assert [n][..0] == [];
  }

  // ---------------------------------------------------------------------
  // Shape: a node with the order of every element's children forgotten.
  // Used where the source promises nothing about the order of siblings.

  datatype Shape =
    | SElement(name: string, attrs: map<string, string>, children: multiset<Shape>)
    | SText(data: string)
    | SOther(data: string)

  function ShapeOf(n: Node): Shape
    decreases Size(n), 1
  {
    match n
    case Element(tag, at, cs) => SElement(tag, at, ShapesOf(cs))
    case Text(d) => SText(d)
    case Other(d) => SOther(d)
  }

  function ShapesOf(cs: seq<Node>): (r: multiset<Shape>)
    decreases SizeOf(cs), 2
  {
    if cs == [] then multiset{} else multiset{ShapeOf(cs[0])} + ShapesOf(cs[1..])
  }

  /** A single node contributes its own shape. */
  lemma ShapesOfSingle(n: Node)
    ensures ShapesOf([n]) == multiset{ShapeOf(n)}
  {
    assert [n][1..] == [];
  }

  lemma {:induction false} ShapesOfAppend(cs: seq<Node>, c: Node)
    ensures ShapesOf(cs + [c]) == ShapesOf(cs) + multiset{ShapeOf(c)}
    decreases |cs|
  {
    if cs == [] {
      assert [c][1..] == [];
    } else {
      assert (cs + [c])[1..] == cs[1..] + [c];
      ShapesOfAppend(cs[1..], c);
    }
  }
}
