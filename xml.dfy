/**
 * A reference serialisation of XML element trees. The imaging layer builds its
 * bodies by appending strings; this module says which element structure each
 * of those strings is the rendering of. Text is copied raw, without escaping,
 * as the layer does.
 */
module Xml {

  datatype Node =
    | Element(tag: string, children: seq<Node>)  // <tag>children</tag>
    | SelfClosing(tag: string)                   // <tag/>
    | Text(raw: string)                          // raw text, not escaped

  function OpenTag(tag: string): string { "<" + tag + ">" }
  function CloseTag(tag: string): string { "</" + tag + ">" }
  function EmptyTag(tag: string): string { "<" + tag + "/>" }

  /** An element holding only text: `<tag>text</tag>`. */
  function Leaf(tag: string, text: string): Node {
    Element(tag, [Text(text)])
  }

  function Render(n: Node): string
    decreases n
  {
    match n
    case Element(tag, children) => OpenTag(tag) + RenderAll(children) + CloseTag(tag)
    case SelfClosing(tag) => EmptyTag(tag)
    case Text(raw) => raw
  }

  function RenderAll(ns: seq<Node>): string
    decreases ns
  {
    if ns == [] then "" else Render(ns[0]) + RenderAll(ns[1..])
  }

  /** The tag of an element; text has none. */
  function TagOf(n: Node): string {
    match n
    case Element(tag, _) => tag
    case SelfClosing(tag) => tag
    case Text(_) => ""
  }

  /** The tags of a run of sibling nodes, in document order. */
  function Tags(ns: seq<Node>): (r: seq<string>)
    ensures |r| == |ns|
    ensures forall i :: 0 <= i < |ns| ==> r[i] == TagOf(ns[i])
  {
    if ns == [] then [] else [TagOf(ns[0])] + Tags(ns[1..])
  }

  lemma RenderOne(n: Node)
    ensures RenderAll([n]) == Render(n)
  {
    assert [n][1..] == [];
  }

  lemma RenderTwo(m: Node, n: Node)
    ensures RenderAll([m, n]) == Render(m) + Render(n)
  {
    assert [m, n][1..] == [n];
    RenderOne(n);
  }

  lemma RenderLeaf(tag: string, text: string)
    ensures Render(Leaf(tag, text)) == OpenTag(tag) + text + CloseTag(tag)
  {
    RenderOne(Text(text));
  }

  /** Rendering distributes over concatenation of sibling runs. */
  lemma {:induction false} RenderAllAppend(a: seq<Node>, b: seq<Node>)
    ensures RenderAll(a + b) == RenderAll(a) + RenderAll(b)
    decreases |a|
  {
    if a == [] {
      assert a + b == b;
    } else {
      assert (a + b)[1..] == a[1..] + b;
      RenderAllAppend(a[1..], b);
    }
  }
}
