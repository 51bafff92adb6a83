/**
 The typed field reader and writer of Hydrogen's `XMLNode`
 (libs/hydrogen/src/helpers/xml.cpp). A node is either null or an element;
 an element has a tag name, its own character data and its child elements.
 */
module Xml {
  import opened Options
  import opened Decimal

  datatype Element = Element(name: string, text: string, kids: seq<Element>)

  /** An `XMLNode`: the null node, or a node wrapping one element. */
  datatype XmlNode = Null | Node(elem: Element)

  /** Text conversion for `float` fields, which is library code (`QString::number`
      writing, `QLocale::toFloat` reading) and is therefore a parameter. */
  datatype FloatText = FloatText(format: real -> string, parse: string -> real)

  /** `QDomElement::text()`: the element's character data followed by that of its descendants. */
  function TextOf(e: Element): string
    decreases e, 1
  {
    e.text + KidsText(e.kids)
  }

  function KidsText(ks: seq<Element>): string
    decreases ks, 0
  {
    if ks == [] then "" else TextOf(ks[0]) + KidsText(ks[1..])
  }

  /** `k` is the position of the first element of `ks` called `name`. */
  ghost predicate IsFirstNamed(ks: seq<Element>, name: string, k: int) {
    && 0 <= k < |ks|
    && ks[k].name == name
    && forall j :: 0 <= j < k ==> ks[j].name != name
  }

  /** The position of the first element called `name`, if there is one. */
  function FirstIndex(ks: seq<Element>, name: string): (r: Option<nat>)
    ensures r.Some? ==> IsFirstNamed(ks, name, r.value)
    ensures r.None? <==> forall j :: 0 <= j < |ks| ==> ks[j].name != name
  {
    if ks == [] then None
    else if ks[0].name == name then Some(0)
    else match FirstIndex(ks[1..], name)
      case Some(k) => Some(k + 1)
      case None => None
  }

  /** The child elements of a node (none for the null node). */
  function Children(node: XmlNode): seq<Element> {
    match node
    case Null => []
    case Node(e) => e.kids
  }

  /** `firstChildElement(name)`. */
  function FirstChildElement(node: XmlNode, name: string): (r: Option<Element>)
    ensures r.Some? <==> exists k :: IsFirstNamed(Children(node), name, k)
    ensures forall k :: IsFirstNamed(Children(node), name, k) ==> r == Some(Children(node)[k])
  {
    var ks := Children(node);
    match FirstIndex(ks, name)
    case Some(k) => Some(ks[k])
    case None => None
  }

  /** The elements of `ks` called `name`, in document order. */
  function Named(ks: seq<Element>, name: string): (r: seq<Element>)
    ensures |r| <= |ks|
    ensures forall k :: 0 <= k < |r| ==> r[k].name == name
  {
    if ks == [] then []
    else if ks[0].name == name then [ks[0]] + Named(ks[1..], name)
    else Named(ks[1..], name)
  }

  /** The elements visited by `firstChildElement(name)` followed by repeated
      `nextSiblingElement(name)`. */
  function ChildElements(node: XmlNode, name: string): seq<Element> {
    Named(Children(node), name)
  }

  /**
   `read_child_node`: the text of the first child called `name`, or None (a null
   QString) when the node is null, has no such child, or that child's text is
   empty. The two flags only choose which of these cases are logged.
   */
  function ReadChildNode(node: XmlNode, name: string, inexistentOk: bool, emptyOk: bool): (r: Option<string>)
    ensures node.Null? ==> r.None?
    ensures (forall j :: 0 <= j < |Children(node)| ==> Children(node)[j].name != name) ==> r.None?
    ensures forall k :: IsFirstNamed(Children(node), name, k) ==>
              r == (if TextOf(Children(node)[k]) == "" then None else Some(TextOf(Children(node)[k])))
    ensures r.Some? ==> r.value != ""
  {
    match node
    case Null => None
    case Node(_) =>
      match FirstChildElement(node, name)
      case None => None
      case Some(el) => if TextOf(el) == "" then None else Some(TextOf(el))
  }

  /** `read_string`. */
  function ReadString(node: XmlNode, name: string, default: string, inexistentOk: bool, emptyOk: bool): (r: string)
    ensures ReadChildNode(node, name, inexistentOk, emptyOk).None? ==> r == default
    ensures ReadChildNode(node, name, inexistentOk, emptyOk).Some? ==> r == ReadChildNode(node, name, inexistentOk, emptyOk).value
    ensures r == default || r == ReadChildNode(node, name, inexistentOk, emptyOk).value
  {
    match ReadChildNode(node, name, inexistentOk, emptyOk)
    case None => default
    case Some(t) => t
  }

  /** `read_float`, with the C locale's float parser as a parameter. */
  function ReadFloat(node: XmlNode, name: string, default: real, ft: FloatText, inexistentOk: bool, emptyOk: bool): (r: real)
    ensures ReadChildNode(node, name, inexistentOk, emptyOk).None? ==> r == default
    ensures ReadChildNode(node, name, inexistentOk, emptyOk).Some? ==> r == ft.parse(ReadChildNode(node, name, inexistentOk, emptyOk).value)
  {
    match ReadChildNode(node, name, inexistentOk, emptyOk)
    case None => default
    case Some(t) => ft.parse(t)
  }

  /** `read_int`: text that is not an `int` numeral reads as 0. */
  function ReadInt(node: XmlNode, name: string, default: Int32, inexistentOk: bool, emptyOk: bool): (r: Int32)
    ensures ReadChildNode(node, name, inexistentOk, emptyOk).None? ==> r == default
    ensures ReadChildNode(node, name, inexistentOk, emptyOk).Some? ==> r == TextToInt32(ReadChildNode(node, name, inexistentOk, emptyOk).value)
  {
    match ReadChildNode(node, name, inexistentOk, emptyOk)
    case None => default
    case Some(t) => TextToInt32(t)
  }

  /** `read_bool`: true exactly for the text "true"; any other present text reads as false. */
  function ReadBool(node: XmlNode, name: string, default: bool, inexistentOk: bool, emptyOk: bool): (r: bool)
    ensures ReadChildNode(node, name, inexistentOk, emptyOk).None? ==> r == default
    ensures ReadChildNode(node, name, inexistentOk, emptyOk).Some? ==> (r <==> ReadChildNode(node, name, inexistentOk, emptyOk).value == "true")
  {
    match ReadChildNode(node, name, inexistentOk, emptyOk)
    case None => default
    case Some(t) => t == "true"
  }

  /** The element `write_child_node(name, text)` creates: a tag holding one text node. */
  function TextElement(name: string, text: string): Element {
    Element(name, text, [])
  }

  /** `appendChild`; appending to the null node does nothing. */
  function AppendChild(node: XmlNode, child: Element): XmlNode {
    match node
    case Null => Null
    case Node(e) => Node(e.(kids := e.kids + [child]))
  }

  /** `write_child_node`: appends exactly one child and leaves the others alone. */
  function WriteChildNode(node: XmlNode, name: string, text: string): (r: XmlNode)
    ensures node.Null? ==> r.Null?
    ensures node.Node? ==> r.Node? && r.elem.name == node.elem.name && r.elem.text == node.elem.text
    ensures node.Node? ==> |Children(r)| == |Children(node)| + 1
    ensures node.Node? ==> Children(r)[..|Children(node)|] == Children(node)
    ensures node.Node? ==> Children(r)[|Children(node)|] == Element(name, text, [])
  {
    AppendChild(node, TextElement(name, text))
  }

  function BoolText(b: bool): string {
    if b then "true" else "false"
  }

  function WriteString(node: XmlNode, name: string, value: string): XmlNode {
    WriteChildNode(node, name, value)
  }

  function WriteFloat(node: XmlNode, name: string, value: real, ft: FloatText): XmlNode {
    WriteChildNode(node, name, ft.format(value))
  }

  function WriteInt(node: XmlNode, name: string, value: Int32): XmlNode {
    WriteChildNode(node, name, FormatInt(value))
  }

  function WriteBool(node: XmlNode, name: string, value: bool): XmlNode {
    WriteChildNode(node, name, BoolText(value))
  }

  // ---------------------------------------------------------------------------
  // Properties of the reader and the writer

  /** The logging flags never change what is read. */
  lemma ReadChildNodeIgnoresFlags(node: XmlNode, name: string, ie1: bool, ee1: bool, ie2: bool, ee2: bool)
    ensures ReadChildNode(node, name, ie1, ee1) == ReadChildNode(node, name, ie2, ee2)
  {
  }

  /** A text element's text is exactly the text it was written with. */
  lemma TextOfTextElement(name: string, text: string)
    ensures TextOf(TextElement(name, text)) == text
  {
    assert KidsText([]) == "";
  }

  /** Looking up a name after one more child has been appended. */
  lemma {:induction false} FirstIndexAppend(ks: seq<Element>, e: Element, name: string)
    ensures FirstIndex(ks + [e], name) ==
              if FirstIndex(ks, name).Some? then FirstIndex(ks, name)
              else if e.name == name then Some(|ks|) else None
  {
    if ks != [] {
      assert (ks + [e])[1..] == ks[1..] + [e];
      FirstIndexAppend(ks[1..], e, name);
    }
  }

  /** Writing a child called `name` under a node that has none, then reading
      `name`, yields the written text, or nothing when that text is empty:
      an empty field and an absent one read the same. */
  lemma ReadAfterWrite(node: XmlNode, name: string, text: string, ie: bool, ee: bool)
    requires node.Node?
    requires forall j :: 0 <= j < |Children(node)| ==> Children(node)[j].name != name
    ensures ReadChildNode(WriteChildNode(node, name, text), name, ie, ee) == (if text == "" then None else Some(text))
  {
    var ks := Children(node);
    FirstIndexAppend(ks, TextElement(name, text), name);
    TextOfTextElement(name, text);
    assert Children(WriteChildNode(node, name, text)) == ks + [TextElement(name, text)];
  }

  /** A second child with an existing name is shadowed: the first occurrence still wins. */
  lemma ReadShadowed(node: XmlNode, name: string, other: string, text: string, ie: bool, ee: bool)
    requires node.Node?
    requires FirstIndex(Children(node), name).Some? || other != name
    ensures ReadChildNode(WriteChildNode(node, other, text), name, ie, ee) == ReadChildNode(node, name, ie, ee)
  {
    var ks := Children(node);
    FirstIndexAppend(ks, TextElement(other, text), name);
    assert Children(WriteChildNode(node, other, text)) == ks + [TextElement(other, text)];
    match FirstIndex(ks, name)
    case Some(k) =>
      assert (ks + [TextElement(other, text)])[k] == ks[k];
    case None =>
  }

  /** An `int` written to a node with no field of that name reads back unchanged. */
  lemma ReadAfterWriteInt(node: XmlNode, name: string, value: Int32, default: Int32, ie: bool, ee: bool)
    requires node.Node?
    requires forall j :: 0 <= j < |Children(node)| ==> Children(node)[j].name != name
    ensures ReadInt(WriteInt(node, name, value), name, default, ie, ee) == value
  {
    ReadAfterWrite(node, name, FormatInt(value), ie, ee);
    Int32TextRoundTrip(value);
  }

  /** A `bool` written to a node with no field of that name reads back unchanged. */
  lemma ReadAfterWriteBool(node: XmlNode, name: string, value: bool, default: bool, ie: bool, ee: bool)
    requires node.Node?
    requires forall j :: 0 <= j < |Children(node)| ==> Children(node)[j].name != name
    ensures ReadBool(WriteBool(node, name, value), name, default, ie, ee) == value
  {
    ReadAfterWrite(node, name, BoolText(value), ie, ee);
  }

  /** A string reads back as written, except that the empty string reads as the default. */
  lemma ReadAfterWriteString(node: XmlNode, name: string, value: string, default: string, ie: bool, ee: bool)
    requires node.Node?
    requires forall j :: 0 <= j < |Children(node)| ==> Children(node)[j].name != name
    ensures ReadString(WriteString(node, name, value), name, default, ie, ee) == (if value == "" then default else value)
  {
    ReadAfterWrite(node, name, value, ie, ee);
  }

  /** The first element of the sibling walk is the one `firstChildElement` finds. */
  lemma {:induction false} NamedStartsAtFirst(ks: seq<Element>, name: string)
    ensures Named(ks, name) == [] <==> FirstIndex(ks, name).None?
    ensures FirstIndex(ks, name).Some? ==> Named(ks, name)[0] == ks[FirstIndex(ks, name).value]
  {
    if ks != [] && ks[0].name != name {
      NamedStartsAtFirst(ks[1..], name);
    }
  }

  /** The sibling walk distributes over concatenation. */
  lemma {:induction false} NamedAppend(a: seq<Element>, b: seq<Element>, name: string)
    ensures Named(a + b, name) == Named(a, name) + Named(b, name)
  {
    if a != [] {
      assert (a + b)[1..] == a[1..] + b;
      NamedAppend(a[1..], b, name);
    } else {
      assert a + b == b;
    }
  }

  /** When every element has the name, the walk visits them all. */
  lemma {:induction false} NamedAll(ks: seq<Element>, name: string)
    requires forall k :: 0 <= k < |ks| ==> ks[k].name == name
    ensures Named(ks, name) == ks
  {
    if ks != [] {
      NamedAll(ks[1..], name);
    }
  }

  /** When no element has the name, the walk visits none. */
  lemma {:induction false} NamedNone(ks: seq<Element>, name: string)
    requires forall k :: 0 <= k < |ks| ==> ks[k].name != name
    ensures Named(ks, name) == []
  {
    if ks != [] {
      NamedNone(ks[1..], name);
    }
  }
}
