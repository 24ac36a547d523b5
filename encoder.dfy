/**
 * `to_elixir_ast`: a comrak tree as an `ExNode` tree, each element named
 * by its `NodeName` and carrying its node's fields as attributes.
 */
module Encoder {
  import opened Wrappers
  import opened Bytes
  import opened LegacyComrak
  import X = ExNodes

  function ListTypeName(t: ListType): string {
    match t
    case Bullet => "bullet"
    case Ordered => "ordered"
  }

  function DelimiterName(d: ListDelimType): string {
    match d
    case Period => "period"
    case Paren => "paren"
  }

  function AlignmentName(a: TableAlignment): string {
    match a
    case NoAlignment => "none"
    case Left => "left"
    case Center => "center"
    case Right => "right"
  }

  /** The four alignments have four distinct names. */
  lemma AlignmentNameInjective(a: TableAlignment, b: TableAlignment)
    ensures AlignmentName(a) == AlignmentName(b) ==> a == b
  {
  }

  /** Keys of an attribute list, in order. */
  function Keys(attrs: seq<X.Attr>): (r: seq<string>)
    ensures |r| == |attrs|
  {
    seq(|attrs|, i requires 0 <= i < |attrs| => attrs[i].0)
  }

  /** `node_list_to_ast`: the seven list fields, always all of them, in a fixed order. */
  function NodeListToAst(list: NodeList): (r: seq<X.Attr>)
    ensures Keys(r) == ["list_type", "marker_offset", "padding", "start", "delimiter", "bullet_char", "tight"]
  {
    [("list_type", X.Text(ListTypeName(list.listType))),
     ("marker_offset", X.Usize(list.markerOffset)),
     ("padding", X.Usize(list.padding)),
     ("start", X.Usize(list.start)),
     ("delimiter", X.Text(DelimiterName(list.delimiter))),
     ("bullet_char", X.Text(CharToStringOrEmpty(list.bulletChar))),
     ("tight", X.Bool(list.tight))]
  }

  /** `node_link_to_ast`. */
  function NodeLinkToAst(link: NodeLink): (r: seq<X.Attr>)
    ensures Keys(r) == ["url", "title"]
  {
    [("url", X.Text(link.url)), ("title", X.Text(link.title))]
  }

  /** The `alignments` attribute: one name per column, in column order. */
  function AlignmentNames(alignments: seq<TableAlignment>): (r: seq<string>)
    ensures |r| == |alignments|
    ensures forall i :: 0 <= i < |r| ==> r[i] in ["none", "left", "center", "right"]
  {
    seq(|alignments|, i requires 0 <= i < |alignments| => AlignmentName(alignments[i]))
  }

  /** A checked task item carries its symbol, an unchecked one only `checked=false`. */
  function TaskItemAttrs(symbol: Option<char>): (r: seq<X.Attr>)
    ensures symbol.None? ==> r == [("checked", X.Bool(false))]
    ensures symbol.Some? ==> r == [("checked", X.Bool(true)), ("symbol", X.Text([symbol.value]))]
  {
    match symbol
    case Some(c) => [("checked", X.Bool(true)), ("symbol", X.Text([c]))]
    case None => [("checked", X.Bool(false))]
  }

  /** The element name and attributes of every node kind but text. */
  function NameAndAttrs(value: NodeValue): (X.NodeName, seq<X.Attr>)
    requires !value.Text?
  {
    match value
    case Document => (X.Document, [])
    case FrontMatter(content) => (X.FrontMatter, [("content", X.Text(content))])
    case BlockQuote => (X.BlockQuote, [])
    case List(list) => (X.List, NodeListToAst(list))
    case Item(list) => (X.Item, NodeListToAst(list))
    case DescriptionList => (X.DescriptionList, [])
    case DescriptionItem(d) =>
      (X.DescriptionItem, [("marker_offset", X.Usize(d.markerOffset)), ("padding", X.Usize(d.padding))])
    case DescriptionTerm => (X.DescriptionTerm, [])
    case DescriptionDetails => (X.DescriptionDetails, [])
    case CodeBlock(c) =>
      (X.CodeBlock, [("fenced", X.Bool(c.fenced)),
                     ("fence_char", X.Text(CharToStringOrEmpty(c.fenceChar))),
                     ("fence_length", X.Usize(c.fenceLength)),
                     ("fence_offset", X.Usize(c.fenceOffset)),
                     ("info", X.Text(c.info)),
                     ("literal", X.Text(c.literal))])
    case HtmlBlock(h) => (X.HtmlBlock, [("block_type", X.U8(h.blockType)), ("literal", X.Text(h.literal))])
    case Paragraph => (X.Paragraph, [])
    case Heading(h) => (X.Heading, [("level", X.U8(h.level)), ("setext", X.Bool(h.setext))])
    case ThematicBreak => (X.ThematicBreak, [])
    case FootnoteDefinition(f) =>
      (X.FootnoteDefinition, [("name", X.Text(f.name)), ("total_references", X.U32(f.totalReferences))])
    case FootnoteReference(f) =>
      (X.FootnoteReference, [("name", X.Text(f.name)), ("ref_num", X.U32(f.refNum)), ("ix", X.U32(f.ix))])
    case Table(t) =>
      (X.Table, [("alignments", X.TextList(AlignmentNames(t.alignments))),
                 ("num_columns", X.Usize(t.numColumns)),
                 ("num_rows", X.Usize(t.numRows)),
                 ("num_nonempty_cells", X.Usize(t.numNonemptyCells))])
    case TableRow(header) => (X.TableRow, [("header", X.Bool(header))])
    case TableCell => (X.TableCell, [])
    case TaskItem(symbol) => (X.TaskItem, TaskItemAttrs(symbol))
    case SoftBreak => (X.SoftBreak, [])
    case LineBreak => (X.LineBreak, [])
    case Code(c) => (X.Code, [("num_backticks", X.Usize(c.numBackticks)), ("literal", X.Text(c.literal))])
    case HtmlInline(raw) => (X.HtmlInline, [("raw_html", X.Text(raw))])
    case Emph => (X.Emph, [])
    case Strong => (X.Strong, [])
    case Strikethrough => (X.Strikethrough, [])
    case Superscript => (X.Superscript, [])
    case Link(link) => (X.Link, NodeLinkToAst(link))
    case Image(link) => (X.Image, NodeLinkToAst(link))
    case ShortCode(s) => (X.ShortCode, [("code", X.Text(s.code)), ("emoji", X.Text(s.emoji))])
    case Math(m) =>
      (X.Math, [("dollar_math", X.Bool(m.dollarMath)), ("display_math", X.Bool(m.displayMath)),
                ("literal", X.Text(m.literal))])
    case MultilineBlockQuote(m) =>
      (X.MultilineBlockQuote, [("fence_length", X.Usize(m.fenceLength)), ("fence_offset", X.Usize(m.fenceOffset))])
    case Escaped => (X.Escaped, [])
    case WikiLink(w) => (X.WikiLink, [("url", X.Text(w.url))])
    case Underline => (X.Underline, [])
    case SpoileredText => (X.SpoileredText, [])
    case EscapedTag(tag) => (X.EscapedTag, [("tag", X.Text(tag))])
  }

  /** `to_elixir_ast`: text stays text, every other node becomes an element over its converted children. */
  function ToElixirAst(node: AstNode): (r: X.ExNode<X.NodeName>)
    ensures node.value.Text? <==> r.TextNode?
    ensures r.Element? ==> |r.children| == |node.children|
    decreases node
  {
    if node.value.Text? then X.TextNode(node.value.text)
    else
      var (name, attrs) := NameAndAttrs(node.value);
      X.Element(name, attrs,
                seq(|node.children|, i requires 0 <= i < |node.children| => ToElixirAst(node.children[i])))
  }
}
