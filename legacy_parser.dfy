/**
 * The older `to_elixir_ast`, which names elements by plain strings rather
 * than by `NodeName`, and writes a task item as its symbol alone.
 */
module LegacyParser {
  import opened Wrappers
  import opened LegacyComrak
  import X = ExNodes
  import Encoder
  import Decoder

  /** A task item's one attribute: its symbol, a space when it has none. */
  function TaskItemAttrs(symbol: Option<char>): (r: seq<X.Attr>)
    ensures |r| == 1 && r[0].0 == "symbol" && r[0].1.Text? && |r[0].1.text| == 1
    ensures symbol.Some? ==> r[0].1.text[0] == symbol.value
    ensures symbol.None? ==> r[0].1.text[0] == ' '
  {
    [("symbol", X.Text([symbol.GetOr(' ')]))]
  }

  /** The element name and attributes of every node kind but text. */
  function NameAndAttrs(value: NodeValue): (string, seq<X.Attr>)
    requires !value.Text?
  {
    match value
    case Document => ("document", [])
    case FrontMatter(content) => ("front_matter", [("content", X.Text(content))])
    case BlockQuote => ("block_quote", [])
    case List(list) => ("list", Encoder.NodeListToAst(list))
    case Item(list) => ("item", Encoder.NodeListToAst(list))
    case DescriptionList => ("description_list", [])
    case DescriptionItem(d) =>
      ("description_item", [("marker_offset", X.Usize(d.markerOffset)), ("padding", X.Usize(d.padding))])
    case DescriptionTerm => ("description_term", [])
    case DescriptionDetails => ("description_details", [])
    case CodeBlock(c) =>
      ("code_block", [("fenced", X.Bool(c.fenced)),
                      ("fence_char", X.Text(Bytes.CharToStringOrEmpty(c.fenceChar))),
                      ("fence_length", X.Usize(c.fenceLength)),
                      ("fence_offset", X.Usize(c.fenceOffset)),
                      ("info", X.Text(c.info)),
                      ("literal", X.Text(c.literal))])
    case HtmlBlock(h) => ("html_block", [("block_type", X.U8(h.blockType)), ("literal", X.Text(h.literal))])
    case Paragraph => ("paragraph", [])
    case Heading(h) => ("heading", [("level", X.U8(h.level)), ("setext", X.Bool(h.setext))])
    case ThematicBreak => ("thematic_break", [])
    case FootnoteDefinition(f) =>
      ("footnote_definition", [("name", X.Text(f.name)), ("total_references", X.U32(f.totalReferences))])
    case FootnoteReference(f) =>
      ("footnote_reference", [("name", X.Text(f.name)), ("ref_num", X.U32(f.refNum)), ("ix", X.U32(f.ix))])
    case Table(t) =>
      ("table", [("alignments", X.TextList(Encoder.AlignmentNames(t.alignments))),
                 ("num_columns", X.Usize(t.numColumns)),
                 ("num_rows", X.Usize(t.numRows)),
                 ("num_nonempty_cells", X.Usize(t.numNonemptyCells))])
    case TableRow(header) => ("table_row", [("header", X.Bool(header))])
    case TableCell => ("table_cell", [])
    case TaskItem(symbol) => ("task_item", TaskItemAttrs(symbol))
    case SoftBreak => ("soft_break", [])
    case LineBreak => ("line_break", [])
    case Code(c) => ("code", [("num_backticks", X.Usize(c.numBackticks)), ("literal", X.Text(c.literal))])
    case HtmlInline(raw) => ("html_inline", [("raw_html", X.Text(raw))])
    case Emph => ("emph", [])
    case Strong => ("strong", [])
    case Strikethrough => ("strikethrough", [])
    case Superscript => ("superscript", [])
    case Link(link) => ("link", Encoder.NodeLinkToAst(link))
    case Image(link) => ("image", Encoder.NodeLinkToAst(link))
    case ShortCode(s) => ("short_code", [("code", X.Text(s.code)), ("emoji", X.Text(s.emoji))])
    case Math(m) =>
      ("math", [("dollar_math", X.Bool(m.dollarMath)), ("display_math", X.Bool(m.displayMath)),
                ("literal", X.Text(m.literal))])
    case MultilineBlockQuote(m) =>
      ("multiline_block_quote", [("fence_length", X.Usize(m.fenceLength)), ("fence_offset", X.Usize(m.fenceOffset))])
    case Escaped => ("escaped", [])
    case WikiLink(w) => ("wiki_link", [("url", X.Text(w.url))])
    case Underline => ("underline", [])
    case SpoileredText => ("spoilered_text", [])
    case EscapedTag(tag) => ("escaped_tag", [("tag", X.Text(tag))])
  }

  /** `to_elixir_ast`: text stays text, every other node becomes an element over its converted children. */
  function ToElixirAst(node: AstNode): (r: X.ExNode<string>)
    ensures node.value.Text? <==> r.TextNode?
    ensures r.Element? ==> |r.children| == |node.children|
    decreases node
  {
    if node.value.Text? then X.TextNode(node.value.text)
    else
      var (name, attrs) := NameAndAttrs(node.value);
      X.Element(name, attrs,
                seq(|node.children|, i requires 0 <= i < |node.children| => ToElixirAst(node.children[i])))
  }

  /** Whether the tree holds a task item, the one kind the two encoders write differently. */
  predicate HasTaskItem(node: AstNode)
    decreases node
  {
    node.value.TaskItem? || exists i :: 0 <= i < |node.children| && HasTaskItem(node.children[i])
  }

  /** The encoder's tree with each `NodeName` written out as its string. */
  function NamesWritten(node: X.ExNode<X.NodeName>): (r: X.ExNode<string>)
    ensures node.TextNode? ==> r == X.TextNode(node.text)
    ensures node.Element? ==> r.Element? && r.name == X.NodeNameString(node.name) && r.attrs == node.attrs
                              && |r.children| == |node.children|
    decreases node
  {
    match node
    case TextNode(text) => X.TextNode(text)
    case Element(name, attrs, children) =>
      X.Element(X.NodeNameString(name), attrs,
                seq(|children|, i requires 0 <= i < |children| => NamesWritten(children[i])))
  }

  /** The two encoders' element for `value` agree: the same name, the same attributes. */
  predicate Agrees(value: NodeValue)
    requires !value.Text?
  {
    NameAndAttrs(value).0 == X.NodeNameString(Encoder.NameAndAttrs(value).0)
    && NameAndAttrs(value).1 == Encoder.NameAndAttrs(value).1
  }

  /** Apart from task items, both encoders write the same element: the same name, the same attributes. */
  lemma AgreesWithEncoder(value: NodeValue)
    requires !value.Text? && !value.TaskItem?
    ensures NameAndAttrs(value).0 == X.NodeNameString(Encoder.NameAndAttrs(value).0)
    ensures NameAndAttrs(value).1 == Encoder.NameAndAttrs(value).1
  {
    match value
    case Document | FrontMatter(_) | BlockQuote | List(_) => KindsAgree1(value);
    case Item(_) | DescriptionList | DescriptionItem(_) | DescriptionTerm => KindsAgree2(value);
    case DescriptionDetails | CodeBlock(_) | HtmlBlock(_) | Paragraph => KindsAgree3(value);
    case Heading(_) | ThematicBreak | FootnoteDefinition(_) | FootnoteReference(_) => KindsAgree4(value);
    case Table(_) | TableRow(_) | TableCell | SoftBreak => KindsAgree5(value);
    case LineBreak | Code(_) => KindsAgree6(value);
    case HtmlInline(_) | Emph => KindsAgree7(value);
    case Strong | Strikethrough => KindsAgree8(value);
    case Superscript | Link(_) => KindsAgree9(value);
    case Image(_) | ShortCode(_) => KindsAgree10(value);
    case Math(_) | MultilineBlockQuote(_) => KindsAgree11(value);
    case Escaped | WikiLink(_) => KindsAgree12(value);
    case Underline | SpoileredText => KindsAgree13(value);
    case EscapedTag(_) => KindsAgree14(value);
  }

  /** Agreement for the kinds `Document` to `List` of the declaration. */
  lemma KindsAgree1(value: NodeValue)
    requires value.Document? || value.FrontMatter? || value.BlockQuote? || value.List?
    ensures Agrees(value)
  {
    match value
    case Document => assert Agrees(Document);
    case FrontMatter(x) => assert Agrees(FrontMatter(x));
    case BlockQuote => assert Agrees(BlockQuote);
    case List(x) => assert Agrees(List(x));
  }

  /** Agreement for the kinds `Item` to `DescriptionTerm` of the declaration. */
  lemma KindsAgree2(value: NodeValue)
    requires value.Item? || value.DescriptionList? || value.DescriptionItem? || value.DescriptionTerm?
    ensures Agrees(value)
  {
    match value
    case Item(x) => assert Agrees(Item(x));
    case DescriptionList => assert Agrees(DescriptionList);
    case DescriptionItem(x) => assert Agrees(DescriptionItem(x));
    case DescriptionTerm => assert Agrees(DescriptionTerm);
  }

  /** Agreement for the kinds `DescriptionDetails` to `Paragraph` of the declaration. */
  lemma KindsAgree3(value: NodeValue)
    requires value.DescriptionDetails? || value.CodeBlock? || value.HtmlBlock? || value.Paragraph?
    ensures Agrees(value)
  {
    match value
    case DescriptionDetails => assert Agrees(DescriptionDetails);
    case CodeBlock(x) => assert Agrees(CodeBlock(x));
    case HtmlBlock(x) => assert Agrees(HtmlBlock(x));
    case Paragraph => assert Agrees(Paragraph);
  }

  /** Agreement for the kinds `Heading` to `FootnoteReference` of the declaration. */
  lemma KindsAgree4(value: NodeValue)
    requires value.Heading? || value.ThematicBreak? || value.FootnoteDefinition? || value.FootnoteReference?
    ensures Agrees(value)
  {
    match value
    case Heading(x) => assert Agrees(Heading(x));
    case ThematicBreak => assert Agrees(ThematicBreak);
    case FootnoteDefinition(x) => assert Agrees(FootnoteDefinition(x));
    case FootnoteReference(x) => assert Agrees(FootnoteReference(x));
  }

  /** Agreement for the kinds `Table` to `SoftBreak` of the declaration. */
  lemma KindsAgree5(value: NodeValue)
    requires value.Table? || value.TableRow? || value.TableCell? || value.SoftBreak?
    ensures Agrees(value)
  {
    match value
    case Table(x) => assert Agrees(Table(x));
    case TableRow(x) => assert Agrees(TableRow(x));
    case TableCell => assert Agrees(TableCell);
    case SoftBreak => assert Agrees(SoftBreak);
  }

  /** Agreement for the kinds `LineBreak` to `Code` of the declaration. */
  lemma KindsAgree6(value: NodeValue)
    requires value.LineBreak? || value.Code?
    ensures Agrees(value)
  {
    match value
    case LineBreak => assert Agrees(LineBreak);
    case Code(x) => assert Agrees(Code(x));
  }

  /** Agreement for the kinds `HtmlInline` to `Emph` of the declaration. */
  lemma KindsAgree7(value: NodeValue)
    requires value.HtmlInline? || value.Emph?
    ensures Agrees(value)
  {
    match value
    case HtmlInline(x) => assert Agrees(HtmlInline(x));
    case Emph => assert Agrees(Emph);
  }

  /** Agreement for the kinds `Strong` to `Strikethrough` of the declaration. */
  lemma KindsAgree8(value: NodeValue)
    requires value.Strong? || value.Strikethrough?
    ensures Agrees(value)
  {
    match value
    case Strong => assert Agrees(Strong);
    case Strikethrough => assert Agrees(Strikethrough);
  }

  /** Agreement for the kinds `Superscript` to `Link` of the declaration. */
  lemma KindsAgree9(value: NodeValue)
    requires value.Superscript? || value.Link?
    ensures Agrees(value)
  {
    match value
    case Superscript => assert Agrees(Superscript);
    case Link(x) => assert Agrees(Link(x));
  }

  /** Agreement for the kinds `Image` to `ShortCode` of the declaration. */
  lemma KindsAgree10(value: NodeValue)
    requires value.Image? || value.ShortCode?
    ensures Agrees(value)
  {
    match value
    case Image(x) => assert Agrees(Image(x));
    case ShortCode(x) => assert Agrees(ShortCode(x));
  }

  /** Agreement for the kinds `Math` to `MultilineBlockQuote` of the declaration. */
  lemma KindsAgree11(value: NodeValue)
    requires value.Math? || value.MultilineBlockQuote?
    ensures Agrees(value)
  {
    match value
    case Math(x) => assert Agrees(Math(x));
    case MultilineBlockQuote(x) => assert Agrees(MultilineBlockQuote(x));
  }

  /** Agreement for the kinds `Escaped` to `WikiLink` of the declaration. */
  lemma KindsAgree12(value: NodeValue)
    requires value.Escaped? || value.WikiLink?
    ensures Agrees(value)
  {
    match value
    case Escaped => assert Agrees(Escaped);
    case WikiLink(x) => assert Agrees(WikiLink(x));
  }

  /** Agreement for the kinds `Underline` to `SpoileredText` of the declaration. */
  lemma KindsAgree13(value: NodeValue)
    requires value.Underline? || value.SpoileredText?
    ensures Agrees(value)
  {
    match value
    case Underline => assert Agrees(Underline);
    case SpoileredText => assert Agrees(SpoileredText);
  }

  /** Agreement for `EscapedTag`. */
  lemma KindsAgree14(value: NodeValue)
    requires value.EscapedTag?
    ensures Agrees(value)
  {
    match value
    case EscapedTag(x) => assert Agrees(EscapedTag(x));
  }


  /** For a tree without task items, the older encoder's tree is the encoder's with the names written out. */
  lemma {:induction false} TreeAgreesWithEncoder(node: AstNode)
    requires !HasTaskItem(node)
    ensures ToElixirAst(node) == NamesWritten(Encoder.ToElixirAst(node))
    decreases node
  {
    if !node.value.Text? {
      AgreesWithEncoder(node.value);
      forall i | 0 <= i < |node.children|
        ensures ToElixirAst(node.children[i]) == NamesWritten(Encoder.ToElixirAst(node.children[i]))
      {
        TreeAgreesWithEncoder(node.children[i]);
      }
      assert ToElixirAst(node).children == NamesWritten(Encoder.ToElixirAst(node)).children;
    }
  }

  /**
   * The decoder reads an older task item as checked: an unchecked item comes
   * back with a space as its symbol.
   */
  lemma TaskItemDecodesChecked(symbol: Option<char>)
    ensures Decoder.TaskItemOf(TaskItemAttrs(symbol)) == Some(symbol.GetOr(' '))
  {
    var attrs := TaskItemAttrs(symbol);
    Decoder.Fold1(attrs, None, Decoder.SymbolStep);
    assert !Decoder.Unchecked(attrs[0]);
  }
}
