/**
 * The comrak node tree as the encoder, the decoder and the older parser
 * see it: the node kinds of that comrak release (no `Raw`, `Subscript`,
 * `Subtext` or `Alert`) with the fields those files read and write.
 * `Default` values are those of comrak's derived `Default`.
 */
module LegacyComrak {
  import opened Wrappers
  import opened Bytes

  datatype ListType = Bullet | Ordered

  datatype ListDelimType = Period | Paren

  datatype NodeList = NodeList(
    listType: ListType, markerOffset: nat, padding: nat, start: nat,
    delimiter: ListDelimType, bulletChar: Byte, tight: bool)

  const DEFAULT_NODE_LIST := NodeList(Bullet, 0, 0, 0, Period, 0, false)

  datatype NodeDescriptionItem = NodeDescriptionItem(markerOffset: nat, padding: nat)

  const DEFAULT_DESCRIPTION_ITEM := NodeDescriptionItem(0, 0)

  datatype NodeCodeBlock = NodeCodeBlock(
    fenced: bool, fenceChar: Byte, fenceLength: nat, fenceOffset: nat, info: string, literal: string)

  const DEFAULT_CODE_BLOCK := NodeCodeBlock(false, 0, 0, 0, "", "")

  datatype NodeHtmlBlock = NodeHtmlBlock(blockType: Byte, literal: string)

  const DEFAULT_HTML_BLOCK := NodeHtmlBlock(0, "")

  datatype NodeHeading = NodeHeading(level: Byte, setext: bool)

  const DEFAULT_HEADING := NodeHeading(0, false)

  datatype NodeFootnoteDefinition = NodeFootnoteDefinition(name: string, totalReferences: U32)

  const DEFAULT_FOOTNOTE_DEFINITION := NodeFootnoteDefinition("", 0)

  datatype NodeFootnoteReference = NodeFootnoteReference(name: string, refNum: U32, ix: U32)

  const DEFAULT_FOOTNOTE_REFERENCE := NodeFootnoteReference("", 0, 0)

  /** `TableAlignment` (`None` is `NoAlignment` here). */
  datatype TableAlignment = NoAlignment | Left | Center | Right

  datatype NodeTable = NodeTable(
    alignments: seq<TableAlignment>, numColumns: nat, numRows: nat, numNonemptyCells: nat)

  const DEFAULT_TABLE := NodeTable([], 0, 0, 0)

  datatype NodeCode = NodeCode(numBackticks: nat, literal: string)

  datatype NodeLink = NodeLink(url: string, title: string)

  datatype NodeShortCode = NodeShortCode(code: string, emoji: string)

  datatype NodeMath = NodeMath(dollarMath: bool, displayMath: bool, literal: string)

  datatype NodeMultilineBlockQuote = NodeMultilineBlockQuote(fenceLength: nat, fenceOffset: nat)

  datatype NodeWikiLink = NodeWikiLink(url: string)

  datatype NodeValue =
    | Document
    | FrontMatter(content: string)
    | BlockQuote
    | List(list: NodeList)
    | Item(list: NodeList)
    | DescriptionList
    | DescriptionItem(descriptionItem: NodeDescriptionItem)
    | DescriptionTerm
    | DescriptionDetails
    | CodeBlock(codeBlock: NodeCodeBlock)
    | HtmlBlock(htmlBlock: NodeHtmlBlock)
    | Paragraph
    | Heading(heading: NodeHeading)
    | ThematicBreak
    | FootnoteDefinition(footnoteDefinition: NodeFootnoteDefinition)
    | FootnoteReference(footnoteReference: NodeFootnoteReference)
    | Table(table: NodeTable)
    | TableRow(header: bool)
    | TableCell
    | Text(text: string)
    | TaskItem(symbol: Option<char>)
    | SoftBreak
    | LineBreak
    | Code(code: NodeCode)
    | HtmlInline(rawHtml: string)
    | Emph
    | Strong
    | Strikethrough
    | Superscript
    | Link(link: NodeLink)
    | Image(link: NodeLink)
    | ShortCode(shortCode: NodeShortCode)
    | Math(math: NodeMath)
    | MultilineBlockQuote(multilineBlockQuote: NodeMultilineBlockQuote)
    | Escaped
    | WikiLink(wikiLink: NodeWikiLink)
    | Underline
    | SpoileredText
    | EscapedTag(tag: string)

  /** A node of the arena tree with its children in document order. */
  datatype AstNode = AstNode(value: NodeValue, children: seq<AstNode>)
}
