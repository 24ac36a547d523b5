/**
 * The comrak node tree `document.rs` converts to and from: the later
 * release, with `Raw`, `Subscript`, `Subtext` and `Alert`, and with the
 * `tight`, `is_task_list` and `closed` fields. Node structs whose fields
 * did not change are the ones of `LegacyComrak`.
 */
module Comrak {
  import opened Wrappers
  import opened Bytes
  import L = LegacyComrak

  datatype NodeList = NodeList(
    listType: L.ListType, markerOffset: nat, padding: nat, start: nat,
    delimiter: L.ListDelimType, bulletChar: Byte, tight: bool, isTaskList: bool)

  datatype NodeDescriptionItem = NodeDescriptionItem(markerOffset: nat, padding: nat, tight: bool)

  datatype NodeCodeBlock = NodeCodeBlock(
    fenced: bool, fenceChar: Byte, fenceLength: nat, fenceOffset: nat, info: string, literal: string,
    closed: bool)

  datatype NodeHeading = NodeHeading(level: Byte, setext: bool, closed: bool)

  datatype AlertType = Note | Tip | Important | Warning | Caution

  datatype NodeAlert = NodeAlert(
    alertType: AlertType, title: Option<string>, multiline: bool, fenceLength: nat, fenceOffset: nat)

  datatype NodeValue =
    | Document
    | FrontMatter(content: string)
    | BlockQuote
    | List(list: NodeList)
    | Item(list: NodeList)
    | DescriptionList
    | DescriptionItem(descriptionItem: NodeDescriptionItem)
    | DescriptionTerm
    | DescriptionDetails
    | CodeBlock(codeBlock: NodeCodeBlock)
    | HtmlBlock(htmlBlock: L.NodeHtmlBlock)
    | Paragraph
    | Heading(heading: NodeHeading)
    | ThematicBreak
    | FootnoteDefinition(footnoteDefinition: L.NodeFootnoteDefinition)
    | FootnoteReference(footnoteReference: L.NodeFootnoteReference)
    | Table(table: L.NodeTable)
    | TableRow(header: bool)
    | TableCell
    | Text(text: string)
    | TaskItem(symbol: Option<char>)
    | SoftBreak
    | LineBreak
    | Code(code: L.NodeCode)
    | HtmlInline(rawHtml: string)
    | Raw(raw: string)
    | Emph
    | Strong
    | Strikethrough
    | Superscript
    | Link(link: L.NodeLink)
    | Image(link: L.NodeLink)
    | ShortCode(shortCode: L.NodeShortCode)
    | Math(math: L.NodeMath)
    | MultilineBlockQuote(multilineBlockQuote: L.NodeMultilineBlockQuote)
    | Escaped
    | WikiLink(wikiLink: L.NodeWikiLink)
    | Underline
    | Subscript
    | SpoileredText
    | Subtext
    | EscapedTag(tag: string)
    | Alert(alert: NodeAlert)

  /** A node of the arena tree with its children in document order. */
  datatype AstNode = AstNode(value: NodeValue, children: seq<AstNode>)
}
