/**
 * The node shape exchanged with Elixir by the encoder, the decoder and the
 * older parser: an element is a name, an ordered list of attributes and an
 * ordered list of children, and a text node is a bare string. Also the
 * Erlang terms such nodes are written to and read from.
 */
module ExNodes {
  import opened Wrappers
  import opened Bytes

  /** `AttrValue`: the value of one attribute (`List` is `TextList` here). */
  datatype AttrValue =
    | U8(byte: Byte)
    | U32(word: U32)
    | Usize(size: nat)
    | Bool(flag: bool)
    | Text(text: string)
    | TextList(items: seq<string>)

  type Attr = (string, AttrValue)

  /**
   * `ExNode`. The encoder and decoder name elements by `NodeName`, the
   * older parser by the name string itself, so the name type is a parameter.
   */
  datatype ExNode<N> =
    | Element(name: N, attrs: seq<Attr>, children: seq<ExNode<N>>)
    | TextNode(text: string)

  /** The element names the encoder and decoder know. */
  datatype NodeName =
    | Document | FrontMatter | BlockQuote | List | Item | DescriptionList | DescriptionItem
    | DescriptionTerm | DescriptionDetails | CodeBlock | HtmlBlock | Paragraph | Heading
    | ThematicBreak | FootnoteDefinition | Table | TableRow | TableCell | TaskItem | SoftBreak
    | LineBreak | Code | HtmlInline | Emph | Strong | Strikethrough | Superscript | Link | Image
    | FootnoteReference | ShortCode | Math | MultilineBlockQuote | Escaped | WikiLink | Underline
    | SpoileredText | EscapedTag

  /** `Encoder for NodeName`: the snake_case name of each element kind. */
  function NodeNameString(name: NodeName): string {
    match name
    case Document => "document"
    case FrontMatter => "front_matter"
    case BlockQuote => "block_quote"
    case List => "list"
    case Item => "item"
    case DescriptionList => "description_list"
    case DescriptionItem => "description_item"
    case DescriptionTerm => "description_term"
    case DescriptionDetails => "description_details"
    case CodeBlock => "code_block"
    case HtmlBlock => "html_block"
    case Paragraph => "paragraph"
    case Heading => "heading"
    case ThematicBreak => "thematic_break"
    case FootnoteDefinition => "footnote_definition"
    case Table => "table"
    case TableRow => "table_row"
    case TableCell => "table_cell"
    case TaskItem => "task_item"
    case SoftBreak => "soft_break"
    case LineBreak => "line_break"
    case Code => "code"
    case HtmlInline => "html_inline"
    case Emph => "emph"
    case Strong => "strong"
    case Strikethrough => "strikethrough"
    case Superscript => "superscript"
    case Link => "link"
    case Image => "image"
    case FootnoteReference => "footnote_reference"
    case ShortCode => "short_code"
    case Math => "math"
    case MultilineBlockQuote => "multiline_block_quote"
    case Escaped => "escaped"
    case WikiLink => "wiki_link"
    case Underline => "underline"
    case SpoileredText => "spoilered_text"
    case EscapedTag => "escaped_tag"
  }

  /** `NodeName::from_str`: the kind whose snake_case name is `s`, if any. */
  function NodeNameFromStr(s: string): Option<NodeName> {
    match s
    case "document" => Some(Document)
    case "front_matter" => Some(FrontMatter)
    case "block_quote" => Some(BlockQuote)
    case "list" => Some(List)
    case "item" => Some(Item)
    case "description_list" => Some(DescriptionList)
    case "description_item" => Some(DescriptionItem)
    case "description_term" => Some(DescriptionTerm)
    case "description_details" => Some(DescriptionDetails)
    case "code_block" => Some(CodeBlock)
    case "html_block" => Some(HtmlBlock)
    case "paragraph" => Some(Paragraph)
    case "heading" => Some(Heading)
    case "thematic_break" => Some(ThematicBreak)
    case "footnote_definition" => Some(FootnoteDefinition)
    case "table" => Some(Table)
    case "table_row" => Some(TableRow)
    case "table_cell" => Some(TableCell)
    case "task_item" => Some(TaskItem)
    case "soft_break" => Some(SoftBreak)
    case "line_break" => Some(LineBreak)
    case "code" => Some(Code)
    case "html_inline" => Some(HtmlInline)
    case "emph" => Some(Emph)
    case "strong" => Some(Strong)
    case "strikethrough" => Some(Strikethrough)
    case "superscript" => Some(Superscript)
    case "link" => Some(Link)
    case "image" => Some(Image)
    case "footnote_reference" => Some(FootnoteReference)
    case "short_code" => Some(ShortCode)
    case "math" => Some(Math)
    case "multiline_block_quote" => Some(MultilineBlockQuote)
    case "escaped" => Some(Escaped)
    case "wiki_link" => Some(WikiLink)
    case "underline" => Some(Underline)
    case "spoilered_text" => Some(SpoileredText)
    case "escaped_tag" => Some(EscapedTag)
    case _ => None
  }

  /** Parsing a kind's name gives the kind back. */
  lemma NodeNameRoundTrip(name: NodeName)
    ensures NodeNameFromStr(NodeNameString(name)) == Some(name)
  {
    match name
    case Document | FrontMatter | BlockQuote | List | Item | DescriptionList | DescriptionItem
      | DescriptionTerm | DescriptionDetails | CodeBlock | HtmlBlock | Paragraph | Heading
      | ThematicBreak | FootnoteDefinition | Table | TableRow | TableCell | TaskItem => NameRoundTrip1(name);
    case SoftBreak | LineBreak | Code | HtmlInline | Emph | Strong | Strikethrough | Superscript => NameRoundTrip2(name);
    case Link | Image | FootnoteReference | ShortCode | Math | MultilineBlockQuote => NameRoundTrip3(name);
    case Escaped | WikiLink | Underline | SpoileredText | EscapedTag => NameRoundTrip4(name);
  }

  /** The round trip for kinds 1 to 19 of the declaration. */
  lemma NameRoundTrip1(name: NodeName)
    requires name.Document? || name.FrontMatter? || name.BlockQuote? || name.List? || name.Item?
      || name.DescriptionList? || name.DescriptionItem? || name.DescriptionTerm? || name.DescriptionDetails?
      || name.CodeBlock? || name.HtmlBlock? || name.Paragraph? || name.Heading? || name.ThematicBreak?
      || name.FootnoteDefinition? || name.Table? || name.TableRow? || name.TableCell? || name.TaskItem?
    ensures NodeNameFromStr(NodeNameString(name)) == Some(name)
  {
    match name
    case Document => assert NodeNameFromStr("document") == Some(Document);
    case FrontMatter => assert NodeNameFromStr("front_matter") == Some(FrontMatter);
    case BlockQuote => assert NodeNameFromStr("block_quote") == Some(BlockQuote);
    case List => assert NodeNameFromStr("list") == Some(List);
    case Item => assert NodeNameFromStr("item") == Some(Item);
    case DescriptionList => assert NodeNameFromStr("description_list") == Some(DescriptionList);
    case DescriptionItem => assert NodeNameFromStr("description_item") == Some(DescriptionItem);
    case DescriptionTerm => assert NodeNameFromStr("description_term") == Some(DescriptionTerm);
    case DescriptionDetails => assert NodeNameFromStr("description_details") == Some(DescriptionDetails);
    case CodeBlock => assert NodeNameFromStr("code_block") == Some(CodeBlock);
    case HtmlBlock => assert NodeNameFromStr("html_block") == Some(HtmlBlock);
    case Paragraph => assert NodeNameFromStr("paragraph") == Some(Paragraph);
    case Heading => assert NodeNameFromStr("heading") == Some(Heading);
    case ThematicBreak => assert NodeNameFromStr("thematic_break") == Some(ThematicBreak);
    case FootnoteDefinition => assert NodeNameFromStr("footnote_definition") == Some(FootnoteDefinition);
    case Table => assert NodeNameFromStr("table") == Some(Table);
    case TableRow => assert NodeNameFromStr("table_row") == Some(TableRow);
    case TableCell => assert NodeNameFromStr("table_cell") == Some(TableCell);
    case TaskItem => assert NodeNameFromStr("task_item") == Some(TaskItem);
  }

  /** The round trip for kinds 20 to 27 of the declaration. */
  lemma NameRoundTrip2(name: NodeName)
    requires name.SoftBreak? || name.LineBreak? || name.Code? || name.HtmlInline? || name.Emph?
      || name.Strong? || name.Strikethrough? || name.Superscript?
    ensures NodeNameFromStr(NodeNameString(name)) == Some(name)
  {
    match name
    case SoftBreak => assert NodeNameFromStr("soft_break") == Some(SoftBreak);
    case LineBreak => assert NodeNameFromStr("line_break") == Some(LineBreak);
    case Code => assert NodeNameFromStr("code") == Some(Code);
    case HtmlInline => assert NodeNameFromStr("html_inline") == Some(HtmlInline);
    case Emph => assert NodeNameFromStr("emph") == Some(Emph);
    case Strong => assert NodeNameFromStr("strong") == Some(Strong);
    case Strikethrough => assert NodeNameFromStr("strikethrough") == Some(Strikethrough);
    case Superscript => assert NodeNameFromStr("superscript") == Some(Superscript);
  }

  /** The round trip for kinds 28 to 33 of the declaration. */
  lemma NameRoundTrip3(name: NodeName)
    requires name.Link? || name.Image? || name.FootnoteReference? || name.ShortCode? || name.Math?
      || name.MultilineBlockQuote?
    ensures NodeNameFromStr(NodeNameString(name)) == Some(name)
  {
    match name
    case Link => assert NodeNameFromStr("link") == Some(Link);
    case Image => assert NodeNameFromStr("image") == Some(Image);
    case FootnoteReference => assert NodeNameFromStr("footnote_reference") == Some(FootnoteReference);
    case ShortCode => assert NodeNameFromStr("short_code") == Some(ShortCode);
    case Math => assert NodeNameFromStr("math") == Some(Math);
    case MultilineBlockQuote => assert NodeNameFromStr("multiline_block_quote") == Some(MultilineBlockQuote);
  }

  /** The round trip for kinds 34 to 38 of the declaration. */
  lemma NameRoundTrip4(name: NodeName)
    requires name.Escaped? || name.WikiLink? || name.Underline? || name.SpoileredText? || name.EscapedTag?
    ensures NodeNameFromStr(NodeNameString(name)) == Some(name)
  {
    match name
    case Escaped => assert NodeNameFromStr("escaped") == Some(Escaped);
    case WikiLink => assert NodeNameFromStr("wiki_link") == Some(WikiLink);
    case Underline => assert NodeNameFromStr("underline") == Some(Underline);
    case SpoileredText => assert NodeNameFromStr("spoilered_text") == Some(SpoileredText);
    case EscapedTag => assert NodeNameFromStr("escaped_tag") == Some(EscapedTag);
  }

  /** Distinct kinds have distinct names. */
  lemma NodeNameInjective(a: NodeName, b: NodeName)
    ensures NodeNameString(a) == NodeNameString(b) ==> a == b
  {
    NodeNameRoundTrip(a);
    NodeNameRoundTrip(b);
  }

  /** An Erlang term, as far as nodes are written to and read from them. */
  datatype Term =
    | Binary(chars: string)
    | Integer(n: int)
    | Atom(atom: string)
    | TermList(elems: seq<Term>)
    | Tuple(elems: seq<Term>)

  /** How rustler writes an attribute value: integers, the atoms `true`/`false`, binaries, a list of binaries. */
  function ValueTerm(value: AttrValue): Term {
    match value
    case U8(b) => Integer(b)
    case U32(w) => Integer(w)
    case Usize(n) => Integer(n)
    case Bool(b) => Atom(if b then "true" else "false")
    case Text(t) => Binary(t)
    case TextList(items) => TermList(seq(|items|, i requires 0 <= i < |items| => Binary(items[i])))
  }

  /** One attribute as a `{key, value}` pair. */
  function AttrTerm(attr: Attr): Term {
    Tuple([Binary(attr.0), ValueTerm(attr.1)])
  }

  /** The attribute list of an element, pair by pair, in order. */
  function AttrTerms(attrs: seq<Attr>): (r: seq<Term>)
    ensures |r| == |attrs|
  {
    seq(|attrs|, i requires 0 <= i < |attrs| => AttrTerm(attrs[i]))
  }

  /** The `attr_list` loop of `Encoder for ExNode`: one pair per attribute, in order. */
  method EncodeAttrList(attrs: seq<Attr>) returns (list: seq<Term>)
    ensures |list| == |attrs|
    ensures forall i :: 0 <= i < |attrs| ==> list[i] == Tuple([Binary(attrs[i].0), ValueTerm(attrs[i].1)])
  {
    list := [];
    for i := 0 to |attrs|
      invariant |list| == i
      invariant forall j :: 0 <= j < i ==> list[j] == AttrTerm(attrs[j])
    {
      list := list + [AttrTerm(attrs[i])];
    }
  }

  /**
   * `Encoder for ExNode`: a text node is its bare string, an element the
   * triple of its name, its attribute pairs and its encoded children.
   */
  function EncodeNode<N>(node: ExNode<N>, nameOf: N -> string): (t: Term)
    ensures node.TextNode? <==> t.Binary?
    ensures node.Element? ==> t.Tuple? && |t.elems| == 3 && t.elems[2].TermList?
                              && |t.elems[2].elems| == |node.children|
  {
    match node
    case TextNode(text) => Binary(text)
    case Element(name, attrs, children) =>
      Tuple([Binary(nameOf(name)), TermList(AttrTerms(attrs)),
             TermList(seq(|children|, i requires 0 <= i < |children| => EncodeNode(children[i], nameOf)))])
  }
}
