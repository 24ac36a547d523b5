/**
 * `document.rs`: the Elixir document tree (`NewNode`, one struct per node
 * kind, each carrying its fields and, for most kinds, its child `nodes`)
 * and its conversions to and from the comrak tree.
 */
module Document {
  import opened Wrappers
  import opened Bytes
  import L = LegacyComrak
  import C = Comrak

  datatype ExListType = Bullet | Ordered

  datatype ExListDelimType = Period | Paren

  /** `ExTableAlignment` (`None` is `NoAlignment` here). */
  datatype ExTableAlignment = NoAlignment | Left | Center | Right

  datatype ExAlertType = Note | Tip | Important | Warning | Caution

  /** `NewNode`: each kind with the fields of its `Ex…` struct. */
  datatype NewNode =
    | Document(nodes: seq<NewNode>)
    | FrontMatter(literal: string)
    | BlockQuote(nodes: seq<NewNode>)
    | List(nodes: seq<NewNode>, listType: ExListType, markerOffset: nat, padding: nat, start: nat,
           delimiter: ExListDelimType, bulletChar: string, tight: bool, isTaskList: bool)
    | ListItem(nodes: seq<NewNode>, listType: ExListType, markerOffset: nat, padding: nat, start: nat,
               delimiter: ExListDelimType, bulletChar: string, tight: bool, isTaskList: bool)
    | DescriptionList(nodes: seq<NewNode>)
    | DescriptionItem(nodes: seq<NewNode>, markerOffset: nat, padding: nat, tight: bool)
    | DescriptionTerm(nodes: seq<NewNode>)
    | DescriptionDetails(nodes: seq<NewNode>)
    | CodeBlock(nodes: seq<NewNode>, fenced: bool, fenceChar: string, fenceLength: nat, fenceOffset: nat,
                info: string, literal: string, closed: bool)
    | HtmlBlock(nodes: seq<NewNode>, blockType: Byte, literal: string)
    | Paragraph(nodes: seq<NewNode>)
    | Heading(nodes: seq<NewNode>, level: Byte, setext: bool, closed: bool)
    | ThematicBreak
    | FootnoteDefinition(nodes: seq<NewNode>, name: string, totalReferences: U32)
    | FootnoteReference(name: string, refNum: U32, ix: U32)
    | Table(nodes: seq<NewNode>, alignments: seq<ExTableAlignment>, numColumns: nat, numRows: nat,
            numNonemptyCells: nat)
    | TableRow(nodes: seq<NewNode>, header: bool)
    | TableCell(nodes: seq<NewNode>)
    | Text(literal: string)
    | TaskItem(nodes: seq<NewNode>, checked: bool, marker: string)
    | SoftBreak
    | LineBreak
    | Code(numBackticks: nat, literal: string)
    | HtmlInline(literal: string)
    | Raw(literal: string)
    | Emph(nodes: seq<NewNode>)
    | Strong(nodes: seq<NewNode>)
    | Strikethrough(nodes: seq<NewNode>)
    | Superscript(nodes: seq<NewNode>)
    | Link(nodes: seq<NewNode>, url: string, title: string)
    | Image(nodes: seq<NewNode>, url: string, title: string)
    | ShortCode(code: string, emoji: string)
    | Math(dollarMath: bool, displayMath: bool, literal: string)
    | MultilineBlockQuote(nodes: seq<NewNode>, fenceLength: nat, fenceOffset: nat)
    | Escaped
    | WikiLink(nodes: seq<NewNode>, url: string)
    | Underline(nodes: seq<NewNode>)
    | Subscript(nodes: seq<NewNode>)
    | SpoileredText(nodes: seq<NewNode>)
    | Subtext(nodes: seq<NewNode>)
    | EscapedTag(nodes: seq<NewNode>, literal: string)
    | Alert(nodes: seq<NewNode>, alertType: ExAlertType, alertTitle: Option<string>, multiline: bool,
            fenceLength: nat, fenceOffset: nat)

  function ListTypeToComrak(t: ExListType): L.ListType {
    match t
    case Bullet => L.Bullet
    case Ordered => L.Ordered
  }

  function ListTypeFromComrak(t: L.ListType): ExListType {
    match t
    case Bullet => Bullet
    case Ordered => Ordered
  }

  function DelimiterToComrak(d: ExListDelimType): L.ListDelimType {
    match d
    case Period => L.Period
    case Paren => L.Paren
  }

  function DelimiterFromComrak(d: L.ListDelimType): ExListDelimType {
    match d
    case Period => Period
    case Paren => Paren
  }

  function AlignmentToComrak(a: ExTableAlignment): L.TableAlignment {
    match a
    case NoAlignment => L.NoAlignment
    case Left => L.Left
    case Center => L.Center
    case Right => L.Right
  }

  function AlignmentFromComrak(a: L.TableAlignment): ExTableAlignment {
    match a
    case NoAlignment => NoAlignment
    case Left => Left
    case Center => Center
    case Right => Right
  }

  function AlertTypeToComrak(t: ExAlertType): C.AlertType {
    match t
    case Note => C.Note
    case Tip => C.Tip
    case Important => C.Important
    case Warning => C.Warning
    case Caution => C.Caution
  }

  function AlertTypeFromComrak(t: C.AlertType): ExAlertType {
    match t
    case Note => Note
    case Tip => Tip
    case Important => Important
    case Warning => Warning
    case Caution => Caution
  }

  /** The enum mappings of the two directions are inverse bijections. */
  lemma EnumMappingsInverse(t: ExListType, ct: L.ListType, d: ExListDelimType, cd: L.ListDelimType,
                            a: ExTableAlignment, ca: L.TableAlignment, k: ExAlertType, ck: C.AlertType)
    ensures ListTypeFromComrak(ListTypeToComrak(t)) == t && ListTypeToComrak(ListTypeFromComrak(ct)) == ct
    ensures DelimiterFromComrak(DelimiterToComrak(d)) == d && DelimiterToComrak(DelimiterFromComrak(cd)) == cd
    ensures AlignmentFromComrak(AlignmentToComrak(a)) == a && AlignmentToComrak(AlignmentFromComrak(ca)) == ca
    ensures AlertTypeFromComrak(AlertTypeToComrak(k)) == k && AlertTypeToComrak(AlertTypeFromComrak(ck)) == ck
  {
  }

  function AlignmentsToComrak(alignments: seq<ExTableAlignment>): (r: seq<L.TableAlignment>)
    ensures |r| == |alignments|
  {
    seq(|alignments|, i requires 0 <= i < |alignments| => AlignmentToComrak(alignments[i]))
  }

  function AlignmentsFromComrak(alignments: seq<L.TableAlignment>): (r: seq<ExTableAlignment>)
    ensures |r| == |alignments|
  {
    seq(|alignments|, i requires 0 <= i < |alignments| => AlignmentFromComrak(alignments[i]))
  }

  /** Column alignments survive both trips, column by column. */
  lemma AlignmentsInverse(ex: seq<ExTableAlignment>, cs: seq<L.TableAlignment>)
    ensures AlignmentsFromComrak(AlignmentsToComrak(ex)) == ex
    ensures AlignmentsToComrak(AlignmentsFromComrak(cs)) == cs
  {
    var back := AlignmentsFromComrak(AlignmentsToComrak(ex));
    forall i | 0 <= i < |ex| ensures back[i] == ex[i] {
      EnumMappingsInverse(Bullet, L.Bullet, Period, L.Period, ex[i], L.NoAlignment, Note, C.Note);
    }
    var there := AlignmentsToComrak(AlignmentsFromComrak(cs));
    forall i | 0 <= i < |cs| ensures there[i] == cs[i] {
      EnumMappingsInverse(Bullet, L.Bullet, Period, L.Period, NoAlignment, cs[i], Note, C.Note);
    }
  }

  /** The first character of a marker, if any. */
  function FirstChar(s: string): (r: Option<char>)
    ensures r.None? <==> |s| == 0
    ensures r.Some? ==> r.value == s[0]
  {
    if |s| == 0 then None else Some(s[0])
  }

  /** `From<NewNode> for NodeValue`: the kind's comrak value; the child `nodes` play no part. */
  function ToNodeValue(node: NewNode): C.NodeValue {
    match node
    case Document(_) => C.Document
    case FrontMatter(literal) => C.FrontMatter(literal)
    case BlockQuote(_) => C.BlockQuote
    case List(_, t, mo, p, s, d, b, tight, tl) =>
      C.List(C.NodeList(ListTypeToComrak(t), mo, p, s, DelimiterToComrak(d), StringToChar(b), tight, tl))
    case ListItem(_, t, mo, p, s, d, b, tight, tl) =>
      C.Item(C.NodeList(ListTypeToComrak(t), mo, p, s, DelimiterToComrak(d), StringToChar(b), tight, tl))
    case DescriptionList(_) => C.DescriptionList
    case DescriptionItem(_, mo, p, tight) => C.DescriptionItem(C.NodeDescriptionItem(mo, p, tight))
    case DescriptionTerm(_) => C.DescriptionTerm
    case DescriptionDetails(_) => C.DescriptionDetails
    case CodeBlock(_, fenced, fc, fl, fo, info, literal, closed) =>
      C.CodeBlock(C.NodeCodeBlock(fenced, StringToChar(fc), fl, fo, info, literal, closed))
    case HtmlBlock(_, bt, literal) => C.HtmlBlock(L.NodeHtmlBlock(bt, literal))
    case Paragraph(_) => C.Paragraph
    case Heading(_, level, setext, closed) => C.Heading(C.NodeHeading(level, setext, closed))
    case ThematicBreak => C.ThematicBreak
    case FootnoteDefinition(_, name, total) => C.FootnoteDefinition(L.NodeFootnoteDefinition(name, total))
    case FootnoteReference(name, refNum, ix) => C.FootnoteReference(L.NodeFootnoteReference(name, refNum, ix))
    case Table(_, alignments, cols, rows, cells) =>
      C.Table(L.NodeTable(AlignmentsToComrak(alignments), cols, rows, cells))
    case TableRow(_, header) => C.TableRow(header)
    case TableCell(_) => C.TableCell
    case Text(literal) => C.Text(literal)
    case TaskItem(_, _, marker) => C.TaskItem(FirstChar(marker))
    case SoftBreak => C.SoftBreak
    case LineBreak => C.LineBreak
    case Code(n, literal) => C.Code(L.NodeCode(n, literal))
    case HtmlInline(literal) => C.HtmlInline(literal)
    case Raw(literal) => C.Raw(literal)
    case Emph(_) => C.Emph
    case Strong(_) => C.Strong
    case Strikethrough(_) => C.Strikethrough
    case Superscript(_) => C.Superscript
    case Link(_, url, title) => C.Link(L.NodeLink(url, title))
    case Image(_, url, title) => C.Image(L.NodeLink(url, title))
    case ShortCode(code, emoji) => C.ShortCode(L.NodeShortCode(code, emoji))
    case Math(dollar, display, literal) => C.Math(L.NodeMath(dollar, display, literal))
    case MultilineBlockQuote(_, fl, fo) => C.MultilineBlockQuote(L.NodeMultilineBlockQuote(fl, fo))
    case Escaped => C.Escaped
    case WikiLink(_, url) => C.WikiLink(L.NodeWikiLink(url))
    case Underline(_) => C.Underline
    case Subscript(_) => C.Subscript
    case SpoileredText(_) => C.SpoileredText
    case Subtext(_) => C.Subtext
    case EscapedTag(_, literal) => C.EscapedTag(literal)
    case Alert(_, t, title, multiline, fl, fo) =>
      C.Alert(C.NodeAlert(AlertTypeToComrak(t), title, multiline, fl, fo))
  }

  /** The kinds whose struct carries child `nodes`. */
  predicate HasNodes(node: NewNode) {
    node.Document? || node.BlockQuote? || node.List? || node.ListItem? || node.DescriptionList?
    || node.DescriptionItem? || node.DescriptionTerm? || node.DescriptionDetails? || node.CodeBlock?
    || node.HtmlBlock? || node.Paragraph? || node.Heading? || node.FootnoteDefinition? || node.Table?
    || node.TableRow? || node.TableCell? || node.TaskItem? || node.Emph? || node.Strong? || node.Link?
    || node.Image? || node.Strikethrough? || node.Superscript? || node.MultilineBlockQuote?
    || node.WikiLink? || node.Underline? || node.Subscript? || node.SpoileredText? || node.Subtext?
    || node.EscapedTag? || node.Alert?
  }

  /** The kinds whose `nodes` `ex_document_to_comrak_ast` converts as written: all of them but `Subtext`. */
  predicate ChildrenListedAsWritten(node: NewNode) {
    HasNodes(node) && !node.Subtext?
  }

  /** A node's children: its `nodes` when its kind has them, none otherwise. */
  function Children(node: NewNode): (r: seq<NewNode>)
    ensures HasNodes(node) ==> r == node.nodes
    ensures !HasNodes(node) ==> r == []
  {
    if HasNodes(node) then node.nodes else []
  }

  /**
   * The comrak tree of a document: the node's value over all its children,
   * converted in order (the corrected `ex_document_to_comrak_ast`).
   */
  function ToComrak(node: NewNode): (r: C.AstNode)
    ensures r.value == ToNodeValue(node) && |r.children| == |Children(node)|
    decreases node
  {
    var kids := Children(node);
    C.AstNode(ToNodeValue(node), seq(|kids|, i requires 0 <= i < |kids| => ToComrak(kids[i])))
  }

  /** The children `ex_document_to_comrak_ast` as written converts: the listed kinds' `nodes`, none otherwise. */
  function ListedChildren(node: NewNode): (r: seq<NewNode>)
    ensures ChildrenListedAsWritten(node) ==> r == node.nodes
    ensures !ChildrenListedAsWritten(node) ==> r == []
  {
    if ChildrenListedAsWritten(node) then node.nodes else []
  }

  /** `ex_document_to_comrak_ast` as written: a `Subtext`'s nodes are not converted. */
  function ToComrakAsWritten(node: NewNode): (r: C.AstNode)
    ensures r.value == ToNodeValue(node)
    ensures ChildrenListedAsWritten(node) ==> |r.children| == |node.nodes|
    ensures !ChildrenListedAsWritten(node) ==> r.children == []
    decreases node
  {
    var kids := ListedChildren(node);
    C.AstNode(ToNodeValue(node), seq(|kids|, i requires 0 <= i < |kids| => ToComrakAsWritten(kids[i])))
  }

  /** Each listed child is smaller than its parent, so the recursion below ends. */
  lemma ListedChildSmaller(node: NewNode, i: nat)
    requires i < |ListedChildren(node)|
    ensures ListedChildren(node)[i] < node
  {
  }

  /**
   * `ex_document_to_comrak_ast` as written: allocate the node's value, then
   * convert and append each child its arm lists (none for `Subtext`).
   */
  method ExDocumentToComrakAst(node: NewNode) returns (r: C.AstNode)
    ensures r == ToComrakAsWritten(node)
    decreases node
  {
    var value := ToNodeValue(node);
    var nodes := ListedChildren(node);
    var appended: seq<C.AstNode> := [];
    for i := 0 to |nodes|
      invariant |appended| == i
      invariant forall j :: 0 <= j < i ==> appended[j] == ToComrakAsWritten(nodes[j])
    {
      ListedChildSmaller(node, i);
      var child := ExDocumentToComrakAst(nodes[i]);
      appended := appended + [child];
    }
    assert appended == ToComrakAsWritten(node).children;
    r := C.AstNode(value, appended);
  }

  /** The `NewNode` of one comrak value, given its already converted children. */
  function ExNodeOf(value: C.NodeValue, children: seq<NewNode>): (r: NewNode)
    ensures HasNodes(r) ==> r.nodes == children
  {
    match value
    case Document => Document(children)
    case FrontMatter(literal) => FrontMatter(literal)
    case BlockQuote => BlockQuote(children)
    case List(l) =>
      List(children, ListTypeFromComrak(l.listType), l.markerOffset, l.padding, l.start,
           DelimiterFromComrak(l.delimiter), CharToStringOrEmpty(l.bulletChar), l.tight, l.isTaskList)
    case Item(l) =>
      ListItem(children, ListTypeFromComrak(l.listType), l.markerOffset, l.padding, l.start,
               DelimiterFromComrak(l.delimiter), CharToStringOrEmpty(l.bulletChar), l.tight, l.isTaskList)
    case DescriptionList => DescriptionList(children)
    case DescriptionItem(d) => DescriptionItem(children, d.markerOffset, d.padding, d.tight)
    case DescriptionTerm => DescriptionTerm(children)
    case DescriptionDetails => DescriptionDetails(children)
    case CodeBlock(c) =>
      CodeBlock(children, c.fenced, CharToStringOrEmpty(c.fenceChar), c.fenceLength, c.fenceOffset,
                c.info, c.literal, c.closed)
    case HtmlBlock(h) => HtmlBlock(children, h.blockType, h.literal)
    case Paragraph => Paragraph(children)
    case Heading(h) => Heading(children, h.level, h.setext, h.closed)
    case ThematicBreak => ThematicBreak
    case FootnoteDefinition(f) => FootnoteDefinition(children, f.name, f.totalReferences)
    case FootnoteReference(f) => FootnoteReference(f.name, f.refNum, f.ix)
    case Table(t) =>
      Table(children, AlignmentsFromComrak(t.alignments), t.numColumns, t.numRows, t.numNonemptyCells)
    case TableRow(header) => TableRow(children, header)
    case TableCell => TableCell(children)
    case Text(literal) => Text(literal)
    case TaskItem(marker) =>
      TaskItem(children, marker.Some?, if marker.Some? then [marker.value] else "")
    case SoftBreak => SoftBreak
    case LineBreak => LineBreak
    case Code(c) => Code(c.numBackticks, c.literal)
    case HtmlInline(literal) => HtmlInline(literal)
    case Raw(literal) => Raw(literal)
    case Emph => Emph(children)
    case Strong => Strong(children)
    case Strikethrough => Strikethrough(children)
    case Superscript => Superscript(children)
    case Link(link) => Link(children, link.url, link.title)
    case Image(link) => Image(children, link.url, link.title)
    case ShortCode(s) => ShortCode(s.code, s.emoji)
    case Math(m) => Math(m.dollarMath, m.displayMath, m.literal)
    case MultilineBlockQuote(m) => MultilineBlockQuote(children, m.fenceLength, m.fenceOffset)
    case Escaped => Escaped
    case WikiLink(w) => WikiLink(children, w.url)
    case Underline => Underline(children)
    case Subscript => Subscript(children)
    case SpoileredText => SpoileredText(children)
    case Subtext => Subtext(children)
    case EscapedTag(tag) => EscapedTag(children, tag)
    case Alert(a) =>
      Alert(children, AlertTypeFromComrak(a.alertType), a.title, a.multiline, a.fenceLength, a.fenceOffset)
  }

  /** `comrak_ast_to_ex_document`: the children converted first, in order, then the node's own kind. */
  function FromComrak(node: C.AstNode): NewNode
    decreases node
  {
    ExNodeOf(node.value,
             seq(|node.children|, i requires 0 <= i < |node.children| => FromComrak(node.children[i])))
  }

  /** The one-byte characters of a comrak value are ASCII, so that their strings carry them back. */
  predicate AsciiBytes(value: C.NodeValue) {
    match value
    case List(l) => l.bulletChar < 128
    case Item(l) => l.bulletChar < 128
    case CodeBlock(c) => c.fenceChar < 128
    case _ => true
  }

  /** The round trip of a value, for `Document`, `FrontMatter`, `BlockQuote` and `DescriptionList`. */
  lemma BlockValuesRoundTrip1(value: C.NodeValue, children: seq<NewNode>)
    requires value.Document? || value.FrontMatter? || value.BlockQuote? || value.DescriptionList?
    ensures ToNodeValue(ExNodeOf(value, children)) == value
  {
    match value
    case Document =>
      var v := C.Document;
      assert ToNodeValue(ExNodeOf(v, children)) == v;
    case FrontMatter(x0) =>
      var v := C.FrontMatter(x0);
      assert ToNodeValue(ExNodeOf(v, children)) == v;
    case BlockQuote =>
      var v := C.BlockQuote;
      assert ToNodeValue(ExNodeOf(v, children)) == v;
    case DescriptionList =>
      var v := C.DescriptionList;
      assert ToNodeValue(ExNodeOf(v, children)) == v;
  }

  /** The round trip of a value, for `DescriptionItem`, `DescriptionTerm`, `DescriptionDetails`, `HtmlBlock`. */
  lemma BlockValuesRoundTrip2(value: C.NodeValue, children: seq<NewNode>)
    requires value.DescriptionItem? || value.DescriptionTerm? || value.DescriptionDetails?
             || value.HtmlBlock?
    ensures ToNodeValue(ExNodeOf(value, children)) == value
  {
    match value
    case DescriptionItem(x0) =>
      var v := C.DescriptionItem(x0);
      assert ToNodeValue(ExNodeOf(v, children)) == v;
    case DescriptionTerm =>
      var v := C.DescriptionTerm;
      assert ToNodeValue(ExNodeOf(v, children)) == v;
    case DescriptionDetails =>
      var v := C.DescriptionDetails;
      assert ToNodeValue(ExNodeOf(v, children)) == v;
    case HtmlBlock(x0) =>
      var v := C.HtmlBlock(x0);
      assert ToNodeValue(ExNodeOf(v, children)) == v;
  }

  /** The round trip of a value, for `Paragraph`, `Heading`, `ThematicBreak` and `FootnoteDefinition`. */
  lemma BlockValuesRoundTrip3(value: C.NodeValue, children: seq<NewNode>)
    requires value.Paragraph? || value.Heading? || value.ThematicBreak? || value.FootnoteDefinition?
    ensures ToNodeValue(ExNodeOf(value, children)) == value
  {
    match value
    case Paragraph =>
      var v := C.Paragraph;
      assert ToNodeValue(ExNodeOf(v, children)) == v;
    case Heading(x0) =>
      var v := C.Heading(x0);
      assert ToNodeValue(ExNodeOf(v, children)) == v;
    case ThematicBreak =>
      var v := C.ThematicBreak;
      assert ToNodeValue(ExNodeOf(v, children)) == v;
    case FootnoteDefinition(x0) =>
      var v := C.FootnoteDefinition(x0);
      assert ToNodeValue(ExNodeOf(v, children)) == v;
  }

  /** The round trip of a value, for `FootnoteReference`, `TableRow` and `TableCell`. */
  lemma BlockValuesRoundTrip4(value: C.NodeValue, children: seq<NewNode>)
    requires value.FootnoteReference? || value.TableRow? || value.TableCell?
    ensures ToNodeValue(ExNodeOf(value, children)) == value
  {
    match value
    case FootnoteReference(x0) =>
      var v := C.FootnoteReference(x0);
      assert ToNodeValue(ExNodeOf(v, children)) == v;
    case TableRow(x0) =>
      var v := C.TableRow(x0);
      assert ToNodeValue(ExNodeOf(v, children)) == v;
    case TableCell =>
      var v := C.TableCell;
      assert ToNodeValue(ExNodeOf(v, children)) == v;
  }

  /** The round trip of a value, for the block kinds without enum or byte fields. */
  lemma BlockValuesRoundTrip(value: C.NodeValue, children: seq<NewNode>)
    requires value.Document? || value.FrontMatter? || value.BlockQuote? || value.DescriptionList?
             || value.DescriptionItem? || value.DescriptionTerm? || value.DescriptionDetails?
             || value.HtmlBlock? || value.Paragraph? || value.Heading? || value.ThematicBreak?
             || value.FootnoteDefinition? || value.FootnoteReference? || value.TableRow?
             || value.TableCell?
    ensures ToNodeValue(ExNodeOf(value, children)) == value
  {
    match value
    case Document | FrontMatter(_) | BlockQuote | DescriptionList =>
      BlockValuesRoundTrip1(value, children);
    case DescriptionItem(_) | DescriptionTerm | DescriptionDetails | HtmlBlock(_) =>
      BlockValuesRoundTrip2(value, children);
    case Paragraph | Heading(_) | ThematicBreak | FootnoteDefinition(_) =>
      BlockValuesRoundTrip3(value, children);
    case FootnoteReference(_) | TableRow(_) | TableCell =>
      BlockValuesRoundTrip4(value, children);
  }

  /** The round trip of a value, for `Text`, `TaskItem` and `SoftBreak`. */
  lemma InlineValuesRoundTrip1(value: C.NodeValue, children: seq<NewNode>)
    requires value.Text? || value.TaskItem? || value.SoftBreak?
    ensures ToNodeValue(ExNodeOf(value, children)) == value
  {
    match value
    case Text(x0) =>
      var v := C.Text(x0);
      assert ToNodeValue(ExNodeOf(v, children)) == v;
    case TaskItem(x0) =>
      var v := C.TaskItem(x0);
      assert ToNodeValue(ExNodeOf(v, children)) == v;
    case SoftBreak =>
      var v := C.SoftBreak;
      assert ToNodeValue(ExNodeOf(v, children)) == v;
  }

  /** The round trip of a value, for `LineBreak`, `Code` and `HtmlInline`. */
  lemma InlineValuesRoundTrip2(value: C.NodeValue, children: seq<NewNode>)
    requires value.LineBreak? || value.Code? || value.HtmlInline?
    ensures ToNodeValue(ExNodeOf(value, children)) == value
  {
    match value
    case LineBreak =>
      var v := C.LineBreak;
      assert ToNodeValue(ExNodeOf(v, children)) == v;
    case Code(x0) =>
      var v := C.Code(x0);
      assert ToNodeValue(ExNodeOf(v, children)) == v;
    case HtmlInline(x0) =>
      var v := C.HtmlInline(x0);
      assert ToNodeValue(ExNodeOf(v, children)) == v;
  }

  /** The round trip of a value, for `Raw`, `Emph` and `Strong`. */
  lemma InlineValuesRoundTrip3(value: C.NodeValue, children: seq<NewNode>)
    requires value.Raw? || value.Emph? || value.Strong?
    ensures ToNodeValue(ExNodeOf(value, children)) == value
  {
    match value
    case Raw(x0) =>
      var v := C.Raw(x0);
      assert ToNodeValue(ExNodeOf(v, children)) == v;
    case Emph =>
      var v := C.Emph;
      assert ToNodeValue(ExNodeOf(v, children)) == v;
    case Strong =>
      var v := C.Strong;
      assert ToNodeValue(ExNodeOf(v, children)) == v;
  }

  /** The round trip of a value, for `Strikethrough`, `Superscript` and `Link`. */
  lemma InlineValuesRoundTrip4(value: C.NodeValue, children: seq<NewNode>)
    requires value.Strikethrough? || value.Superscript? || value.Link?
    ensures ToNodeValue(ExNodeOf(value, children)) == value
  {
    match value
    case Strikethrough =>
      var v := C.Strikethrough;
      assert ToNodeValue(ExNodeOf(v, children)) == v;
    case Superscript =>
      var v := C.Superscript;
      assert ToNodeValue(ExNodeOf(v, children)) == v;
    case Link(x0) =>
      var v := C.Link(x0);
      assert ToNodeValue(ExNodeOf(v, children)) == v;
  }

  /** The round trip of a value, for `Image`, `ShortCode` and `Math`. */
  lemma InlineValuesRoundTrip5(value: C.NodeValue, children: seq<NewNode>)
    requires value.Image? || value.ShortCode? || value.Math?
    ensures ToNodeValue(ExNodeOf(value, children)) == value
  {
    match value
    case Image(x0) =>
      var v := C.Image(x0);
      assert ToNodeValue(ExNodeOf(v, children)) == v;
    case ShortCode(x0) =>
      var v := C.ShortCode(x0);
      assert ToNodeValue(ExNodeOf(v, children)) == v;
    case Math(x0) =>
      var v := C.Math(x0);
      assert ToNodeValue(ExNodeOf(v, children)) == v;
  }

  /** The round trip of a value, for `MultilineBlockQuote`, `Escaped` and `WikiLink`. */
  lemma InlineValuesRoundTrip6(value: C.NodeValue, children: seq<NewNode>)
    requires value.MultilineBlockQuote? || value.Escaped? || value.WikiLink?
    ensures ToNodeValue(ExNodeOf(value, children)) == value
  {
    match value
    case MultilineBlockQuote(x0) =>
      var v := C.MultilineBlockQuote(x0);
      assert ToNodeValue(ExNodeOf(v, children)) == v;
    case Escaped =>
      var v := C.Escaped;
      assert ToNodeValue(ExNodeOf(v, children)) == v;
    case WikiLink(x0) =>
      var v := C.WikiLink(x0);
      assert ToNodeValue(ExNodeOf(v, children)) == v;
  }

  /** The round trip of a value, for `Underline`, `Subscript` and `SpoileredText`. */
  lemma InlineValuesRoundTrip7(value: C.NodeValue, children: seq<NewNode>)
    requires value.Underline? || value.Subscript? || value.SpoileredText?
    ensures ToNodeValue(ExNodeOf(value, children)) == value
  {
    match value
    case Underline =>
      var v := C.Underline;
      assert ToNodeValue(ExNodeOf(v, children)) == v;
    case Subscript =>
      var v := C.Subscript;
      assert ToNodeValue(ExNodeOf(v, children)) == v;
    case SpoileredText =>
      var v := C.SpoileredText;
      assert ToNodeValue(ExNodeOf(v, children)) == v;
  }

  /** The round trip of a value, for `Subtext` and `EscapedTag`. */
  lemma InlineValuesRoundTrip8(value: C.NodeValue, children: seq<NewNode>)
    requires value.Subtext? || value.EscapedTag?
    ensures ToNodeValue(ExNodeOf(value, children)) == value
  {
    match value
    case Subtext =>
      var v := C.Subtext;
      assert ToNodeValue(ExNodeOf(v, children)) == v;
    case EscapedTag(x0) =>
      var v := C.EscapedTag(x0);
      assert ToNodeValue(ExNodeOf(v, children)) == v;
  }

  /** The round trip of a value, for the inline kinds without enum or byte fields. */
  lemma InlineValuesRoundTrip(value: C.NodeValue, children: seq<NewNode>)
    requires value.Text? || value.TaskItem? || value.SoftBreak? || value.LineBreak? || value.Code?
             || value.HtmlInline? || value.Raw? || value.Emph? || value.Strong?
             || value.Strikethrough? || value.Superscript? || value.Link? || value.Image?
             || value.ShortCode? || value.Math? || value.MultilineBlockQuote? || value.Escaped?
             || value.WikiLink? || value.Underline? || value.Subscript? || value.SpoileredText?
             || value.Subtext? || value.EscapedTag?
    ensures ToNodeValue(ExNodeOf(value, children)) == value
  {
    match value
    case Text(_) | TaskItem(_) | SoftBreak =>
      InlineValuesRoundTrip1(value, children);
    case LineBreak | Code(_) | HtmlInline(_) =>
      InlineValuesRoundTrip2(value, children);
    case Raw(_) | Emph | Strong =>
      InlineValuesRoundTrip3(value, children);
    case Strikethrough | Superscript | Link(_) =>
      InlineValuesRoundTrip4(value, children);
    case Image(_) | ShortCode(_) | Math(_) =>
      InlineValuesRoundTrip5(value, children);
    case MultilineBlockQuote(_) | Escaped | WikiLink(_) =>
      InlineValuesRoundTrip6(value, children);
    case Underline | Subscript | SpoileredText =>
      InlineValuesRoundTrip7(value, children);
    case Subtext | EscapedTag(_) =>
      InlineValuesRoundTrip8(value, children);
  }

  /** Converting a comrak value to its `NewNode` and back gives the value again. */
  lemma ValueRoundTrip(value: C.NodeValue, children: seq<NewNode>)
    requires AsciiBytes(value)
    ensures ToNodeValue(ExNodeOf(value, children)) == value
  {
    match value
    case List(l) =>
      CharRoundTrip(l.bulletChar);
      EnumMappingsInverse(Bullet, l.listType, Period, l.delimiter, NoAlignment, L.NoAlignment, Note, C.Note);
    case Item(l) =>
      CharRoundTrip(l.bulletChar);
      EnumMappingsInverse(Bullet, l.listType, Period, l.delimiter, NoAlignment, L.NoAlignment, Note, C.Note);
    case CodeBlock(c) => CharRoundTrip(c.fenceChar);
    case Table(t) => AlignmentsInverse([], t.alignments);
    case Alert(a) =>
      EnumMappingsInverse(Bullet, L.Bullet, Period, L.Period, NoAlignment, L.NoAlignment, Note, a.alertType);
    case Document | FrontMatter(_) | BlockQuote | DescriptionList | DescriptionItem(_)
      | DescriptionTerm | DescriptionDetails | HtmlBlock(_) | Paragraph | Heading(_) | ThematicBreak
      | FootnoteDefinition(_) | FootnoteReference(_) | TableRow(_) | TableCell =>
      BlockValuesRoundTrip(value, children);
    case Text(_) | TaskItem(_) | SoftBreak | LineBreak | Code(_) | HtmlInline(_) | Raw(_) | Emph
      | Strong | Strikethrough | Superscript | Link(_) | Image(_) | ShortCode(_) | Math(_)
      | MultilineBlockQuote(_) | Escaped | WikiLink(_) | Underline | Subscript | SpoileredText
      | Subtext | EscapedTag(_) =>
      InlineValuesRoundTrip(value, children);
  }

  /** A comrak tree whose bytes are ASCII and whose childless kinds have no children. */
  predicate Representable(node: C.AstNode)
    decreases node
  {
    AsciiBytes(node.value)
    && (HasNodes(FromComrak(node)) || |node.children| == 0)
    && forall i :: 0 <= i < |node.children| ==> Representable(node.children[i])
  }

  /** Every representable comrak tree survives the trip through the document tree. */
  lemma {:induction false} TreeRoundTrip(node: C.AstNode)
    requires Representable(node)
    ensures ToComrak(FromComrak(node)) == node
    decreases node
  {
    var kids := seq(|node.children|, i requires 0 <= i < |node.children| => FromComrak(node.children[i]));
    var ex := ExNodeOf(node.value, kids);
    assert FromComrak(node) == ex;
    ValueRoundTrip(node.value, kids);
    var back := ToComrak(ex);
    assert Children(ex) == kids;
    forall i | 0 <= i < |node.children|
      ensures back.children[i] == node.children[i]
    {
      TreeRoundTrip(node.children[i]);
    }
  }

  /** A `Subtext` with a child: as written its child is lost on the way back to comrak. */
  lemma SubtextChildLostAsWritten()
    ensures var node := C.AstNode(C.Subtext, [C.AstNode(C.Text("small"), [])]);
            ToComrakAsWritten(FromComrak(node)) == C.AstNode(C.Subtext, [])
            && ToComrakAsWritten(FromComrak(node)) != node
            && ToComrak(FromComrak(node)) == node
  {
    var node := C.AstNode(C.Subtext, [C.AstNode(C.Text("small"), [])]);
    assert Representable(node.children[0]);
    assert Representable(node);
    TreeRoundTrip(node);
  }

  /** A document in which no `Subtext` has nodes. */
  predicate NoSubtextChildren(node: NewNode)
    decreases node
  {
    (node.Subtext? ==> |node.nodes| == 0)
    && (HasNodes(node) ==> forall i :: 0 <= i < |node.nodes| ==> NoSubtextChildren(node.nodes[i]))
  }

  /** The correction changes nothing for documents in which no `Subtext` has nodes. */
  lemma {:induction false} AsWrittenAgrees(node: NewNode)
    requires NoSubtextChildren(node)
    ensures ToComrakAsWritten(node) == ToComrak(node)
    decreases node
  {
    var written := ToComrakAsWritten(node);
    var corrected := ToComrak(node);
    if ChildrenListedAsWritten(node) {
      var kids := node.nodes;
      forall i | 0 <= i < |kids|
        ensures written.children[i] == corrected.children[i]
      {
        AsWrittenAgrees(kids[i]);
      }
    } else {
      assert corrected.children == [];
    }
  }

  /** A one-byte field's string: empty, or a single ASCII character other than NUL. */
  predicate ByteString(s: string) {
    |s| == 0 || (|s| == 1 && 0 < s[0] as int < 128)
  }

  /**
   * A document node in the form the comrak tree gives back: byte fields as
   * `ByteString`s, a task item's marker at most one character with
   * `checked` set exactly when there is one.
   */
  predicate CanonicalFields(node: NewNode) {
    match node
    case List(_, _, _, _, _, _, b, _, _) => ByteString(b)
    case ListItem(_, _, _, _, _, _, b, _, _) => ByteString(b)
    case CodeBlock(_, _, fc, _, _, _, _, _) => ByteString(fc)
    case TaskItem(_, checked, marker) => |marker| <= 1 && checked == (|marker| == 1)
    case _ => true
  }

  /** The round trip of a node, for `Document`, `FrontMatter`, `BlockQuote` and `DescriptionList`. */
  lemma BlockNodesRoundTrip1(node: NewNode)
    requires node.Document? || node.FrontMatter? || node.BlockQuote? || node.DescriptionList?
    ensures ExNodeOf(ToNodeValue(node), Children(node)) == node
  {
    match node
    case Document(x0) =>
      var n := Document(x0);
      assert ExNodeOf(ToNodeValue(n), Children(n)) == n;
    case FrontMatter(x0) =>
      var n := FrontMatter(x0);
      assert ExNodeOf(ToNodeValue(n), Children(n)) == n;
    case BlockQuote(x0) =>
      var n := BlockQuote(x0);
      assert ExNodeOf(ToNodeValue(n), Children(n)) == n;
    case DescriptionList(x0) =>
      var n := DescriptionList(x0);
      assert ExNodeOf(ToNodeValue(n), Children(n)) == n;
  }

  /** The round trip of a node, for `DescriptionItem`, `DescriptionTerm`, `DescriptionDetails`, `HtmlBlock`. */
  lemma BlockNodesRoundTrip2(node: NewNode)
    requires node.DescriptionItem? || node.DescriptionTerm? || node.DescriptionDetails?
             || node.HtmlBlock?
    ensures ExNodeOf(ToNodeValue(node), Children(node)) == node
  {
    match node
    case DescriptionItem(x0, x1, x2, x3) =>
      var n := DescriptionItem(x0, x1, x2, x3);
      assert ExNodeOf(ToNodeValue(n), Children(n)) == n;
    case DescriptionTerm(x0) =>
      var n := DescriptionTerm(x0);
      assert ExNodeOf(ToNodeValue(n), Children(n)) == n;
    case DescriptionDetails(x0) =>
      var n := DescriptionDetails(x0);
      assert ExNodeOf(ToNodeValue(n), Children(n)) == n;
    case HtmlBlock(x0, x1, x2) =>
      var n := HtmlBlock(x0, x1, x2);
      assert ExNodeOf(ToNodeValue(n), Children(n)) == n;
  }

  /** The round trip of a node, for `Paragraph`, `Heading`, `ThematicBreak` and `FootnoteDefinition`. */
  lemma BlockNodesRoundTrip3(node: NewNode)
    requires node.Paragraph? || node.Heading? || node.ThematicBreak? || node.FootnoteDefinition?
    ensures ExNodeOf(ToNodeValue(node), Children(node)) == node
  {
    match node
    case Paragraph(x0) =>
      var n := Paragraph(x0);
      assert ExNodeOf(ToNodeValue(n), Children(n)) == n;
    case Heading(x0, x1, x2, x3) =>
      var n := Heading(x0, x1, x2, x3);
      assert ExNodeOf(ToNodeValue(n), Children(n)) == n;
    case ThematicBreak =>
      var n := ThematicBreak;
      assert ExNodeOf(ToNodeValue(n), Children(n)) == n;
    case FootnoteDefinition(x0, x1, x2) =>
      var n := FootnoteDefinition(x0, x1, x2);
      assert ExNodeOf(ToNodeValue(n), Children(n)) == n;
  }

  /** The round trip of a node, for `FootnoteReference`, `TableRow` and `TableCell`. */
  lemma BlockNodesRoundTrip4(node: NewNode)
    requires node.FootnoteReference? || node.TableRow? || node.TableCell?
    ensures ExNodeOf(ToNodeValue(node), Children(node)) == node
  {
    match node
    case FootnoteReference(x0, x1, x2) =>
      var n := FootnoteReference(x0, x1, x2);
      assert ExNodeOf(ToNodeValue(n), Children(n)) == n;
    case TableRow(x0, x1) =>
      var n := TableRow(x0, x1);
      assert ExNodeOf(ToNodeValue(n), Children(n)) == n;
    case TableCell(x0) =>
      var n := TableCell(x0);
      assert ExNodeOf(ToNodeValue(n), Children(n)) == n;
  }

  /** The round trip of a node, for the block kinds without enum or byte fields. */
  lemma BlockNodesRoundTrip(node: NewNode)
    requires node.Document? || node.FrontMatter? || node.BlockQuote? || node.DescriptionList?
             || node.DescriptionItem? || node.DescriptionTerm? || node.DescriptionDetails?
             || node.HtmlBlock? || node.Paragraph? || node.Heading? || node.ThematicBreak?
             || node.FootnoteDefinition? || node.FootnoteReference? || node.TableRow?
             || node.TableCell?
    ensures ExNodeOf(ToNodeValue(node), Children(node)) == node
  {
    match node
    case Document(_) | FrontMatter(_) | BlockQuote(_) | DescriptionList(_) =>
      BlockNodesRoundTrip1(node);
    case DescriptionItem(_, _, _, _) | DescriptionTerm(_) | DescriptionDetails(_)
      | HtmlBlock(_, _, _) =>
      BlockNodesRoundTrip2(node);
    case Paragraph(_) | Heading(_, _, _, _) | ThematicBreak | FootnoteDefinition(_, _, _) =>
      BlockNodesRoundTrip3(node);
    case FootnoteReference(_, _, _) | TableRow(_, _) | TableCell(_) =>
      BlockNodesRoundTrip4(node);
  }

  /** The round trip of a node, for `Text`, `SoftBreak` and `LineBreak`. */
  lemma InlineNodesRoundTrip1(node: NewNode)
    requires node.Text? || node.SoftBreak? || node.LineBreak?
    ensures ExNodeOf(ToNodeValue(node), Children(node)) == node
  {
    match node
    case Text(x0) =>
      var n := Text(x0);
      assert ExNodeOf(ToNodeValue(n), Children(n)) == n;
    case SoftBreak =>
      var n := SoftBreak;
      assert ExNodeOf(ToNodeValue(n), Children(n)) == n;
    case LineBreak =>
      var n := LineBreak;
      assert ExNodeOf(ToNodeValue(n), Children(n)) == n;
  }

  /** The round trip of a node, for `Code`, `HtmlInline` and `Raw`. */
  lemma InlineNodesRoundTrip2(node: NewNode)
    requires node.Code? || node.HtmlInline? || node.Raw?
    ensures ExNodeOf(ToNodeValue(node), Children(node)) == node
  {
    match node
    case Code(x0, x1) =>
      var n := Code(x0, x1);
      assert ExNodeOf(ToNodeValue(n), Children(n)) == n;
    case HtmlInline(x0) =>
      var n := HtmlInline(x0);
      assert ExNodeOf(ToNodeValue(n), Children(n)) == n;
    case Raw(x0) =>
      var n := Raw(x0);
      assert ExNodeOf(ToNodeValue(n), Children(n)) == n;
  }

  /** The round trip of a node, for `Emph`, `Strong` and `Strikethrough`. */
  lemma InlineNodesRoundTrip3(node: NewNode)
    requires node.Emph? || node.Strong? || node.Strikethrough?
    ensures ExNodeOf(ToNodeValue(node), Children(node)) == node
  {
    match node
    case Emph(x0) =>
      var n := Emph(x0);
      assert ExNodeOf(ToNodeValue(n), Children(n)) == n;
    case Strong(x0) =>
      var n := Strong(x0);
      assert ExNodeOf(ToNodeValue(n), Children(n)) == n;
    case Strikethrough(x0) =>
      var n := Strikethrough(x0);
      assert ExNodeOf(ToNodeValue(n), Children(n)) == n;
  }

  /** The round trip of a node, for `Superscript`, `Link` and `Image`. */
  lemma InlineNodesRoundTrip4(node: NewNode)
    requires node.Superscript? || node.Link? || node.Image?
    ensures ExNodeOf(ToNodeValue(node), Children(node)) == node
  {
    match node
    case Superscript(x0) =>
      var n := Superscript(x0);
      assert ExNodeOf(ToNodeValue(n), Children(n)) == n;
    case Link(x0, x1, x2) =>
      var n := Link(x0, x1, x2);
      assert ExNodeOf(ToNodeValue(n), Children(n)) == n;
    case Image(x0, x1, x2) =>
      var n := Image(x0, x1, x2);
      assert ExNodeOf(ToNodeValue(n), Children(n)) == n;
  }

  /** The round trip of a node, for `ShortCode`, `Math` and `MultilineBlockQuote`. */
  lemma InlineNodesRoundTrip5(node: NewNode)
    requires node.ShortCode? || node.Math? || node.MultilineBlockQuote?
    ensures ExNodeOf(ToNodeValue(node), Children(node)) == node
  {
    match node
    case ShortCode(x0, x1) =>
      var n := ShortCode(x0, x1);
      assert ExNodeOf(ToNodeValue(n), Children(n)) == n;
    case Math(x0, x1, x2) =>
      var n := Math(x0, x1, x2);
      assert ExNodeOf(ToNodeValue(n), Children(n)) == n;
    case MultilineBlockQuote(x0, x1, x2) =>
      var n := MultilineBlockQuote(x0, x1, x2);
      assert ExNodeOf(ToNodeValue(n), Children(n)) == n;
  }

  /** The round trip of a node, for `Escaped`, `WikiLink` and `Underline`. */
  lemma InlineNodesRoundTrip6(node: NewNode)
    requires node.Escaped? || node.WikiLink? || node.Underline?
    ensures ExNodeOf(ToNodeValue(node), Children(node)) == node
  {
    match node
    case Escaped =>
      var n := Escaped;
      assert ExNodeOf(ToNodeValue(n), Children(n)) == n;
    case WikiLink(x0, x1) =>
      var n := WikiLink(x0, x1);
      assert ExNodeOf(ToNodeValue(n), Children(n)) == n;
    case Underline(x0) =>
      var n := Underline(x0);
      assert ExNodeOf(ToNodeValue(n), Children(n)) == n;
  }

  /** The round trip of a node, for `Subscript`, `SpoileredText` and `Subtext`. */
  lemma InlineNodesRoundTrip7(node: NewNode)
    requires node.Subscript? || node.SpoileredText? || node.Subtext?
    ensures ExNodeOf(ToNodeValue(node), Children(node)) == node
  {
    match node
    case Subscript(x0) =>
      var n := Subscript(x0);
      assert ExNodeOf(ToNodeValue(n), Children(n)) == n;
    case SpoileredText(x0) =>
      var n := SpoileredText(x0);
      assert ExNodeOf(ToNodeValue(n), Children(n)) == n;
    case Subtext(x0) =>
      var n := Subtext(x0);
      assert ExNodeOf(ToNodeValue(n), Children(n)) == n;
  }

  /** The round trip of a node, for `EscapedTag`. */
  lemma InlineNodesRoundTrip8(node: NewNode)
    requires node.EscapedTag?
    ensures ExNodeOf(ToNodeValue(node), Children(node)) == node
  {
    match node
    case EscapedTag(x0, x1) =>
      var n := EscapedTag(x0, x1);
      assert ExNodeOf(ToNodeValue(n), Children(n)) == n;
  }

  /** The round trip of a node, for the inline kinds without enum or byte fields or a marker. */
  lemma InlineNodesRoundTrip(node: NewNode)
    requires node.Text? || node.SoftBreak? || node.LineBreak? || node.Code? || node.HtmlInline?
             || node.Raw? || node.Emph? || node.Strong? || node.Strikethrough? || node.Superscript?
             || node.Link? || node.Image? || node.ShortCode? || node.Math?
             || node.MultilineBlockQuote? || node.Escaped? || node.WikiLink? || node.Underline?
             || node.Subscript? || node.SpoileredText? || node.Subtext? || node.EscapedTag?
    ensures ExNodeOf(ToNodeValue(node), Children(node)) == node
  {
    match node
    case Text(_) | SoftBreak | LineBreak =>
      InlineNodesRoundTrip1(node);
    case Code(_, _) | HtmlInline(_) | Raw(_) =>
      InlineNodesRoundTrip2(node);
    case Emph(_) | Strong(_) | Strikethrough(_) =>
      InlineNodesRoundTrip3(node);
    case Superscript(_) | Link(_, _, _) | Image(_, _, _) =>
      InlineNodesRoundTrip4(node);
    case ShortCode(_, _) | Math(_, _, _) | MultilineBlockQuote(_, _, _) =>
      InlineNodesRoundTrip5(node);
    case Escaped | WikiLink(_, _) | Underline(_) =>
      InlineNodesRoundTrip6(node);
    case Subscript(_) | SpoileredText(_) | Subtext(_) =>
      InlineNodesRoundTrip7(node);
    case EscapedTag(_, _) =>
      InlineNodesRoundTrip8(node);
  }

  /** The round trip of a canonical list or list item node. */
  lemma ListNodesRoundTrip(node: NewNode)
    requires (node.List? || node.ListItem?) && CanonicalFields(node)
    ensures ExNodeOf(ToNodeValue(node), Children(node)) == node
  {
    StringRoundTrip(node.bulletChar);
    EnumMappingsInverse(node.listType, L.Bullet, node.delimiter, L.Period,
                        NoAlignment, L.NoAlignment, Note, C.Note);
  }

  /** The round trip of a canonical code block, table, task item or alert node. */
  lemma EnumNodesRoundTrip(node: NewNode)
    requires (node.CodeBlock? || node.Table? || node.TaskItem? || node.Alert?) && CanonicalFields(node)
    ensures ExNodeOf(ToNodeValue(node), Children(node)) == node
  {
    match node
    case CodeBlock(_, _, fc, _, _, _, _, _) => StringRoundTrip(fc);
    case Table(_, alignments, _, _, _) => AlignmentsInverse(alignments, []);
    case TaskItem(_, _, marker) =>
      if |marker| == 1 {
        assert [marker[0]] == marker;
      }
    case Alert(_, t, _, _, _, _) =>
      EnumMappingsInverse(Bullet, L.Bullet, Period, L.Period, NoAlignment, L.NoAlignment, t, C.Note);
  }

  /** A canonical node's value, given back its own children, is the node again. */
  lemma NodeRoundTrip(node: NewNode)
    requires CanonicalFields(node)
    ensures ExNodeOf(ToNodeValue(node), Children(node)) == node
  {
    if node.List? || node.ListItem? {
      ListNodesRoundTrip(node);
    } else if node.CodeBlock? || node.Table? || node.TaskItem? || node.Alert? {
      EnumNodesRoundTrip(node);
    } else if node.Document? || node.FrontMatter? || node.BlockQuote? || node.DescriptionList?
              || node.DescriptionItem? || node.DescriptionTerm? || node.DescriptionDetails?
              || node.HtmlBlock? || node.Paragraph? || node.Heading? || node.ThematicBreak?
              || node.FootnoteDefinition? || node.FootnoteReference? || node.TableRow? || node.TableCell? {
      BlockNodesRoundTrip(node);
    } else {
      InlineNodesRoundTrip(node);
    }
  }

  /** Every node of a document tree is canonical. */
  predicate Canonical(node: NewNode)
    decreases node
  {
    CanonicalFields(node)
    && (HasNodes(node) ==> forall i :: 0 <= i < |node.nodes| ==> Canonical(node.nodes[i]))
  }

  /** Every canonical document survives the trip through the comrak tree. */
  lemma {:induction false} DocumentRoundTrip(node: NewNode)
    requires Canonical(node)
    ensures FromComrak(ToComrak(node)) == node
    decreases node
  {
    var tree := ToComrak(node);
    var kids := Children(node);
    var back := seq(|tree.children|, i requires 0 <= i < |tree.children| => FromComrak(tree.children[i]));
    forall i | 0 <= i < |kids|
      ensures back[i] == kids[i]
    {
      DocumentRoundTrip(kids[i]);
    }
    assert back == kids;
    NodeRoundTrip(node);
  }

  /** As written, a canonical document in which no `Subtext` has nodes survives the trip through the comrak tree. */
  lemma DocumentRoundTripAsWritten(node: NewNode)
    requires Canonical(node) && NoSubtextChildren(node)
    ensures FromComrak(ToComrakAsWritten(node)) == node
  {
    AsWrittenAgrees(node);
    DocumentRoundTrip(node);
  }

  /** Whatever comrak holds, the document node it gives back is canonical. */
  lemma {:induction false} FromComrakCanonical(node: C.AstNode)
    ensures Canonical(FromComrak(node))
    decreases node
  {
    var kids := seq(|node.children|, i requires 0 <= i < |node.children| => FromComrak(node.children[i]));
    forall i | 0 <= i < |node.children|
      ensures Canonical(kids[i])
    {
      FromComrakCanonical(node.children[i]);
    }
  }
}
