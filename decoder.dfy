/**
 * The decoder: an Erlang term to an `ExNode` tree (`ExNode::decode`,
 * `decode_node`), and an `ExNode` tree to a comrak tree
 * (`ex_node_to_comrak_ast`). Every node kind starts from its default and
 * takes its fields from the attribute pairs in order, so the last
 * occurrence of a key wins and unknown keys or values of the wrong type
 * change nothing.
 */
module Decoder {
  import opened Wrappers
  import opened Bytes
  import opened LegacyComrak
  import X = ExNodes
  import Encoder
  import Tx = Text

  datatype DecodeError =
    | InvalidAst(found: X.Term)
    | InvalidAstNodeName(found: X.Term)
    | InvalidAstNodeAttrKey(found: X.Term)
    | InvalidAstNodeAttrValue(found: X.Term)

  /** `collect::<Result<Vec<_>, _>>()`: every value, or the first error. */
  function CollectAll<T>(rs: seq<Result<T, DecodeError>>): (r: Result<seq<T>, DecodeError>)
    ensures r.Ok? <==> forall i :: 0 <= i < |rs| ==> rs[i].Ok?
    ensures r.Ok? ==> |r.value| == |rs| && forall i :: 0 <= i < |rs| ==> r.value[i] == rs[i].value
    ensures r.Err? ==> exists i :: 0 <= i < |rs| && rs[i] == Err(r.error) && forall j :: 0 <= j < i ==> rs[j].Ok?
    decreases |rs|
  {
    if |rs| == 0 then Ok([])
    else if rs[0].Err? then Err(rs[0].error)
    else
      match CollectAll(rs[1..])
      case Err(e) =>
        var r: Result<seq<T>, DecodeError> := Err(e);
        assert exists i :: 0 <= i < |rs| && rs[i] == Err(e) && forall j :: 0 <= j < i ==> rs[j].Ok? by {
          var k :| 0 <= k < |rs[1..]| && rs[1..][k] == Err(e) && forall j :: 0 <= j < k ==> rs[1..][j].Ok?;
          assert rs[k + 1] == Err(e);
          assert forall j :: 0 <= j < k + 1 ==> rs[j].Ok? by {
            forall j | 0 <= j < k + 1 ensures rs[j].Ok? {
              if j > 0 { assert rs[j] == rs[1..][j - 1]; }
            }
          }
        }
        r
      case Ok(vs) => Ok([rs[0].value] + vs)
  }

  /** The shape `(Term, Vec<(Term, Term)>, Vec<Term>)` an element term must have. */
  predicate IsNodeTuple(term: X.Term) {
    term.Tuple? && |term.elems| == 3
    && term.elems[1].TermList?
    && (forall i :: 0 <= i < |term.elems[1].elems| ==>
          term.elems[1].elems[i].Tuple? && |term.elems[1].elems[i].elems| == 2)
    && term.elems[2].TermList?
  }

  /** One `{key, value}` pair: the key must be a binary and the value one `decodeValue` accepts. */
  function DecodeAttr(pair: X.Term, decodeValue: X.Term -> Option<X.AttrValue>): (r: Result<X.Attr, DecodeError>)
    requires pair.Tuple? && |pair.elems| == 2
    ensures r.Ok? <==> pair.elems[0].Binary? && decodeValue(pair.elems[1]).Some?
    ensures r.Ok? ==> r.value == (pair.elems[0].chars, decodeValue(pair.elems[1]).value)
  {
    var key := pair.elems[0];
    if !key.Binary? then Err(InvalidAstNodeAttrKey(key))
    else
      match decodeValue(pair.elems[1])
      case None => Err(InvalidAstNodeAttrValue(pair.elems[1]))
      case Some(value) => Ok((key.chars, value))
  }

  /**
   * `decode_node`: a binary is a text node; anything else must be an
   * element triple whose name is a known node name, whose attribute pairs
   * all decode and whose children all decode. `decodeValue` is rustler's
   * decoding of an `AttrValue`.
   */
  function DecodeNode(term: X.Term, decodeValue: X.Term -> Option<X.AttrValue>): (r: Result<X.ExNode<X.NodeName>, DecodeError>)
    ensures term.Binary? ==> r == Ok(X.TextNode(term.chars))
    ensures !term.Binary? && !IsNodeTuple(term) ==> r == Err(InvalidAst(term))
    decreases term
  {
    if term.Binary? then Ok(X.TextNode(term.chars))
    else if !IsNodeTuple(term) then Err(InvalidAst(term))
    else
      var nameTerm := term.elems[0];
      if !nameTerm.Binary? then Err(InvalidAstNodeName(nameTerm))
      else
        match X.NodeNameFromStr(nameTerm.chars)
        case None => Err(InvalidAstNodeName(nameTerm))
        case Some(name) =>
          var pairs := term.elems[1].elems;
          var attrs := CollectAll(seq(|pairs|, i requires 0 <= i < |pairs| => DecodeAttr(pairs[i], decodeValue)));
          if attrs.Err? then Err(attrs.error)
          else
            var kids := term.elems[2].elems;
            var children := CollectAll(seq(|kids|, i requires 0 <= i < |kids| => DecodeNode(kids[i], decodeValue)));
            if children.Err? then Err(children.error)
            else Ok(X.Element(name, attrs.value, children.value))
  }

  /** `ExNode::decode`: the term must be a list of exactly one node. */
  function Decode(term: X.Term, decodeValue: X.Term -> Option<X.AttrValue>): (r: Result<X.ExNode<X.NodeName>, DecodeError>)
    ensures !(term.TermList? && |term.elems| == 1) ==> r == Err(InvalidAst(term))
    ensures term.TermList? && |term.elems| == 1 ==> r == DecodeNode(term.elems[0], decodeValue)
  {
    if term.TermList? && |term.elems| == 1 then DecodeNode(term.elems[0], decodeValue)
    else Err(InvalidAst(term))
  }

  /** Apply `step` to each attribute pair in order, starting from `acc`. */
  function FoldAttrs<T>(attrs: seq<X.Attr>, acc: T, step: (T, X.Attr) -> T): T
    decreases |attrs|
  {
    if |attrs| == 0 then acc else FoldAttrs(attrs[1..], step(acc, attrs[0]), step)
  }

  /** Folding a concatenation folds the second part from where the first left off. */
  lemma {:induction false} FoldConcat<T>(a: seq<X.Attr>, b: seq<X.Attr>, acc: T, step: (T, X.Attr) -> T)
    ensures FoldAttrs(a + b, acc, step) == FoldAttrs(b, FoldAttrs(a, acc, step), step)
    decreases |a|
  {
    if |a| > 0 {
      assert (a + b)[1..] == a[1..] + b;
      FoldConcat(a[1..], b, step(acc, a[0]), step);
    } else {
      assert a + b == b;
    }
  }

  /** A pair the step ignores can be dropped from anywhere in the list. */
  lemma IgnoredAttr<T>(a: seq<X.Attr>, x: X.Attr, b: seq<X.Attr>, acc: T, step: (T, X.Attr) -> T)
    requires forall t: T :: step(t, x) == t
    ensures FoldAttrs(a + [x] + b, acc, step) == FoldAttrs(a + b, acc, step)
  {
    FoldConcat(a + [x], b, acc, step);
    FoldConcat(a, [x], acc, step);
    FoldConcat(a, b, acc, step);
  }

  /** When `y` overwrites whatever `x` set, an `x` just before `y` can be dropped. */
  lemma OverwrittenAttr<T>(a: seq<X.Attr>, x: X.Attr, y: X.Attr, b: seq<X.Attr>, acc: T, step: (T, X.Attr) -> T)
    requires forall t: T :: step(step(t, x), y) == step(t, y)
    ensures FoldAttrs(a + [x, y] + b, acc, step) == FoldAttrs(a + [y] + b, acc, step)
  {
    FoldConcat(a + [x, y], b, acc, step);
    FoldConcat(a, [x, y], acc, step);
    FoldConcat(a + [y], b, acc, step);
    FoldConcat(a, [y], acc, step);
    var t := FoldAttrs(a, acc, step);
    assert [x, y][1..] == [y];
  }

  /** A property every step keeps holds of the result. */
  lemma {:induction false} FoldKeeps<T>(attrs: seq<X.Attr>, acc: T, step: (T, X.Attr) -> T, p: T -> bool)
    requires p(acc)
    requires forall t: T, i :: 0 <= i < |attrs| && p(t) ==> p(step(t, attrs[i]))
    ensures p(FoldAttrs(attrs, acc, step))
    decreases |attrs|
  {
    if |attrs| > 0 {
      assert forall i :: 0 <= i < |attrs[1..]| ==> attrs[1..][i] == attrs[i + 1];
      FoldKeeps(attrs[1..], step(acc, attrs[0]), step, p);
    }
  }

  /** The fold from position `i` on takes one step and goes on from `i + 1`. */
  lemma FoldStepAt<T>(attrs: seq<X.Attr>, i: nat, acc: T, step: (T, X.Attr) -> T)
    requires i < |attrs|
    ensures FoldAttrs(attrs[i..], acc, step) == FoldAttrs(attrs[i + 1..], step(acc, attrs[i]), step)
  {
    assert attrs[i..][1..] == attrs[i + 1..];
  }

  /** `to_list_type`: unknown names give the default, `Bullet`. */
  function ListTypeFromName(s: string): (r: ListType)
    ensures r == Ordered <==> s == "ordered"
  {
    match s
    case "bullet" => Bullet
    case "ordered" => Ordered
    case _ => Bullet
  }

  /** `to_delim_type`: unknown names give the default, `Period`. */
  function DelimiterFromName(s: string): (r: ListDelimType)
    ensures r == Paren <==> s == "paren"
  {
    match s
    case "period" => Period
    case "paren" => Paren
    case _ => Period
  }

  /** The list-type and delimiter names come back as the values they name. */
  lemma ListNamesRoundTrip(t: ListType, d: ListDelimType)
    ensures ListTypeFromName(Encoder.ListTypeName(t)) == t
    ensures DelimiterFromName(Encoder.DelimiterName(d)) == d
  {
  }

  /** One attribute of `attrs_to_node_list`. */
  function ListStep(list: NodeList, attr: X.Attr): NodeList {
    var (key, value) := attr;
    if key == "list_type" && value.Text? then list.(listType := ListTypeFromName(value.text))
    else if key == "marker_offset" && value.Usize? then list.(markerOffset := value.size)
    else if key == "padding" && value.Usize? then list.(padding := value.size)
    else if key == "start" && value.Usize? then list.(start := value.size)
    else if key == "delimiter" && value.Text? then list.(delimiter := DelimiterFromName(value.text))
    else if key == "bullet_char" && value.Text? then list.(bulletChar := StringToChar(value.text))
    else if key == "tight" && value.Bool? then list.(tight := value.flag)
    else list
  }

  /** The list fields `attrs` describe, over the default list. */
  function NodeListOf(attrs: seq<X.Attr>): NodeList {
    FoldAttrs(attrs, DEFAULT_NODE_LIST, ListStep)
  }

  /** `attrs_to_node_list`. */
  method AttrsToNodeList(attrs: seq<X.Attr>) returns (list: NodeList)
    ensures list == NodeListOf(attrs)
  {
    list := DEFAULT_NODE_LIST;
    for i := 0 to |attrs|
      invariant FoldAttrs(attrs[i..], list, ListStep) == NodeListOf(attrs)
    {
      assert attrs[i..][1..] == attrs[i + 1..];
      list := ListStep(list, attrs[i]);
    }
  }

  /** The seven list attributes give back the list, for an ASCII (or absent) bullet. */
  lemma NodeListRoundTrip(list: NodeList)
    requires list.bulletChar < 128
    ensures NodeListOf(Encoder.NodeListToAst(list)) == list
  {
    var attrs := Encoder.NodeListToAst(list);
    CharRoundTrip(list.bulletChar);
    ListNamesRoundTrip(list.listType, list.delimiter);
    var l4 := DEFAULT_NODE_LIST.(listType := list.listType, markerOffset := list.markerOffset,
                                 padding := list.padding, start := list.start);
    Fold4(attrs[..4], DEFAULT_NODE_LIST, ListStep);
    assert FoldAttrs(attrs[..4], DEFAULT_NODE_LIST, ListStep) == l4;
    Fold3(attrs[4..], l4, ListStep);
    FoldConcat(attrs[..4], attrs[4..], DEFAULT_NODE_LIST, ListStep);
    assert attrs[..4] + attrs[4..] == attrs;
  }

  /** Pairs `attrs_to_node_list` reads: a known key with a value of the type that key expects. */
  predicate ListAttr(attr: X.Attr) {
    var (key, value) := attr;
    (key == "list_type" && value.Text?) || (key == "marker_offset" && value.Usize?)
    || (key == "padding" && value.Usize?) || (key == "start" && value.Usize?)
    || (key == "delimiter" && value.Text?) || (key == "bullet_char" && value.Text?)
    || (key == "tight" && value.Bool?)
  }

  /** Any other pair is ignored wherever it appears. */
  lemma ListAttrIgnored(a: seq<X.Attr>, x: X.Attr, b: seq<X.Attr>)
    requires !ListAttr(x)
    ensures NodeListOf(a + [x] + b) == NodeListOf(a + b)
  {
    IgnoredAttr(a, x, b, DEFAULT_NODE_LIST, ListStep);
  }

  /** Of two pairs with the same key, the later one wins. */
  lemma ListLastWins(a: seq<X.Attr>, key: string, first: X.AttrValue, last: X.AttrValue, b: seq<X.Attr>)
    requires ListAttr((key, last))
    ensures NodeListOf(a + [(key, first), (key, last)] + b) == NodeListOf(a + [(key, last)] + b)
  {
    forall t: NodeList ensures ListStep(ListStep(t, (key, first)), (key, last)) == ListStep(t, (key, last)) {
    }
    OverwrittenAttr(a, (key, first), (key, last), b, DEFAULT_NODE_LIST, ListStep);
  }

  /** Whether some pair of `attrs` has the key `key`. */
  predicate HasKey(attrs: seq<X.Attr>, key: string) {
    exists i :: 0 <= i < |attrs| && attrs[i].0 == key
  }

  /** A list field whose key never appears keeps its default. */
  lemma ListAbsentKeysDefault(attrs: seq<X.Attr>)
    ensures !HasKey(attrs, "list_type") ==> NodeListOf(attrs).listType == Bullet
    ensures !HasKey(attrs, "start") ==> NodeListOf(attrs).start == 0
    ensures !HasKey(attrs, "delimiter") ==> NodeListOf(attrs).delimiter == Period
    ensures !HasKey(attrs, "bullet_char") ==> NodeListOf(attrs).bulletChar == 0
    ensures !HasKey(attrs, "tight") ==> !NodeListOf(attrs).tight
  {
    ListTypeDefault(attrs);
    StartDefault(attrs);
    DelimiterDefault(attrs);
    BulletCharDefault(attrs);
    TightDefault(attrs);
  }

  lemma ListTypeDefault(attrs: seq<X.Attr>)
    ensures !HasKey(attrs, "list_type") ==> NodeListOf(attrs).listType == Bullet
  {
    if !HasKey(attrs, "list_type") {
      FoldKeeps(attrs, DEFAULT_NODE_LIST, ListStep, (l: NodeList) => l.listType == Bullet);
    }
  }

  lemma StartDefault(attrs: seq<X.Attr>)
    ensures !HasKey(attrs, "start") ==> NodeListOf(attrs).start == 0
  {
    if !HasKey(attrs, "start") {
      FoldKeeps(attrs, DEFAULT_NODE_LIST, ListStep, (l: NodeList) => l.start == 0);
    }
  }

  lemma DelimiterDefault(attrs: seq<X.Attr>)
    ensures !HasKey(attrs, "delimiter") ==> NodeListOf(attrs).delimiter == Period
  {
    if !HasKey(attrs, "delimiter") {
      FoldKeeps(attrs, DEFAULT_NODE_LIST, ListStep, (l: NodeList) => l.delimiter == Period);
    }
  }

  lemma BulletCharDefault(attrs: seq<X.Attr>)
    ensures !HasKey(attrs, "bullet_char") ==> NodeListOf(attrs).bulletChar == 0
  {
    if !HasKey(attrs, "bullet_char") {
      FoldKeeps(attrs, DEFAULT_NODE_LIST, ListStep, (l: NodeList) => l.bulletChar == 0);
    }
  }

  lemma TightDefault(attrs: seq<X.Attr>)
    ensures !HasKey(attrs, "tight") ==> !NodeListOf(attrs).tight
  {
    if !HasKey(attrs, "tight") {
      FoldKeeps(attrs, DEFAULT_NODE_LIST, ListStep, (l: NodeList) => !l.tight);
    }
  }

  /** Folding one pair is one step. */
  lemma Fold1<T>(attrs: seq<X.Attr>, acc: T, step: (T, X.Attr) -> T)
    requires |attrs| == 1
    ensures FoldAttrs(attrs, acc, step) == step(acc, attrs[0])
  {
    assert attrs[1..] == [];
  }

  lemma Fold2<T>(attrs: seq<X.Attr>, acc: T, step: (T, X.Attr) -> T)
    requires |attrs| == 2
    ensures FoldAttrs(attrs, acc, step) == step(step(acc, attrs[0]), attrs[1])
  {
    Fold1(attrs[1..], step(acc, attrs[0]), step);
  }

  lemma Fold3<T>(attrs: seq<X.Attr>, acc: T, step: (T, X.Attr) -> T)
    requires |attrs| == 3
    ensures FoldAttrs(attrs, acc, step) == step(step(step(acc, attrs[0]), attrs[1]), attrs[2])
  {
    Fold2(attrs[1..], step(acc, attrs[0]), step);
  }

  lemma Fold4<T>(attrs: seq<X.Attr>, acc: T, step: (T, X.Attr) -> T)
    requires |attrs| == 4
    ensures FoldAttrs(attrs, acc, step) == step(step(step(step(acc, attrs[0]), attrs[1]), attrs[2]), attrs[3])
  {
    Fold3(attrs[1..], step(acc, attrs[0]), step);
  }

  /** The loop shared by every node kind: each pair in order is offered to `step`. */
  method ApplyAttrs<T>(attrs: seq<X.Attr>, init: T, step: (T, X.Attr) -> T) returns (acc: T)
    ensures acc == FoldAttrs(attrs, init, step)
  {
    acc := init;
    for i := 0 to |attrs|
      invariant FoldAttrs(attrs[i..], acc, step) == FoldAttrs(attrs, init, step)
    {
      FoldStepAt(attrs, i, acc, step);
      acc := step(acc, attrs[i]);
    }
  }

  /** A field held by one text attribute `key` (front matter, raw HTML, escaped tag). */
  function TextStep(key: string): (string, X.Attr) -> string {
    (text: string, attr: X.Attr) => if attr.0 == key && attr.1.Text? then attr.1.text else text
  }

  function DescriptionItemStep(d: NodeDescriptionItem, attr: X.Attr): NodeDescriptionItem {
    var (key, value) := attr;
    if key == "marker_offset" && value.Usize? then d.(markerOffset := value.size)
    else if key == "padding" && value.Usize? then d.(padding := value.size)
    else d
  }

  function CodeBlockStep(c: NodeCodeBlock, attr: X.Attr): NodeCodeBlock {
    var (key, value) := attr;
    if key == "fenced" && value.Bool? then c.(fenced := value.flag)
    else if key == "fence_char" && value.Text? then c.(fenceChar := StringToChar(value.text))
    else if key == "fence_length" && value.Usize? then c.(fenceLength := value.size)
    else if key == "fence_offset" && value.Usize? then c.(fenceOffset := value.size)
    else if key == "info" && value.Text? then c.(info := value.text)
    else if key == "literal" && value.Text? then c.(literal := value.text)
    else c
  }

  function HtmlBlockStep(h: NodeHtmlBlock, attr: X.Attr): NodeHtmlBlock {
    var (key, value) := attr;
    if key == "block_type" && value.U8? then h.(blockType := value.byte)
    else if key == "literal" && value.Text? then h.(literal := value.text)
    else h
  }

  function HeadingStep(h: NodeHeading, attr: X.Attr): NodeHeading {
    var (key, value) := attr;
    if key == "level" && value.U8? then h.(level := value.byte)
    else if key == "setext" && value.Bool? then h.(setext := value.flag)
    else h
  }

  function FootnoteDefinitionStep(f: NodeFootnoteDefinition, attr: X.Attr): NodeFootnoteDefinition {
    var (key, value) := attr;
    if key == "name" && value.Text? then f.(name := value.text)
    else if key == "total_references" && value.U32? then f.(totalReferences := value.word)
    else f
  }

  function FootnoteReferenceStep(f: NodeFootnoteReference, attr: X.Attr): NodeFootnoteReference {
    var (key, value) := attr;
    if key == "name" && value.Text? then f.(name := value.text)
    else if key == "ref_num" && value.U32? then f.(refNum := value.word)
    else if key == "ix" && value.U32? then f.(ix := value.word)
    else f
  }

  /** The name of a column alignment; anything else is no alignment. */
  function AlignmentFromName(s: string): (r: TableAlignment)
    ensures r == Left <==> s == "left"
    ensures r == Center <==> s == "center"
    ensures r == Right <==> s == "right"
  {
    match s
    case "none" => NoAlignment
    case "left" => Left
    case "center" => Center
    case "right" => Right
    case _ => NoAlignment
  }

  function AlignmentsFromNames(names: seq<string>): (r: seq<TableAlignment>)
    ensures |r| == |names|
  {
    seq(|names|, i requires 0 <= i < |names| => AlignmentFromName(names[i]))
  }

  /** The alignment names of a table give its alignments back. */
  lemma AlignmentsRoundTrip(alignments: seq<TableAlignment>)
    ensures AlignmentsFromNames(Encoder.AlignmentNames(alignments)) == alignments
  {
    var back := AlignmentsFromNames(Encoder.AlignmentNames(alignments));
    forall i | 0 <= i < |alignments| ensures back[i] == alignments[i] {
      match alignments[i]
      case NoAlignment =>
      case Left =>
      case Center =>
      case Right =>
    }
  }

  /** One table attribute, with the cell count read from the key the encoder writes. */
  function TableStep(t: NodeTable, attr: X.Attr): NodeTable {
    var (key, value) := attr;
    if key == "alignments" && value.TextList? then t.(alignments := AlignmentsFromNames(value.items))
    else if key == "num_columns" && value.Usize? then t.(numColumns := value.size)
    else if key == "num_rows" && value.Usize? then t.(numRows := value.size)
    else if key == "num_nonempty_cells" && value.Usize? then t.(numNonemptyCells := value.size)
    else t
  }

  /** One table attribute as the decoder reads it: the cell count under the key `num_nomempty_cells`. */
  function TableStepAsWritten(t: NodeTable, attr: X.Attr): NodeTable {
    var (key, value) := attr;
    if key == "alignments" && value.TextList? then t.(alignments := AlignmentsFromNames(value.items))
    else if key == "num_columns" && value.Usize? then t.(numColumns := value.size)
    else if key == "num_rows" && value.Usize? then t.(numRows := value.size)
    else if key == "num_nomempty_cells" && value.Usize? then t.(numNonemptyCells := value.size)
    else t
  }

  function TableOf(attrs: seq<X.Attr>): NodeTable {
    FoldAttrs(attrs, DEFAULT_TABLE, TableStep)
  }

  function TableOfAsWritten(attrs: seq<X.Attr>): NodeTable {
    FoldAttrs(attrs, DEFAULT_TABLE, TableStepAsWritten)
  }

  /** The four table attributes give the table back. */
  lemma TableRoundTrip(t: NodeTable)
    ensures TableOf(Encoder.NameAndAttrs(Table(t)).1) == t
  {
    AlignmentsRoundTrip(t.alignments);
    Fold4(Encoder.NameAndAttrs(Table(t)).1, DEFAULT_TABLE, TableStep);
  }

  /** As written, the encoder's cell count is never read back: it always decodes as 0. */
  lemma TableCellsLostAsWritten(t: NodeTable)
    ensures TableOfAsWritten(Encoder.NameAndAttrs(Table(t)).1) == t.(numNonemptyCells := 0)
    ensures t.numNonemptyCells != 0 ==> TableOfAsWritten(Encoder.NameAndAttrs(Table(t)).1) != t
  {
    AlignmentsRoundTrip(t.alignments);
    Fold4(Encoder.NameAndAttrs(Table(t)).1, DEFAULT_TABLE, TableStepAsWritten);
  }

  function TableRowStep(header: bool, attr: X.Attr): bool {
    if attr.0 == "header" && attr.1.Bool? then attr.1.flag else header
  }

  function CodeStep(c: NodeCode, attr: X.Attr): NodeCode {
    var (key, value) := attr;
    if key == "num_backticks" && value.Usize? then c.(numBackticks := value.size)
    else if key == "literal" && value.Text? then c.(literal := value.text)
    else c
  }

  /** One attribute of `attrs_to_node_link`. */
  function LinkStep(link: NodeLink, attr: X.Attr): NodeLink {
    var (key, value) := attr;
    if key == "url" && value.Text? then link.(url := value.text)
    else if key == "title" && value.Text? then link.(title := value.text)
    else link
  }

  function NodeLinkOf(attrs: seq<X.Attr>): NodeLink {
    FoldAttrs(attrs, NodeLink("", ""), LinkStep)
  }

  /** `attrs_to_node_link`. */
  method AttrsToNodeLink(attrs: seq<X.Attr>) returns (link: NodeLink)
    ensures link == NodeLinkOf(attrs)
  {
    link := NodeLink("", "");
    for i := 0 to |attrs|
      invariant FoldAttrs(attrs[i..], link, LinkStep) == NodeLinkOf(attrs)
    {
      assert attrs[i..][1..] == attrs[i + 1..];
      link := LinkStep(link, attrs[i]);
    }
  }

  /** The url and title attributes give the link back. */
  lemma NodeLinkRoundTrip(link: NodeLink)
    ensures NodeLinkOf(Encoder.NodeLinkToAst(link)) == link
  {
    Fold2(Encoder.NodeLinkToAst(link), NodeLink("", ""), LinkStep);
  }

  function ShortCodeStep(s: NodeShortCode, attr: X.Attr): NodeShortCode {
    var (key, value) := attr;
    if key == "code" && value.Text? then s.(code := value.text)
    else if key == "emoji" && value.Text? then s.(emoji := value.text)
    else s
  }

  function MathStep(m: NodeMath, attr: X.Attr): NodeMath {
    var (key, value) := attr;
    if key == "dollar_math" && value.Bool? then m.(dollarMath := value.flag)
    else if key == "display_math" && value.Bool? then m.(displayMath := value.flag)
    else if key == "literal" && value.Text? then m.(literal := value.text)
    else m
  }

  function MultilineBlockQuoteStep(m: NodeMultilineBlockQuote, attr: X.Attr): NodeMultilineBlockQuote {
    var (key, value) := attr;
    if key == "fence_length" && value.Usize? then m.(fenceLength := value.size)
    else if key == "fence_offset" && value.Usize? then m.(fenceOffset := value.size)
    else m
  }

  function WikiLinkStep(w: NodeWikiLink, attr: X.Attr): NodeWikiLink {
    if attr.0 == "url" && attr.1.Text? then w.(url := attr.1.text) else w
  }

  /** `checked=false`: the item is unchecked whatever else the list says. */
  predicate Unchecked(attr: X.Attr) {
    attr.0 == "checked" && attr.1 == X.Bool(false)
  }

  /** A `symbol` text sets the symbol to its first character, or to none when it is empty. */
  function SymbolStep(symbol: Option<char>, attr: X.Attr): Option<char> {
    if attr.0 == "symbol" && attr.1.Text? then
      (if |attr.1.text| == 0 then None else Some(attr.1.text[0]))
    else symbol
  }

  /** The symbol `attrs_to_task_item` computes. */
  function TaskItemOf(attrs: seq<X.Attr>): Option<char> {
    if exists i :: 0 <= i < |attrs| && Unchecked(attrs[i]) then None
    else FoldAttrs(attrs, None, SymbolStep)
  }

  /** `attrs_to_task_item`: returns at the first `checked=false`, else the last symbol's first character. */
  method AttrsToTaskItem(attrs: seq<X.Attr>) returns (symbol: Option<char>)
    ensures symbol == TaskItemOf(attrs)
  {
    symbol := None;
    for i := 0 to |attrs|
      invariant forall j :: 0 <= j < i ==> !Unchecked(attrs[j])
      invariant FoldAttrs(attrs[i..], symbol, SymbolStep) == FoldAttrs(attrs, None, SymbolStep)
    {
      if Unchecked(attrs[i]) {
        return None;
      }
      FoldStepAt(attrs, i, symbol, SymbolStep);
      symbol := SymbolStep(symbol, attrs[i]);
    }
  }

  /** A task item's attributes give its symbol back; a checked item always has one. */
  lemma TaskItemRoundTrip(symbol: Option<char>)
    ensures TaskItemOf(Encoder.TaskItemAttrs(symbol)) == symbol
  {
    var attrs := Encoder.TaskItemAttrs(symbol);
    if symbol.Some? {
      Fold2(attrs, None, SymbolStep);
      assert !Unchecked(attrs[0]) && !Unchecked(attrs[1]);
    } else {
      assert Unchecked(attrs[0]);
    }
  }

  /**
   * The node value `ex_node_to_comrak_ast` builds for an element, as
   * written: each kind from its own attributes over its defaults, the
   * table's cell count under the key `num_nomempty_cells`; `superscript`
   * has no arm (the source stops with `todo!()`), so it has no value.
   */
  function ValueOf(name: X.NodeName, attrs: seq<X.Attr>): (r: Option<NodeValue>)
    ensures r.None? <==> name == X.Superscript
    ensures r.Some? ==> !r.value.Text?
  {
    match name
    case Document => Some(Document)
    case FrontMatter => Some(FrontMatter(FoldAttrs(attrs, "", TextStep("content"))))
    case BlockQuote => Some(BlockQuote)
    case List => Some(List(NodeListOf(attrs)))
    case Item => Some(Item(NodeListOf(attrs)))
    case DescriptionList => Some(DescriptionList)
    case DescriptionItem => Some(DescriptionItem(FoldAttrs(attrs, DEFAULT_DESCRIPTION_ITEM, DescriptionItemStep)))
    case DescriptionTerm => Some(DescriptionTerm)
    case DescriptionDetails => Some(DescriptionDetails)
    case CodeBlock => Some(CodeBlock(FoldAttrs(attrs, DEFAULT_CODE_BLOCK, CodeBlockStep)))
    case HtmlBlock => Some(HtmlBlock(FoldAttrs(attrs, DEFAULT_HTML_BLOCK, HtmlBlockStep)))
    case Paragraph => Some(Paragraph)
    case Heading => Some(Heading(FoldAttrs(attrs, DEFAULT_HEADING, HeadingStep)))
    case ThematicBreak => Some(ThematicBreak)
    case FootnoteDefinition =>
      Some(FootnoteDefinition(FoldAttrs(attrs, DEFAULT_FOOTNOTE_DEFINITION, FootnoteDefinitionStep)))
    case FootnoteReference =>
      Some(FootnoteReference(FoldAttrs(attrs, DEFAULT_FOOTNOTE_REFERENCE, FootnoteReferenceStep)))
    case Table => Some(Table(TableOfAsWritten(attrs)))
    case TableRow => Some(TableRow(FoldAttrs(attrs, false, TableRowStep)))
    case TableCell => Some(TableCell)
    case TaskItem => Some(TaskItem(TaskItemOf(attrs)))
    case SoftBreak => Some(SoftBreak)
    case LineBreak => Some(LineBreak)
    case Code => Some(Code(FoldAttrs(attrs, NodeCode(0, ""), CodeStep)))
    case HtmlInline => Some(HtmlInline(FoldAttrs(attrs, "", TextStep("raw_html"))))
    case Emph => Some(Emph)
    case Strong => Some(Strong)
    case Strikethrough => Some(Strikethrough)
    case Superscript => None
    case Link => Some(Link(NodeLinkOf(attrs)))
    case Image => Some(Image(NodeLinkOf(attrs)))
    case ShortCode => Some(ShortCode(FoldAttrs(attrs, NodeShortCode("", ""), ShortCodeStep)))
    case Math => Some(Math(FoldAttrs(attrs, NodeMath(false, false, ""), MathStep)))
    case MultilineBlockQuote =>
      Some(MultilineBlockQuote(FoldAttrs(attrs, NodeMultilineBlockQuote(0, 0), MultilineBlockQuoteStep)))
    case Escaped => Some(Escaped)
    case WikiLink => Some(WikiLink(FoldAttrs(attrs, NodeWikiLink(""), WikiLinkStep)))
    case Underline => Some(Underline)
    case SpoileredText => Some(SpoileredText)
    case EscapedTag => Some(EscapedTag(FoldAttrs(attrs, "", TextStep("tag"))))
  }

  /** The corrected decoder: as `ValueOf`, but the table reads its cell count under the key the encoder writes. */
  function ValueOfCorrected(name: X.NodeName, attrs: seq<X.Attr>): (r: Option<NodeValue>)
    ensures r.None? <==> name == X.Superscript
    ensures name == X.Table ==> r == Some(Table(TableOf(attrs)))
    ensures name != X.Table ==> r == ValueOf(name, attrs)
  {
    if name == X.Table then Some(Table(TableOf(attrs))) else ValueOf(name, attrs)
  }

  /** The one-byte characters of a value are ASCII (or absent), so their strings carry them. */
  predicate AsciiChars(v: NodeValue) {
    match v
    case List(l) => l.bulletChar < 128
    case Item(l) => l.bulletChar < 128
    case CodeBlock(c) => c.fenceChar < 128
    case _ => true
  }

  /** The six code-block pairs fold back into the code block, for an ASCII (or absent) fence character. */
  lemma CodeBlockFieldsRoundTrip(c: NodeCodeBlock)
    requires c.fenceChar < 128
    ensures FoldAttrs(Encoder.NameAndAttrs(CodeBlock(c)).1, DEFAULT_CODE_BLOCK, CodeBlockStep) == c
  {
    var attrs := Encoder.NameAndAttrs(CodeBlock(c)).1;
    CharRoundTrip(c.fenceChar);
    var c4 := DEFAULT_CODE_BLOCK.(fenced := c.fenced, fenceChar := c.fenceChar, fenceLength := c.fenceLength,
                                  fenceOffset := c.fenceOffset);
    Fold4(attrs[..4], DEFAULT_CODE_BLOCK, CodeBlockStep);
    assert FoldAttrs(attrs[..4], DEFAULT_CODE_BLOCK, CodeBlockStep) == c4;
    Fold2(attrs[4..], c4, CodeBlockStep);
    FoldConcat(attrs[..4], attrs[4..], DEFAULT_CODE_BLOCK, CodeBlockStep);
    assert attrs[..4] + attrs[4..] == attrs;
  }

  lemma CodeBlockRoundTrip(c: NodeCodeBlock)
    requires c.fenceChar < 128
    ensures RoundTrips(CodeBlock(c))
  {
    CodeBlockFieldsRoundTrip(c);
  }

  /** The value an element's name and attributes decode to is the value they were encoded from. */
  predicate RoundTrips(v: NodeValue)
    requires !v.Text?
  {
    ValueOf(Encoder.NameAndAttrs(v).0, Encoder.NameAndAttrs(v).1) == Some(v)
  }

  lemma FrontMatterRoundTrip(content: string)
    ensures RoundTrips(FrontMatter(content))
  {
    var attrs := Encoder.NameAndAttrs(FrontMatter(content)).1;
    Fold1(attrs, "", TextStep("content"));
  }

  lemma DescriptionItemRoundTrip(d: NodeDescriptionItem)
    ensures RoundTrips(DescriptionItem(d))
  {
    var attrs := Encoder.NameAndAttrs(DescriptionItem(d)).1;
    Fold2(attrs, DEFAULT_DESCRIPTION_ITEM, DescriptionItemStep);
  }

  lemma HtmlBlockRoundTrip(h: NodeHtmlBlock)
    ensures RoundTrips(HtmlBlock(h))
  {
    var attrs := Encoder.NameAndAttrs(HtmlBlock(h)).1;
    Fold2(attrs, DEFAULT_HTML_BLOCK, HtmlBlockStep);
  }

  lemma HeadingRoundTrip(h: NodeHeading)
    ensures RoundTrips(Heading(h))
  {
    var attrs := Encoder.NameAndAttrs(Heading(h)).1;
    Fold2(attrs, DEFAULT_HEADING, HeadingStep);
  }

  lemma FootnoteDefinitionRoundTrip(f: NodeFootnoteDefinition)
    ensures RoundTrips(FootnoteDefinition(f))
  {
    var attrs := Encoder.NameAndAttrs(FootnoteDefinition(f)).1;
    Fold2(attrs, DEFAULT_FOOTNOTE_DEFINITION, FootnoteDefinitionStep);
  }

  lemma FootnoteReferenceRoundTrip(f: NodeFootnoteReference)
    ensures RoundTrips(FootnoteReference(f))
  {
    var attrs := Encoder.NameAndAttrs(FootnoteReference(f)).1;
    Fold3(attrs, DEFAULT_FOOTNOTE_REFERENCE, FootnoteReferenceStep);
  }

  lemma TableRowRoundTrip(header: bool)
    ensures RoundTrips(TableRow(header))
  {
    var attrs := Encoder.NameAndAttrs(TableRow(header)).1;
    Fold1(attrs, false, TableRowStep);
  }

  lemma CodeRoundTrip(c: NodeCode)
    ensures RoundTrips(Code(c))
  {
    var attrs := Encoder.NameAndAttrs(Code(c)).1;
    Fold2(attrs, NodeCode(0, ""), CodeStep);
  }

  lemma HtmlInlineRoundTrip(raw: string)
    ensures RoundTrips(HtmlInline(raw))
  {
    var attrs := Encoder.NameAndAttrs(HtmlInline(raw)).1;
    Fold1(attrs, "", TextStep("raw_html"));
  }

  lemma ShortCodeRoundTrip(sc: NodeShortCode)
    ensures RoundTrips(ShortCode(sc))
  {
    var attrs := Encoder.NameAndAttrs(ShortCode(sc)).1;
    Fold2(attrs, NodeShortCode("", ""), ShortCodeStep);
  }

  lemma MathRoundTrip(m: NodeMath)
    ensures RoundTrips(Math(m))
  {
    var attrs := Encoder.NameAndAttrs(Math(m)).1;
    Fold3(attrs, NodeMath(false, false, ""), MathStep);
  }

  lemma MultilineBlockQuoteRoundTrip(m: NodeMultilineBlockQuote)
    ensures RoundTrips(MultilineBlockQuote(m))
  {
    var attrs := Encoder.NameAndAttrs(MultilineBlockQuote(m)).1;
    Fold2(attrs, NodeMultilineBlockQuote(0, 0), MultilineBlockQuoteStep);
  }

  lemma WikiLinkRoundTrip(w: NodeWikiLink)
    ensures RoundTrips(WikiLink(w))
  {
    var attrs := Encoder.NameAndAttrs(WikiLink(w)).1;
    Fold1(attrs, NodeWikiLink(""), WikiLinkStep);
  }

  lemma EscapedTagRoundTrip(tag: string)
    ensures RoundTrips(EscapedTag(tag))
  {
    var attrs := Encoder.NameAndAttrs(EscapedTag(tag)).1;
    Fold1(attrs, "", TextStep("tag"));
  }

  lemma ListValueRoundTrip(l: NodeList)
    requires l.bulletChar < 128
    ensures RoundTrips(List(l)) && RoundTrips(Item(l))
  {
    NodeListRoundTrip(l);
  }

  lemma TaskItemValueRoundTrip(symbol: Option<char>)
    ensures RoundTrips(TaskItem(symbol))
  {
    TaskItemRoundTrip(symbol);
  }

  lemma LinkValueRoundTrip(link: NodeLink)
    ensures RoundTrips(Link(link)) && RoundTrips(Image(link))
  {
    NodeLinkRoundTrip(link);
  }

  /** The sixteen kinds without fields come back from their element name alone. */
  lemma FieldlessRoundTrip(v: NodeValue)
    requires v.Document? || v.BlockQuote? || v.DescriptionList? || v.DescriptionTerm? || v.DescriptionDetails?
      || v.Paragraph? || v.ThematicBreak? || v.TableCell? || v.SoftBreak? || v.LineBreak? || v.Emph?
      || v.Strong? || v.Strikethrough? || v.Escaped? || v.Underline? || v.SpoileredText?
    ensures RoundTrips(v)
  {
    match v
    case Document | BlockQuote | DescriptionList | DescriptionTerm => FieldlessRoundTrip1(v);
    case DescriptionDetails | Paragraph | ThematicBreak | TableCell => FieldlessRoundTrip2(v);
    case SoftBreak | LineBreak => FieldlessRoundTrip3(v);
    case Emph | Strong => FieldlessRoundTrip4(v);
    case Strikethrough | Escaped => FieldlessRoundTrip5(v);
    case Underline | SpoileredText => FieldlessRoundTrip6(v);
  }

  lemma FieldlessRoundTrip1(v: NodeValue)
    requires v.Document? || v.BlockQuote? || v.DescriptionList? || v.DescriptionTerm?
    ensures RoundTrips(v)
  {
    match v
    case Document => assert RoundTrips(Document);
    case BlockQuote => assert RoundTrips(BlockQuote);
    case DescriptionList => assert RoundTrips(DescriptionList);
    case DescriptionTerm => assert RoundTrips(DescriptionTerm);
  }

  lemma FieldlessRoundTrip2(v: NodeValue)
    requires v.DescriptionDetails? || v.Paragraph? || v.ThematicBreak? || v.TableCell?
    ensures RoundTrips(v)
  {
    match v
    case DescriptionDetails => assert RoundTrips(DescriptionDetails);
    case Paragraph => assert RoundTrips(Paragraph);
    case ThematicBreak => assert RoundTrips(ThematicBreak);
    case TableCell => assert RoundTrips(TableCell);
  }

  lemma FieldlessRoundTrip3(v: NodeValue)
    requires v.SoftBreak? || v.LineBreak?
    ensures RoundTrips(v)
  {
    match v
    case SoftBreak => assert RoundTrips(SoftBreak);
    case LineBreak => assert RoundTrips(LineBreak);
  }

  lemma FieldlessRoundTrip4(v: NodeValue)
    requires v.Emph? || v.Strong?
    ensures RoundTrips(v)
  {
    match v
    case Emph => assert RoundTrips(Emph);
    case Strong => assert RoundTrips(Strong);
  }

  lemma FieldlessRoundTrip5(v: NodeValue)
    requires v.Strikethrough? || v.Escaped?
    ensures RoundTrips(v)
  {
    match v
    case Strikethrough => assert RoundTrips(Strikethrough);
    case Escaped => assert RoundTrips(Escaped);
  }

  lemma FieldlessRoundTrip6(v: NodeValue)
    requires v.Underline? || v.SpoileredText?
    ensures RoundTrips(v)
  {
    match v
    case Underline => assert RoundTrips(Underline);
    case SpoileredText => assert RoundTrips(SpoileredText);
  }

  /** A value the decoder can rebuild: not text, not superscript, with ASCII one-byte characters. */
  predicate Readable(v: NodeValue) {
    !v.Text? && !v.Superscript? && AsciiChars(v)
  }

  /** A value with its table cell count (if it is a table) cleared, as the decoder returns it. */
  function ClearedCells(v: NodeValue): (r: NodeValue)
    ensures r.Table? <==> v.Table?
    ensures v.Table? ==> r.table.numNonemptyCells == 0 && r.table.(numNonemptyCells := v.table.numNonemptyCells) == v.table
    ensures !v.Table? ==> r == v
  {
    if v.Table? then Table(v.table.(numNonemptyCells := 0)) else v
  }

  /**
   * As written, every readable value comes back from its element name and
   * attributes, except a table's cell count, which comes back as 0.
   */
  lemma ValueRoundTripAsWritten(v: NodeValue)
    requires Readable(v)
    ensures ValueOf(Encoder.NameAndAttrs(v).0, Encoder.NameAndAttrs(v).1) == Some(ClearedCells(v))
    ensures !v.Table? ==> RoundTrips(v)
  {
    if v.Table? {
      TableCellsLostAsWritten(v.table);
    } else if v.FrontMatter? || v.List? || v.Item? || v.DescriptionItem? || v.CodeBlock? || v.HtmlBlock?
              || v.Heading? || v.FootnoteDefinition? || v.FootnoteReference? {
      BlockFieldsRoundTrip(v);
    } else if v.TableRow? || v.TaskItem? || v.Code? || v.HtmlInline? || v.Link? || v.Image? || v.ShortCode?
              || v.Math? || v.MultilineBlockQuote? || v.WikiLink? || v.EscapedTag? {
      InlineFieldsRoundTrip(v);
    } else {
      FieldlessRoundTrip(v);
    }
  }

  /** The block kinds with fields (but tables) come back from their element name and attributes. */
  lemma BlockFieldsRoundTrip(v: NodeValue)
    requires AsciiChars(v)
    requires v.FrontMatter? || v.List? || v.Item? || v.DescriptionItem? || v.CodeBlock? || v.HtmlBlock?
             || v.Heading? || v.FootnoteDefinition? || v.FootnoteReference?
    ensures RoundTrips(v)
  {
    match v
    case FrontMatter(content) => FrontMatterRoundTrip(content);
    case List(l) => ListValueRoundTrip(l);
    case Item(l) => ListValueRoundTrip(l);
    case DescriptionItem(d) => DescriptionItemRoundTrip(d);
    case CodeBlock(c) => CodeBlockRoundTrip(c);
    case HtmlBlock(h) => HtmlBlockRoundTrip(h);
    case Heading(h) => HeadingRoundTrip(h);
    case FootnoteDefinition(f) => FootnoteDefinitionRoundTrip(f);
    case FootnoteReference(f) => FootnoteReferenceRoundTrip(f);
  }

  /** The table-row and inline kinds with fields come back from their element name and attributes. */
  lemma InlineFieldsRoundTrip(v: NodeValue)
    requires v.TableRow? || v.TaskItem? || v.Code? || v.HtmlInline? || v.Link? || v.Image? || v.ShortCode?
             || v.Math? || v.MultilineBlockQuote? || v.WikiLink? || v.EscapedTag?
    ensures RoundTrips(v)
  {
    match v
    case TableRow(header) => TableRowRoundTrip(header);
    case TaskItem(symbol) => TaskItemValueRoundTrip(symbol);
    case Code(c) => CodeRoundTrip(c);
    case HtmlInline(raw) => HtmlInlineRoundTrip(raw);
    case Link(link) => LinkValueRoundTrip(link);
    case Image(link) => LinkValueRoundTrip(link);
    case ShortCode(sc) => ShortCodeRoundTrip(sc);
    case Math(m) => MathRoundTrip(m);
    case MultilineBlockQuote(m) => MultilineBlockQuoteRoundTrip(m);
    case WikiLink(w) => WikiLinkRoundTrip(w);
    case EscapedTag(tag) => EscapedTagRoundTrip(tag);
  }

  /** With the corrected cell-count key, every readable value comes back from its element name and attributes. */
  lemma ValueRoundTrip(v: NodeValue)
    requires !v.Text? && !v.Superscript? && AsciiChars(v)
    ensures ValueOfCorrected(Encoder.NameAndAttrs(v).0, Encoder.NameAndAttrs(v).1) == Some(v)
  {
    if v.Table? {
      TableRoundTrip(v.table);
    } else {
      ValueRoundTripAsWritten(v);
      assert Encoder.NameAndAttrs(v).0 != X.Table;
    }
  }

  /** `ex_node_to_comrak_ast`'s `match name`, loop by loop. */
  method AttrsToValue(name: X.NodeName, attrs: seq<X.Attr>) returns (value: Option<NodeValue>)
    ensures value == ValueOf(name, attrs)
  {
    match name {
      case FrontMatter =>
        var content := ApplyAttrs(attrs, "", TextStep("content"));
        value := Some(FrontMatter(content));
      case List =>
        var list := AttrsToNodeList(attrs);
        value := Some(List(list));
      case Item =>
        var list := AttrsToNodeList(attrs);
        value := Some(Item(list));
      case DescriptionItem =>
        var d := ApplyAttrs(attrs, DEFAULT_DESCRIPTION_ITEM, DescriptionItemStep);
        value := Some(DescriptionItem(d));
      case CodeBlock =>
        var c := ApplyAttrs(attrs, DEFAULT_CODE_BLOCK, CodeBlockStep);
        value := Some(CodeBlock(c));
      case HtmlBlock =>
        var h := ApplyAttrs(attrs, DEFAULT_HTML_BLOCK, HtmlBlockStep);
        value := Some(HtmlBlock(h));
      case Heading =>
        var h := ApplyAttrs(attrs, DEFAULT_HEADING, HeadingStep);
        value := Some(Heading(h));
      case FootnoteDefinition =>
        var f := ApplyAttrs(attrs, DEFAULT_FOOTNOTE_DEFINITION, FootnoteDefinitionStep);
        value := Some(FootnoteDefinition(f));
      case FootnoteReference =>
        var f := ApplyAttrs(attrs, DEFAULT_FOOTNOTE_REFERENCE, FootnoteReferenceStep);
        value := Some(FootnoteReference(f));
      case Table =>
        var t := ApplyAttrs(attrs, DEFAULT_TABLE, TableStepAsWritten);
        value := Some(Table(t));
      case TableRow =>
        var header := ApplyAttrs(attrs, false, TableRowStep);
        value := Some(TableRow(header));
      case TaskItem =>
        var symbol := AttrsToTaskItem(attrs);
        value := Some(TaskItem(symbol));
      case Code =>
        var c := ApplyAttrs(attrs, NodeCode(0, ""), CodeStep);
        value := Some(Code(c));
      case HtmlInline =>
        var raw := ApplyAttrs(attrs, "", TextStep("raw_html"));
        value := Some(HtmlInline(raw));
      case Link =>
        var link := AttrsToNodeLink(attrs);
        value := Some(Link(link));
      case Image =>
        var link := AttrsToNodeLink(attrs);
        value := Some(Image(link));
      case ShortCode =>
        var sc := ApplyAttrs(attrs, NodeShortCode("", ""), ShortCodeStep);
        value := Some(ShortCode(sc));
      case Math =>
        var m := ApplyAttrs(attrs, NodeMath(false, false, ""), MathStep);
        value := Some(Math(m));
      case MultilineBlockQuote =>
        var m := ApplyAttrs(attrs, NodeMultilineBlockQuote(0, 0), MultilineBlockQuoteStep);
        value := Some(MultilineBlockQuote(m));
      case WikiLink =>
        var w := ApplyAttrs(attrs, NodeWikiLink(""), WikiLinkStep);
        value := Some(WikiLink(w));
      case EscapedTag =>
        var tag := ApplyAttrs(attrs, "", TextStep("tag"));
        value := Some(EscapedTag(tag));
      case _ =>
        value := ValueOf(name, attrs);
    }
  }

  /**
   * The comrak tree of an `ExNode` tree, each element's value built by
   * `read` from its name and attributes, or none when some element has no
   * value.
   */
  function ToComrakWith(node: X.ExNode<X.NodeName>, read: (X.NodeName, seq<X.Attr>) -> Option<NodeValue>): (r: Option<AstNode>)
    ensures node.TextNode? ==> r == Some(AstNode(Text(node.text), []))
    ensures r.Some? && node.Element? ==>
              read(node.name, node.attrs).Some? && r.value.value == read(node.name, node.attrs).value
              && |r.value.children| == |node.children|
    decreases node
  {
    match node
    case TextNode(content) => Some(AstNode(Text(content), []))
    case Element(name, attrs, children) =>
      var value := read(name, attrs);
      var kids := seq(|children|, i requires 0 <= i < |children| => ToComrakWith(children[i], read));
      if value.Some? && forall i :: 0 <= i < |kids| ==> kids[i].Some? then
        Some(AstNode(value.value, seq(|kids|, i requires 0 <= i < |kids| => kids[i].value)))
      else None
  }

  /** `ex_node_to_comrak_ast` as written: the comrak tree, or none when some element is a superscript. */
  function ToComrak(node: X.ExNode<X.NodeName>): (r: Option<AstNode>)
    ensures node.TextNode? ==> r == Some(AstNode(Text(node.text), []))
    ensures r.Some? && node.Element? ==> |r.value.children| == |node.children| && !r.value.value.Text?
  {
    ToComrakWith(node, ValueOf)
  }

  /** The tree conversion with the corrected table key. */
  function ToComrakCorrected(node: X.ExNode<X.NodeName>): (r: Option<AstNode>)
    ensures node.TextNode? ==> r == Some(AstNode(Text(node.text), []))
    ensures r.Some? && node.Element? ==> |r.value.children| == |node.children| && !r.value.value.Text?
  {
    ToComrakWith(node, ValueOfCorrected)
  }

  /** `ex_node_to_comrak_ast`: the node's value, then each child converted and appended in order. */
  method ExNodeToComrakAst(node: X.ExNode<X.NodeName>) returns (r: Option<AstNode>)
    ensures r == ToComrak(node)
    decreases node
  {
    match node {
      case TextNode(content) =>
        r := Some(AstNode(Text(content), []));
      case Element(name, attrs, children) =>
        var value := AttrsToValue(name, attrs);
        if value.None? {
          return None;
        }
        var kids: seq<AstNode> := [];
        for i := 0 to |children|
          invariant |kids| == i
          invariant forall j :: 0 <= j < i ==> ToComrak(children[j]) == Some(kids[j])
        {
          var kid := ExNodeToComrakAst(children[i]);
          if kid.None? {
            ghost var converted := seq(|children|, j requires 0 <= j < |children| => ToComrakWith(children[j], ValueOf));
            assert converted[i].None?;
            return None;
          }
          kids := kids + [kid.value];
        }
        ghost var converted := seq(|children|, j requires 0 <= j < |children| => ToComrakWith(children[j], ValueOf));
        assert kids == seq(|converted|, j requires 0 <= j < |converted| => converted[j].value);
        r := Some(AstNode(value.value, kids));
    }
  }

  /** Whether some element of the tree is a superscript, the one name with no arm in the decoder. */
  predicate HasSuperscript(node: X.ExNode<X.NodeName>)
    decreases node
  {
    node.Element? && (node.name == X.Superscript
                      || exists i :: 0 <= i < |node.children| && HasSuperscript(node.children[i]))
  }

  /** A tree converts exactly when it holds no superscript. */
  lemma {:induction false} ToComrakFailsOnlyOnSuperscript(node: X.ExNode<X.NodeName>)
    ensures ToComrak(node).None? <==> HasSuperscript(node)
    decreases node
  {
    if node.Element? {
      var children := node.children;
      forall i | 0 <= i < |children|
        ensures ToComrak(children[i]).None? <==> HasSuperscript(children[i])
      {
        ToComrakFailsOnlyOnSuperscript(children[i]);
      }
      var kids := seq(|children|, i requires 0 <= i < |children| => ToComrakWith(children[i], ValueOf));
      if k :| 0 <= k < |children| && HasSuperscript(children[k]) {
        assert kids[k].None?;
      }
      if k :| 0 <= k < |kids| && kids[k].None? {
        assert HasSuperscript(children[k]);
      }
    }
  }

  /** A comrak tree the decoder can rebuild: no superscript, ASCII one-byte characters, text without children. */
  predicate Decodable(node: AstNode)
    decreases node
  {
    (node.value.Text? ==> |node.children| == 0)
    && !node.value.Superscript? && AsciiChars(node.value)
    && forall i :: 0 <= i < |node.children| ==> Decodable(node.children[i])
  }

  /** A tree with `f` applied to the value of every node but text. */
  function MapTree(node: AstNode, f: NodeValue -> NodeValue): (r: AstNode)
    ensures node.value.Text? ==> r.value == node.value
    ensures !node.value.Text? ==> r.value == f(node.value)
    ensures |r.children| == |node.children|
    decreases node
  {
    AstNode(if node.value.Text? then node.value else f(node.value),
            seq(|node.children|, i requires 0 <= i < |node.children| => MapTree(node.children[i], f)))
  }

  /** An `ExNode` tree with `g` applied to the attribute list of every element. */
  function MapAttrs(node: X.ExNode<X.NodeName>, g: seq<X.Attr> -> seq<X.Attr>): (r: X.ExNode<X.NodeName>)
    ensures node.TextNode? ==> r == node
    ensures node.Element? ==> r.Element? && r.name == node.name && r.attrs == g(node.attrs)
                              && |r.children| == |node.children|
    decreases node
  {
    match node
    case TextNode(_) => node
    case Element(name, attrs, children) =>
      X.Element(name, g(attrs), seq(|children|, i requires 0 <= i < |children| => MapAttrs(children[i], g)))
  }

  function SameAttrs(attrs: seq<X.Attr>): seq<X.Attr> {
    attrs
  }

  /** Leaving every attribute list as it is leaves the tree as it is. */
  lemma {:induction false} MapAttrsSame(node: X.ExNode<X.NodeName>)
    ensures MapAttrs(node, SameAttrs) == node
    decreases node
  {
    if node.Element? {
      forall i | 0 <= i < |node.children| ensures MapAttrs(node.children[i], SameAttrs) == node.children[i] {
        MapAttrsSame(node.children[i]);
      }
      assert MapAttrs(node, SameAttrs).children == node.children;
    }
  }

  /** A map that keeps every readable value keeps every decodable tree. */
  lemma {:induction false} MapTreeFixed(node: AstNode, f: NodeValue -> NodeValue)
    requires Decodable(node)
    requires forall v :: Readable(v) ==> f(v) == v
    ensures MapTree(node, f) == node
    decreases node
  {
    forall i | 0 <= i < |node.children| ensures MapTree(node.children[i], f) == node.children[i] {
      MapTreeFixed(node.children[i], f);
    }
    assert MapTree(node, f).children == node.children;
  }

  /**
   * The tree round trip for any reading of the attributes: when `read`
   * turns every readable value's re-read (`g`) attributes into `f` of
   * that value, converting the re-read encoder tree gives the tree with
   * `f` applied to every value.
   */
  lemma {:induction false} TreeReadBack(
    node: AstNode, g: seq<X.Attr> -> seq<X.Attr>, read: (X.NodeName, seq<X.Attr>) -> Option<NodeValue>,
    f: NodeValue -> NodeValue)
    requires Decodable(node)
    requires forall v :: Readable(v) ==> read(Encoder.NameAndAttrs(v).0, g(Encoder.NameAndAttrs(v).1)) == Some(f(v))
    ensures ToComrakWith(MapAttrs(Encoder.ToElixirAst(node), g), read) == Some(MapTree(node, f))
    decreases node
  {
    var e := MapAttrs(Encoder.ToElixirAst(node), g);
    if node.value.Text? {
      assert MapTree(node, f) == AstNode(node.value, []);
    } else {
      assert Readable(node.value);
      forall i | 0 <= i < |node.children|
        ensures ToComrakWith(e.children[i], read) == Some(MapTree(node.children[i], f))
      {
        TreeReadBack(node.children[i], g, read, f);
      }
      var kids := seq(|e.children|, i requires 0 <= i < |e.children| => ToComrakWith(e.children[i], read));
      assert seq(|kids|, i requires 0 <= i < |kids| => kids[i].value) == MapTree(node, f).children;
    }
  }

  /** Whether every table of the tree has a non-empty cell count of 0. */
  predicate CellCountsZero(node: AstNode)
    decreases node
  {
    (node.value.Table? ==> node.value.table.numNonemptyCells == 0)
    && forall i :: 0 <= i < |node.children| ==> CellCountsZero(node.children[i])
  }

  /** Clearing the cell counts of a tree whose counts are all 0 changes nothing. */
  lemma {:induction false} ClearedCellsKeep(node: AstNode)
    requires CellCountsZero(node)
    ensures MapTree(node, ClearedCells) == node
    decreases node
  {
    forall i | 0 <= i < |node.children| ensures MapTree(node.children[i], ClearedCells) == node.children[i] {
      ClearedCellsKeep(node.children[i]);
    }
    assert MapTree(node, ClearedCells).children == node.children;
  }

  /** With the corrected table key, decoding the encoder's tree gives the comrak tree back. */
  lemma TreeRoundTrip(node: AstNode)
    requires Decodable(node)
    ensures ToComrakCorrected(Encoder.ToElixirAst(node)) == Some(node)
  {
    forall v | Readable(v)
      ensures ValueOfCorrected(Encoder.NameAndAttrs(v).0, SameAttrs(Encoder.NameAndAttrs(v).1)) == Some(v)
    {
      ValueRoundTrip(v);
    }
    TreeReadBack(node, SameAttrs, ValueOfCorrected, (x: NodeValue) => x);
    MapAttrsSame(Encoder.ToElixirAst(node));
    MapTreeFixed(node, (x: NodeValue) => x);
  }

  /**
   * As written, decoding the encoder's tree gives the tree back with every
   * table's cell count cleared, so the tree itself exactly when those
   * counts are 0.
   */
  lemma TreeRoundTripAsWritten(node: AstNode)
    requires Decodable(node)
    ensures ToComrak(Encoder.ToElixirAst(node)) == Some(MapTree(node, ClearedCells))
    ensures CellCountsZero(node) ==> ToComrak(Encoder.ToElixirAst(node)) == Some(node)
  {
    forall v | Readable(v)
      ensures ValueOf(Encoder.NameAndAttrs(v).0, SameAttrs(Encoder.NameAndAttrs(v).1)) == Some(ClearedCells(v))
    {
      ValueRoundTripAsWritten(v);
    }
    TreeReadBack(node, SameAttrs, ValueOf, ClearedCells);
    MapAttrsSame(Encoder.ToElixirAst(node));
    if CellCountsZero(node) {
      ClearedCellsKeep(node);
    }
  }

  /** Every attribute value of the tree comes back from its term through `decodeValue`. */
  predicate ValuesDecode(node: X.ExNode<X.NodeName>, decodeValue: X.Term -> Option<X.AttrValue>)
    decreases node
  {
    node.Element? ==>
      (forall i :: 0 <= i < |node.attrs| ==> decodeValue(X.ValueTerm(node.attrs[i].1)) == Some(node.attrs[i].1))
      && forall i :: 0 <= i < |node.children| ==> ValuesDecode(node.children[i], decodeValue)
  }

  /** Decoding an encoded node gives the node back, when `decodeValue` reads back each of its values. */
  lemma {:induction false} DecodeNodeRoundTrip(node: X.ExNode<X.NodeName>, decodeValue: X.Term -> Option<X.AttrValue>)
    requires ValuesDecode(node, decodeValue)
    ensures DecodeNode(X.EncodeNode(node, X.NodeNameString), decodeValue) == Ok(node)
    decreases node
  {
    if node.Element? {
      var term := X.EncodeNode(node, X.NodeNameString);
      X.NodeNameRoundTrip(node.name);
      var pairs := term.elems[1].elems;
      var attrs := seq(|pairs|, i requires 0 <= i < |pairs| => DecodeAttr(pairs[i], decodeValue));
      assert forall i :: 0 <= i < |attrs| ==> attrs[i] == Ok(node.attrs[i]);
      assert CollectAll(attrs).value == node.attrs;
      var kids := term.elems[2].elems;
      forall i | 0 <= i < |kids|
        ensures DecodeNode(kids[i], decodeValue) == Ok(node.children[i])
      {
        DecodeNodeRoundTrip(node.children[i], decodeValue);
      }
      var children := seq(|kids|, i requires 0 <= i < |kids| => DecodeNode(kids[i], decodeValue));
      assert CollectAll(children).value == node.children;
    }
  }

  /** `ExNode::decode` reads back the one-element list holding an encoded node. */
  lemma DecodeRoundTrip(node: X.ExNode<X.NodeName>, decodeValue: X.Term -> Option<X.AttrValue>)
    requires ValuesDecode(node, decodeValue)
    ensures Decode(X.TermList([X.EncodeNode(node, X.NodeNameString)]), decodeValue) == Ok(node)
  {
    DecodeNodeRoundTrip(node, decodeValue);
  }

  /**
   * rustler's untagged decoding of an `AttrValue` term: the first variant,
   * in declaration order, whose decoder accepts the term.
   */
  function UntaggedValue(term: X.Term): Option<X.AttrValue> {
    match term
    case Integer(n) =>
      if n < 0 then None
      else if n < 256 then Some(X.U8(n))
      else if n < 0x1_0000_0000 then Some(X.U32(n))
      else if n <= Tx.USIZE_MAX then Some(X.Usize(n))
      else None
    case Atom(a) =>
      if a == "true" then Some(X.Bool(true)) else if a == "false" then Some(X.Bool(false)) else None
    case Binary(chars) => Some(X.Text(chars))
    case TermList(elems) =>
      if forall i :: 0 <= i < |elems| ==> elems[i].Binary? then
        Some(X.TextList(seq(|elems|, i requires 0 <= i < |elems| => elems[i].chars)))
      else None
    case Tuple(_) => None
  }

  /** A value that a Rust `AttrValue` can hold: a `Usize` is at most `usize::MAX`. */
  predicate FitsUsize(v: X.AttrValue) {
    v.Usize? ==> v.size <= Tx.USIZE_MAX
  }

  /** Every attribute value of the tree is one a Rust `AttrValue` can hold. */
  predicate SizesFit(node: X.ExNode<X.NodeName>)
    decreases node
  {
    node.Element? ==>
      (forall i :: 0 <= i < |node.attrs| ==> FitsUsize(node.attrs[i].1))
      && forall i :: 0 <= i < |node.children| ==> SizesFit(node.children[i])
  }

  /** An integer value as the narrowest of `U8`, `U32` and `Usize` that holds it; any other value as it is. */
  function NarrowValue(v: X.AttrValue): (r: X.AttrValue)
    ensures X.ValueTerm(r) == X.ValueTerm(v)
    ensures !v.U32? && !v.Usize? ==> r == v
    ensures r.Usize? ==> v.Usize? && v.size >= 0x1_0000_0000
    ensures r.U32? ==> r.word >= 256
  {
    match v
    case U32(w) => if w < 256 then X.U8(w) else v
    case Usize(n) => if n < 256 then X.U8(n) else if n < 0x1_0000_0000 then X.U32(n) else v
    case _ => v
  }

  /**
   * Untagged decoding reads every value back except integers, which come
   * back as the narrowest type that holds them; an integer past `usize::MAX`
   * is rejected.
   */
  lemma UntaggedValueRoundTrip(v: X.AttrValue)
    ensures FitsUsize(v) ==> UntaggedValue(X.ValueTerm(v)) == Some(NarrowValue(v))
    ensures !FitsUsize(v) ==> UntaggedValue(X.ValueTerm(v)) == None
    ensures !v.U32? && !v.Usize? ==> UntaggedValue(X.ValueTerm(v)) == Some(v)
    ensures v.U32? && v.word < 256 ==> UntaggedValue(X.ValueTerm(v)) == Some(X.U8(v.word))
    ensures v.Usize? && v.size < 256 ==> UntaggedValue(X.ValueTerm(v)) == Some(X.U8(v.size))
    ensures v.Usize? && 256 <= v.size < 0x1_0000_0000 ==> UntaggedValue(X.ValueTerm(v)) == Some(X.U32(v.size))
  {
    if v.TextList? {
      var terms := X.ValueTerm(v).elems;
      assert seq(|terms|, i requires 0 <= i < |terms| => terms[i].chars) == v.items;
    }
  }

  /** The attributes as the untagged decoding hands them to the decoder. */
  function Untyped(attrs: seq<X.Attr>): (r: seq<X.Attr>)
    ensures |r| == |attrs|
  {
    seq(|attrs|, i requires 0 <= i < |attrs| => (attrs[i].0, NarrowValue(attrs[i].1)))
  }

  /**
   * Through rustler's untagged decoding, an encoded node decodes to the
   * node with every attribute value narrowed: names, keys, texts, flags,
   * lists and children come back, integers as `U8`/`U32` when they fit.
   */
  lemma {:induction false} DecodeNodeUntagged(node: X.ExNode<X.NodeName>)
    requires SizesFit(node)
    ensures DecodeNode(X.EncodeNode(node, X.NodeNameString), UntaggedValue) == Ok(MapAttrs(node, Untyped))
    decreases node
  {
    if node.Element? {
      var term := X.EncodeNode(node, X.NodeNameString);
      X.NodeNameRoundTrip(node.name);
      var pairs := term.elems[1].elems;
      var attrs := seq(|pairs|, i requires 0 <= i < |pairs| => DecodeAttr(pairs[i], UntaggedValue));
      forall i | 0 <= i < |attrs| ensures attrs[i] == Ok(Untyped(node.attrs)[i]) {
        UntaggedValueRoundTrip(node.attrs[i].1);
      }
      assert CollectAll(attrs).value == Untyped(node.attrs);
      var kids := term.elems[2].elems;
      forall i | 0 <= i < |kids|
        ensures DecodeNode(kids[i], UntaggedValue) == Ok(MapAttrs(node.children[i], Untyped))
      {
        DecodeNodeUntagged(node.children[i]);
      }
      var children := seq(|kids|, i requires 0 <= i < |kids| => DecodeNode(kids[i], UntaggedValue));
      assert CollectAll(children).value == MapAttrs(node, Untyped).children;
    }
  }

  /** `ExNode::decode` of the one-element list, through the untagged decoding. */
  lemma DecodeUntagged(node: X.ExNode<X.NodeName>)
    requires SizesFit(node)
    ensures Decode(X.TermList([X.EncodeNode(node, X.NodeNameString)]), UntaggedValue) == Ok(MapAttrs(node, Untyped))
  {
    DecodeNodeUntagged(node);
  }

  /** A list's pairs after the untagged decoding: the names, the bullet and `tight` as encoded, the numbers not as `Usize`. */
  lemma UntypedListAttrs(list: NodeList)
    requires list.markerOffset < 0x1_0000_0000 && list.padding < 0x1_0000_0000 && list.start < 0x1_0000_0000
    ensures var enc := Encoder.NodeListToAst(list);
            var attrs := Untyped(enc);
            && attrs[0] == enc[0] && attrs[4..] == enc[4..]
            && attrs[1].0 == "marker_offset" && !attrs[1].1.Usize?
            && attrs[2].0 == "padding" && !attrs[2].1.Usize?
            && attrs[3].0 == "start" && !attrs[3].1.Usize?
  {
    var enc := Encoder.NodeListToAst(list);
    assert Untyped(enc)[4..] == enc[4..];
  }

  /** A `usize` field after the untagged decoding: below 2^32 it arrives as `U8`/`U32` and keeps its default, 0. */
  function NarrowedSize(n: nat): (r: nat)
    ensures r == n || r == 0
    ensures r == n <==> n == 0 || n >= 0x1_0000_0000
  {
    if n < 0x1_0000_0000 then 0 else n
  }

  /** A `u32` field after the untagged decoding: below 256 it arrives as `U8` and keeps its default, 0. */
  function NarrowedWord(n: U32): (r: U32)
    ensures r == n || r == 0
    ensures r == n <==> n == 0 || n >= 256
  {
    if n < 256 then 0 else n
  }

  /**
   * Through the untagged decoding, a list keeps only the numbers that do
   * not fit in 32 bits: the others arrive as `U8` or `U32`, and the list
   * reads only `Usize`.
   */
  lemma ListNumbersLostUntagged(list: NodeList)
    requires list.bulletChar < 128
    ensures NodeListOf(Untyped(Encoder.NodeListToAst(list)))
            == list.(markerOffset := NarrowedSize(list.markerOffset), padding := NarrowedSize(list.padding),
                     start := NarrowedSize(list.start))
    ensures list.markerOffset < 0x1_0000_0000 && list.padding < 0x1_0000_0000 && list.start < 0x1_0000_0000 ==>
              NodeListOf(Untyped(Encoder.NodeListToAst(list))) == list.(markerOffset := 0, padding := 0, start := 0)
  {
    var attrs := Untyped(Encoder.NodeListToAst(list));
    CharRoundTrip(list.bulletChar);
    ListNamesRoundTrip(list.listType, list.delimiter);
    var l4 := DEFAULT_NODE_LIST.(listType := list.listType, markerOffset := NarrowedSize(list.markerOffset),
                                 padding := NarrowedSize(list.padding), start := NarrowedSize(list.start));
    Fold4(attrs[..4], DEFAULT_NODE_LIST, ListStep);
    assert FoldAttrs(attrs[..4], DEFAULT_NODE_LIST, ListStep) == l4;
    Fold3(attrs[4..], l4, ListStep);
    FoldConcat(attrs[..4], attrs[4..], DEFAULT_NODE_LIST, ListStep);
    assert attrs[..4] + attrs[4..] == attrs;
  }

  /** Through the untagged decoding, a code block keeps all but the fence numbers that fit in 32 bits. */
  lemma CodeBlockLostUntagged(c: NodeCodeBlock)
    requires c.fenceChar < 128
    ensures FoldAttrs(Untyped(Encoder.NameAndAttrs(CodeBlock(c)).1), DEFAULT_CODE_BLOCK, CodeBlockStep)
            == c.(fenceLength := NarrowedSize(c.fenceLength), fenceOffset := NarrowedSize(c.fenceOffset))
  {
    var attrs := Untyped(Encoder.NameAndAttrs(CodeBlock(c)).1);
    var c4 := CodeBlockHeadUntagged(c);
    Fold2(attrs[4..], c4, CodeBlockStep);
    FoldConcat(attrs[..4], attrs[4..], DEFAULT_CODE_BLOCK, CodeBlockStep);
    assert attrs[..4] + attrs[4..] == attrs;
  }

  /** The first four code-block pairs after the untagged decoding: the flag, the fence character and the narrowed numbers. */
  lemma CodeBlockHeadUntagged(c: NodeCodeBlock) returns (c4: NodeCodeBlock)
    requires c.fenceChar < 128
    ensures c4 == DEFAULT_CODE_BLOCK.(fenced := c.fenced, fenceChar := c.fenceChar,
                                      fenceLength := NarrowedSize(c.fenceLength), fenceOffset := NarrowedSize(c.fenceOffset))
    ensures FoldAttrs(Untyped(Encoder.NameAndAttrs(CodeBlock(c)).1)[..4], DEFAULT_CODE_BLOCK, CodeBlockStep) == c4
  {
    var attrs := Untyped(Encoder.NameAndAttrs(CodeBlock(c)).1);
    CharRoundTrip(c.fenceChar);
    c4 := DEFAULT_CODE_BLOCK.(fenced := c.fenced, fenceChar := c.fenceChar,
                              fenceLength := NarrowedSize(c.fenceLength), fenceOffset := NarrowedSize(c.fenceOffset));
    Fold4(attrs[..4], DEFAULT_CODE_BLOCK, CodeBlockStep);
  }

  /** Through the untagged decoding, a table keeps its alignments and its counts of 2^32 or more; the cell count is never read. */
  lemma TableLostUntagged(t: NodeTable)
    ensures TableOfAsWritten(Untyped(Encoder.NameAndAttrs(Table(t)).1))
            == t.(numColumns := NarrowedSize(t.numColumns), numRows := NarrowedSize(t.numRows), numNonemptyCells := 0)
  {
    AlignmentsRoundTrip(t.alignments);
    Fold4(Untyped(Encoder.NameAndAttrs(Table(t)).1), DEFAULT_TABLE, TableStepAsWritten);
  }

  /** The value the untagged decoding and the decoder as written return for an encoded value. */
  function UntaggedLoss(v: NodeValue): NodeValue {
    match v
    case List(l) =>
      List(l.(markerOffset := NarrowedSize(l.markerOffset), padding := NarrowedSize(l.padding),
              start := NarrowedSize(l.start)))
    case Item(l) =>
      Item(l.(markerOffset := NarrowedSize(l.markerOffset), padding := NarrowedSize(l.padding),
              start := NarrowedSize(l.start)))
    case DescriptionItem(d) =>
      DescriptionItem(NodeDescriptionItem(NarrowedSize(d.markerOffset), NarrowedSize(d.padding)))
    case CodeBlock(c) =>
      CodeBlock(c.(fenceLength := NarrowedSize(c.fenceLength), fenceOffset := NarrowedSize(c.fenceOffset)))
    case FootnoteDefinition(f) => FootnoteDefinition(f.(totalReferences := NarrowedWord(f.totalReferences)))
    case FootnoteReference(f) =>
      FootnoteReference(f.(refNum := NarrowedWord(f.refNum), ix := NarrowedWord(f.ix)))
    case Table(t) =>
      Table(t.(numColumns := NarrowedSize(t.numColumns), numRows := NarrowedSize(t.numRows), numNonemptyCells := 0))
    case Code(c) => Code(c.(numBackticks := NarrowedSize(c.numBackticks)))
    case MultilineBlockQuote(m) =>
      MultilineBlockQuote(NodeMultilineBlockQuote(NarrowedSize(m.fenceLength), NarrowedSize(m.fenceOffset)))
    case _ => v
  }

  /** An attribute list without `u32` or `usize` values is not changed by the untagged decoding. */
  lemma UntypedKeeps(attrs: seq<X.Attr>)
    requires forall i :: 0 <= i < |attrs| ==> !attrs[i].1.U32? && !attrs[i].1.Usize?
    ensures Untyped(attrs) == attrs
  {
  }

  /** The kinds whose numbers are `usize` or `u32`. */
  predicate HasWideNumbers(v: NodeValue) {
    v.List? || v.Item? || v.DescriptionItem? || v.CodeBlock? || v.FootnoteDefinition? || v.FootnoteReference?
    || v.Table? || v.Code? || v.MultilineBlockQuote?
  }

  /** Through the untagged decoding, the numbered kinds come back as `UntaggedLoss` says. */
  lemma UntaggedNumbersLoss(v: NodeValue)
    requires Readable(v) && HasWideNumbers(v)
    ensures ValueOf(Encoder.NameAndAttrs(v).0, Untyped(Encoder.NameAndAttrs(v).1)) == Some(UntaggedLoss(v))
  {
    if v.List? || v.Item? || v.DescriptionItem? {
      UntaggedNumbersLoss1(v);
    } else if v.CodeBlock? || v.FootnoteDefinition? || v.FootnoteReference? {
      UntaggedNumbersLoss2(v);
    } else {
      UntaggedNumbersLoss3(v);
    }
  }

  lemma UntaggedNumbersLoss1(v: NodeValue)
    requires Readable(v) && (v.List? || v.Item? || v.DescriptionItem?)
    ensures ValueOf(Encoder.NameAndAttrs(v).0, Untyped(Encoder.NameAndAttrs(v).1)) == Some(UntaggedLoss(v))
  {
    match v
    case List(l) => ListNumbersLostUntagged(l);
    case Item(l) => ListNumbersLostUntagged(l);
    case DescriptionItem(d) => DescriptionItemLostUntagged(d);
  }

  lemma DescriptionItemLostUntagged(d: NodeDescriptionItem)
    ensures ValueOf(X.DescriptionItem, Untyped(Encoder.NameAndAttrs(DescriptionItem(d)).1))
            == Some(DescriptionItem(NodeDescriptionItem(NarrowedSize(d.markerOffset), NarrowedSize(d.padding))))
  {
    Fold2(Untyped(Encoder.NameAndAttrs(DescriptionItem(d)).1), DEFAULT_DESCRIPTION_ITEM, DescriptionItemStep);
  }

  lemma UntaggedNumbersLoss2(v: NodeValue)
    requires Readable(v) && (v.CodeBlock? || v.FootnoteDefinition? || v.FootnoteReference?)
    ensures ValueOf(Encoder.NameAndAttrs(v).0, Untyped(Encoder.NameAndAttrs(v).1)) == Some(UntaggedLoss(v))
  {
    match v
    case CodeBlock(c) => CodeBlockLostUntagged(c);
    case FootnoteDefinition(f) => FootnoteDefinitionLostUntagged(f);
    case FootnoteReference(f) => FootnoteReferenceLostUntagged(f);
  }

  lemma FootnoteDefinitionLostUntagged(f: NodeFootnoteDefinition)
    ensures ValueOf(X.FootnoteDefinition, Untyped(Encoder.NameAndAttrs(FootnoteDefinition(f)).1))
            == Some(FootnoteDefinition(f.(totalReferences := NarrowedWord(f.totalReferences))))
  {
    Fold2(Untyped(Encoder.NameAndAttrs(FootnoteDefinition(f)).1), DEFAULT_FOOTNOTE_DEFINITION, FootnoteDefinitionStep);
  }

  lemma FootnoteReferenceLostUntagged(f: NodeFootnoteReference)
    ensures ValueOf(X.FootnoteReference, Untyped(Encoder.NameAndAttrs(FootnoteReference(f)).1))
            == Some(FootnoteReference(f.(refNum := NarrowedWord(f.refNum), ix := NarrowedWord(f.ix))))
  {
    Fold3(Untyped(Encoder.NameAndAttrs(FootnoteReference(f)).1), DEFAULT_FOOTNOTE_REFERENCE, FootnoteReferenceStep);
  }

  lemma UntaggedNumbersLoss3(v: NodeValue)
    requires Readable(v) && (v.Table? || v.Code? || v.MultilineBlockQuote?)
    ensures ValueOf(Encoder.NameAndAttrs(v).0, Untyped(Encoder.NameAndAttrs(v).1)) == Some(UntaggedLoss(v))
  {
    match v
    case Table(t) => TableLostUntagged(t);
    case Code(c) => CodeLostUntagged(c);
    case MultilineBlockQuote(m) => MultilineBlockQuoteLostUntagged(m);
  }

  lemma CodeLostUntagged(c: NodeCode)
    ensures ValueOf(X.Code, Untyped(Encoder.NameAndAttrs(Code(c)).1)) == Some(Code(c.(numBackticks := NarrowedSize(c.numBackticks))))
  {
    Fold2(Untyped(Encoder.NameAndAttrs(Code(c)).1), NodeCode(0, ""), CodeStep);
  }

  lemma MultilineBlockQuoteLostUntagged(m: NodeMultilineBlockQuote)
    ensures ValueOf(X.MultilineBlockQuote, Untyped(Encoder.NameAndAttrs(MultilineBlockQuote(m)).1))
            == Some(MultilineBlockQuote(NodeMultilineBlockQuote(NarrowedSize(m.fenceLength), NarrowedSize(m.fenceOffset))))
  {
    Fold2(Untyped(Encoder.NameAndAttrs(MultilineBlockQuote(m)).1), NodeMultilineBlockQuote(0, 0), MultilineBlockQuoteStep);
  }

  /** The encoder writes `u32` and `usize` values only for the numbered kinds. */
  lemma OnlyNumberedKindsWide(v: NodeValue)
    requires !v.Text? && !HasWideNumbers(v)
    ensures forall i :: 0 <= i < |Encoder.NameAndAttrs(v).1| ==>
              !Encoder.NameAndAttrs(v).1[i].1.U32? && !Encoder.NameAndAttrs(v).1[i].1.Usize?
  {
    if v.TaskItem? {
      assert Encoder.NameAndAttrs(v).1 == Encoder.TaskItemAttrs(v.symbol);
    }
  }

  /**
   * As written, through the untagged decoding every readable value comes
   * back as `UntaggedLoss` says: the `usize` fields below 2^32 and the
   * `u32` fields below 256 as 0, and the table's cell count as 0.
   */
  lemma UntaggedValueLoss(v: NodeValue)
    requires Readable(v)
    ensures ValueOf(Encoder.NameAndAttrs(v).0, Untyped(Encoder.NameAndAttrs(v).1)) == Some(UntaggedLoss(v))
  {
    if HasWideNumbers(v) {
      UntaggedNumbersLoss(v);
    } else {
      OnlyNumberedKindsWide(v);
      UntypedKeeps(Encoder.NameAndAttrs(v).1);
      ValueRoundTripAsWritten(v);
    }
  }

  /** The `usize` fields of a comrak value, each at most `usize::MAX` as its Rust type guarantees. */
  predicate ValueFits(v: NodeValue) {
    match v
    case List(l) => l.markerOffset <= Tx.USIZE_MAX && l.padding <= Tx.USIZE_MAX && l.start <= Tx.USIZE_MAX
    case Item(l) => l.markerOffset <= Tx.USIZE_MAX && l.padding <= Tx.USIZE_MAX && l.start <= Tx.USIZE_MAX
    case DescriptionItem(d) => d.markerOffset <= Tx.USIZE_MAX && d.padding <= Tx.USIZE_MAX
    case CodeBlock(c) => c.fenceLength <= Tx.USIZE_MAX && c.fenceOffset <= Tx.USIZE_MAX
    case Table(t) => t.numColumns <= Tx.USIZE_MAX && t.numRows <= Tx.USIZE_MAX && t.numNonemptyCells <= Tx.USIZE_MAX
    case Code(c) => c.numBackticks <= Tx.USIZE_MAX
    case MultilineBlockQuote(m) => m.fenceLength <= Tx.USIZE_MAX && m.fenceOffset <= Tx.USIZE_MAX
    case _ => true
  }

  /** Every value of the tree has `usize` fields that fit. */
  predicate TreeFits(node: AstNode)
    decreases node
  {
    ValueFits(node.value) && forall i :: 0 <= i < |node.children| ==> TreeFits(node.children[i])
  }

  /** The encoder writes a `usize` field only as the field's own value. */
  lemma EncodedValueFits(v: NodeValue)
    requires !v.Text? && ValueFits(v)
    ensures forall i :: 0 <= i < |Encoder.NameAndAttrs(v).1| ==> FitsUsize(Encoder.NameAndAttrs(v).1[i].1)
  {
    if v.List? || v.Item? || v.DescriptionItem? || v.CodeBlock? || v.FootnoteDefinition? {
      BlockNumbersFit(v);
    } else if v.FootnoteReference? || v.Table? || v.Code? || v.MultilineBlockQuote? {
      OtherNumbersFit(v);
    } else {
      OnlyNumberedKindsWide(v);
    }
  }

  lemma BlockNumbersFit(v: NodeValue)
    requires (v.List? || v.Item? || v.DescriptionItem? || v.CodeBlock? || v.FootnoteDefinition?) && ValueFits(v)
    ensures forall i :: 0 <= i < |Encoder.NameAndAttrs(v).1| ==> FitsUsize(Encoder.NameAndAttrs(v).1[i].1)
  {
  }

  lemma OtherNumbersFit(v: NodeValue)
    requires (v.FootnoteReference? || v.Table? || v.Code? || v.MultilineBlockQuote?) && ValueFits(v)
    ensures forall i :: 0 <= i < |Encoder.NameAndAttrs(v).1| ==> FitsUsize(Encoder.NameAndAttrs(v).1[i].1)
  {
  }

  /** The encoder's tree of a tree whose fields fit holds only values a Rust `AttrValue` can hold. */
  lemma {:induction false} EncodedTreeFits(node: AstNode)
    requires TreeFits(node)
    ensures SizesFit(Encoder.ToElixirAst(node))
    decreases node
  {
    if !node.value.Text? {
      EncodedValueFits(node.value);
      var e := Encoder.ToElixirAst(node);
      forall i | 0 <= i < |e.children| ensures SizesFit(e.children[i]) {
        EncodedTreeFits(node.children[i]);
      }
    }
  }

  /**
   * As written, end to end: the encoder's tree, encoded as a term and
   * decoded through the untagged decoding, converts to the tree with
   * every value as `UntaggedLoss` says.
   */
  lemma UntaggedRoundTripAsWritten(node: AstNode)
    requires Decodable(node) && TreeFits(node)
    ensures var d := Decode(X.TermList([X.EncodeNode(Encoder.ToElixirAst(node), X.NodeNameString)]), UntaggedValue);
            d == Ok(MapAttrs(Encoder.ToElixirAst(node), Untyped)) && ToComrak(d.value) == Some(MapTree(node, UntaggedLoss))
  {
    EncodedTreeFits(node);
    DecodeUntagged(Encoder.ToElixirAst(node));
    forall v | Readable(v)
      ensures ValueOf(Encoder.NameAndAttrs(v).0, Untyped(Encoder.NameAndAttrs(v).1)) == Some(UntaggedLoss(v))
    {
      UntaggedValueLoss(v);
    }
    TreeReadBack(node, Untyped, ValueOf, UntaggedLoss);
  }

  /** The keys whose value is a `usize`, a `u32` and a `u8`. */
  const SIZE_KEYS: set<string> := {"marker_offset", "padding", "start", "fence_length", "fence_offset",
                                   "num_columns", "num_rows", "num_nonempty_cells", "num_backticks"}
  const WORD_KEYS: set<string> := {"total_references", "ref_num", "ix"}
  const BYTE_KEYS: set<string> := {"block_type", "level"}

  /** The number an integer value holds, of whichever width. */
  function IntegerOf(v: X.AttrValue): (r: Option<nat>)
    ensures r.Some? <==> v.U8? || v.U32? || v.Usize?
  {
    match v
    case U8(b) => Some(b)
    case U32(w) => Some(w)
    case Usize(n) => Some(n)
    case _ => None
  }

  /** An integer value under a known key, read at the width that key has; anything else as it is. */
  function Retype(attr: X.Attr): X.Attr {
    match IntegerOf(attr.1)
    case None => attr
    case Some(n) =>
      if attr.0 in SIZE_KEYS then (attr.0, X.Usize(n))
      else if attr.0 in WORD_KEYS && n < 0x1_0000_0000 then (attr.0, X.U32(n))
      else if attr.0 in BYTE_KEYS && n < 256 then (attr.0, X.U8(n))
      else attr
  }

  function RetypeAll(attrs: seq<X.Attr>): (r: seq<X.Attr>)
    ensures |r| == |attrs|
  {
    seq(|attrs|, i requires 0 <= i < |attrs| => Retype(attrs[i]))
  }

  /**
   * The decoder as evidently intended: each integer field read from
   * whichever integer variant carries it, and the table's cell count
   * under the key the encoder writes.
   */
  function ValueOfIntended(name: X.NodeName, attrs: seq<X.Attr>): (r: Option<NodeValue>)
    ensures r.None? <==> name == X.Superscript
  {
    ValueOfCorrected(name, RetypeAll(attrs))
  }

  /** An integer attribute whose width is the one its key has. */
  predicate KeyTyped(attr: X.Attr) {
    (attr.1.Usize? ==> attr.0 in SIZE_KEYS)
    && (attr.1.U32? ==> attr.0 in WORD_KEYS)
    && (attr.1.U8? ==> attr.0 in BYTE_KEYS)
  }

  /** Reading at the key's width undoes the narrowing of a key-typed attribute. */
  lemma RetypeNarrow(attr: X.Attr)
    requires KeyTyped(attr)
    ensures Retype((attr.0, NarrowValue(attr.1))) == attr
  {
  }

  /** The encoder writes every integer at the width of its key. */
  lemma EncodedKeyTyped(v: NodeValue)
    requires !v.Text?
    ensures forall i :: 0 <= i < |Encoder.NameAndAttrs(v).1| ==> KeyTyped(Encoder.NameAndAttrs(v).1[i])
  {
    if v.List? || v.Item? || v.DescriptionItem? || v.CodeBlock? || v.FootnoteDefinition? {
      BlockNumbersKeyTyped(v);
    } else if v.FootnoteReference? || v.Table? || v.Code? || v.MultilineBlockQuote? || v.HtmlBlock? || v.Heading? {
      OtherNumbersKeyTyped(v);
    } else {
      OnlyNumberedKindsWide(v);
    }
  }

  lemma BlockNumbersKeyTyped(v: NodeValue)
    requires v.List? || v.Item? || v.DescriptionItem? || v.CodeBlock? || v.FootnoteDefinition?
    ensures forall i :: 0 <= i < |Encoder.NameAndAttrs(v).1| ==> KeyTyped(Encoder.NameAndAttrs(v).1[i])
  {
  }

  lemma OtherNumbersKeyTyped(v: NodeValue)
    requires v.FootnoteReference? || v.Table? || v.Code? || v.MultilineBlockQuote? || v.HtmlBlock? || v.Heading?
    ensures forall i :: 0 <= i < |Encoder.NameAndAttrs(v).1| ==> KeyTyped(Encoder.NameAndAttrs(v).1[i])
  {
  }

  /** With the intended decoder, every readable value comes back through the untagged decoding. */
  lemma IntendedValueRoundTrip(v: NodeValue)
    requires Readable(v)
    ensures ValueOfIntended(Encoder.NameAndAttrs(v).0, Untyped(Encoder.NameAndAttrs(v).1)) == Some(v)
  {
    var attrs := Encoder.NameAndAttrs(v).1;
    EncodedKeyTyped(v);
    forall i | 0 <= i < |attrs| ensures RetypeAll(Untyped(attrs))[i] == attrs[i] {
      RetypeNarrow(attrs[i]);
    }
    assert RetypeAll(Untyped(attrs)) == attrs;
    ValueRoundTrip(v);
  }

  /**
   * As intended, end to end: the encoder's tree, encoded as a term and
   * decoded through the untagged decoding, converts back to the tree.
   */
  lemma UntaggedRoundTripIntended(node: AstNode)
    requires Decodable(node) && TreeFits(node)
    ensures var d := Decode(X.TermList([X.EncodeNode(Encoder.ToElixirAst(node), X.NodeNameString)]), UntaggedValue);
            d.Ok? && ToComrakWith(d.value, ValueOfIntended) == Some(node)
  {
    EncodedTreeFits(node);
    DecodeUntagged(Encoder.ToElixirAst(node));
    forall v | Readable(v)
      ensures ValueOfIntended(Encoder.NameAndAttrs(v).0, Untyped(Encoder.NameAndAttrs(v).1)) == Some(v)
    {
      IntendedValueRoundTrip(v);
    }
    TreeReadBack(node, Untyped, ValueOfIntended, (x: NodeValue) => x);
    MapTreeFixed(node, (x: NodeValue) => x);
  }
}
