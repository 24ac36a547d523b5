# mdex `comrak_nif` core in Dafny

This project models the Rust core of MDEx's native extension, `comrak_nif`.
It covers two halves.

**Code-block highlighting.** Comrak calls a syntax-highlighter adapter three
times for each fenced block: `write_pre_tag`, `write_code_tag` and
`write_highlighted`. Four adapters are modelled:

- `LumisAdapter` (module `Lumis`) and `AutumnusAdapter` (module `Autumnus`) are
  classes. They keep the decorators parsed from the block's `data-meta`
  attribute and the language found on the tags, and their later calls read
  that stored state.
- `InkjetAdapter` (module `Inkjet`) is an immutable value.
- The vendored `autumn` crate (module `Autumn`) renders highlight events to
  HTML spans.

The helper modules cover the rest of this half:

- `Decorators` parses an info string into decorator attributes.
- `CodeAttributes` reads the decorators and the language from a code
  block's tag attributes, which the Lumis and Autumnus adapters do alike.
- `LineRanges` covers `highlight_lines` specs such as `1,3-5`.
- `ElixirTypes` holds the Elixir-side formatter options and themes and their
  conversions.
- `Themes` holds the theme values.

**AST marshalling.** A comrak node tree crosses to and from Elixir in two ways.

- **Older path.** `encoder.rs` (module `Encoder`) and `parser.rs` (module
  `LegacyParser`) turn a comrak tree into `ExNode` elements named by kind. Each
  element carries its fields as key/value attributes. `decoder.rs` (module
  `Decoder`) decodes the Erlang term and rebuilds the tree. The kinds and
  fields these files know are in `LegacyComrak`. The element and term shapes
  are in `ExNodes`.
- **Newer path.** `types/document.rs` (module `Document`) converts between
  comrak's tree and the typed `NewNode` document structs. `Comrak` holds that
  comrak release's node kinds, which add `Raw`, `Subscript`, `Subtext` and
  `Alert`.
- **One-byte characters.** List bullets and code fences are carried as
  one-character strings. This is modelled in `Bytes`.

A comrak tree is modelled as a value whose children are a sequence. External
collaborators are function-valued parameters or fields of a `Host` record:
`shlex::split`, `Language::guess`, `themes::get`, `highlight_iter`, the
`span_*` renderers, the builders' `build`, HTML escaping and `get_scope`.
`LumisAdapter.Valid()` states what the Lumis adapter assumes of them: every
highlight token lies inside the source. Each adapter method returns the text
it would write.

Main results:

- Decorator parsing: the last `key=value` wins, and a bare word is the flag
  `true`.
- `highlight_lines` specs round-trip through their range text. The Lumis
  line list is the expansion of the Autumnus range list.
- Each adapter has a precedence order: decorator, then formatter option, then
  default.
- Lumis rebuilds the source from its highlight spans. Its line wrapper marks
  exactly the configured lines.
- `autumn`'s spans balance exactly when the highlight events do.
- Encoding and then converting back gives every tree without `Superscript`
  nodes, provided bullet and fence bytes are ASCII, once the decoder's table
  key is corrected. As written, every table comes back with a non-empty cell
  count of 0, so a tree whose counts are all 0 comes back unchanged.
- Through rustler's untagged decoding of attribute values, `Decode` of an
  encoded `ExNode` gives the node with its integers narrowed to the smallest
  variant that holds them. The decoder as written then drops every `usize`
  field below 2^32 and every `u32` field below 256 to 0. A decoder that
  reads an integer field from any integer variant gets the whole tree back.
- `parser.rs` agrees with `encoder.rs` except on task items.
- With `Subtext` children converted, `Document`'s conversion is a bijection
  between representable comrak trees and canonical documents. As written,
  `ex_document_to_comrak_ast` drops a `Subtext`'s children, so a canonical
  document comes back unchanged when no `Subtext` in it has children.

## Model

| member | source | states |
|---|---|---|
| Decorators.ParseCustomAttributes | native/comrak_nif/src/lumis_adapter.rs:63-83 | No words or a failed split gives `None`; otherwise the attribute map built word by word |
| Decorators.WordWithEquals | native/comrak_nif/src/autumnus_adapter.rs:66-87 | `key=value` has the trimmed key and the value after the first `=` |
| Decorators.BareWordIsFlag | native/comrak_nif/src/lumis_adapter.rs:63-83 | A word without `=` is the trimmed word with value `"true"` |
| Decorators.WordKeyDefined | native/comrak_nif/src/lumis_adapter.rs:63-83 | Every word's key is in the parsed map |
| Decorators.KeyFromWord | native/comrak_nif/src/lumis_adapter.rs:63-83 | Every key of the map comes from some word, and its value is that word's value |
| Decorators.LastWordWins | native/comrak_nif/src/lumis_adapter.rs:63-83 | When a key repeats, the last word carrying it gives the value |
| Decorators.ParsedNoneIff | native/comrak_nif/src/autumnus_adapter.rs:66-87 | The result is `None` exactly for a failed split or no words, and a present map is non-empty |
| LineRanges.Interval | native/comrak_nif/src/lumis_adapter.rs:184-199 | `s..=e` holds `e-s+1` consecutive lines from `s`, and none when `s > e` |
| LineRanges.ParseHighlightLines | native/comrak_nif/src/lumis_adapter.rs:184-199 | The loop over comma-separated parts produces the line list of the spec |
| LineRanges.PushSegment | native/comrak_nif/src/lumis_adapter.rs:187-197 | One part appends its lines: a number, a valid range or nothing |
| LineRanges.PushInterval | native/comrak_nif/src/lumis_adapter.rs:191-193 | The inner loop appends exactly `s..=e` |
| LineRanges.SegmentAgrees | native/comrak_nif/src/autumnus_adapter.rs:89-104 | A part's Lumis lines are the expansion of its Autumnus range |
| LineRanges.RangesCoverHighlightLines | native/comrak_nif/src/autumnus_adapter.rs:89-104 | The Autumnus ranges of all parts expand to the Lumis line list |
| LineRanges.HighlightRangesAgree | native/comrak_nif/src/autumnus_adapter.rs:89-104 | The two adapters' parsers agree on every spec |
| LineRanges.SegmentOfRangeText | native/comrak_nif/src/autumnus_adapter.rs:89-104 | A range's text `n` or `s-e` has no comma and parses back to the range |
| LineRanges.RangesRoundTrip | native/comrak_nif/src/autumnus_adapter.rs:89-104 | Joining ranges with commas and parsing gives the ranges, and the Lumis lines are their expansion |
| ElixirTypes.DefaultFormatterOption | native/comrak_nif/src/types/elixir_types.rs:46-57 | The default formatter is inline HTML with no theme, class, italics, highlights, lines or header |
| ElixirTypes.ToRangeInclusive | native/comrak_nif/src/types/elixir_types.rs:343-349 | A single line `n` covers `[n]`, and a range covers `start..=end` |
| ElixirTypes.ConvertLineSpecs | native/comrak_nif/src/types/elixir_types.rs:81-86 | One range per spec, in order, each covering that spec's lines |
| ElixirTypes.ConvertInlineStyle | native/comrak_nif/src/types/elixir_types.rs:90-99 | `theme` maps to the theme style, and a custom style to that literal CSS |
| ElixirTypes.UnderlineStyleRoundTrip | native/comrak_nif/src/types/elixir_types.rs:272-292 | The two underline-style conversions are mutually inverse |
| ElixirTypes.TextDecorationToEx | native/comrak_nif/src/types/elixir_types.rs:301-308 | Keeps strikethrough; no underline maps to `nil` and back |
| ElixirTypes.TextDecorationFromEx | native/comrak_nif/src/types/elixir_types.rs:310-317 | Keeps strikethrough; `nil` maps to no underline |
| ElixirTypes.TextDecorationRoundTrip | native/comrak_nif/src/types/elixir_types.rs:301-317 | The two decoration conversions are mutually inverse |
| ElixirTypes.ThemeFromEx | native/comrak_nif/src/types/elixir_types.rs:233-261 | Keeps name, revision, appearance and every highlight's colours, weight, slant and decoration |
| ElixirTypes.ResolveTheme | native/comrak_nif/src/types/elixir_types.rs:72-78 | An inline theme is converted; a name resolves exactly when the registry has it |
| Lumis.ThemeFromFormatter | native/comrak_nif/src/lumis_adapter.rs:86-98 | Only inline and terminal formatters with a theme give one, and it is that theme resolved |
| Lumis.MultiThemesConfigOf | native/comrak_nif/src/lumis_adapter.rs:100-126 | Present exactly for multi-themes, with each theme converted, the default theme, prefix defaulting to `--lumis`, italics and highlights |
| Lumis.PreClass | native/comrak_nif/src/lumis_adapter.rs:128-135 | Terminal has no class; every other formatter gives its `pre_class` |
| Lumis.ItalicEnabled | native/comrak_nif/src/lumis_adapter.rs:137-143 | True exactly for inline or multi-themes with `italic` set |
| Lumis.ShouldIncludeHighlights | native/comrak_nif/src/lumis_adapter.rs:145-162 | True exactly when the decorator is present or an inline or multi-themes formatter sets it |
| Lumis.DecoratorTheme | native/comrak_nif/src/lumis_adapter.rs:164-172 | Present exactly when the `theme` decorator names a known theme, and it is that theme |
| Lumis.DecoratorPreClass | native/comrak_nif/src/lumis_adapter.rs:174-182 | Present exactly when the `pre_class` decorator is, with its value |
| Lumis.ThemePrecedence | native/comrak_nif/src/lumis_adapter.rs:418-420 | A known decorator theme wins over the formatter's; linked and multi-themes get a theme only from the decorator |
| Lumis.PreClassPrecedence | native/comrak_nif/src/lumis_adapter.rs:352-377 | The decorator's `pre_class` wins; otherwise the formatter's, and none for terminal |
| Lumis.ConvertLineSpecs | native/comrak_nif/src/lumis_adapter.rs:298-311 | The loop expands the specs to their line numbers in order |
| Lumis.LinesOfSpecsAgree | native/comrak_nif/src/lumis_adapter.rs:298-311 | Those lines are the expansion of the ranges `convert_line_specs` in the Elixir types gives |
| Lumis.FormatterHighlightLinesConfig | native/comrak_nif/src/lumis_adapter.rs:250-296 | Present exactly when an HTML formatter sets highlight lines; linked uses its lines and class without style; inline and multi-themes use their lines and class, with a style exactly when one is set |
| Lumis.FormatterFallbackStyle | native/comrak_nif/src/lumis_adapter.rs:263-280 | A formatter `Theme` style is the theme's `highlighted` css when present, otherwise the light background for a light theme and the dark one otherwise, including when there is no theme |
| Lumis.FormatterLiteralStyle | native/comrak_nif/src/lumis_adapter.rs:281-283 | A formatter custom style is used literally |
| Lumis.DecoratorLinesOverride | native/comrak_nif/src/lumis_adapter.rs:202-248 | A `highlight_lines` decorator replaces the formatter's lines with its own; without it the formatter's config is used |
| Lumis.DecoratorDefaultClass | native/comrak_nif/src/lumis_adapter.rs:212-218 | Without `highlight_lines_class`, linked uses class `highlighted` and the others none |
| Lumis.DecoratorLiteralStyle | native/comrak_nif/src/lumis_adapter.rs:219-229 | A style other than `theme` is used literally |
| Lumis.DecoratorFallbackStyle | native/comrak_nif/src/lumis_adapter.rs:219-241 | Without a style decorator, non-linked formatters with a theme get the light or dark background style, and others none |
| CodeAttributes.LanguageFromAttrs | native/comrak_nif/src/lumis_adapter.rs:337-349 | `lang`, else `class` minus `language-`, else plain text (also `get_language`, autumnus_adapter.rs lines 289-298) |
| CodeAttributes.EffectiveLanguage | native/comrak_nif/src/lumis_adapter.rs:407-415 | The stored language wins, then the fence hint, then plain text (autumnus_adapter.rs lines 408-414 alike) |
| Lumis.Assemble | native/comrak_nif/src/lumis_adapter.rs:431-492 | The callback loop builds the assembled span output |
| Lumis.FoldCopiesSource | native/comrak_nif/src/lumis_adapter.rs:434-487 | With identity spans over tiling tokens, the output so far is the source up to the last token |
| Lumis.AssembledCopiesSource | native/comrak_nif/src/lumis_adapter.rs:431-492 | Gaps and the tail are copied, so identity spans give back the whole source |
| Lumis.LineAttributes | native/comrak_nif/src/lumis_adapter.rs:498-511 | The class is `line` plus the configured class, and the style attribute is present, only on a configured line |
| Lumis.WriteLine | native/comrak_nif/src/lumis_adapter.rs:497-517 | Line `k` is written as its div, with its class, style and `data-line="k"` |
| Lumis.WriteLines | native/comrak_nif/src/lumis_adapter.rs:496-518 | The line loop writes the div sequence of the output's lines |
| Lumis.LineDivsShape | native/comrak_nif/src/lumis_adapter.rs:496-518 | One div per line, numbered from 1, in order |
| Lumis.HighlightedLineMarked | native/comrak_nif/src/lumis_adapter.rs:501-511 | A line gets an extra class or a style exactly when it is configured and the class or style is set |
| Lumis.LumisAdapter.constructor | native/comrak_nif/src/lumis_adapter.rs:55-61 | Holds the formatter, with no decorators and no language stored |
| Lumis.LumisAdapter.Default | native/comrak_nif/src/lumis_adapter.rs:44-52 | The default formatter, nothing stored |
| Lumis.LumisAdapter.WritePreTag | native/comrak_nif/src/lumis_adapter.rs:352-377 | Stores the decorators and `lang`'s language when present, and writes the pre tag with the effective class and theme |
| Lumis.LumisAdapter.WriteCodeTag | native/comrak_nif/src/lumis_adapter.rs:379-399 | Stores decorators, stores the attribute language when any attribute exists, and writes the code tag for the stored language |
| Lumis.LumisAdapter.WriteHighlighted | native/comrak_nif/src/lumis_adapter.rs:400-525 | Writes the line divs of the assembled spans, using the effective language, theme and line config |
| Lumis.DefaultFormatterIsPlain | native/comrak_nif/src/lumis_adapter.rs:44-52 | The default adapter has no theme, class, italics, highlights, lines or multi-themes |
| Autumnus.ResolveTheme | native/comrak_nif/src/autumnus_adapter.rs:106-115 | No `theme` gives `Ok(None)`; an unknown name gives `Invalid theme: <name>`; a known name gives its theme |
| Autumnus.UnknownThemeIgnored | native/comrak_nif/src/autumnus_adapter.rs:126 | The builder drops the error of an unknown theme and uses no custom theme |
| Autumnus.ConfigureHtmlInlineBuilder | native/comrak_nif/src/autumnus_adapter.rs:117-195 | Builds the inline builder from formatter, decorators and registry |
| Autumnus.ApplyInlineOption | native/comrak_nif/src/autumnus_adapter.rs:124-155 | The formatter's fields, with a custom theme replacing its own |
| Autumnus.ApplyInlineDecorators | native/comrak_nif/src/autumnus_adapter.rs:157-184 | Decorators override class, highlights and lines |
| Autumnus.ConfigureHtmlLinkedBuilder | native/comrak_nif/src/autumnus_adapter.rs:197-253 | Builds the linked builder with decorator lines and class defaulting to the given class |
| Autumnus.ConfigureTerminalBuilder | native/comrak_nif/src/autumnus_adapter.rs:255-281 | Builds the terminal builder with the custom theme overriding the formatter's |
| Autumnus.ThemePrecedence | native/comrak_nif/src/autumnus_adapter.rs:117-281 | For inline and terminal, a known decorator theme wins; otherwise the formatter's theme |
| Autumnus.InlinePrecedence | native/comrak_nif/src/autumnus_adapter.rs:124-192 | The decorator class wins; highlights are only added, and only by `include_highlights=true`; italics, header, language and source pass through |
| Autumnus.InlineDecoratorLines | native/comrak_nif/src/autumnus_adapter.rs:168-183 | Decorator lines parse as ranges, style `theme` or absent means theme style, otherwise literal, and the class is the decorator's |
| Autumnus.InlineFormatterLines | native/comrak_nif/src/autumnus_adapter.rs:128-155 | Without a decorator the formatter's highlight lines are used |
| Autumnus.LinkedDecoratorLines | native/comrak_nif/src/autumnus_adapter.rs:230-241 | Linked decorator lines parse as ranges, and the class defaults to the given class |
| Autumnus.PreTagOutput | native/comrak_nif/src/autumnus_adapter.rs:302-346 | The terminal formatter writes no pre tag |
| Autumnus.CodeTagOutput | native/comrak_nif/src/autumnus_adapter.rs:348-397 | The terminal formatter writes no code tag |
| Autumnus.AutumnusAdapter.constructor | native/comrak_nif/src/autumnus_adapter.rs:58-64 | Holds the formatter, nothing stored |
| Autumnus.AutumnusAdapter.Default | native/comrak_nif/src/autumnus_adapter.rs:40-55 | The inline formatter with everything unset, nothing stored |
| Autumnus.AutumnusAdapter.WritePreTag | native/comrak_nif/src/autumnus_adapter.rs:302-346 | Stores decorators and `lang`'s language when present; the tag uses this call's decorators and language |
| Autumnus.AutumnusAdapter.WriteCodeTag | native/comrak_nif/src/autumnus_adapter.rs:348-397 | Stores decorators, stores the attribute language when any attribute exists, and writes the tag for the stored language |
| Autumnus.AutumnusAdapter.WriteHighlighted | native/comrak_nif/src/autumnus_adapter.rs:399-457 | Highlights with the builder for the formatter, stored decorators and effective language |
| Autumnus.HighlightCodeBlock | native/comrak_nif/src/autumnus_adapter.rs:289-457 | Across the pre tag, code tag and highlight calls, the output uses the code tag's decorators when it has any, else the pre tag's, and the code tag's language whenever the code tag has attributes |
| Autumn.PreTagDefaultClass | native/comrak_nif/vendor/autumn/src/lib.rs:69-78 | Without a class the pre tag has class `autumn highlight`; a given class is used as is |
| Autumn.LanguageClass | native/comrak_nif/vendor/autumn/src/lib.rs:84-89 | `language-` followed by the lower-cased language name |
| Autumn.CodeTagDefaultClass | native/comrak_nif/vendor/autumn/src/lib.rs:84-89 | Without a class the code tag carries the language class |
| Autumn.CloseTags | native/comrak_nif/vendor/autumn/src/lib.rs:65-67 | A newline, then `</code>`, then `</pre>` |
| Autumn.Pieces | native/comrak_nif/vendor/autumn/src/lib.rs:95-117 | One rendered piece per highlight event |
| Autumn.HighlightSourceCode | native/comrak_nif/vendor/autumn/src/lib.rs:7-50 | The loop writes the opening tags, a newline, every event's piece in order, the closing tags and a newline |
| Autumn.RenderedStep | native/comrak_nif/vendor/autumn/src/lib.rs:7-50 | Rendering one more event appends exactly that event's piece |
| Autumn.InnerHighlightsTags | native/comrak_nif/vendor/autumn/src/lib.rs:95-117 | Source text adds no tag, a start opens one span, an end closes one |
| Autumn.RenderedTags | native/comrak_nif/vendor/autumn/src/lib.rs:7-50 | The rendered tags follow the start and end events one for one |
| Autumn.RenderedBalanced | native/comrak_nif/vendor/autumn/src/lib.rs:7-50 | The span tags balance exactly when the events do |
| Inkjet.New | native/comrak_nif/src/inkjet_adapter.rs:27-36 | Keeps the inline-style flag; a known theme is used, and an unknown one falls back to `onedark` |
| Inkjet.Default | native/comrak_nif/src/inkjet_adapter.rs:15-24 | `onedark` with inline styles |
| Inkjet.DefaultIsNewOnedark | native/comrak_nif/src/inkjet_adapter.rs:15-36 | The default equals `new("onedark", true)` |
| Inkjet.LanguageOf | native/comrak_nif/src/inkjet_adapter.rs:92 | A known token gives its language; otherwise plain text |
| Inkjet.LanguageClassToken | native/comrak_nif/src/inkjet_adapter.rs:88-91 | `language-<name>` with a dash-free name gives `<name>` |
| Inkjet.DashedClassToken | native/comrak_nif/src/inkjet_adapter.rs:88-91 | For a class `language-X-Y` with no `-` in X, the token is X, whatever Y is |
| Inkjet.PlaintextToken | native/comrak_nif/src/inkjet_adapter.rs:88-91 | A missing class or one without a dash gives `plaintext` |
| Inkjet.PreTagIgnoresAttributes | native/comrak_nif/src/inkjet_adapter.rs:74-81 | The pre tag does not depend on the attributes |
| Inkjet.HighlightLanguage | native/comrak_nif/src/inkjet_adapter.rs:48-49 | No hint means `plaintext`; an unknown hint means plain text |
| Inkjet.EventsHtml | native/comrak_nif/src/inkjet_adapter.rs:64-69 | One piece of HTML per event |
| Inkjet.WriteHighlighted | native/comrak_nif/src/inkjet_adapter.rs:41-72 | The loop writes every event's HTML in order |
| Bytes.CharToString | native/comrak_nif/src/encoder.rs:292-302 | 0 gives the empty string, an ASCII byte its one character, and 128 or more an error |
| Bytes.CharToStringOrEmpty | native/comrak_nif/src/encoder.rs:279 | At most one character |
| Bytes.StringToChar | native/comrak_nif/src/decoder.rs:139-145 | The empty string gives 0, otherwise the first character's code when it fits a byte |
| Bytes.CharRoundTrip | native/comrak_nif/src/types/document.rs:1101-1118 | An ASCII byte survives the trip through its string |
| Bytes.NonAsciiCharLost | native/comrak_nif/src/types/document.rs:1109-1118 | A byte of 128 or more becomes `""` and comes back as 0 |
| Bytes.StringRoundTrip | native/comrak_nif/src/types/document.rs:1101-1118 | A string of at most one non-NUL ASCII character survives the trip |
| ExNodes.NodeNameRoundTrip | native/comrak_nif/src/encoder.rs:7-51 | Parsing a kind's name gives the kind |
| ExNodes.NodeNameInjective | native/comrak_nif/src/encoder.rs:7-51 | Distinct kinds have distinct names |
| ExNodes.AttrTerms | native/comrak_nif/src/encoder.rs:64-76 | One term per attribute |
| ExNodes.EncodeAttrList | native/comrak_nif/src/encoder.rs:64-76 | The loop writes each attribute as a `{key, value}` pair, in order |
| ExNodes.EncodeNode | native/comrak_nif/src/encoder.rs:53-82 | Text becomes a binary; an element becomes a triple with one encoded child per child |
| Encoder.AlignmentNameInjective | native/comrak_nif/src/encoder.rs:158-163 | Distinct alignments have distinct names |
| Encoder.Keys | native/comrak_nif/src/encoder.rs:89-247 | One key per attribute |
| Encoder.NodeListToAst | native/comrak_nif/src/encoder.rs:260-283 | Exactly the seven list keys, in their fixed order |
| Encoder.NodeLinkToAst | native/comrak_nif/src/encoder.rs:285-290 | Exactly `url` and `title` |
| Encoder.AlignmentNames | native/comrak_nif/src/encoder.rs:155-164 | One name per column, each one of `none`, `left`, `center` and `right` |
| Encoder.TaskItemAttrs | native/comrak_nif/src/encoder.rs:184-193 | Unchecked gives only `checked=false`; checked gives `checked=true` and its symbol |
| Encoder.ToElixirAst | native/comrak_nif/src/encoder.rs:84-256 | Text stays text, and every other node becomes an element with as many children |
| Decoder.CollectAll | native/comrak_nif/src/decoder.rs:101-128 | Succeeds exactly when every item does, keeping them in order; otherwise it gives the first error |
| Decoder.DecodeAttr | native/comrak_nif/src/decoder.rs:104-121 | Succeeds exactly for a binary key and a decodable value |
| Decoder.DecodeNode | native/comrak_nif/src/decoder.rs:77-137 | A binary is text; anything but a name/attrs/children triple is `InvalidAst` |
| Decoder.Decode | native/comrak_nif/src/decoder.rs:61-75 | Anything but a one-element list is `InvalidAst`; otherwise its element is decoded |
| Decoder.ListTypeFromName | native/comrak_nif/src/decoder.rs:514-520 | `ordered` is ordered, and every other name is bullet |
| Decoder.DelimiterFromName | native/comrak_nif/src/decoder.rs:522-528 | `paren` is paren, and every other name is period |
| Decoder.ListNamesRoundTrip | native/comrak_nif/src/decoder.rs:511-551 | Decoding an encoded list type or delimiter gives it back |
| Decoder.AttrsToNodeList | native/comrak_nif/src/decoder.rs:511-551 | The loop folds the attributes into the default list |
| Decoder.NodeListRoundTrip | native/comrak_nif/src/decoder.rs:511-551 | An encoded list with an ASCII bullet decodes to itself |
| Decoder.ListAttrIgnored | native/comrak_nif/src/decoder.rs:545-546 | An unknown key or mistyped value is ignored wherever it appears |
| Decoder.ListLastWins | native/comrak_nif/src/decoder.rs:530-548 | A repeated key takes its last value |
| Decoder.ListAbsentKeysDefault | native/comrak_nif/src/decoder.rs:511-551 | A missing key keeps comrak's default |
| Decoder.ApplyAttrs | native/comrak_nif/src/decoder.rs:165-176 | The per-kind attribute loop is the fold of its step |
| Decoder.AlignmentFromName | native/comrak_nif/src/decoder.rs:300-306 | `left`, `center` and `right` map to themselves, and anything else to none |
| Decoder.AlignmentsFromNames | native/comrak_nif/src/decoder.rs:297-310 | One alignment per name |
| Decoder.AlignmentsRoundTrip | native/comrak_nif/src/decoder.rs:297-310 | Decoding encoded alignments gives them back |
| Decoder.TableRoundTrip | native/comrak_nif/src/decoder.rs:292-324 | With the encoder's key, an encoded table decodes to itself |
| Decoder.TableCellsLostAsWritten | native/comrak_nif/src/decoder.rs:315 | As written, the non-empty cell count always decodes as 0 |
| Decoder.AttrsToNodeLink | native/comrak_nif/src/decoder.rs:567-584 | The loop folds the attributes into an empty link |
| Decoder.NodeLinkRoundTrip | native/comrak_nif/src/decoder.rs:567-584 | An encoded link decodes to itself |
| Decoder.AttrsToTaskItem | native/comrak_nif/src/decoder.rs:553-565 | Any `checked=false` gives `None`; otherwise the last symbol's first character |
| Decoder.TaskItemRoundTrip | native/comrak_nif/src/decoder.rs:553-565 | An encoded task item decodes to itself |
| Decoder.ValueOf | native/comrak_nif/src/decoder.rs:158-493 | As written (the table count is read under `num_nomempty_cells`): fails exactly for `superscript`, which has no arm, and never yields text |
| Decoder.ValueOfCorrected | native/comrak_nif/src/decoder.rs:292-324 | Fails exactly for `superscript`; a table is read with the count under `num_nonempty_cells`; every other name decodes as `ValueOf` does |
| Decoder.ValueRoundTripAsWritten | native/comrak_nif/src/decoder.rs:158-493 | As written, every readable value comes back from its encoding, except a table's cell count, which comes back as 0 |
| Decoder.ValueRoundTrip | native/comrak_nif/src/decoder.rs:158-493 | With the corrected table key, every non-text, non-superscript value with ASCII bytes decodes from its encoding to itself |
| Decoder.AttrsToValue | native/comrak_nif/src/decoder.rs:158-493 | The per-kind match builds the value of the element |
| Decoder.ToComrakWith | native/comrak_nif/src/decoder.rs:147-510 | Text becomes a text node; an element gets the value read from its name and attributes and one converted child per child |
| Decoder.ToComrak | native/comrak_nif/src/decoder.rs:147-510 | As written: text becomes a text node; an element keeps its number of children and is never text |
| Decoder.ToComrakCorrected | native/comrak_nif/src/decoder.rs:147-510 | The same conversion with the corrected table key |
| Decoder.ExNodeToComrakAst | native/comrak_nif/src/decoder.rs:147-510 | The recursive conversion as written (`ToComrak`), appending children in order |
| Decoder.ToComrakFailsOnlyOnSuperscript | native/comrak_nif/src/decoder.rs:489-492 | The conversion fails exactly when the tree holds a superscript |
| Decoder.TreeReadBack | native/comrak_nif/src/decoder.rs:147-510 | When every readable value's attributes read back as `f` of the value, the encoded tree converts to the tree with `f` applied to each value |
| Decoder.TreeRoundTrip | native/comrak_nif/src/decoder.rs:147-510 | With the corrected table key, decoding an encoded decodable tree gives it back |
| Decoder.TreeRoundTripAsWritten | native/comrak_nif/src/decoder.rs:147-510 | As written, it gives the tree with every table's cell count cleared, and the tree itself when those counts are 0 |
| Decoder.DecodeNodeRoundTrip | native/comrak_nif/src/decoder.rs:77-137 | A term written by the `ExNode` encoder decodes to the node |
| Decoder.DecodeRoundTrip | native/comrak_nif/src/decoder.rs:61-75 | The same for the one-element list the NIF receives |
| Decoder.NarrowValue | native/comrak_nif/src/types/nodes.rs:3-11 | The same term; an integer as `U8` when below 256, as `U32` when below 2^32, as `Usize` otherwise; other values unchanged |
| Decoder.DecodeNodeUntagged | native/comrak_nif/src/decoder.rs:77-137 | Through untagged decoding, an encoded node whose `usize` values fit in 64 bits decodes to the node with every attribute value narrowed |
| Decoder.DecodeUntagged | native/comrak_nif/src/decoder.rs:61-75 | The same for the one-element list the NIF receives |
| Decoder.UntaggedValueRoundTrip | native/comrak_nif/src/types/nodes.rs:3-11 | Untagged decoding returns each value narrowed: non-integers as they are, integers as the narrowest type that holds them; an integer past `usize::MAX` is rejected |
| Decoder.EncodedValueFits | native/comrak_nif/src/encoder.rs:96-276 | A value whose `usize` fields fit in 64 bits is encoded with `Usize` values that fit |
| Decoder.EncodedTreeFits | native/comrak_nif/src/encoder.rs:96-276 | The same for every node of a tree |
| Decoder.Untyped | native/comrak_nif/src/types/nodes.rs:3-11 | One narrowed attribute per attribute |
| Decoder.NarrowedSize | native/comrak_nif/src/decoder.rs:190-193 | A `usize` field survives the untagged decoding exactly when it is 0 or at least 2^32, and is 0 otherwise |
| Decoder.NarrowedWord | native/comrak_nif/src/decoder.rs:267 | A `u32` field survives the untagged decoding exactly when it is 0 or at least 256, and is 0 otherwise |
| Decoder.ListNumbersLostUntagged | native/comrak_nif/src/decoder.rs:535-537 | Under untagged decoding, a list keeps everything but its numeric fields below 2^32, which decode as 0 |
| Decoder.CodeBlockLostUntagged | native/comrak_nif/src/decoder.rs:212-216 | Under untagged decoding, a code block keeps everything but its fence numbers below 2^32, which decode as 0 |
| Decoder.TableLostUntagged | native/comrak_nif/src/decoder.rs:311-317 | Under untagged decoding, a table keeps its alignments and counts of 2^32 or more; smaller counts and the cell count decode as 0 |
| Decoder.DescriptionItemLostUntagged | native/comrak_nif/src/decoder.rs:190-193 | Under untagged decoding, a description item's offsets below 2^32 decode as 0 |
| Decoder.FootnoteDefinitionLostUntagged | native/comrak_nif/src/decoder.rs:267 | Under untagged decoding, a reference count below 256 decodes as 0 |
| Decoder.FootnoteReferenceLostUntagged | native/comrak_nif/src/decoder.rs:283-284 | Under untagged decoding, `ref_num` and `ix` below 256 decode as 0 |
| Decoder.CodeLostUntagged | native/comrak_nif/src/decoder.rs:354 | Under untagged decoding, a backtick count below 2^32 decodes as 0 |
| Decoder.MultilineBlockQuoteLostUntagged | native/comrak_nif/src/decoder.rs:441-445 | Under untagged decoding, fence numbers below 2^32 decode as 0 |
| Decoder.UntaggedValueLoss | native/comrak_nif/src/decoder.rs:158-493 | Under untagged decoding, every readable value decodes with exactly the losses `UntaggedLoss` lists |
| Decoder.UntaggedRoundTripAsWritten | native/comrak_nif/src/decoder.rs:61-510 | End to end, as written: a tree whose `usize` fields fit in 64 bits is encoded and decodes, and converts to the tree with every value's losses applied |
| Decoder.IntegerOf | native/comrak_nif/src/types/nodes.rs:3-11 | A number exactly for the three integer variants |
| Decoder.ValueOfIntended | native/comrak_nif/src/decoder.rs:158-493 | The intended decoder, reading each integer at its key's width, fails exactly for `superscript` |
| Decoder.RetypeNarrow | native/comrak_nif/src/types/nodes.rs:3-11 | Reading at the key's width undoes the narrowing |
| Decoder.EncodedKeyTyped | native/comrak_nif/src/encoder.rs:96-276 | The encoder writes every integer at its key's width |
| Decoder.IntendedValueRoundTrip | native/comrak_nif/src/decoder.rs:158-493 | With the intended decoder, every readable value comes back through untagged decoding |
| Decoder.UntaggedRoundTripIntended | native/comrak_nif/src/decoder.rs:61-510 | End to end, as intended: a tree whose `usize` fields fit in 64 bits is encoded, decodes and converts back to itself |
| LegacyParser.TaskItemAttrs | native/comrak_nif/src/parser.rs:137-143 | One `symbol` attribute of one character, a space when unchecked |
| LegacyParser.ToElixirAst | native/comrak_nif/src/parser.rs:38-208 | Text stays text, and every other node becomes an element with as many children |
| LegacyParser.NamesWritten | native/comrak_nif/src/parser.rs:7-36 | The encoder's tree with names written as strings, same attributes and children |
| LegacyParser.AgreesWithEncoder | native/comrak_nif/src/parser.rs:38-208 | Outside task items, the parser and the encoder give the same name and attributes |
| LegacyParser.TreeAgreesWithEncoder | native/comrak_nif/src/parser.rs:38-208 | On trees without task items the two produce the same tree |
| LegacyParser.TaskItemDecodesChecked | native/comrak_nif/src/parser.rs:137-143 | The decoder reads the parser's task item as checked, with a space symbol when unchecked |
| Document.EnumMappingsInverse | native/comrak_nif/src/types/document.rs:179-198 | List type, delimiter, alignment and alert type map to comrak and back as inverse bijections |
| Document.AlignmentsToComrak | native/comrak_nif/src/types/document.rs:427-445 | One comrak alignment per column |
| Document.AlignmentsFromComrak | native/comrak_nif/src/types/document.rs:979-984 | One alignment per column |
| Document.AlignmentsInverse | native/comrak_nif/src/types/document.rs:427-445 | The two column mappings are inverse |
| Document.FirstChar | native/comrak_nif/src/types/document.rs:492-495 | `None` exactly for the empty marker, otherwise its first character |
| Document.Children | native/comrak_nif/src/types/document.rs:815-860 | A kind with `nodes` gives them; other kinds give none |
| Document.ToComrak | native/comrak_nif/src/types/document.rs:815-860 | A node's comrak value with one child per child, Subtext included |
| Document.ToComrakAsWritten | native/comrak_nif/src/types/document.rs:815-860 | As written, children are kept for the listed kinds and dropped for every other kind, Subtext included |
| Document.ExDocumentToComrakAst | native/comrak_nif/src/types/document.rs:815-860 | The loop builds the as-written conversion, appending the listed kinds' children in order |
| Document.ExNodeOf | native/comrak_nif/src/types/document.rs:862-1099 | Every kind with `nodes` gets the converted children |
| Document.ValueRoundTrip | native/comrak_nif/src/types/document.rs:67-115 | Every comrak value with ASCII bytes comes back unchanged through its document struct |
| Document.TreeRoundTrip | native/comrak_nif/src/types/document.rs:862-1099 | A representable comrak tree converts to a document and back to itself |
| Document.SubtextChildLostAsWritten | native/comrak_nif/src/types/document.rs:823-852 | Subtext over one text node loses its child as written, and not when corrected |
| Document.AsWrittenAgrees | native/comrak_nif/src/types/document.rs:815-860 | As written and corrected agree on documents where no Subtext has children |
| Document.NodeRoundTrip | native/comrak_nif/src/types/document.rs:862-1099 | A node with canonical one-byte fields comes back from its comrak value and children |
| Document.DocumentRoundTrip | native/comrak_nif/src/types/document.rs:815-1099 | With `Subtext` children converted, a canonical document converts to comrak and back to itself |
| Document.DocumentRoundTripAsWritten | native/comrak_nif/src/types/document.rs:815-1099 | As written, a canonical document in which no `Subtext` has children converts to comrak and back to itself |
| Document.FromComrakCanonical | native/comrak_nif/src/types/document.rs:862-1099 | Every document read from comrak is canonical |

## Left out

- The `Mutex` around adapter state is left out. Each adapter is a class whose methods run one at a time.
- The `FmtToIoAdapter` byte writer and write errors are left out. Each method returns the text it would write.
- Library collaborators are not modelled; they enter as parameters or host fields:
  - `shlex::split`, `Language::guess`, `Language::from_token`, `themes::get`;
  - `highlight_iter` and inkjet's highlighter;
  - the `span_*` renderers, the builders' `build` and `Formatter::format`;
  - HTML escaping and autumn's `get_scope`.
- No HTML escaping, CSS or ANSI output is produced.
- `ExFormatterOption::into_formatter` is left out. The adapters read the formatter option directly, so the builders it would construct are the ones modelled in `Autumnus`.
- `lumis_adapter.rs`'s `header_config` is never called and is left out.
- The NIF entry points in `lib.rs`, sanitising (`types/options/sanitize.rs`) and the option structs are left out. Option structs and node structs appear only as the datatypes they declare.
- Comrak's arena and node references are not modelled. A tree is a value whose children are a sequence.
- UTF-8 validation of names and keys is left out. Strings are sequences of characters.
- Offsets into the source are modelled as character indices. Autumn's `Source` events (vendor/autumn/src/lib.rs:100-103) and Lumis's token ranges (lumis_adapter.rs:438-490) carry byte offsets into UTF-8 text. The two agree only on ASCII source. An offset that falls inside a multi-byte character, which makes `get` return `None` and `expect` panic in autumn and makes the slice panic in Lumis, is not captured.
- `Decoder.DecodeNode` and `Decoder.Decode` take rustler's decoding of an attribute value as a parameter `decodeValue`. `Decoder.UntaggedValue` models rustler's untagged decoding: the first variant, in declaration order, that accepts the term.
- `NodeName::from_str` is modelled as the inverse of the name table.
- The decoder's `todo!()` panic for `superscript` is modelled as `None`.
- The `unwrap_or(' ')` fallback of `string_to_char` in `types/document.rs` cannot be reached and is left out.
- Bytes.StringToChar: a character of 256 or more is cast to a byte. This is modelled as `% 256`, and the contract states only the ASCII and empty cases.
- Decoder.ValueOf: its own contract states only when decoding fails. The values it builds are stated by the per-kind round-trip lemmas.
- Decoder.DecodeNodeRoundTrip needs a value decoding that reads every value back exactly. Rustler's untagged decoding does not do that for integers. What it gives is stated by `Decoder.DecodeNodeUntagged` and `Decoder.UntaggedRoundTripAsWritten`.
- Comrak's `usize` fields and `AttrValue::Usize` are modelled as unbounded naturals. `Decoder.UntaggedValue` rejects integers past `usize::MAX`, as rustler does. The untagged lemmas therefore take as a premise that every `usize` field fits (`Decoder.TreeFits`, `Decoder.SizesFit`), which the Rust types guarantee.
- Decoder.DecodeRoundTrip has the same premise, for the one-element list; `Decoder.DecodeUntagged` states what untagged decoding gives.
- Decoder.ValueRoundTrip is proved for the corrected table key (`ValueOfCorrected`). As written, a table's count is cleared (`Decoder.ValueRoundTripAsWritten`).
- Decoder.TreeRoundTrip is proved for the corrected table key (`ToComrakCorrected`). As written, every table's count is cleared (`Decoder.TreeRoundTripAsWritten`).
- Document.DocumentRoundTrip is proved of the corrected `Document.ToComrak`. For `ex_document_to_comrak_ast` as written (`Document.ExDocumentToComrakAst`), it holds only for documents in which no `Subtext` has children (`Document.DocumentRoundTripAsWritten`).
- Autumn.HighlightSourceCode requires `EventsFit`: every source event lies inside the source. The source panics instead, with `expect`, in three places: when the highlighter fails (vendor/autumn/src/lib.rs:29), on an event error (lib.rs:42) and on an out-of-bounds span (lib.rs:101-103). These panics are not modelled.
- Inkjet.WriteHighlighted takes the highlighter's events as given. Its two `expect` panics, on a highlighter failure and on an event error (inkjet_adapter.rs:62, 65), are not modelled.
- Autumnus.PreTagOutput: the contract states only the terminal case. The HTML cases are stated through `Autumnus.AutumnusAdapter.WritePreTag`.
- Autumnus.CodeTagOutput: the contract states only the terminal case. The HTML cases are stated through `Autumnus.AutumnusAdapter.WriteCodeTag`.
- Inkjet.HighlightLanguage: the known-hint case returns the host's language for that token, which the contract does not name.
- Document.TreeRoundTrip requires `Representable`: ASCII bullet and fence bytes, and children only under kinds that have `nodes`. Other trees lose information by the conversion's design.

## Findings

| source | as written | input that shows it | evidently intended | confidence | as-written member | corrected member |
|---|---|---|---|---|---|---|
| native/comrak_nif/src/decoder.rs:315 | The table arm matches the key `num_nomempty_cells`, but the encoder writes `num_nonempty_cells` | A table with `num_nonempty_cells = 3` is encoded and decoded, and the count comes back as 0 | Match `num_nonempty_cells`, so the count survives the round trip | not executed | Decoder.TableCellsLostAsWritten | Decoder.TableRoundTrip |
| native/comrak_nif/src/decoder.rs:535-537 | The integer arms match only the variant the encoder wrote (`Usize` here, `U32` for footnotes). `AttrValue` is decoded untagged, trying `U8`, then `U32`, then `Usize` (types/nodes.rs:3-11), so a small integer arrives as a narrower variant and no arm reads it | An ordered list with `start = 3` is encoded and decoded, and `start` comes back as 0 | Read each integer field from whichever integer variant carries it, so every field survives the round trip | not executed | Decoder.UntaggedRoundTripAsWritten | Decoder.UntaggedRoundTripIntended |
| native/comrak_nif/src/types/document.rs:823-852 | The children loop runs only for the listed kinds, and `Subtext` is missing from that list, though `comrak_ast_to_ex_document` gives `Subtext` its `nodes` | A `Subtext` node over one text node `small` converts back to a `Subtext` without children | Append the children of `Subtext` like those of the other container kinds | not executed | Document.SubtextChildLostAsWritten | Document.TreeRoundTrip |
