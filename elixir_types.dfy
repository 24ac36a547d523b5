/**
 * The formatter options and theme records the Elixir side passes in, and
 * their conversions into the highlighting library's own values.
 */
module ElixirTypes {
  import opened Wrappers
  import opened LineRanges
  import Themes

  datatype ExAppearance = Light | Dark

  /** `ExAppearance::default()`. */
  const DEFAULT_APPEARANCE: ExAppearance := Dark

  datatype ExUnderlineStyle = Solid | Wavy | Double | Dotted | Dashed

  datatype ExTextDecoration = ExTextDecoration(underline: Option<ExUnderlineStyle>, strikethrough: bool)

  datatype ExStyle = ExStyle(fg: Option<string>, bg: Option<string>, bold: bool, italic: bool, textDecoration: ExTextDecoration)

  datatype ExTheme = ExTheme(name: string, appearance: ExAppearance, revision: string, highlights: map<string, ExStyle>)

  /** A theme given inline (`Theme`) or by registry name (`String`). */
  datatype ThemeOrString = InlineTheme(theme: ExTheme) | ThemeName(name: string)

  /** `ThemeOrString::default()`. */
  const DEFAULT_THEME_OR_STRING: ThemeOrString := ThemeName("onedark")

  datatype ExHtmlElement = ExHtmlElement(openTag: string, closeTag: string)

  datatype ExLineSpec = Single(line: nat) | Range(start: nat, end: nat)

  /** `ExHtmlInlineHighlightLinesStyle`: `Theme` or `Style { style }`. */
  datatype ExHtmlInlineHighlightLinesStyle = ThemeStyle | CustomStyle(style: string)

  datatype ExHtmlInlineHighlightLines =
    ExHtmlInlineHighlightLines(lines: seq<ExLineSpec>, style: Option<ExHtmlInlineHighlightLinesStyle>, cssClass: Option<string>)

  datatype ExHtmlLinkedHighlightLines = ExHtmlLinkedHighlightLines(lines: seq<ExLineSpec>, cssClass: string)

  /** The four output formatters and their options. */
  datatype ExFormatterOption =
    | HtmlInline(theme: Option<ThemeOrString>, preClass: Option<string>, italic: bool, includeHighlights: bool,
                 highlightLines: Option<ExHtmlInlineHighlightLines>, header: Option<ExHtmlElement>)
    | HtmlLinked(preClass: Option<string>, linkedHighlightLines: Option<ExHtmlLinkedHighlightLines>,
                 header: Option<ExHtmlElement>)
    | HtmlMultiThemes(themes: map<string, ExTheme>, defaultTheme: Option<string>, cssVariablePrefix: Option<string>,
                      preClass: Option<string>, italic: bool, includeHighlights: bool,
                      highlightLines: Option<ExHtmlInlineHighlightLines>, header: Option<ExHtmlElement>)
    | Terminal(theme: Option<ThemeOrString>)

  /** `ExFormatterOption::default()`: inline HTML with every option off. */
  function DefaultFormatterOption(): (r: ExFormatterOption)
    ensures r.HtmlInline? && r.theme.None? && r.preClass.None?
    ensures !r.italic && !r.includeHighlights && r.highlightLines.None? && r.header.None?
  {
    HtmlInline(None, None, false, false, None, None)
  }

  /** `ExLineSpec::to_range_inclusive`. */
  function ToRangeInclusive(spec: ExLineSpec): (r: LineRange)
    ensures Expand(r) == match spec
                         case Single(n) => [n]
                         case Range(s, e) => Interval(s, e)
  {
    match spec
    case Single(n) => LineRange(n, n)
    case Range(s, e) => LineRange(s, e)
  }

  /** `convert_line_specs`: one range per spec, in order. */
  function ConvertLineSpecs(specs: seq<ExLineSpec>): (r: seq<LineRange>)
    ensures |r| == |specs|
    ensures forall i :: 0 <= i < |specs| ==> Expand(r[i]) == Expand(ToRangeInclusive(specs[i]))
  {
    seq(|specs|, i requires 0 <= i < |specs| => ToRangeInclusive(specs[i]))
  }

  /** `convert_inline_style`. */
  function ConvertInlineStyle(style: ExHtmlInlineHighlightLinesStyle): (r: Themes.HighlightLinesStyle)
    ensures r.ThemeHighlight? <==> style.ThemeStyle?
    ensures style.CustomStyle? ==> r == Themes.LiteralStyle(style.style)
  {
    match style
    case ThemeStyle => Themes.ThemeHighlight
    case CustomStyle(css) => Themes.LiteralStyle(css)
  }

  /** `underline_style_to_ex`: the library's `None` has no Elixir counterpart. */
  function UnderlineStyleToEx(style: Themes.UnderlineStyle): Option<ExUnderlineStyle> {
    match style
    case NoUnderline => None
    case Solid => Some(Solid)
    case Wavy => Some(Wavy)
    case Double => Some(Double)
    case Dotted => Some(Dotted)
    case Dashed => Some(Dashed)
  }

  /** `ex_underline_style_to_theme`. */
  function ExUnderlineStyleToTheme(style: Option<ExUnderlineStyle>): Themes.UnderlineStyle {
    match style
    case None => Themes.NoUnderline
    case Some(Solid) => Themes.Solid
    case Some(Wavy) => Themes.Wavy
    case Some(Double) => Themes.Double
    case Some(Dotted) => Themes.Dotted
    case Some(Dashed) => Themes.Dashed
  }

  /** The two underline conversions are inverse bijections. */
  lemma UnderlineStyleRoundTrip(style: Themes.UnderlineStyle, ex: Option<ExUnderlineStyle>)
    ensures ExUnderlineStyleToTheme(UnderlineStyleToEx(style)) == style
    ensures UnderlineStyleToEx(ExUnderlineStyleToTheme(ex)) == ex
  {
  }

  /** `From<themes::TextDecoration> for ExTextDecoration`. */
  function TextDecorationToEx(td: Themes.TextDecoration): (r: ExTextDecoration)
    ensures r.strikethrough == td.strikethrough
    ensures r.underline.None? <==> td.underline == Themes.NoUnderline
  {
    ExTextDecoration(UnderlineStyleToEx(td.underline), td.strikethrough)
  }

  /** `From<ExTextDecoration> for themes::TextDecoration`. */
  function TextDecorationFromEx(td: ExTextDecoration): (r: Themes.TextDecoration)
    ensures r.strikethrough == td.strikethrough
    ensures r.underline == Themes.NoUnderline <==> td.underline.None?
  {
    Themes.TextDecoration(ExUnderlineStyleToTheme(td.underline), td.strikethrough)
  }

  /** The text-decoration conversions round-trip in both directions. */
  lemma TextDecorationRoundTrip(td: Themes.TextDecoration, ex: ExTextDecoration)
    ensures TextDecorationFromEx(TextDecorationToEx(td)) == td
    ensures TextDecorationToEx(TextDecorationFromEx(ex)) == ex
  {
    UnderlineStyleRoundTrip(td.underline, ex.underline);
  }

  function StyleFromEx(style: ExStyle): Themes.Style {
    Themes.Style(style.fg, style.bg, style.bold, style.italic, TextDecorationFromEx(style.textDecoration))
  }

  function AppearanceFromEx(appearance: ExAppearance): Themes.Appearance {
    match appearance
    case Light => Themes.Light
    case Dark => Themes.Dark
  }

  /** `From<ExTheme> for themes::Theme`. */
  function ThemeFromEx(ex: ExTheme): (r: Themes.Theme)
    ensures r.name == ex.name && r.revision == ex.revision
    ensures r.appearance == Themes.Light <==> ex.appearance == Light
    ensures r.highlights.Keys == ex.highlights.Keys
    ensures forall k :: k in ex.highlights ==>
              r.highlights[k].fg == ex.highlights[k].fg && r.highlights[k].bg == ex.highlights[k].bg
              && r.highlights[k].bold == ex.highlights[k].bold && r.highlights[k].italic == ex.highlights[k].italic
              && TextDecorationToEx(r.highlights[k].textDecoration) == ex.highlights[k].textDecoration
  {
    var highlights := map k | k in ex.highlights :: StyleFromEx(ex.highlights[k]);
    assert forall k :: k in ex.highlights ==>
             TextDecorationToEx(highlights[k].textDecoration) == ex.highlights[k].textDecoration by {
      forall k | k in ex.highlights {
        TextDecorationRoundTrip(Themes.TextDecoration(Themes.NoUnderline, false), ex.highlights[k].textDecoration);
      }
    }
    Themes.Theme(ex.name, AppearanceFromEx(ex.appearance), ex.revision, highlights)
  }

  /** `resolve_theme`: an inline theme is converted, a name is looked up in the registry. */
  function ResolveTheme(theme: ThemeOrString, registry: Themes.Registry): (r: Option<Themes.Theme>)
    ensures theme.InlineTheme? ==> r == Some(ThemeFromEx(theme.theme))
    ensures theme.ThemeName? ==> (r.Some? <==> theme.name in registry)
    ensures theme.ThemeName? && r.Some? ==> r.value == registry[theme.name]
  {
    match theme
    case InlineTheme(ex) => Some(ThemeFromEx(ex))
    case ThemeName(name) => Themes.Lookup(registry, name)
  }
}
