/**
 * The theme values of the Lumis highlighting library, as the adapters and the
 * Elixir-side conversions see them: a named theme with an appearance and a
 * style per highlight scope.
 */
module Themes {
  import opened Wrappers

  datatype Appearance = Light | Dark

  /** `themes::UnderlineStyle`; `NoUnderline` is the library's `None` variant. */
  datatype UnderlineStyle = NoUnderline | Solid | Wavy | Double | Dotted | Dashed

  datatype TextDecoration = TextDecoration(underline: UnderlineStyle, strikethrough: bool)

  datatype Style = Style(fg: Option<string>, bg: Option<string>, bold: bool, italic: bool, textDecoration: TextDecoration)

  datatype Theme = Theme(name: string, appearance: Appearance, revision: string, highlights: map<string, Style>)

  /** `html_inline::HighlightLinesStyle`: take the style from the theme, or use a literal CSS string. */
  datatype HighlightLinesStyle = ThemeHighlight | LiteralStyle(css: string)

  /** A theme registry: `themes::get(name)` succeeds exactly for the names it holds. */
  type Registry = map<string, Theme>

  function Lookup(registry: Registry, name: string): Option<Theme> {
    if name in registry then Some(registry[name]) else None
  }
}
