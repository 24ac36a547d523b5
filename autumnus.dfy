/**
 * The Autumnus syntax-highlighter adapter. Like the Lumis adapter it is
 * called three times per fenced code block, and remembers the decorators and
 * the language between calls. Unlike it, every call builds a formatter
 * through one of three builders (inline HTML, linked HTML, terminal), which
 * the adapter fills step by step from its formatter option, the decorators
 * and the language; the formatter built then writes the output.
 *
 * Building and running a formatter, the theme registry, language guessing
 * and the shell-style split of the info string are reached through `Host`.
 */
module Autumnus {
  import opened Wrappers
  import opened Text
  import opened Decorators
  import opened LineRanges
  import opened Themes
  import opened CodeAttributes

  /** `autumnus::languages::Language`, an opaque language value. */
  datatype Language = Language(name: string)

  datatype HtmlElement = HtmlElement(openTag: string, closeTag: string)

  /** `html_inline::HighlightLines`. */
  datatype InlineHighlightLines = InlineHighlightLines(lines: seq<LineRange>, style: Option<HighlightLinesStyle>, cssClass: Option<string>)

  /** `html_linked::HighlightLines`. */
  datatype LinkedHighlightLines = LinkedHighlightLines(lines: seq<LineRange>, cssClass: string)

  /** `autumnus::FormatterOption`. */
  datatype FormatterOption =
    | HtmlInline(theme: Option<Theme>, preClass: Option<string>, italic: bool, includeHighlights: bool,
                 inlineHighlightLines: Option<InlineHighlightLines>, header: Option<HtmlElement>)
    | HtmlLinked(preClass: Option<string>, linkedHighlightLines: Option<LinkedHighlightLines>, header: Option<HtmlElement>)
    | Terminal(theme: Option<Theme>)

  /** The settings an `HtmlInlineBuilder` has received. */
  datatype InlineBuilder = InlineBuilder(
    theme: Option<Theme>, preClass: Option<string>, italic: bool, includeHighlights: bool,
    highlightLines: Option<InlineHighlightLines>, header: Option<HtmlElement>,
    lang: Option<Language>, source: Option<string>)

  /** The settings an `HtmlLinkedBuilder` has received. */
  datatype LinkedBuilder = LinkedBuilder(
    preClass: Option<string>, highlightLines: Option<LinkedHighlightLines>, header: Option<HtmlElement>,
    lang: Option<Language>, source: Option<string>)

  /** The settings a `TerminalBuilder` has received. */
  datatype TerminalBuilder = TerminalBuilder(theme: Option<Theme>, lang: Option<Language>, source: Option<string>)

  const DEFAULT_INLINE_BUILDER: InlineBuilder := InlineBuilder(None, None, false, false, None, None, None, None)
  const DEFAULT_LINKED_BUILDER: LinkedBuilder := LinkedBuilder(None, None, None, None, None)
  const DEFAULT_TERMINAL_BUILDER: TerminalBuilder := TerminalBuilder(None, None, None)

  /**
   * What the adapter asks of the Autumnus library. The `inline*`, `linked*`
   * and `terminal*` functions build a formatter from the builder's settings
   * and write the opening `<pre>`, the opening `<code>` or the highlighted
   * code with it; `None` is a build or write failure.
   */
  datatype Host = Host(
    split: string -> Option<seq<string>>,
    guess: (string, string) -> Language,
    registry: Registry,
    /** The class of `html_linked::HighlightLines::default()`. */
    linkedDefaultClass: string,
    inlinePreTag: InlineBuilder -> Option<string>,
    inlineCodeTag: InlineBuilder -> Option<string>,
    inlineHighlights: InlineBuilder -> Option<string>,
    linkedPreTag: LinkedBuilder -> Option<string>,
    linkedCodeTag: LinkedBuilder -> Option<string>,
    linkedHighlights: LinkedBuilder -> Option<string>,
    terminalHighlights: TerminalBuilder -> Option<string>)

  // ---------------------------------------------------------------------------
  // Decorators

  /** `resolve_theme`: no `theme` decorator is `Ok(None)`, an unknown name an error. */
  function ResolveTheme(attrs: Attrs, registry: Registry): (r: Result<Option<Theme>, string>)
    ensures "theme" !in attrs ==> r == Ok(None)
    ensures "theme" in attrs && attrs["theme"] !in registry ==> r == Err("Invalid theme: " + attrs["theme"])
    ensures "theme" in attrs && attrs["theme"] in registry ==> r == Ok(Some(registry[attrs["theme"]]))
  {
    if "theme" !in attrs then Ok(None)
    else if attrs["theme"] in registry then Ok(Some(registry[attrs["theme"]]))
    else Err("Invalid theme: " + attrs["theme"])
  }

  /** `custom_attrs.and_then(|attrs| resolve_theme(attrs).ok().flatten())`: an error is dropped. */
  function CustomTheme(attrs: Option<Attrs>, registry: Registry): Option<Theme> {
    if attrs.None? then None
    else match ResolveTheme(attrs.value, registry)
         case Ok(theme) => theme
         case Err(_) => None
  }

  /** An unknown theme decorator is ignored rather than reported. */
  lemma UnknownThemeIgnored(attrs: Attrs, registry: Registry)
    requires "theme" in attrs && attrs["theme"] !in registry
    ensures ResolveTheme(attrs, registry).Err?
    ensures CustomTheme(Some(attrs), registry).None?
  {
  }

  /** The inline highlighting a `highlight_lines` decorator asks for. */
  function DecoratorInlineLines(attrs: Attrs): InlineHighlightLines
    requires "highlight_lines" in attrs
  {
    var style :=
      if "highlight_lines_style" in attrs && attrs["highlight_lines_style"] != "theme"
      then LiteralStyle(attrs["highlight_lines_style"]) else ThemeHighlight;
    var cssClass := if "highlight_lines_class" in attrs then Some(attrs["highlight_lines_class"]) else None;
    InlineHighlightLines(HighlightRanges(attrs["highlight_lines"]), Some(style), cssClass)
  }

  /** The linked highlighting a `highlight_lines` decorator asks for. */
  function DecoratorLinkedLines(attrs: Attrs, defaultClass: string): LinkedHighlightLines
    requires "highlight_lines" in attrs
  {
    var cssClass := if "highlight_lines_class" in attrs then attrs["highlight_lines_class"] else defaultClass;
    LinkedHighlightLines(HighlightRanges(attrs["highlight_lines"]), cssClass)
  }

  // ---------------------------------------------------------------------------
  // Builders

  /** The settings the inline formatter option gives an empty builder. */
  function InlineBase(config: FormatterOption, customTheme: Option<Theme>): InlineBuilder {
    if config.HtmlInline? then
      InlineBuilder(customTheme.Or(config.theme), config.preClass, config.italic,
                    config.includeHighlights, config.inlineHighlightLines, config.header, None, None)
    else DEFAULT_INLINE_BUILDER
  }

  /** The decorators applied over an inline builder. */
  function WithInlineDecorators(builder: InlineBuilder, attrs: Option<Attrs>): InlineBuilder {
    var preClass := if attrs.Some? && "pre_class" in attrs.value then Some(attrs.value["pre_class"]) else builder.preClass;
    var includeHighlights :=
      builder.includeHighlights || (attrs.Some? && "include_highlights" in attrs.value && attrs.value["include_highlights"] == "true");
    var highlightLines :=
      if attrs.Some? && "highlight_lines" in attrs.value then Some(DecoratorInlineLines(attrs.value)) else builder.highlightLines;
    builder.(preClass := preClass, includeHighlights := includeHighlights, highlightLines := highlightLines)
  }

  /** The settings `configure_html_inline_builder` gives, field by field. */
  function InlineBuilderOf(config: FormatterOption, lang: Option<Language>, source: Option<string>,
                           attrs: Option<Attrs>, registry: Registry): InlineBuilder
  {
    WithInlineDecorators(InlineBase(config, CustomTheme(attrs, registry)), attrs).(lang := lang, source := source)
  }

  /** `configure_html_inline_builder`: the formatter's options, then the decorators, then language and source. */
  method ConfigureHtmlInlineBuilder(config: FormatterOption, lang: Option<Language>, source: Option<string>,
                                    attrs: Option<Attrs>, registry: Registry) returns (builder: InlineBuilder)
    ensures builder == InlineBuilderOf(config, lang, source, attrs, registry)
  {
    var customTheme := CustomTheme(attrs, registry);
    builder := ApplyInlineOption(config, customTheme);
    builder := ApplyInlineDecorators(builder, attrs);
    if lang.Some? {
      builder := builder.(lang := lang);
    }
    if source.Some? {
      builder := builder.(source := source);
    }
  }

  /** The formatter-option half of `configure_html_inline_builder`. */
  method ApplyInlineOption(config: FormatterOption, customTheme: Option<Theme>) returns (builder: InlineBuilder)
    ensures builder == InlineBase(config, customTheme)
  {
    builder := DEFAULT_INLINE_BUILDER;
    if config.HtmlInline? {
      builder := builder.(italic := config.italic);
      builder := builder.(includeHighlights := config.includeHighlights);
      var theme := customTheme.Or(config.theme);
      if theme.Some? {
        builder := builder.(theme := theme);
      }
      if config.preClass.Some? {
        builder := builder.(preClass := config.preClass);
      }
      if config.inlineHighlightLines.Some? {
        builder := builder.(highlightLines := config.inlineHighlightLines);
      }
      if config.header.Some? {
        builder := builder.(header := config.header);
      }
    }
  }

  /** The decorator half of `configure_html_inline_builder`. */
  method ApplyInlineDecorators(builder0: InlineBuilder, attrs: Option<Attrs>) returns (builder: InlineBuilder)
    ensures builder == WithInlineDecorators(builder0, attrs)
  {
    builder := builder0;
    if attrs.Some? {
      var a := attrs.value;
      if "pre_class" in a {
        builder := builder.(preClass := Some(a["pre_class"]));
      }
      if "include_highlights" in a && a["include_highlights"] == "true" {
        builder := builder.(includeHighlights := true);
      }
      if "highlight_lines" in a {
        var lines := HighlightRanges(a["highlight_lines"]);
        var style :=
          if "highlight_lines_style" in a && a["highlight_lines_style"] != "theme"
          then LiteralStyle(a["highlight_lines_style"]) else ThemeHighlight;
        var cssClass := if "highlight_lines_class" in a then Some(a["highlight_lines_class"]) else None;
        builder := builder.(highlightLines := Some(InlineHighlightLines(lines, Some(style), cssClass)));
      }
    }
  }

  /** The settings `configure_html_linked_builder` gives, field by field. */
  function LinkedBuilderOf(config: FormatterOption, lang: Option<Language>, source: Option<string>,
                           attrs: Option<Attrs>, defaultClass: string): LinkedBuilder
  {
    var base :=
      if config.HtmlLinked? then LinkedBuilder(config.preClass, config.linkedHighlightLines, config.header, None, None)
      else DEFAULT_LINKED_BUILDER;
    var preClass := if attrs.Some? && "pre_class" in attrs.value then Some(attrs.value["pre_class"]) else base.preClass;
    var highlightLines :=
      if attrs.Some? && "highlight_lines" in attrs.value then Some(DecoratorLinkedLines(attrs.value, defaultClass))
      else base.highlightLines;
    base.(preClass := preClass, highlightLines := highlightLines, lang := lang, source := source)
  }

  /** `configure_html_linked_builder`. */
  method ConfigureHtmlLinkedBuilder(config: FormatterOption, lang: Option<Language>, source: Option<string>,
                                    attrs: Option<Attrs>, defaultClass: string) returns (builder: LinkedBuilder)
    ensures builder == LinkedBuilderOf(config, lang, source, attrs, defaultClass)
  {
    builder := DEFAULT_LINKED_BUILDER;
    if config.HtmlLinked? {
      if config.preClass.Some? {
        builder := builder.(preClass := config.preClass);
      }
      if config.linkedHighlightLines.Some? {
        builder := builder.(highlightLines := config.linkedHighlightLines);
      }
      if config.header.Some? {
        builder := builder.(header := config.header);
      }
    }
    if attrs.Some? {
      var a := attrs.value;
      if "pre_class" in a {
        builder := builder.(preClass := Some(a["pre_class"]));
      }
      if "highlight_lines" in a {
        var highlightLines := LinkedHighlightLines(HighlightRanges(a["highlight_lines"]), defaultClass);
        if "highlight_lines_class" in a {
          highlightLines := highlightLines.(cssClass := a["highlight_lines_class"]);
        }
        builder := builder.(highlightLines := Some(highlightLines));
      }
    }
    if lang.Some? {
      builder := builder.(lang := lang);
    }
    if source.Some? {
      builder := builder.(source := source);
    }
  }

  /** The settings `configure_terminal_builder` gives. */
  function TerminalBuilderOf(config: FormatterOption, lang: Option<Language>, source: Option<string>,
                             attrs: Option<Attrs>, registry: Registry): TerminalBuilder
  {
    var theme := if config.Terminal? then CustomTheme(attrs, registry).Or(config.theme) else None;
    TerminalBuilder(theme, lang, source)
  }

  /** `configure_terminal_builder`: only the theme, language and source. */
  method ConfigureTerminalBuilder(config: FormatterOption, lang: Option<Language>, source: Option<string>,
                                  attrs: Option<Attrs>, registry: Registry) returns (builder: TerminalBuilder)
    ensures builder == TerminalBuilderOf(config, lang, source, attrs, registry)
  {
    builder := DEFAULT_TERMINAL_BUILDER;
    var customTheme := CustomTheme(attrs, registry);
    if config.Terminal? {
      var theme := customTheme.Or(config.theme);
      if theme.Some? {
        builder := builder.(theme := theme);
      }
    }
    if lang.Some? {
      builder := builder.(lang := lang);
    }
    if source.Some? {
      builder := builder.(source := source);
    }
  }

  /**
   * Theme precedence in the inline and terminal builders: a decorator theme
   * the registry knows wins; an absent or unknown one leaves the formatter's.
   */
  lemma ThemePrecedence(config: FormatterOption, lang: Option<Language>, source: Option<string>,
                        attrs: Option<Attrs>, registry: Registry)
    requires config.HtmlInline? || config.Terminal?
    ensures var chosen := if config.HtmlInline? then InlineBuilderOf(config, lang, source, attrs, registry).theme
                          else TerminalBuilderOf(config, lang, source, attrs, registry).theme;
            if attrs.Some? && "theme" in attrs.value && attrs.value["theme"] in registry
            then chosen == Some(registry[attrs.value["theme"]])
            else chosen == config.theme
  {
  }

  /**
   * Inline builder precedence: a `pre_class` decorator overrides the
   * formatter's; `include_highlights` can only be switched on, and only by
   * the exact value `"true"`; everything else comes from the formatter.
   */
  lemma InlinePrecedence(config: FormatterOption, lang: Option<Language>, source: Option<string>,
                         attrs: Option<Attrs>, registry: Registry)
    requires config.HtmlInline?
    ensures var b := InlineBuilderOf(config, lang, source, attrs, registry);
            && b.preClass == (if attrs.Some? && "pre_class" in attrs.value then Some(attrs.value["pre_class"]) else config.preClass)
            && (config.includeHighlights ==> b.includeHighlights)
            && (b.includeHighlights && !config.includeHighlights ==>
                  attrs.Some? && "include_highlights" in attrs.value && attrs.value["include_highlights"] == "true")
            && b.italic == config.italic && b.header == config.header
            && b.lang == lang && b.source == source
  {
  }

  /**
   * A `highlight_lines` decorator replaces the formatter's highlighted lines;
   * its style is the theme's unless `highlight_lines_style` names another.
   */
  lemma InlineDecoratorLines(config: FormatterOption, lang: Option<Language>, source: Option<string>,
                             attrs: Attrs, registry: Registry)
    requires "highlight_lines" in attrs
    ensures var hl := InlineBuilderOf(config, lang, source, Some(attrs), registry).highlightLines;
            && hl.Some? && hl.value.lines == HighlightRanges(attrs["highlight_lines"])
            && (("highlight_lines_style" !in attrs || attrs["highlight_lines_style"] == "theme") ==>
                  hl.value.style == Some(ThemeHighlight))
            && ("highlight_lines_style" in attrs && attrs["highlight_lines_style"] != "theme" ==>
                  hl.value.style == Some(LiteralStyle(attrs["highlight_lines_style"])))
            && hl.value.cssClass == (if "highlight_lines_class" in attrs then Some(attrs["highlight_lines_class"]) else None)
  {
  }

  /** Without a `highlight_lines` decorator, the formatter's inline highlighting is kept as given. */
  lemma InlineFormatterLines(config: FormatterOption, lang: Option<Language>, source: Option<string>,
                             attrs: Option<Attrs>, registry: Registry)
    requires config.HtmlInline?
    requires !(attrs.Some? && "highlight_lines" in attrs.value)
    ensures InlineBuilderOf(config, lang, source, attrs, registry).highlightLines == config.inlineHighlightLines
  {
  }

  /**
   * Linked builder: a `highlight_lines` decorator replaces the formatter's
   * lines and uses the default class unless `highlight_lines_class` is given.
   */
  lemma LinkedDecoratorLines(config: FormatterOption, lang: Option<Language>, source: Option<string>,
                             attrs: Attrs, defaultClass: string)
    requires "highlight_lines" in attrs
    ensures var hl := LinkedBuilderOf(config, lang, source, Some(attrs), defaultClass).highlightLines;
            && hl.Some? && hl.value.lines == HighlightRanges(attrs["highlight_lines"])
            && hl.value.cssClass == (if "highlight_lines_class" in attrs then attrs["highlight_lines_class"] else defaultClass)
  {
  }

  // ---------------------------------------------------------------------------
  // Outputs of the three phases

  /** `write_pre_tag`'s output, built from THIS call's decorators and `lang`; nothing for the terminal. */
  function PreTagOutput(config: FormatterOption, host: Host, attrs: Option<Attrs>, lang: Option<Language>): (r: Option<string>)
    ensures config.Terminal? ==> r == Some("")
  {
    match config
    case HtmlInline(_, _, _, _, _, _) => host.inlinePreTag(InlineBuilderOf(config, lang, None, attrs, host.registry))
    case HtmlLinked(_, _, _) => host.linkedPreTag(LinkedBuilderOf(config, lang, None, attrs, host.linkedDefaultClass))
    case Terminal(_) => Some("")
  }

  /** `write_code_tag`'s output, built from the stored decorators and language; nothing for the terminal. */
  function CodeTagOutput(config: FormatterOption, host: Host, attrs: Option<Attrs>, lang: Language): (r: Option<string>)
    ensures config.Terminal? ==> r == Some("")
  {
    match config
    case HtmlInline(_, _, _, _, _, _) => host.inlineCodeTag(InlineBuilderOf(config, Some(lang), None, attrs, host.registry))
    case HtmlLinked(_, _, _) => host.linkedCodeTag(LinkedBuilderOf(config, Some(lang), None, attrs, host.linkedDefaultClass))
    case Terminal(_) => Some("")
  }

  /** `write_highlighted`'s output: the builder of the formatter's kind, given the language and the source. */
  function HighlightedOutput(config: FormatterOption, host: Host, attrs: Option<Attrs>, lang: Language, source: string): Option<string> {
    match config
    case HtmlInline(_, _, _, _, _, _) =>
      host.inlineHighlights(InlineBuilderOf(config, Some(lang), Some(source), attrs, host.registry))
    case HtmlLinked(_, _, _) =>
      host.linkedHighlights(LinkedBuilderOf(config, Some(lang), Some(source), attrs, host.linkedDefaultClass))
    case Terminal(_) =>
      host.terminalHighlights(TerminalBuilderOf(config, Some(lang), Some(source), attrs, host.registry))
  }

  class AutumnusAdapter {
    const formatter: FormatterOption
    const host: Host
    var storedAttrs: Option<Attrs>
    var storedLang: Option<Language>

    constructor (formatter: FormatterOption, host: Host)
      ensures this.formatter == formatter && this.host == host
      ensures storedAttrs.None? && storedLang.None?
    {
      this.formatter := formatter;
      this.host := host;
      storedAttrs := None;
      storedLang := None;
    }

    /** `AutumnusAdapter::default()`: inline HTML with every option off. */
    constructor Default(host: Host)
      ensures formatter == HtmlInline(None, None, false, false, None, None) && this.host == host
      ensures storedAttrs.None? && storedLang.None?
    {
      formatter := HtmlInline(None, None, false, false, None, None);
      this.host := host;
      storedAttrs := None;
      storedLang := None;
    }

    /**
     * `write_pre_tag`: stores the decorators only when `data-meta` parses and
     * the language only when `lang` is given.
     */
    method WritePreTag(attributes: map<string, string>) returns (out: Option<string>)
      modifies this
      ensures storedAttrs == (if CustomAttrs(attributes, host.split).Some? then CustomAttrs(attributes, host.split)
                              else old(storedAttrs))
      ensures storedLang == (if "lang" in attributes then Some(host.guess(attributes["lang"], "")) else old(storedLang))
      ensures out == PreTagOutput(formatter, host, CustomAttrs(attributes, host.split),
                                  if "lang" in attributes then Some(host.guess(attributes["lang"], "")) else None)
    {
      var customAttrs := None;
      if "data-meta" in attributes {
        customAttrs := ParseCustomAttributes(host.split(attributes["data-meta"]));
      }
      var lang := None;
      if "lang" in attributes {
        lang := Some(host.guess(attributes["lang"], ""));
      }
      if customAttrs.Some? {
        storedAttrs := customAttrs;
      }
      if lang.Some? {
        storedLang := lang;
      }
      match formatter {
        case HtmlInline(_, _, _, _, _, _) =>
          var builder := ConfigureHtmlInlineBuilder(formatter, lang, None, customAttrs, host.registry);
          out := host.inlinePreTag(builder);
        case HtmlLinked(_, _, _) =>
          var builder := ConfigureHtmlLinkedBuilder(formatter, lang, None, customAttrs, host.linkedDefaultClass);
          out := host.linkedPreTag(builder);
        case Terminal(_) =>
          out := Some("");
      }
    }

    /**
     * `write_code_tag`: stores the decorators when `data-meta` parses and
     * REPLACES the stored language whenever any attribute was passed.
     */
    method WriteCodeTag(attributes: map<string, string>) returns (out: Option<string>)
      modifies this
      ensures storedAttrs == (if CustomAttrs(attributes, host.split).Some? then CustomAttrs(attributes, host.split)
                              else old(storedAttrs))
      ensures storedLang == (if |attributes| > 0 then Some(LanguageFromAttrs(attributes, host.guess)) else old(storedLang))
      ensures out == CodeTagOutput(formatter, host, storedAttrs, storedLang.GetOr(LanguageFromAttrs(attributes, host.guess)))
    {
      var customAttrs := None;
      if "data-meta" in attributes {
        customAttrs := ParseCustomAttributes(host.split(attributes["data-meta"]));
      }
      var lang := LanguageFromAttrs(attributes, host.guess);
      if customAttrs.Some? {
        storedAttrs := customAttrs;
      }
      if |attributes| > 0 {
        storedLang := Some(lang);
      }
      var effectiveLang := storedLang.Or(Some(lang));
      match formatter {
        case HtmlInline(_, _, _, _, _, _) =>
          var builder := ConfigureHtmlInlineBuilder(formatter, effectiveLang, None, storedAttrs, host.registry);
          out := host.inlineCodeTag(builder);
        case HtmlLinked(_, _, _) =>
          var builder := ConfigureHtmlLinkedBuilder(formatter, effectiveLang, None, storedAttrs, host.linkedDefaultClass);
          out := host.linkedCodeTag(builder);
        case Terminal(_) =>
          out := Some("");
      }
    }

    /** `write_highlighted`: reads the stored state and leaves it unchanged. */
    method WriteHighlighted(hint: Option<string>, source: string) returns (out: Option<string>)
      ensures out == HighlightedOutput(formatter, host, storedAttrs, EffectiveLanguage(storedLang, hint, source, host.guess), source)
    {
      var language;
      if storedLang.Some? {
        language := storedLang.value;
      } else if hint.Some? {
        language := host.guess(hint.value, source);
      } else {
        language := host.guess("plaintext", source);
      }
      match formatter {
        case HtmlInline(_, _, _, _, _, _) =>
          var builder := ConfigureHtmlInlineBuilder(formatter, Some(language), Some(source), storedAttrs, host.registry);
          out := host.inlineHighlights(builder);
        case HtmlLinked(_, _, _) =>
          var builder := ConfigureHtmlLinkedBuilder(formatter, Some(language), Some(source), storedAttrs, host.linkedDefaultClass);
          out := host.linkedHighlights(builder);
        case Terminal(_) =>
          var builder := ConfigureTerminalBuilder(formatter, Some(language), Some(source), storedAttrs, host.registry);
          out := host.terminalHighlights(builder);
      }
    }
  }

  /**
   * One code block through a fresh adapter: the `<pre>` tag, the `<code>`
   * tag, then the highlighted code. The code uses the decorators of the last
   * `data-meta` that parsed and, when the code tag had any attribute, the
   * language of those attributes whatever the hint; otherwise the `<pre>`
   * tag's `lang`, then the hint, then plain text.
   */
  method HighlightCodeBlock(formatter: FormatterOption, host: Host, preAttributes: map<string, string>,
                            codeAttributes: map<string, string>, hint: Option<string>, source: string)
    returns (out: Option<string>)
    ensures out == HighlightedOutput(
                     formatter, host,
                     if CustomAttrs(codeAttributes, host.split).Some? then CustomAttrs(codeAttributes, host.split)
                     else CustomAttrs(preAttributes, host.split),
                     if |codeAttributes| > 0 then LanguageFromAttrs(codeAttributes, host.guess)
                     else EffectiveLanguage(if "lang" in preAttributes then Some(host.guess(preAttributes["lang"], "")) else None,
                                            hint, source, host.guess),
                     source)
  {
    var adapter := new AutumnusAdapter(formatter, host);
    var _ := adapter.WritePreTag(preAttributes);
    var _ := adapter.WriteCodeTag(codeAttributes);
    out := adapter.WriteHighlighted(hint, source);
  }
}
