/**
 * The Lumis syntax-highlighter adapter. The Markdown renderer calls it three
 * times per fenced code block: `WritePreTag`, then `WriteCodeTag`, then
 * `WriteHighlighted`. The first two remember the fence's decorators and
 * language in `storedAttrs`/`storedLang`; the third highlights the code and
 * wraps every output line in a numbered `<div>`.
 *
 * The highlighting library itself (language guessing, the theme registry,
 * the tokenizer and the span renderers) is reached through a `Host` record
 * of functions.
 */
module Lumis {
  import opened Wrappers
  import opened Text
  import opened Decorators
  import opened LineRanges
  import opened Themes
  import opened ElixirTypes
  import opened CodeAttributes

  /** `lumis::languages::Language`: plain text, or some other language the library knows. */
  datatype Language = PlainText | Named(id: string)

  /**
   * One callback of `highlight_iter`: the highlighted text, the byte range it
   * covers in the source, and its scope name.
   */
  datatype Token = Token(text: string, start: nat, end: nat, scope: string)

  /** The adapter's `MultiThemesConfig`. */
  datatype MultiThemesConfig = MultiThemesConfig(
    themes: map<string, Theme>, defaultTheme: Option<string>, cssVariablePrefix: string,
    italic: bool, includeHighlights: bool)

  /** What the adapter asks of the highlighting library and the tokenizer of info strings. */
  datatype Host = Host(
    /** `shlex::split`; `None` when the quoting is unbalanced. */
    split: string -> Option<seq<string>>,
    /** `Language::guess(Some(hint), source)`. */
    guess: (string, string) -> Language,
    /** `themes::get`. */
    registry: Registry,
    /** `theme.get_style("highlighted").map(|s| s.css(true, " "))`. */
    highlightedCss: Theme -> Option<string>,
    /** `html::open_pre_tag(pre_class, theme)`. */
    openPreTag: (Option<string>, Option<Theme>) -> string,
    /** `html::open_code_tag(language)`. */
    openCodeTag: Language -> string,
    /** `highlight_iter(source, language, theme)`: the callbacks in order, or `None` on error. */
    highlight: (string, Language, Option<Theme>) -> Option<seq<Token>>,
    /** `html::span_linked(text, scope)`. */
    spanLinked: (string, string) -> string,
    /** `html::span_inline(text, scope, Some(language), theme, italic, include_highlights)`. */
    spanInline: (string, string, Language, Option<Theme>, bool, bool) -> string,
    /** `html::span_multi_themes(text, scope, Some(language), ...)` with the adapter's config. */
    spanMultiThemes: (string, string, Language, MultiThemesConfig) -> string)

  /** The tokenizer reports ranges that start inside the source it was given. */
  ghost predicate TokensInSource(host: Host) {
    forall source, language, theme ::
      host.highlight(source, language, theme).Some? ==>
        forall t :: t in host.highlight(source, language, theme).value ==> t.start <= |source|
  }

  /** The line highlighting `WriteHighlighted` applies: lines, their style and their extra class. */
  datatype HighlightConfig = HighlightConfig(lines: seq<nat>, style: Option<string>, cssClass: Option<string>)

  // ---------------------------------------------------------------------------
  // Formatter options

  /** `theme_from_formatter`: only the inline and terminal formatters carry a theme. */
  function ThemeFromFormatter(config: ExFormatterOption, registry: Registry): (r: Option<Theme>)
    ensures r.Some? ==> (config.HtmlInline? || config.Terminal?) && config.theme.Some?
    ensures (config.HtmlInline? || config.Terminal?) && config.theme.Some? ==>
              r == ResolveTheme(config.theme.value, registry)
  {
    if (config.HtmlInline? || config.Terminal?) && config.theme.Some? then ResolveTheme(config.theme.value, registry)
    else None
  }

  /** `multi_themes_config`: inline themes converted, CSS prefix defaulting to `--lumis`. */
  function MultiThemesConfigOf(config: ExFormatterOption): (r: Option<MultiThemesConfig>)
    ensures r.Some? <==> config.HtmlMultiThemes?
    ensures r.Some? ==> r.value.themes.Keys == config.themes.Keys
                        && r.value.cssVariablePrefix == config.cssVariablePrefix.GetOr("--lumis")
                        && r.value.italic == config.italic && r.value.includeHighlights == config.includeHighlights
    ensures r.Some? ==> r.value.defaultTheme == config.defaultTheme
    ensures r.Some? ==> forall k :: k in config.themes ==> r.value.themes[k] == ThemeFromEx(config.themes[k])
  {
    if config.HtmlMultiThemes? then
      var themes := map k | k in config.themes :: ThemeFromEx(config.themes[k]);
      Some(MultiThemesConfig(themes, config.defaultTheme, config.cssVariablePrefix.GetOr("--lumis"),
                             config.italic, config.includeHighlights))
    else None
  }

  /** `pre_class`: every formatter but the terminal one may name a `<pre>` class. */
  function PreClass(config: ExFormatterOption): (r: Option<string>)
    ensures config.Terminal? ==> r.None?
    ensures !config.Terminal? ==> r == config.preClass
  {
    if config.Terminal? then None else config.preClass
  }

  /** `italic_enabled`. */
  function ItalicEnabled(config: ExFormatterOption): (r: bool)
    ensures r <==> (config.HtmlInline? || config.HtmlMultiThemes?) && config.italic
  {
    match config
    case HtmlInline(_, _, italic, _, _, _) => italic
    case HtmlMultiThemes(_, _, _, _, italic, _, _, _) => italic
    case _ => false
  }

  /**
   * `should_include_highlights`: an `include_highlights` decorator with ANY
   * value turns it on; otherwise the formatter flag decides.
   */
  function ShouldIncludeHighlights(attrs: Option<Attrs>, config: ExFormatterOption): (r: bool)
    ensures r <==> (attrs.Some? && "include_highlights" in attrs.value)
                   || ((config.HtmlInline? || config.HtmlMultiThemes?) && config.includeHighlights)
  {
    if attrs.Some? && "include_highlights" in attrs.value then true
    else
      match config
      case HtmlInline(_, _, _, inc, _, _) => inc
      case HtmlMultiThemes(_, _, _, _, _, inc, _, _) => inc
      case _ => false
  }

  /** `decorator_theme`: the `theme` decorator, when the registry knows it. */
  function DecoratorTheme(attrs: Option<Attrs>, registry: Registry): (r: Option<Theme>)
    ensures r.Some? <==> attrs.Some? && "theme" in attrs.value && attrs.value["theme"] in registry
    ensures r.Some? ==> r.value == registry[attrs.value["theme"]]
  {
    if attrs.Some? && "theme" in attrs.value then Lookup(registry, attrs.value["theme"]) else None
  }

  /** `decorator_pre_class`. */
  function DecoratorPreClass(attrs: Option<Attrs>): (r: Option<string>)
    ensures r.Some? <==> attrs.Some? && "pre_class" in attrs.value
    ensures r.Some? ==> r.value == attrs.value["pre_class"]
  {
    if attrs.Some? && "pre_class" in attrs.value then Some(attrs.value["pre_class"]) else None
  }

  /** The theme the three phases use: the decorator's, else the formatter's. */
  function EffectiveTheme(attrs: Option<Attrs>, config: ExFormatterOption, registry: Registry): Option<Theme> {
    DecoratorTheme(attrs, registry).Or(ThemeFromFormatter(config, registry))
  }

  /** The `<pre>` class: the decorator's, else the formatter's. */
  function EffectivePreClass(attrs: Option<Attrs>, config: ExFormatterOption): Option<string> {
    DecoratorPreClass(attrs).Or(PreClass(config))
  }

  /**
   * Theme precedence: a decorator theme the registry knows wins; an unknown or
   * absent one falls back to the formatter's theme, which only the inline and
   * terminal formatters have.
   */
  lemma ThemePrecedence(attrs: Option<Attrs>, config: ExFormatterOption, registry: Registry)
    ensures attrs.Some? && "theme" in attrs.value && attrs.value["theme"] in registry ==>
              EffectiveTheme(attrs, config, registry) == Some(registry[attrs.value["theme"]])
    ensures !(attrs.Some? && "theme" in attrs.value && attrs.value["theme"] in registry) ==>
              EffectiveTheme(attrs, config, registry) == ThemeFromFormatter(config, registry)
    ensures (config.HtmlLinked? || config.HtmlMultiThemes?) && EffectiveTheme(attrs, config, registry).Some? ==>
              attrs.Some? && "theme" in attrs.value
  {
  }

  /** `pre_class` precedence: the decorator's class overrides the formatter's. */
  lemma PreClassPrecedence(attrs: Option<Attrs>, config: ExFormatterOption)
    ensures attrs.Some? && "pre_class" in attrs.value ==>
              EffectivePreClass(attrs, config) == Some(attrs.value["pre_class"])
    ensures !(attrs.Some? && "pre_class" in attrs.value) ==>
              EffectivePreClass(attrs, config) == (if config.Terminal? then None else config.preClass)
  {
  }

  // ---------------------------------------------------------------------------
  // Highlighted lines

  /** The lines a list of Elixir line specs selects, spec by spec. */
  function LinesOfSpecs(specs: seq<ExLineSpec>): seq<nat>
    decreases |specs|
  {
    if |specs| == 0 then []
    else
      var last := specs[|specs| - 1];
      LinesOfSpecs(specs[..|specs| - 1]) + (match last case Single(n) => [n] case Range(s, e) => Interval(s, e))
  }

  /** The adapter's `convert_line_specs`. */
  method ConvertLineSpecs(specs: seq<ExLineSpec>) returns (result: seq<nat>)
    ensures result == LinesOfSpecs(specs)
  {
    result := [];
    var i := 0;
    while i < |specs|
      invariant 0 <= i <= |specs|
      invariant result == LinesOfSpecs(specs[..i])
    {
      assert specs[..i + 1][..i] == specs[..i];
      match specs[i] {
        case Single(n) =>
          result := result + [n];
        case Range(start, end) =>
          result := PushInterval(result, start, end);
      }
      i := i + 1;
    }
    assert specs[..i] == specs;
  }

  /**
   * Expanding the line specs directly selects the same lines as converting
   * them to inclusive ranges first, as the Elixir-side conversion does.
   */
  lemma {:induction false} LinesOfSpecsAgree(specs: seq<ExLineSpec>)
    ensures LinesOfSpecs(specs) == ExpandAll(ElixirTypes.ConvertLineSpecs(specs))
    decreases |specs|
  {
    if |specs| > 0 {
      var init := specs[..|specs| - 1];
      LinesOfSpecsAgree(init);
      var ranges := ElixirTypes.ConvertLineSpecs(specs);
      assert ranges[..|specs| - 1] == ElixirTypes.ConvertLineSpecs(init);
    }
  }

  /** A theme counts as light by its appearance or by `light` in its lower-cased name. */
  predicate IsLight(theme: Theme) {
    theme.appearance == Themes.Light || Contains(ToLower(theme.name), "light")
  }

  /** The background used for highlighted lines when the theme gives no style. */
  function FallbackStyle(light: bool): string {
    "background-color: " + (if light then "#e7eaf0" else "#3b4252") + ";"
  }

  /**
   * The line highlighting asked for by a `highlight_lines` decorator, with the
   * `highlight_lines_class` and `highlight_lines_style` decorators beside it.
   */
  function DecoratorHighlightConfig(attrs: Attrs, config: ExFormatterOption, theme: Option<Theme>,
                                    css: Theme -> Option<string>): HighlightConfig
    requires "highlight_lines" in attrs
  {
    var isLinked := config.HtmlLinked?;
    var cssClass :=
      if "highlight_lines_class" in attrs then Some(attrs["highlight_lines_class"])
      else if isLinked then Some("highlighted") else None;
    var requested :=
      if "highlight_lines_style" !in attrs then None
      else if attrs["highlight_lines_style"] == "theme" then (if theme.Some? then css(theme.value) else None)
      else Some(attrs["highlight_lines_style"]);
    var style :=
      if requested.Some? then requested
      else if isLinked || theme.None? then None
      else Some(FallbackStyle(IsLight(theme.value)));
    HighlightConfig(HighlightLines(attrs["highlight_lines"]), style, cssClass)
  }

  /** `formatter_highlight_lines_config`: the formatter's own `highlight_lines` option. */
  function FormatterHighlightLinesConfig(config: ExFormatterOption, theme: Option<Theme>,
                                         css: Theme -> Option<string>): (r: Option<HighlightConfig>)
    ensures r.Some? <==> match config
                         case HtmlInline(_, _, _, _, hl, _) => hl.Some?
                         case HtmlMultiThemes(_, _, _, _, _, _, hl, _) => hl.Some?
                         case HtmlLinked(_, hl, _) => hl.Some?
                         case Terminal(_) => false
    ensures config.HtmlLinked? && r.Some? ==>
              r.value == HighlightConfig(LinesOfSpecs(config.linkedHighlightLines.value.lines), None,
                                         Some(config.linkedHighlightLines.value.cssClass))
    ensures (config.HtmlInline? || config.HtmlMultiThemes?) && r.Some? ==>
              r.value.lines == LinesOfSpecs(config.highlightLines.value.lines)
              && r.value.cssClass == config.highlightLines.value.cssClass
              && (r.value.style.None? <==> config.highlightLines.value.style.None?)
  {
    match config
    case HtmlInline(_, _, _, _, Some(hl), _) => Some(InlineHighlightConfig(hl, theme, css))
    case HtmlMultiThemes(_, _, _, _, _, _, Some(hl), _) => Some(InlineHighlightConfig(hl, theme, css))
    case HtmlLinked(_, Some(hl), _) => Some(HighlightConfig(LinesOfSpecs(hl.lines), None, Some(hl.cssClass)))
    case _ => None
  }

  function InlineHighlightConfig(hl: ExHtmlInlineHighlightLines, theme: Option<Theme>,
                                 css: Theme -> Option<string>): HighlightConfig
  {
    var style :=
      match hl.style
      case None => None
      case Some(ThemeStyle) =>
        (if theme.Some? && css(theme.value).Some? then css(theme.value)
         else Some(FallbackStyle(theme.Some? && IsLight(theme.value))))
      case Some(CustomStyle(s)) => Some(s);
    HighlightConfig(LinesOfSpecs(hl.lines), style, hl.cssClass)
  }

  /**
   * The formatter's `Theme` style: the theme's `highlighted` css when there
   * is one, otherwise the fallback background, light only for a light
   * theme, so the dark one when there is no theme at all.
   */
  lemma FormatterFallbackStyle(config: ExFormatterOption, theme: Option<Theme>, css: Theme -> Option<string>)
    requires config.HtmlInline? || config.HtmlMultiThemes?
    requires config.highlightLines.Some? && config.highlightLines.value.style == Some(ThemeStyle)
    ensures FormatterHighlightLinesConfig(config, theme, css).Some?
    ensures theme.Some? && css(theme.value).Some? ==>
              FormatterHighlightLinesConfig(config, theme, css).value.style == css(theme.value)
    ensures !(theme.Some? && css(theme.value).Some?) ==>
              FormatterHighlightLinesConfig(config, theme, css).value.style ==
                Some(if theme.Some? && IsLight(theme.value) then "background-color: #e7eaf0;" else "background-color: #3b4252;")
    ensures theme.None? ==> FormatterHighlightLinesConfig(config, theme, css).value.style == Some("background-color: #3b4252;")
  {
    assert FallbackStyle(true) == "background-color: #e7eaf0;";
    assert FallbackStyle(false) == "background-color: #3b4252;";
  }

  /** A custom formatter style is used literally, whatever the theme. */
  lemma FormatterLiteralStyle(config: ExFormatterOption, theme: Option<Theme>, css: Theme -> Option<string>, style: string)
    requires config.HtmlInline? || config.HtmlMultiThemes?
    requires config.highlightLines.Some? && config.highlightLines.value.style == Some(CustomStyle(style))
    ensures FormatterHighlightLinesConfig(config, theme, css).Some?
    ensures FormatterHighlightLinesConfig(config, theme, css).value.style == Some(style)
  {
  }

  /** `highlight_lines_config`: a `highlight_lines` decorator replaces the formatter's option outright. */
  function HighlightLinesConfig(attrs: Option<Attrs>, config: ExFormatterOption, theme: Option<Theme>,
                                css: Theme -> Option<string>): Option<HighlightConfig>
  {
    if attrs.Some? && "highlight_lines" in attrs.value then Some(DecoratorHighlightConfig(attrs.value, config, theme, css))
    else FormatterHighlightLinesConfig(config, theme, css)
  }

  /**
   * A `highlight_lines` decorator overrides the formatter's option completely;
   * the formatter is consulted only when the decorator is absent.
   */
  lemma DecoratorLinesOverride(attrs: Option<Attrs>, config: ExFormatterOption, theme: Option<Theme>,
                               css: Theme -> Option<string>)
    ensures attrs.Some? && "highlight_lines" in attrs.value ==>
              HighlightLinesConfig(attrs, config, theme, css).Some?
              && HighlightLinesConfig(attrs, config, theme, css).value.lines == HighlightLines(attrs.value["highlight_lines"])
    ensures !(attrs.Some? && "highlight_lines" in attrs.value) ==>
              HighlightLinesConfig(attrs, config, theme, css) == FormatterHighlightLinesConfig(config, theme, css)
  {
  }

  /**
   * With a `highlight_lines` decorator and no `highlight_lines_class`, the
   * class is `highlighted` for linked HTML and absent otherwise.
   */
  lemma DecoratorDefaultClass(attrs: Attrs, config: ExFormatterOption, theme: Option<Theme>, css: Theme -> Option<string>)
    requires "highlight_lines" in attrs && "highlight_lines_class" !in attrs
    ensures DecoratorHighlightConfig(attrs, config, theme, css).cssClass ==
              (if config.HtmlLinked? then Some("highlighted") else None)
  {
  }

  /** A `highlight_lines_style` other than `theme` is used literally. */
  lemma DecoratorLiteralStyle(attrs: Attrs, config: ExFormatterOption, theme: Option<Theme>, css: Theme -> Option<string>)
    requires "highlight_lines" in attrs && "highlight_lines_style" in attrs && attrs["highlight_lines_style"] != "theme"
    ensures DecoratorHighlightConfig(attrs, config, theme, css).style == Some(attrs["highlight_lines_style"])
  {
  }

  /**
   * The fallback background appears on the decorator path only for a
   * formatter other than linked HTML and only when there is a theme; its
   * colour is the light one exactly for light themes.
   */
  lemma DecoratorFallbackStyle(attrs: Attrs, config: ExFormatterOption, theme: Option<Theme>, css: Theme -> Option<string>)
    requires "highlight_lines" in attrs
    requires "highlight_lines_style" !in attrs
    ensures DecoratorHighlightConfig(attrs, config, theme, css).style.Some? <==> !config.HtmlLinked? && theme.Some?
    ensures !config.HtmlLinked? && theme.Some? ==>
              DecoratorHighlightConfig(attrs, config, theme, css).style ==
                Some(if IsLight(theme.value) then "background-color: #e7eaf0;" else "background-color: #3b4252;")
  {
    assert FallbackStyle(true) == "background-color: #e7eaf0;";
    assert FallbackStyle(false) == "background-color: #3b4252;";
  }

  // ---------------------------------------------------------------------------
  // Assembling the highlighted HTML

  /** How a non-blank token becomes HTML. */
  function RenderSpan(host: Host, config: ExFormatterOption, language: Language, theme: Option<Theme>,
                      italic: bool, includeHighlights: bool): (string, string) -> string
  {
    var multi := MultiThemesConfigOf(config);
    if config.HtmlLinked? && language != PlainText then
      (text, scope) => host.spanLinked(text, scope)
    else if multi.Some? then
      (text, scope) => host.spanMultiThemes(text, scope, language, multi.value)
    else
      (text, scope) => host.spanInline(text, scope, language, theme, italic, includeHighlights)
  }

  /** The output so far and `last_end`, after one more callback. */
  function Step(source: string, state: (string, nat), token: Token, render: (string, string) -> string): (string, nat)
    requires token.start <= |source|
  {
    var (html, lastEnd) := state;
    var gap := if token.start > lastEnd then source[lastEnd..token.start] else "";
    var piece := if IsBlank(token.text) then token.text else render(token.text, token.scope);
    (html + gap + piece, token.end)
  }

  predicate Within(source: string, tokens: seq<Token>) {
    forall i :: 0 <= i < |tokens| ==> tokens[i].start <= |source|
  }

  function Fold(source: string, tokens: seq<Token>, render: (string, string) -> string): (string, nat)
    requires Within(source, tokens)
    decreases |tokens|
  {
    if |tokens| == 0 then ("", 0)
    else Step(source, Fold(source, tokens[..|tokens| - 1], render), tokens[|tokens| - 1], render)
  }

  /** The HTML of all callbacks, followed by the source after the last token. */
  function Assembled(source: string, tokens: seq<Token>, render: (string, string) -> string): string
    requires Within(source, tokens)
  {
    var (html, lastEnd) := Fold(source, tokens, render);
    if lastEnd < |source| then html + source[lastEnd..] else html
  }

  /** The callback loop of `write_highlighted`. */
  method Assemble(source: string, tokens: seq<Token>, render: (string, string) -> string) returns (html: string)
    requires Within(source, tokens)
    ensures html == Assembled(source, tokens, render)
  {
    html := "";
    var lastEnd: nat := 0;
    var i := 0;
    while i < |tokens|
      invariant 0 <= i <= |tokens|
      invariant (html, lastEnd) == Fold(source, tokens[..i], render)
    {
      var token := tokens[i];
      assert tokens[..i + 1][..i] == tokens[..i];
      ghost var before := (html, lastEnd);
      var gap := "";
      if token.start > lastEnd {
        gap := source[lastEnd..token.start];
      }
      TrimEmptyIffBlank(token.text);
      var piece;
      if |Trim(token.text)| == 0 {
        piece := token.text;
      } else {
        piece := render(token.text, token.scope);
      }
      html := html + gap + piece;
      lastEnd := token.end;
      assert (html, lastEnd) == Step(source, before, token, render);
      i := i + 1;
    }
    assert tokens[..i] == tokens;
    if lastEnd < |source| {
      html := html + source[lastEnd..];
    }
  }

  /** The tokens are in order, inside the source, and each one's text is the source it covers. */
  predicate Tiling(source: string, tokens: seq<Token>) {
    (forall i :: 0 <= i < |tokens| ==> tokens[i].start <= tokens[i].end <= |source|
                                       && tokens[i].text == source[tokens[i].start..tokens[i].end])
    && (forall i, j :: 0 <= i < j < |tokens| ==> tokens[i].end <= tokens[j].start)
  }

  /**
   * Everything between and after the tokens is copied verbatim: when the
   * spans render their text unchanged, the assembled output is the source.
   */
  lemma {:induction false} FoldCopiesSource(source: string, tokens: seq<Token>, render: (string, string) -> string)
    requires Tiling(source, tokens)
    requires forall text, scope :: render(text, scope) == text
    ensures Within(source, tokens)
    ensures Fold(source, tokens, render).0 == source[..Fold(source, tokens, render).1]
    ensures |tokens| > 0 ==> Fold(source, tokens, render).1 == tokens[|tokens| - 1].end
    decreases |tokens|
  {
    if |tokens| > 0 {
      var init := tokens[..|tokens| - 1];
      var last := tokens[|tokens| - 1];
      assert Tiling(source, init);
      FoldCopiesSource(source, init, render);
      var prev := Fold(source, init, render);
      assert prev.1 <= last.start by {
        if |init| > 0 {
          assert init[|init| - 1] == tokens[|tokens| - 2];
        }
      }
      var gap := if last.start > prev.1 then source[prev.1..last.start] else "";
      var piece := if IsBlank(last.text) then last.text else render(last.text, last.scope);
      assert Fold(source, tokens, render) == (prev.0 + gap + piece, last.end);
      assert piece == source[last.start..last.end];
      SlicesJoin(source, prev.1, last.start);
      SlicesJoin(source, last.start, last.end);
    }
  }

  /** Two adjacent slices of `s` from its start make one. */
  lemma SlicesJoin(s: string, i: nat, j: nat)
    requires i <= j <= |s|
    ensures s[..i] + s[i..j] == s[..j]
  {
    assert s[..j] == s[..i] + s[i..j];
  }

  lemma AssembledCopiesSource(source: string, tokens: seq<Token>, render: (string, string) -> string)
    requires Tiling(source, tokens)
    requires forall text, scope :: render(text, scope) == text
    ensures Within(source, tokens)
    ensures Assembled(source, tokens, render) == source
  {
    FoldCopiesSource(source, tokens, render);
    var lastEnd := Fold(source, tokens, render).1;
    assert lastEnd <= |source| by {
      if |tokens| > 0 {
        assert tokens[|tokens| - 1].end <= |source|;
      }
    }
    assert source[..lastEnd] + source[lastEnd..] == source;
  }

  // ---------------------------------------------------------------------------
  // Wrapping lines

  /** The class of line `k`: `line`, plus the configured class when `k` is highlighted. */
  function LineClass(k: nat, config: Option<HighlightConfig>): string {
    if config.Some? && k in config.value.lines && config.value.cssClass.Some? then "line " + config.value.cssClass.value
    else "line"
  }

  /** The ` style="…"` attribute of line `k`, present only when `k` is highlighted and a style is set. */
  function StyleAttr(k: nat, config: Option<HighlightConfig>): string {
    if config.Some? && k in config.value.lines && config.value.style.Some? then " style=\"" + config.value.style.value + "\""
    else ""
  }

  function LineDiv(k: nat, line: string, config: Option<HighlightConfig>): string {
    "<div class=\"" + LineClass(k, config) + "\"" + StyleAttr(k, config) + " data-line=\"" + NatToString(k) + "\">"
    + line + "\n</div>"
  }

  /** The divs of the given lines, numbered 1, 2, … in order. */
  function LineDivs(lines: seq<string>, config: Option<HighlightConfig>): string
    decreases |lines|
  {
    if |lines| == 0 then "" else LineDivs(lines[..|lines| - 1], config) + LineDiv(|lines|, lines[|lines| - 1], config)
  }

  /** The class and style of line `lineNumber`: the configured ones when it is highlighted. */
  method LineAttributes(lineNumber: nat, config: Option<HighlightConfig>) returns (className: string, styleAttr: string)
    ensures className == LineClass(lineNumber, config) && styleAttr == StyleAttr(lineNumber, config)
  {
    className := "line";
    styleAttr := "";
    if config.Some? && lineNumber in config.value.lines {
      if config.value.cssClass.Some? {
        className := className + " " + config.value.cssClass.value;
      }
      if config.value.style.Some? {
        styleAttr := " style=\"" + config.value.style.value + "\"";
      }
    }
  }

  /** The `<div>` of line `lineNumber`, with the class and style the loop body of `write_highlighted` picks. */
  method WriteLine(lineNumber: nat, line: string, config: Option<HighlightConfig>) returns (div: string)
    ensures div == LineDiv(lineNumber, line, config)
  {
    var className, styleAttr := LineAttributes(lineNumber, config);
    div := "<div class=\"" + className + "\"" + styleAttr + " data-line=\"" + NatToString(lineNumber) + "\">"
           + line + "\n</div>";
  }

  /** The loop over `html_output.lines().enumerate()`. */
  method WriteLines(html: string, config: Option<HighlightConfig>) returns (out: string)
    ensures out == LineDivs(Lines(html), config)
  {
    var lines := Lines(html);
    out := "";
    var i := 0;
    while i < |lines|
      invariant 0 <= i <= |lines|
      invariant out == LineDivs(lines[..i], config)
    {
      var div := WriteLine(i + 1, lines[i], config);
      assert lines[..i + 1][..i] == lines[..i];
      out := out + div;
      i := i + 1;
    }
    assert lines[..i] == lines;
  }

  /** The div of each line on its own, the `k`-th numbered `k + 1`. */
  function NumberedDivs(lines: seq<string>, config: Option<HighlightConfig>): (r: seq<string>)
    ensures |r| == |lines|
  {
    seq(|lines|, i requires 0 <= i < |lines| => LineDiv(i + 1, lines[i], config))
  }

  /**
   * The divs split back into one per line: the `k`-th carries `data-line="k"`,
   * and it has the extra class and style exactly when `k` is a highlighted line.
   */
  lemma {:induction false} LineDivsShape(lines: seq<string>, config: Option<HighlightConfig>)
    ensures LineDivs(lines, config) == Concat(NumberedDivs(lines, config))
    decreases |lines|
  {
    if |lines| > 0 {
      var n := |lines|;
      var init := lines[..n - 1];
      var divs := NumberedDivs(lines, config);
      LineDivsShape(init, config);
      assert divs[..n - 1] == NumberedDivs(init, config) by {
        forall i | 0 <= i < n - 1
          ensures divs[..n - 1][i] == NumberedDivs(init, config)[i]
        {
          assert init[i] == lines[i];
        }
      }
      assert Concat(divs) == Concat(divs[..n - 1]) + divs[n - 1];
    }
  }

  lemma HighlightedLineMarked(k: nat, config: Option<HighlightConfig>)
    ensures LineClass(k, config) != "line" <==> config.Some? && k in config.value.lines && config.value.cssClass.Some?
    ensures StyleAttr(k, config) != "" <==> config.Some? && k in config.value.lines && config.value.style.Some?
  {
    if config.Some? && k in config.value.lines && config.value.cssClass.Some? {
      assert |LineClass(k, config)| > |"line"|;
    }
  }

  // ---------------------------------------------------------------------------
  // The adapter

  /** What `write_highlighted` writes, or `None` when highlighting fails. */
  function HighlightedOutput(host: Host, config: ExFormatterOption, attrs: Option<Attrs>, storedLang: Option<Language>,
                             hint: Option<string>, source: string): Option<string>
    requires TokensInSource(host)
  {
    var language := EffectiveLanguage(storedLang, hint, source, host.guess);
    var theme := EffectiveTheme(attrs, config, host.registry);
    var render := RenderSpan(host, config, language, theme, ItalicEnabled(config), ShouldIncludeHighlights(attrs, config));
    var tokens := host.highlight(source, language, theme);
    if tokens.None? then None
    else
      var html := Assembled(source, tokens.value, render);
      Some(LineDivs(Lines(html), HighlightLinesConfig(attrs, config, theme, host.highlightedCss)))
  }

  class LumisAdapter {
    const config: ExFormatterOption
    const host: Host
    var storedAttrs: Option<Attrs>
    var storedLang: Option<Language>

    ghost predicate Valid() {
      TokensInSource(host)
    }

    constructor (config: ExFormatterOption, host: Host)
      requires TokensInSource(host)
      ensures Valid()
      ensures this.config == config && this.host == host
      ensures storedAttrs.None? && storedLang.None?
    {
      this.config := config;
      this.host := host;
      storedAttrs := None;
      storedLang := None;
    }

    /** `LumisAdapter::default()`. */
    constructor Default(host: Host)
      requires TokensInSource(host)
      ensures Valid()
      ensures config == DefaultFormatterOption() && this.host == host
      ensures storedAttrs.None? && storedLang.None?
    {
      config := DefaultFormatterOption();
      this.host := host;
      storedAttrs := None;
      storedLang := None;
    }

    /**
     * `write_pre_tag`: remembers the decorators when `data-meta` parses and the
     * language when `lang` is given, then opens `<pre>` with the effective
     * class and theme.
     */
    method WritePreTag(attributes: map<string, string>) returns (out: string)
      modifies this
      ensures storedAttrs == (if CustomAttrs(attributes, host.split).Some? then CustomAttrs(attributes, host.split)
                              else old(storedAttrs))
      ensures storedLang == (if "lang" in attributes then Some(host.guess(attributes["lang"], "")) else old(storedLang))
      ensures out == host.openPreTag(EffectivePreClass(storedAttrs, config), EffectiveTheme(storedAttrs, config, host.registry))
    {
      var customAttrs := None;
      if "data-meta" in attributes {
        customAttrs := ParseCustomAttributes(host.split(attributes["data-meta"]));
      }
      if customAttrs.Some? {
        storedAttrs := customAttrs;
      }
      if "lang" in attributes {
        storedLang := Some(host.guess(attributes["lang"], ""));
      }
      var theme := DecoratorTheme(storedAttrs, host.registry).Or(ThemeFromFormatter(config, host.registry));
      var preClass := DecoratorPreClass(storedAttrs).Or(PreClass(config));
      out := host.openPreTag(preClass, theme);
    }

    /**
     * `write_code_tag`: remembers the decorators when `data-meta` parses, and
     * REPLACES the stored language whenever the renderer passed any attribute;
     * then opens `<code>` in the stored language.
     */
    method WriteCodeTag(attributes: map<string, string>) returns (out: string)
      modifies this
      ensures storedAttrs == (if CustomAttrs(attributes, host.split).Some? then CustomAttrs(attributes, host.split)
                              else old(storedAttrs))
      ensures storedLang == (if |attributes| > 0 then Some(LanguageFromAttrs(attributes, host.guess)) else old(storedLang))
      ensures out == host.openCodeTag(storedLang.GetOr(LanguageFromAttrs(attributes, host.guess)))
    {
      var customAttrs := None;
      if "data-meta" in attributes {
        customAttrs := ParseCustomAttributes(host.split(attributes["data-meta"]));
      }
      var lang := LanguageFromAttrs(attributes, host.guess);
      if customAttrs.Some? {
        storedAttrs := customAttrs;
      }
      if |attributes| > 0 {
        storedLang := Some(lang);
      }
      out := host.openCodeTag(storedLang.GetOr(lang));
    }

    /**
     * `write_highlighted`: highlights `source` in the effective language and
     * theme, then writes one numbered `<div>` per line of the result.
     */
    method WriteHighlighted(hint: Option<string>, source: string) returns (out: Option<string>)
      requires Valid()
      ensures out == HighlightedOutput(host, config, storedAttrs, storedLang, hint, source)
    {
      var language := EffectiveLanguage(storedLang, hint, source, host.guess);
      var theme := DecoratorTheme(storedAttrs, host.registry).Or(ThemeFromFormatter(config, host.registry));
      var includeHighlights := ShouldIncludeHighlights(storedAttrs, config);
      var italic := ItalicEnabled(config);
      var render := RenderSpan(host, config, language, theme, italic, includeHighlights);
      var tokens := host.highlight(source, language, theme);
      if tokens.None? {
        return None;
      }
      assert Within(source, tokens.value);
      var html := Assemble(source, tokens.value, render);
      var highlightConfig := HighlightLinesConfig(storedAttrs, config, theme, host.highlightedCss);
      var divs := WriteLines(html, highlightConfig);
      return Some(divs);
    }
  }

  /** With the default formatter option nothing is themed, classed, italic or highlighted. */
  lemma DefaultFormatterIsPlain(registry: Registry, css: Theme -> Option<string>)
    ensures ThemeFromFormatter(DefaultFormatterOption(), registry).None?
    ensures PreClass(DefaultFormatterOption()).None?
    ensures !ItalicEnabled(DefaultFormatterOption())
    ensures !ShouldIncludeHighlights(None, DefaultFormatterOption())
    ensures FormatterHighlightLinesConfig(DefaultFormatterOption(), None, css).None?
    ensures MultiThemesConfigOf(DefaultFormatterOption()).None?
  {
  }
}
