/**
 * The Inkjet syntax-highlighter adapter, the oldest of the adapters. It keeps
 * no state between calls: a theme chosen once (falling back to `onedark`)
 * and an inline-style flag. The language comes from the code tag's `class`
 * attribute or from the renderer's hint, and anything Inkjet does not know
 * becomes plain text.
 *
 * The Autumn functions it calls take an inline-style flag that the vendored
 * Autumn copy does not have, so they are reached through `Host` together
 * with Inkjet's language table and the tree-sitter highlighter.
 */
module Inkjet {
  import opened Wrappers
  import opened Text
  import Autumn

  datatype Host = Host(
    /** `autumn::themes::theme(name)`. */
    registry: map<string, Autumn.Theme>,
    /** `Language::from_token`. */
    fromToken: string -> Option<Autumn.Language>,
    /** The highlight events tree-sitter produces for a source in a language. */
    highlight: (string, Autumn.Language) -> seq<Autumn.HighlightEvent>,
    /** `autumn::open_pre_tag(theme, None, inline_style)`. */
    openPreTag: (Autumn.Theme, bool) -> string,
    /** `autumn::open_code_tag(language)`. */
    openCodeTag: Autumn.Language -> string,
    /** `autumn::inner_highlights(source, event, theme, inline_style)`. */
    innerHighlights: (string, Autumn.HighlightEvent, Autumn.Theme, bool) -> string)

  datatype InkjetAdapter = InkjetAdapter(theme: Autumn.Theme, inlineStyle: bool)

  /** `InkjetAdapter::new`: the named theme, or `onedark` when the name is unknown. */
  function New(name: string, inlineStyle: bool, registry: map<string, Autumn.Theme>): (r: InkjetAdapter)
    requires "onedark" in registry
    ensures r.inlineStyle == inlineStyle
    ensures name in registry ==> r.theme == registry[name]
    ensures name !in registry ==> r.theme == registry["onedark"]
  {
    var theme := if name in registry then registry[name] else registry["onedark"];
    InkjetAdapter(theme, inlineStyle)
  }

  /** `InkjetAdapter::default()`. */
  function Default(registry: map<string, Autumn.Theme>): (r: InkjetAdapter)
    requires "onedark" in registry
    ensures r.theme == registry["onedark"] && r.inlineStyle
  {
    InkjetAdapter(registry["onedark"], true)
  }

  /** The default adapter is the one `new` gives for `onedark` with inline styles. */
  lemma DefaultIsNewOnedark(registry: map<string, Autumn.Theme>)
    requires "onedark" in registry
    ensures Default(registry) == New("onedark", true, registry)
  {
  }

  /** `Language::from_token(token).unwrap_or(Language::Plaintext)`. */
  function LanguageOf(token: string, fromToken: string -> Option<Autumn.Language>): (r: Autumn.Language)
    ensures fromToken(token).Some? ==> r == fromToken(token).value
    ensures fromToken(token).None? ==> r == Autumn.PLAINTEXT
  {
    fromToken(token).GetOr(Autumn.PLAINTEXT)
  }

  /**
   * The language token of `write_code_tag`: the second `-`-separated piece
   * of the `class` attribute (`language-plaintext` when there is none), or
   * `plaintext` when the class has no `-`.
   */
  function CodeTagToken(attributes: map<string, string>): string {
    var cssClass := if "class" in attributes then attributes["class"] else "language-plaintext";
    var pieces := Split(cssClass, '-');
    if |pieces| > 1 then pieces[1] else "plaintext"
  }

  /** Cutting at a first `c` leaves the head as the first piece. */
  lemma SplitAfter(head: string, tail: string, c: char)
    requires c !in head
    ensures Split(head + [c] + tail, c) == [head] + Split(tail, c)
  {
    SplitOnceAt(head, tail, c);
  }

  /** A piece without `c` is its own split. */
  lemma SplitNone(s: string, c: char)
    requires c !in s
    ensures Split(s, c) == [s]
  {
    SplitOnceSpec(s, c);
  }

  /** A `language-X` class with no `-` in X names X. */
  lemma LanguageClassToken(attributes: map<string, string>, name: string)
    requires "class" in attributes && attributes["class"] == "language-" + name && '-' !in name
    ensures CodeTagToken(attributes) == name
  {
    var prefix := "language";
    assert '-' !in prefix;
    assert attributes["class"] == prefix + ['-'] + name;
    SplitAfter(prefix, name, '-');
    SplitNone(name, '-');
  }

  /**
   * Only the piece up to the next `-` is taken: `language-X-Y` with no `-`
   * in X names X, whatever Y is (`language-objective-c` names `objective`).
   */
  lemma DashedClassToken(attributes: map<string, string>, head: string, tail: string)
    requires "class" in attributes && attributes["class"] == "language-" + head + "-" + tail && '-' !in head
    ensures CodeTagToken(attributes) == head
  {
    var prefix := "language";
    assert '-' !in prefix;
    assert attributes["class"] == prefix + ['-'] + (head + ['-'] + tail);
    SplitAfter(prefix, head + ['-'] + tail, '-');
    SplitAfter(head, tail, '-');
  }

  /** Without a `class` attribute, or with a class without `-`, the token is `plaintext`. */
  lemma PlaintextToken(attributes: map<string, string>)
    requires "class" !in attributes || '-' !in attributes["class"]
    ensures CodeTagToken(attributes) == "plaintext"
  {
    if "class" in attributes {
      SplitOnceSpec(attributes["class"], '-');
    } else {
      LanguageClassToken(attributes["class" := "language-plaintext"], "plaintext");
    }
  }

  /** `write_pre_tag`: the theme's `<pre>` tag. */
  function WritePreTag(adapter: InkjetAdapter, attributes: map<string, string>, host: Host): string {
    host.openPreTag(adapter.theme, adapter.inlineStyle)
  }

  /** The attributes of the `<pre>` tag are ignored. */
  lemma PreTagIgnoresAttributes(adapter: InkjetAdapter, a: map<string, string>, b: map<string, string>, host: Host)
    ensures WritePreTag(adapter, a, host) == WritePreTag(adapter, b, host)
  {
  }

  /** `write_code_tag`: the `<code>` tag of the class's language, plain text when unknown. */
  function WriteCodeTag(adapter: InkjetAdapter, attributes: map<string, string>, host: Host): string {
    host.openCodeTag(LanguageOf(CodeTagToken(attributes), host.fromToken))
  }

  /** The language `write_highlighted` uses: the hint, `plaintext` without one, plain text when unknown. */
  function HighlightLanguage(hint: Option<string>, fromToken: string -> Option<Autumn.Language>): (r: Autumn.Language)
    ensures hint.None? ==> r == LanguageOf("plaintext", fromToken)
    ensures hint.Some? && fromToken(hint.value).None? ==> r == Autumn.PLAINTEXT
  {
    LanguageOf(hint.GetOr("plaintext"), fromToken)
  }

  /** The HTML of each highlight event. */
  function EventsHtml(adapter: InkjetAdapter, source: string, events: seq<Autumn.HighlightEvent>, host: Host): (r: seq<string>)
    ensures |r| == |events|
  {
    seq(|events|, k requires 0 <= k < |events| => host.innerHighlights(source, events[k], adapter.theme, adapter.inlineStyle))
  }

  /** `write_highlighted`: the HTML of every event of the source, in order. */
  method WriteHighlighted(adapter: InkjetAdapter, hint: Option<string>, source: string, host: Host) returns (out: string)
    ensures out == Concat(EventsHtml(adapter, source, host.highlight(source, HighlightLanguage(hint, host.fromToken)), host))
  {
    var token := if hint.Some? then hint.value else "plaintext";
    var lang := LanguageOf(token, host.fromToken);
    var events := host.highlight(source, lang);
    ghost var pieces := EventsHtml(adapter, source, events, host);
    out := "";
    var i := 0;
    while i < |events|
      invariant 0 <= i <= |events|
      invariant out == Concat(pieces[..i])
    {
      assert pieces[..i + 1][..i] == pieces[..i];
      out := out + host.innerHighlights(source, events[i], adapter.theme, adapter.inlineStyle);
      i := i + 1;
    }
    assert pieces[..i] == pieces;
  }
}
