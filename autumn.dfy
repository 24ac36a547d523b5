/**
 * The vendored `autumn` renderer: the opening and closing `<pre>`/`<code>`
 * tags and the HTML of each tree-sitter highlight event. A `Source` event
 * copies an HTML-escaped slice of the code, a `HighlightStart` opens a
 * `<span>` styled by the theme, a `HighlightEnd` closes it.
 *
 * The theme's scope lookup, the highlight-name table and the HTML escaper
 * are parameters (`Env`); the tree-sitter highlighter's event stream is an
 * input.
 */
module Autumn {
  import opened Wrappers
  import opened Text

  /** `inkjet::Language`, known here by its `Debug` name (`Rust`, `Plaintext`, …). */
  datatype Language = Language(debugName: string)

  const PLAINTEXT: Language := Language("Plaintext")

  /** An `autumn` theme, known by name; its scopes are looked up through `Env.scope`. */
  datatype Theme = Theme(name: string)

  /** `tree_sitter_highlight::HighlightEvent`. */
  datatype HighlightEvent = Source(start: nat, end: nat) | HighlightStart(index: nat) | HighlightEnd

  datatype Env = Env(
    /** `theme.get_scope(name)`: the class and the CSS style of a scope. */
    scope: (Theme, string) -> (string, string),
    /** `inkjet::constants::HIGHLIGHT_NAMES`. */
    highlightNames: seq<string>,
    /** `v_htmlescape::escape`. */
    escape: string -> string)

  /** An event the renderer can take without panicking: a slice of the source, or a known highlight. */
  predicate EventFits(source: string, event: HighlightEvent, env: Env) {
    match event
    case Source(start, end) => start <= end <= |source|
    case HighlightStart(index) => index < |env.highlightNames|
    case HighlightEnd => true
  }

  predicate EventsFit(source: string, events: seq<HighlightEvent>, env: Env) {
    forall i :: 0 <= i < |events| ==> EventFits(source, events[i], env)
  }

  /** `open_pre_tag`: the given class or `autumn highlight`, styled by the theme's background and text. */
  function OpenPreTag(theme: Theme, cssClass: Option<string>, env: Env): string {
    "<pre class=\"" + cssClass.GetOr("autumn highlight") + "\" style=\"" + env.scope(theme, "background").1 + " "
    + env.scope(theme, "text").1 + "\">"
  }

  /** Without a class the `<pre>` tag is the one with class `autumn highlight`; a given class is used as is. */
  lemma PreTagDefaultClass(theme: Theme, cssClass: Option<string>, env: Env)
    ensures OpenPreTag(theme, None, env) == OpenPreTag(theme, Some("autumn highlight"), env)
    ensures cssClass.Some? ==>
              OpenPreTag(theme, cssClass, env)[..|"<pre class=\""| + |cssClass.value|] == "<pre class=\"" + cssClass.value
  {
  }

  function ClosePreTag(): string {
    "</pre>"
  }

  /** The default class of a code tag: `language-` and the lower-cased language name. */
  function LanguageClass(lang: Language): (r: string)
    ensures |r| == |"language-"| + |lang.debugName|
    ensures r[..|"language-"|] == "language-"
    ensures forall i :: 0 <= i < |lang.debugName| ==> r[|"language-"| + i] == LowerChar(lang.debugName[i])
  {
    "language-" + ToLower(lang.debugName)
  }

  /** `open_code_tag`: the given class, else the language's class. */
  function OpenCodeTag(lang: Language, cssClass: Option<string>): string {
    "<code class=\"" + cssClass.GetOr(LanguageClass(lang)) + "\" translate=\"no\">"
  }

  /** Without a class the `<code>` tag carries the language's class. */
  lemma CodeTagDefaultClass(lang: Language)
    ensures OpenCodeTag(lang, None) == OpenCodeTag(lang, Some(LanguageClass(lang)))
  {
  }

  function CloseCodeTag(): string {
    "</code>"
  }

  /** `open_tags`: the two opening tags on separate lines. */
  function OpenTags(lang: Language, theme: Theme, preClass: Option<string>, codeClass: Option<string>, env: Env): string {
    OpenPreTag(theme, preClass, env) + "\n" + OpenCodeTag(lang, codeClass)
  }

  /** `close_tags`. */
  function CloseTags(): (r: string)
    ensures r == "\n" + CloseCodeTag() + ClosePreTag()
  {
    "\n</code></pre>"
  }

  /** `inner_highlights`: the HTML of one event. */
  function InnerHighlights(source: string, event: HighlightEvent, theme: Theme, env: Env): string
    requires EventFits(source, event, env)
  {
    match event
    case Source(start, end) => env.escape(source[start..end])
    case HighlightStart(index) =>
      var (cssClass, style) := env.scope(theme, env.highlightNames[index]);
      "<span class=\"" + cssClass + "\" style=\"" + style + "\">"
    case HighlightEnd => "</span>"
  }

  /** The HTML of each event, in order. */
  function Pieces(source: string, events: seq<HighlightEvent>, theme: Theme, env: Env): (r: seq<string>)
    requires EventsFit(source, events, env)
    ensures |r| == |events|
  {
    seq(|events|, k requires 0 <= k < |events| => InnerHighlights(source, events[k], theme, env))
  }

  /** The HTML of a stream of events. */
  function Rendered(source: string, events: seq<HighlightEvent>, theme: Theme, env: Env): string
    requires EventsFit(source, events, env)
  {
    Concat(Pieces(source, events, theme, env))
  }

  /**
   * `highlight_source_code`, given the highlighter's events: the opening
   * tags, each event's HTML, the closing tags, each part on its own line.
   */
  method HighlightSourceCode(source: string, events: seq<HighlightEvent>, lang: Language, theme: Theme,
                             preClass: Option<string>, codeClass: Option<string>, env: Env) returns (output: string)
    requires EventsFit(source, events, env)
    ensures output == OpenTags(lang, theme, preClass, codeClass, env) + "\n" + Rendered(source, events, theme, env)
                      + CloseTags() + "\n"
  {
    var opening := OpenPreTag(theme, preClass, env) + "\n" + OpenCodeTag(lang, codeClass) + "\n";
    output := opening;
    var i := 0;
    while i < |events|
      invariant 0 <= i <= |events|
      invariant output == opening + Rendered(source, events[..i], theme, env)
    {
      RenderedStep(source, events, i, theme, env);
      output := output + InnerHighlights(source, events[i], theme, env);
      i := i + 1;
    }
    assert events[..i] == events;
    output := output + "\n" + CloseCodeTag() + ClosePreTag() + "\n";
  }

  lemma RenderedStep(source: string, events: seq<HighlightEvent>, i: nat, theme: Theme, env: Env)
    requires EventsFit(source, events, env) && i < |events|
    ensures EventsFit(source, events[..i], env) && EventsFit(source, events[..i + 1], env)
    ensures Rendered(source, events[..i + 1], theme, env)
            == Rendered(source, events[..i], theme, env) + InnerHighlights(source, events[i], theme, env)
  {
    var p := Pieces(source, events[..i + 1], theme, env);
    assert p[..i] == Pieces(source, events[..i], theme, env);
  }

  // ---------------------------------------------------------------------------
  // Balanced spans

  /**
   * The tags of an HTML string, in order: one entry per `<`, `true` for a
   * closing tag (`</`) and `false` for an opening one.
   */
  function Tags(s: string): seq<bool>
    decreases |s|
  {
    if |s| == 0 then []
    else (if s[0] == '<' then [|s| > 1 && s[1] == '/'] else []) + Tags(s[1..])
  }

  /** Tags are read from consecutive pieces independently when no piece ends in `<`. */
  lemma {:induction false} TagsAppend(a: string, b: string)
    requires |a| == 0 || a[|a| - 1] != '<'
    ensures Tags(a + b) == Tags(a) + Tags(b)
    decreases |a|
  {
    if |a| > 0 {
      var ab := a + b;
      assert ab[0] == a[0] && ab[1..] == a[1..] + b;
      TagsAppend(a[1..], b);
      if a[0] == '<' {
        assert |a| > 1 && ab[1] == a[1];
        assert Tags(ab) == [a[1] == '/'] + Tags(ab[1..]);
        assert Tags(a) == [a[1] == '/'] + Tags(a[1..]);
      } else {
        assert Tags(ab) == Tags(ab[1..]);
      }
    } else {
      assert a + b == b;
    }
  }

  /** Two pieces that do not end in `<` join into one that does not, with the tags of both in order. */
  lemma TagsJoin(a: string, b: string)
    requires |a| == 0 || a[|a| - 1] != '<'
    requires |b| == 0 || b[|b| - 1] != '<'
    ensures |a + b| == 0 || (a + b)[|a + b| - 1] != '<'
    ensures Tags(a + b) == Tags(a) + Tags(b)
  {
    TagsAppend(a, b);
    if |b| == 0 {
      assert a + b == a;
    } else {
      assert (a + b)[|a + b| - 1] == b[|b| - 1];
    }
  }

  lemma {:induction false} NoTags(s: string)
    requires '<' !in s
    ensures Tags(s) == []
    decreases |s|
  {
    if |s| > 0 {
      assert s[0] in s;
      assert forall c :: c in s[1..] ==> c in s;
      NoTags(s[1..]);
    }
  }

  /** A tag `<name …>` whose text after the `<` has no `<` and no leading `/` is one opening tag. */
  lemma OneOpeningTag(s: string)
    requires |s| > 1 && s[0] == '<' && s[1] != '/' && '<' !in s[1..]
    ensures Tags(s) == [false]
  {
    NoTags(s[1..]);
  }

  /** The span tag an event stands for: `false` opens a span, `true` closes one, source text has none. */
  function EventTags(event: HighlightEvent): seq<bool> {
    match event
    case Source(_, _) => []
    case HighlightStart(_) => [false]
    case HighlightEnd => [true]
  }

  /** The event stream's span structure, one entry per highlight start or end. */
  function SpanEvents(events: seq<HighlightEvent>): seq<bool>
    decreases |events|
  {
    if |events| == 0 then []
    else SpanEvents(events[..|events| - 1]) + EventTags(events[|events| - 1])
  }

  /** The escaper and the theme's scopes produce no `<`. */
  ghost predicate Angleless(env: Env) {
    (forall s :: '<' !in env.escape(s))
    && (forall theme, name :: '<' !in env.scope(theme, name).0 && '<' !in env.scope(theme, name).1)
  }

  /** An escaped slice of the source holds no tag. */
  lemma SourceTags(source: string, start: nat, end: nat, theme: Theme, env: Env)
    requires start <= end <= |source| && Angleless(env)
    ensures var r := InnerHighlights(source, Source(start, end), theme, env);
            (|r| == 0 || r[|r| - 1] != '<') && Tags(r) == []
  {
    var r := InnerHighlights(source, Source(start, end), theme, env);
    assert '<' !in env.escape(source[start..end]);
    NoTags(r);
    if |r| > 0 {
      assert r[|r| - 1] in r;
    }
  }

  /** A highlight start is one opening `<span …>` tag. */
  lemma StartTags(source: string, index: nat, theme: Theme, env: Env)
    requires index < |env.highlightNames| && Angleless(env)
    ensures var r := InnerHighlights(source, HighlightStart(index), theme, env);
            r[|r| - 1] == '>' && Tags(r) == [false]
  {
    var r := InnerHighlights(source, HighlightStart(index), theme, env);
    var (cssClass, style) := env.scope(theme, env.highlightNames[index]);
    var tail := "span class=\"" + cssClass + "\" style=\"" + style + "\">";
    assert r == "<" + tail;
    assert r[1..] == tail;
    OneOpeningTag(r);
  }

  lemma InnerHighlightsTags(source: string, event: HighlightEvent, theme: Theme, env: Env)
    requires EventFits(source, event, env) && Angleless(env)
    ensures var r := InnerHighlights(source, event, theme, env);
            && (|r| == 0 || r[|r| - 1] != '<')
            && Tags(r) == EventTags(event)
  {
    match event
    case Source(start, end) => SourceTags(source, start, end, theme, env);
    case HighlightStart(index) => StartTags(source, index, theme, env);
    case HighlightEnd =>
      var r := InnerHighlights(source, event, theme, env);
      assert r[1..] == "/span>";
      NoTags("/span>");
  }

  /**
   * The spans of the rendered events open and close exactly as the events
   * start and end highlights, in the same order.
   */
  lemma {:induction false} RenderedTags(source: string, events: seq<HighlightEvent>, theme: Theme, env: Env)
    requires EventsFit(source, events, env) && Angleless(env)
    ensures var r := Rendered(source, events, theme, env);
            (|r| == 0 || r[|r| - 1] != '<') && Tags(r) == SpanEvents(events)
    decreases |events|
  {
    if |events| > 0 {
      var n := |events| - 1;
      var init := events[..n];
      var last := events[n];
      RenderedStep(source, events, n, theme, env);
      assert events[..n + 1] == events;
      RenderedTags(source, init, theme, env);
      InnerHighlightsTags(source, last, theme, env);
      var a := Rendered(source, init, theme, env);
      var b := InnerHighlights(source, last, theme, env);
      assert Rendered(source, events, theme, env) == a + b;
      assert SpanEvents(events) == SpanEvents(init) + EventTags(last);
      TagsJoin(a, b);
    } else {
      assert Pieces(source, events, theme, env) == [];
    }
  }

  /** Every prefix of a tag sequence closes no more tags than it opened, starting `depth` deep, and all are closed. */
  predicate BalancedFrom(tags: seq<bool>, depth: nat)
    decreases |tags|
  {
    if |tags| == 0 then depth == 0
    else if tags[0] then depth > 0 && BalancedFrom(tags[1..], depth - 1)
    else BalancedFrom(tags[1..], depth + 1)
  }

  predicate Balanced(tags: seq<bool>) {
    BalancedFrom(tags, 0)
  }

  /** The rendered spans balance exactly when the highlight events do. */
  lemma RenderedBalanced(source: string, events: seq<HighlightEvent>, theme: Theme, env: Env)
    requires EventsFit(source, events, env) && Angleless(env)
    ensures Balanced(Tags(Rendered(source, events, theme, env))) <==> Balanced(SpanEvents(events))
  {
    RenderedTags(source, events, theme, env);
  }
}
