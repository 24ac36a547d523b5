/**
 * What the lumis and autumnus adapters read from the attributes of a code
 * block's `<pre>` and `<code>` tags: the decorators of `data-meta` and the
 * language. The two adapters do this alike; each has its own language type
 * and its own guesser (`Language::guess`), which are parameters here.
 */
module CodeAttributes {
  import opened Wrappers
  import opened Text
  import opened Decorators

  /**
   * `custom_attrs` (`get_custom_attrs` in the autumnus adapter): the
   * decorators of the `data-meta` attribute, when it is present and parses.
   */
  function CustomAttrs(attributes: map<string, string>, split: string -> Option<seq<string>>): Option<Attrs> {
    if "data-meta" in attributes then Parsed(split(attributes["data-meta"])) else None
  }

  /** `language_from_attrs` (`get_language` in the autumnus adapter): `lang`, else `class` without its `language-` prefix, else plain text. */
  function LanguageFromAttrs<L>(attributes: map<string, string>, guess: (string, string) -> L): (r: L)
    ensures "lang" in attributes ==> r == guess(attributes["lang"], "")
    ensures "lang" !in attributes && "class" in attributes && StartsWith(attributes["class"], "language-") ==>
              r == guess(attributes["class"][|"language-"|..], "")
    ensures "lang" !in attributes && !("class" in attributes && StartsWith(attributes["class"], "language-")) ==>
              r == guess("plaintext", "")
  {
    if "lang" in attributes then guess(attributes["lang"], "")
    else if "class" in attributes then guess(StripPrefix(attributes["class"], "language-").GetOr("plaintext"), "")
    else guess("plaintext", "")
  }

  /** The language `write_highlighted` highlights in: the stored one, else the guessed hint, else plain text. */
  function EffectiveLanguage<L>(storedLang: Option<L>, hint: Option<string>, source: string,
                                guess: (string, string) -> L): (r: L)
    ensures storedLang.Some? ==> r == storedLang.value
    ensures storedLang.None? && hint.Some? ==> r == guess(hint.value, source)
    ensures storedLang.None? && hint.None? ==> r == guess("plaintext", source)
  {
    if storedLang.Some? then storedLang.value
    else if hint.Some? then guess(hint.value, source)
    else guess("plaintext", source)
  }
}
