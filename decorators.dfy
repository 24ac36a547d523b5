/**
 * Code-fence decorators: the `key=value` attributes written after a fence's
 * language (for instance `elixir theme=dracula highlight_lines="1,3-5"`).
 * Both highlighting adapters parse them the same way: the info string is
 * split into shell-style words, each word is cut at its first `=`, and a word
 * without `=` is a flag whose value is `"true"`.
 */
module Decorators {
  import opened Wrappers
  import opened Text

  type Attrs = map<string, string>

  /** The attribute key a word defines: the text before its first `=`, trimmed. */
  function Key(word: string): string {
    match SplitOnce(word, '=')
    case Some((key, _)) => Trim(key)
    case None => Trim(word)
  }

  /** The value a word gives its key: everything after the first `=`, verbatim. */
  function Value(word: string): string {
    match SplitOnce(word, '=')
    case Some((_, value)) => value
    case None => "true"
  }

  /** The map built by inserting the words' entries in order. */
  function AttrsOf(words: seq<string>): Attrs
    decreases |words|
  {
    if |words| == 0 then map[]
    else
      var last := words[|words| - 1];
      AttrsOf(words[..|words| - 1])[Key(last) := Value(last)]
  }

  /**
   * The attributes of an info string whose shell-style split gave `words`
   * (`None` when the split failed): none for a failed split or no words.
   */
  function Parsed(words: Option<seq<string>>): Option<Attrs> {
    if words.None? || |words.value| == 0 then None else Some(AttrsOf(words.value))
  }

  /** `parse_custom_attributes`, given the outcome of `shlex::split` on the info string. */
  method ParseCustomAttributes(words: Option<seq<string>>) returns (attrs: Option<Attrs>)
    ensures attrs == Parsed(words)
  {
    if words.None? {
      return None;
    }
    var tokens := words.value;
    if |tokens| == 0 {
      return None;
    }
    var m: Attrs := map[];
    var i := 0;
    while i < |tokens|
      invariant 0 <= i <= |tokens|
      invariant m == AttrsOf(tokens[..i])
    {
      var token := tokens[i];
      match SplitOnce(token, '=') {
        case Some((key, value)) =>
          m := m[Trim(key) := value];
        case None =>
          m := m[Trim(token) := "true"];
      }
      assert tokens[..i + 1][..i] == tokens[..i];
      assert m == AttrsOf(tokens[..i])[Key(token) := Value(token)];
      i := i + 1;
    }
    assert tokens[..i] == tokens;
    ParsedNoneIff(words);
    if |m| == 0 {
      return None;
    }
    return Some(m);
  }

  /** A word with `=` splits at its FIRST `=`: later ones belong to the value. */
  lemma WordWithEquals(key: string, value: string)
    requires '=' !in key
    ensures Key(key + "=" + value) == Trim(key)
    ensures Value(key + "=" + value) == value
  {
    assert key + "=" + value == key + ['='] + value;
    SplitOnceAt(key, value, '=');
  }

  /** A bare word is a flag set to `"true"`. */
  lemma BareWordIsFlag(word: string)
    requires '=' !in word
    ensures Key(word) == Trim(word) && Value(word) == "true"
  {
    SplitOnceSpec(word, '=');
  }

  /** Every word defines its key. */
  lemma {:induction false} WordKeyDefined(words: seq<string>, i: nat)
    requires i < |words|
    ensures Key(words[i]) in AttrsOf(words)
    decreases |words|
  {
    if i < |words| - 1 {
      var init := words[..|words| - 1];
      assert init[i] == words[i];
      WordKeyDefined(init, i);
    }
  }

  /** Every defined key comes from some word, whose value it holds. */
  lemma {:induction false} KeyFromWord(words: seq<string>, k: string) returns (i: nat)
    requires k in AttrsOf(words)
    ensures i < |words| && Key(words[i]) == k && AttrsOf(words)[k] == Value(words[i])
    decreases |words|
  {
    var last := words[|words| - 1];
    if Key(last) == k {
      i := |words| - 1;
    } else {
      var init := words[..|words| - 1];
      i := KeyFromWord(init, k);
      assert words[i] == init[i];
    }
  }

  /** A repeated key keeps the value of its LAST word. */
  lemma {:induction false} LastWordWins(words: seq<string>, i: nat)
    requires i < |words|
    requires forall j :: i < j < |words| ==> Key(words[j]) != Key(words[i])
    ensures Key(words[i]) in AttrsOf(words)
    ensures AttrsOf(words)[Key(words[i])] == Value(words[i])
    decreases |words|
  {
    if i < |words| - 1 {
      var init := words[..|words| - 1];
      assert init[i] == words[i];
      LastWordWins(init, i);
    }
  }

  /** Attributes are absent exactly when the split failed or produced no word. */
  lemma ParsedNoneIff(words: Option<seq<string>>)
    ensures Parsed(words).None? <==> words.None? || |words.value| == 0
    ensures Parsed(words).Some? ==> |Parsed(words).value| > 0
  {
    if words.Some? && |words.value| > 0 {
      var ws := words.value;
      LastWordWins(ws, |ws| - 1);
    }
  }
}
