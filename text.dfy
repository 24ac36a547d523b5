/**
 * The slice of Rust's `str` API the adapters rely on, with Rust's own
 * semantics: `split` always yields at least one piece, `split_once` cuts at
 * the first occurrence, `trim` removes Unicode White_Space, `lines` drops a
 * trailing empty line, and `parse::<usize>` accepts an optional `+` and
 * rejects anything past 2^64 - 1.
 */
module Text {
  import opened Wrappers

  /** Largest `usize` on the 64-bit targets the NIF is built for. */
  const USIZE_MAX: nat := 0xFFFF_FFFF_FFFF_FFFF

  /** `char::is_whitespace`: the Unicode White_Space property. */
  predicate IsWhitespace(c: char) {
    ('\U{9}' <= c <= '\U{D}') || c == ' ' || c == '\U{85}' || c == '\U{A0}'
    || c == '\U{1680}' || ('\U{2000}' <= c <= '\U{200A}') || c == '\U{2028}'
    || c == '\U{2029}' || c == '\U{202F}' || c == '\U{205F}' || c == '\U{3000}'
  }

  predicate IsDigit(c: char) {
    '0' <= c <= '9'
  }

  predicate AllDigits(s: string) {
    forall i :: 0 <= i < |s| ==> IsDigit(s[i])
  }

  /** Index of the first `c` in `s`, as `str::find` returns it. */
  function IndexOf(s: string, c: char): (r: Option<nat>)
    ensures r.Some? ==> r.value < |s|
    decreases |s|
  {
    if |s| == 0 then None
    else if s[0] == c then Some(0)
    else
      var rest := IndexOf(s[1..], c);
      if rest.Some? then Some(rest.value + 1) else None
  }

  lemma {:induction false} IndexOfSpec(s: string, c: char)
    ensures IndexOf(s, c).None? <==> c !in s
    ensures IndexOf(s, c).Some? ==>
      var i := IndexOf(s, c).value;
      s[i] == c && c !in s[..i]
    decreases |s|
  {
    if |s| > 0 && s[0] != c {
      IndexOfSpec(s[1..], c);
      assert s == [s[0]] + s[1..];
      var rest := IndexOf(s[1..], c);
      if rest.Some? {
        assert s[..rest.value + 1] == [s[0]] + s[1..][..rest.value];
      }
    }
  }

  /** `str::split_once(c)`. */
  function SplitOnce(s: string, c: char): (r: Option<(string, string)>)
    ensures r.Some? ==> |r.value.0| < |s| && |r.value.1| < |s|
  {
    match IndexOf(s, c)
    case None => None
    case Some(i) => Some((s[..i], s[i + 1..]))
  }

  /** `split_once` fails exactly when `c` is absent, and otherwise cuts at the first `c`. */
  lemma SplitOnceSpec(s: string, c: char)
    ensures SplitOnce(s, c).None? <==> c !in s
    ensures SplitOnce(s, c).Some? ==>
      var (head, tail) := SplitOnce(s, c).value;
      s == head + [c] + tail && c !in head
  {
    IndexOfSpec(s, c);
    if IndexOf(s, c).Some? {
      var i := IndexOf(s, c).value;
      assert s == s[..i] + [c] + s[i + 1..];
    }
  }

  /** `str::split(c)`: the pieces between occurrences of `c`. */
  function Split(s: string, c: char): (r: seq<string>)
    ensures |r| >= 1
    decreases |s|
  {
    match SplitOnce(s, c)
    case None => [s]
    case Some((head, tail)) => [head] + Split(tail, c)
  }

  /** The inverse of `Split`: the pieces joined with `c`. */
  function Join(parts: seq<string>, c: char): string
    decreases |parts|
  {
    if |parts| == 0 then []
    else if |parts| == 1 then parts[0]
    else parts[0] + [c] + Join(parts[1..], c)
  }

  /** No piece of a split contains the separator. */
  lemma {:induction false} SplitPiecesLackSeparator(s: string, c: char)
    ensures forall i :: 0 <= i < |Split(s, c)| ==> c !in Split(s, c)[i]
    decreases |s|
  {
    SplitOnceSpec(s, c);
    match SplitOnce(s, c)
    case None =>
    case Some((head, tail)) =>
      SplitPiecesLackSeparator(tail, c);
      assert Split(s, c) == [head] + Split(tail, c);
  }

  lemma {:induction false} JoinSplit(s: string, c: char)
    ensures Join(Split(s, c), c) == s
    decreases |s|
  {
    SplitOnceSpec(s, c);
    match SplitOnce(s, c)
    case None =>
    case Some((head, tail)) =>
      JoinSplit(tail, c);
      var rest := Split(tail, c);
      assert Split(s, c) == [head] + rest;
      assert ([head] + rest)[1..] == rest;
  }

  lemma {:induction false} SplitJoin(parts: seq<string>, c: char)
    requires |parts| >= 1
    requires forall i :: 0 <= i < |parts| ==> c !in parts[i]
    ensures Split(Join(parts, c), c) == parts
    decreases |parts|
  {
    if |parts| == 1 {
      assert Join(parts, c) == parts[0];
      SplitOnceSpec(parts[0], c);
    } else {
      var s := Join(parts, c);
      assert s == parts[0] + [c] + Join(parts[1..], c);
      SplitOnceAt(parts[0], Join(parts[1..], c), c);
      SplitJoin(parts[1..], c);
      assert parts == [parts[0]] + parts[1..];
    }
  }

  lemma {:induction false} IndexOfAt(head: string, tail: string, c: char)
    requires c !in head
    ensures IndexOf(head + [c] + tail, c) == Some(|head|)
    decreases |head|
  {
    var s := head + [c] + tail;
    if |head| > 0 {
      assert s[1..] == head[1..] + [c] + tail;
      IndexOfAt(head[1..], tail, c);
    }
  }

  lemma SplitOnceAt(head: string, tail: string, c: char)
    requires c !in head
    ensures SplitOnce(head + [c] + tail, c) == Some((head, tail))
  {
    var s := head + [c] + tail;
    IndexOfAt(head, tail, c);
    assert s[..|head|] == head && s[|head| + 1..] == tail;
  }

  function DropWhitespacePrefix(s: string): (r: string)
    ensures |r| <= |s|
    decreases |s|
  {
    if |s| > 0 && IsWhitespace(s[0]) then DropWhitespacePrefix(s[1..]) else s
  }

  lemma {:induction false} DropWhitespacePrefixSpec(s: string)
    ensures DropWhitespacePrefix(s) == s[|s| - |DropWhitespacePrefix(s)|..]
    ensures |DropWhitespacePrefix(s)| == 0 || !IsWhitespace(DropWhitespacePrefix(s)[0])
    ensures forall i :: 0 <= i < |s| - |DropWhitespacePrefix(s)| ==> IsWhitespace(s[i])
    decreases |s|
  {
    if |s| > 0 && IsWhitespace(s[0]) {
      DropWhitespacePrefixSpec(s[1..]);
    }
  }

  function DropWhitespaceSuffix(s: string): (r: string)
    ensures |r| <= |s|
    decreases |s|
  {
    if |s| > 0 && IsWhitespace(s[|s| - 1]) then DropWhitespaceSuffix(s[..|s| - 1]) else s
  }

  lemma {:induction false} DropWhitespaceSuffixSpec(s: string)
    ensures DropWhitespaceSuffix(s) == s[..|DropWhitespaceSuffix(s)|]
    ensures |DropWhitespaceSuffix(s)| == 0 || !IsWhitespace(DropWhitespaceSuffix(s)[|DropWhitespaceSuffix(s)| - 1])
    ensures forall i :: |DropWhitespaceSuffix(s)| <= i < |s| ==> IsWhitespace(s[i])
    decreases |s|
  {
    if |s| > 0 && IsWhitespace(s[|s| - 1]) {
      DropWhitespaceSuffixSpec(s[..|s| - 1]);
    }
  }

  /**
   * `str::trim`: the longest slice of `s` that neither starts nor ends with
   * white space, everything cut away being white space.
   */
  function Trim(s: string): (r: string)
    ensures |r| <= |s|
  {
    DropWhitespaceSuffix(DropWhitespacePrefix(s))
  }

  lemma TrimSpec(s: string)
    ensures |Trim(s)| == 0 || (!IsWhitespace(Trim(s)[0]) && !IsWhitespace(Trim(s)[|Trim(s)| - 1]))
  {
    var a := DropWhitespacePrefix(s);
    DropWhitespacePrefixSpec(s);
    DropWhitespaceSuffixSpec(a);
    var b := DropWhitespaceSuffix(a);
    if |b| > 0 {
      assert b[0] == a[0];
    }
  }

  predicate IsBlank(s: string) {
    forall i :: 0 <= i < |s| ==> IsWhitespace(s[i])
  }

  /** `text.trim().is_empty()` holds exactly for all-white-space text. */
  lemma {:induction false} TrimEmptyIffBlank(s: string)
    ensures |Trim(s)| == 0 <==> IsBlank(s)
  {
    var a := DropWhitespacePrefix(s);
    DropWhitespacePrefixSpec(s);
    DropWhitespaceSuffixSpec(a);
    if |a| > 0 {
      assert !IsWhitespace(a[0]) && a[0] == s[|s| - |a|];
      assert |DropWhitespaceSuffix(a)| > 0;
    }
  }

  /** Trimming a string with no surrounding white space leaves it unchanged. */
  lemma TrimNoop(s: string)
    requires |s| == 0 || (!IsWhitespace(s[0]) && !IsWhitespace(s[|s| - 1]))
    ensures Trim(s) == s
  {
  }

  lemma DigitsLackChar(s: string, c: char)
    requires AllDigits(s) && !IsDigit(c)
    ensures c !in s
  {
  }

  lemma TrimDigits(s: string)
    requires AllDigits(s)
    ensures Trim(s) == s
  {
    if |s| > 0 {
      assert IsDigit(s[0]) && IsDigit(s[|s| - 1]);
    }
    TrimNoop(s);
  }

  function DigitValue(c: char): nat
    requires IsDigit(c)
  {
    (c as int - '0' as int) as nat
  }

  /** The value of a decimal digit string, most significant digit first. */
  function DigitsValue(s: string): nat
    requires AllDigits(s)
    decreases |s|
  {
    if |s| == 0 then 0 else DigitsValue(s[..|s| - 1]) * 10 + DigitValue(s[|s| - 1])
  }

  /**
   * `str::parse::<usize>()`: an optional leading `+`, then one or more
   * decimal digits whose value fits in a `usize`.
   */
  function ParseUsize(s: string): (r: Option<nat>)
    ensures r.Some? ==> r.value <= USIZE_MAX
  {
    if |s| == 0 || s == "+" || s == "-" then None
    else
      var digits := if s[0] == '+' then s[1..] else s;
      if AllDigits(digits) && DigitsValue(digits) <= USIZE_MAX then Some(DigitsValue(digits))
      else None
  }

  /** Decimal rendering of a natural number, as `Display for usize`. */
  function NatToString(n: nat): (r: string)
    ensures |r| >= 1
    decreases n
  {
    var d := ['0' + (n % 10) as char];
    if n < 10 then d else NatToString(n / 10) + d
  }

  lemma {:induction false} DigitsOfNatToString(n: nat)
    ensures AllDigits(NatToString(n)) && DigitsValue(NatToString(n)) == n
    decreases n
  {
    var r := NatToString(n);
    if n >= 10 {
      DigitsOfNatToString(n / 10);
      assert r[..|r| - 1] == NatToString(n / 10);
    }
  }

  /** Printing a `usize` and parsing it back gives the same number. */
  lemma ParseNatToString(n: nat)
    requires n <= USIZE_MAX
    ensures ParseUsize(NatToString(n)) == Some(n)
  {
    DigitsOfNatToString(n);
  }

  function StripCarriageReturn(line: string): string {
    if |line| > 0 && line[|line| - 1] == '\r' then line[..|line| - 1] else line
  }

  /**
   * `str::lines`: the text cut after every `\n`, each line losing its `\n`
   * and then one `\r` before it; no empty line follows a final `\n`, and a
   * last line without `\n` keeps a trailing `\r`.
   */
  function Lines(s: string): seq<string>
    decreases |s|
  {
    if |s| == 0 then []
    else
      match SplitOnce(s, '\n')
      case None => [s]
      case Some((head, tail)) => [StripCarriageReturn(head)] + Lines(tail)
  }

  /**
   * `lines()` yields as many lines as `split('\n')` has pieces, less the empty
   * piece `split` reports after a final `\n` (or for the empty text).
   */
  lemma {:induction false} LinesCount(s: string)
    ensures |Lines(s)| == |Split(s, '\n')| - (if |s| == 0 || s[|s| - 1] == '\n' then 1 else 0)
    decreases |s|
  {
    if |s| > 0 {
      SplitOnceSpec(s, '\n');
      match SplitOnce(s, '\n')
      case None =>
        assert s[|s| - 1] in s;
      case Some((head, tail)) =>
        LinesCount(tail);
        assert s == head + ['\n'] + tail;
        if |tail| > 0 {
          assert s[|s| - 1] == tail[|tail| - 1];
        }
    }
  }

  /** `str::starts_with`. */
  predicate StartsWith(s: string, prefix: string) {
    |prefix| <= |s| && s[..|prefix|] == prefix
  }

  /** `str::strip_prefix`. */
  function StripPrefix(s: string, prefix: string): (r: Option<string>)
    ensures r.Some? <==> StartsWith(s, prefix)
  {
    if StartsWith(s, prefix) then Some(s[|prefix|..]) else None
  }

  lemma StripPrefixSpec(s: string, prefix: string)
    ensures StripPrefix(s, prefix).Some? ==> s == prefix + StripPrefix(s, prefix).value
    ensures StripPrefix(prefix + s, prefix) == Some(s)
  {
    if StartsWith(s, prefix) {
      assert s == s[..|prefix|] + s[|prefix|..];
    }
    assert (prefix + s)[..|prefix|] == prefix;
  }

  /** `str::contains` with a string pattern. */
  predicate Contains(s: string, needle: string)
    decreases |s|
  {
    StartsWith(s, needle) || (|s| > 0 && Contains(s[1..], needle))
  }

  /** ASCII lower-casing of one character; other characters are unchanged. */
  function LowerChar(c: char): char {
    if 'A' <= c <= 'Z' then (c as int + 32) as char else c
  }

  /**
   * Lower-casing, on the ASCII range. Theme names are ASCII; full Unicode case
   * mapping is not part of this model.
   */
  function ToLower(s: string): string {
    seq(|s|, i requires 0 <= i < |s| => LowerChar(s[i]))
  }

  /** Concatenation of a sequence of strings, the `String` a writer accumulates. */
  function Concat(parts: seq<string>): string
    decreases |parts|
  {
    if |parts| == 0 then [] else Concat(parts[..|parts| - 1]) + parts[|parts| - 1]
  }

  lemma {:induction false} ConcatAppend(a: seq<string>, b: seq<string>)
    ensures Concat(a + b) == Concat(a) + Concat(b)
    decreases |b|
  {
    if |b| == 0 {
      assert a + b == a;
    } else {
      ConcatAppend(a, b[..|b| - 1]);
      assert (a + b)[..|a + b| - 1] == a + b[..|b| - 1];
    }
  }
}
