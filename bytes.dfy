/**
 * The one-byte characters comrak stores as `u8` (list bullets, code fences)
 * and their one-character string form on the Elixir side.
 */
module Bytes {
  import opened Wrappers

  type Byte = b: int | 0 <= b < 256

  type U32 = w: int | 0 <= w < 0x1_0000_0000

  /**
   * `char_to_string`: 0 is the empty string, an ASCII byte the string of
   * that one character, and any other byte is not valid UTF-8 on its own.
   */
  function CharToString(c: Byte): (r: Result<string, string>)
    ensures r == Ok("") <==> c == 0
    ensures r.Err? <==> c >= 128
    ensures r.Ok? && c != 0 ==> |r.value| == 1 && r.value[0] as int == c
  {
    if c == 0 then Ok("")
    else if c < 128 then Ok([c as char])
    else Err("failed to convert to string")
  }

  /** `char_to_string(c).unwrap_or_default()`. */
  function CharToStringOrEmpty(c: Byte): (r: string)
    ensures |r| <= 1
  {
    CharToString(c).ToOption().GetOr("")
  }

  /** `string_to_char`: 0 for the empty string, else the first character truncated to a byte. */
  function StringToChar(s: string): (r: Byte)
    ensures |s| == 0 ==> r == 0
    ensures |s| > 0 && (s[0] as int) < 256 ==> r == s[0] as int
  {
    if |s| == 0 then 0 else (s[0] as int) % 256
  }

  /** An ASCII byte, 0 included, survives the trip through its string. */
  lemma CharRoundTrip(c: Byte)
    requires c < 128
    ensures StringToChar(CharToStringOrEmpty(c)) == c
  {
  }

  /** A byte of 128 or more becomes the empty string and comes back as 0. */
  lemma NonAsciiCharLost(c: Byte)
    requires c >= 128
    ensures CharToStringOrEmpty(c) == "" && StringToChar(CharToStringOrEmpty(c)) == 0
  {
  }

  /** A string of at most one ASCII character survives the trip through its byte. */
  lemma StringRoundTrip(s: string)
    requires |s| <= 1 && (|s| == 1 ==> 0 < s[0] as int < 128)
    ensures CharToStringOrEmpty(StringToChar(s)) == s
  {
    if |s| == 1 {
      assert [StringToChar(s) as char] == s;
    }
  }
}
