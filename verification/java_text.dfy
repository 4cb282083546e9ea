/**
 * The Java string operations the registration validator relies on: whitespace
 * (`Character.isWhitespace`), Spring's `StringUtils.hasText`, lowercasing under
 * `Locale.ENGLISH` (for ASCII letters) and the separator replacement
 * `replaceAll("[-\\\\.]", "_")`, whose character class holds '-', '\' and '.'.
 */
module JavaText {

  /**
   * `Character.isWhitespace`: space, line and paragraph separators other than the
   * non-breaking ones, and the ASCII controls 9-13 and 28-31. The ASCII blanks are
   * whitespace; letters, digits and the non-breaking spaces U+00A0, U+2007 and U+202F
   * are not.
   */
  function IsWhitespace(c: char): (r: bool)
    ensures c == ' ' || c == '\t' || c == '\n' || c == '\r' ==> r
    ensures 'a' <= c <= 'z' || 'A' <= c <= 'Z' || '0' <= c <= '9' ==> !r
    ensures c as int == 0xA0 || c as int == 0x2007 || c as int == 0x202F ==> !r
  {
    var n := c as int;
    || n == 0x20 || (0x09 <= n <= 0x0D) || (0x1C <= n <= 0x1F)
    || n == 0x1680 || (0x2000 <= n <= 0x2006) || (0x2008 <= n <= 0x200A)
    || n == 0x2028 || n == 0x2029 || n == 0x205F || n == 0x3000
  }

  /**
   * `StringUtils.hasText`: the string is non-empty and not whitespace only, so a
   * string that starts with a letter or digit has text.
   */
  function HasText(s: string): (r: bool)
    ensures r ==> |s| > 0
    ensures (forall i :: 0 <= i < |s| ==> IsWhitespace(s[i])) ==> !r
    ensures |s| > 0 && ('a' <= s[0] <= 'z' || 'A' <= s[0] <= 'Z' || '0' <= s[0] <= '9') ==> r
  {
    exists i :: 0 <= i < |s| && !IsWhitespace(s[i])
  }

  predicate IsUpperAscii(c: char) { 'A' <= c <= 'Z' }

  function LowerChar(c: char): (r: char)
    ensures !IsUpperAscii(r)
    ensures !IsUpperAscii(c) ==> r == c
  {
    if IsUpperAscii(c) then (c as int + 32) as char else c
  }

  /** `toLowerCase(Locale.ENGLISH)` on ASCII letters. */
  function Lower(s: string): (r: string)
    ensures |r| == |s|
    ensures forall i :: 0 <= i < |s| ==> r[i] == LowerChar(s[i])
  {
    if |s| == 0 then "" else [LowerChar(s[0])] + Lower(s[1..])
  }

  /** The characters the username normalisation replaces. */
  predicate IsSeparator(c: char) { c == '-' || c == '\\' || c == '.' }

  /** `replaceAll("[-\\\\.]", "_")`: every '-', '\' and '.' becomes '_'. */
  function ReplaceSeparators(s: string): (r: string)
    ensures |r| == |s|
    ensures forall i :: 0 <= i < |s| ==> r[i] == if IsSeparator(s[i]) then '_' else s[i]
  {
    if |s| == 0 then ""
    else [if IsSeparator(s[0]) then '_' else s[0]] + ReplaceSeparators(s[1..])
  }

  /** The normalised username: separators replaced, then lowercased. */
  function NormalizeUsername(s: string): (r: string)
    ensures |r| == |s|
    ensures forall i :: 0 <= i < |r| ==> !IsSeparator(r[i]) && !IsUpperAscii(r[i])
    ensures forall i :: 0 <= i < |r| ==> r[i] == LowerChar(if IsSeparator(s[i]) then '_' else s[i])
  {
    Lower(ReplaceSeparators(s))
  }

  /** Lowercasing twice is lowercasing once. */
  lemma LowerIdempotent(s: string)
    ensures Lower(Lower(s)) == Lower(s)
  {
    var once := Lower(s);
    assert forall i :: 0 <= i < |once| ==> Lower(once)[i] == once[i];
  }

  /** Normalising a normalised username changes nothing. */
  lemma NormalizeIdempotent(s: string)
    ensures NormalizeUsername(NormalizeUsername(s)) == NormalizeUsername(s)
  {
    var n := NormalizeUsername(s);
    assert forall i :: 0 <= i < |n| ==> NormalizeUsername(n)[i] == n[i];
  }
}
