/**
 * The whitespace normalisation `print_diff` applies to both texts before
 * diffing: every whitespace character other than a space, a line feed or a
 * carriage return becomes the visible placeholder U+2591 LIGHT SHADE.
 */
module Whitespace {

  /** The placeholder glyph `'░'`. */
  const Placeholder: char := '\U{2591}'

  /**
   * Rust's `char::is_whitespace`: the Unicode `White_Space` property,
   * written out as its list of code points.
   */
  predicate IsWhitespace(c: char)
  {
    ('\U{0009}' <= c <= '\U{000D}') || c == ' ' || c == '\U{0085}' || c == '\U{00A0}'
    || c == '\U{1680}' || ('\U{2000}' <= c <= '\U{200A}') || c == '\U{2028}' || c == '\U{2029}'
    || c == '\U{202F}' || c == '\U{205F}' || c == '\U{3000}'
  }

  /** The `pat` closure of `print_diff`: whitespace that is not `' '`, `'\n'` or `'\r'`. */
  predicate IsInvisible(c: char)
  {
    IsWhitespace(c) && c != ' ' && c != '\n' && c != '\r'
  }

  /** `str::replace(pat, "░")`, one character at a time. */
  function Normalize(s: string): (t: string)
    ensures |t| == |s|
    ensures forall i :: 0 <= i < |s| && !IsInvisible(s[i]) ==> t[i] == s[i]
    ensures forall i :: 0 <= i < |s| && IsInvisible(s[i]) ==> t[i] == Placeholder
  {
    seq(|s|, i requires 0 <= i < |s| => if IsInvisible(s[i]) then Placeholder else s[i])
  }

  /** After normalisation the only whitespace left is spaces, line feeds and carriage returns. */
  lemma NormalizeLeavesNoInvisible(s: string)
    ensures forall i :: 0 <= i < |s| ==> !IsInvisible(Normalize(s)[i])
  {
  }

  /** Normalising twice is normalising once, because the placeholder is not whitespace. */
  lemma NormalizeIdempotent(s: string)
    ensures Normalize(Normalize(s)) == Normalize(s)
  {
    NormalizeLeavesNoInvisible(s);
  }

  /** Line breaks stay exactly where they were, so splitting into lines is unaffected. */
  lemma NormalizeKeepsLineBreaks(s: string)
    ensures forall i :: 0 <= i < |s| ==> (Normalize(s)[i] == '\n' <==> s[i] == '\n')
    ensures forall i :: 0 <= i < |s| ==> (Normalize(s)[i] == '\r' <==> s[i] == '\r')
  {
  }
}
