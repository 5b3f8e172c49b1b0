/**
 * Go strings. A Go string is a sequence of bytes and `len` counts bytes; the model
 * writes a Go string as a Dafny `string` holding one element per byte (the element's
 * code point is the byte's value), so `|s|` is Go's `len(s)`. Every literal the
 * package uses is ASCII, where the two views agree.
 */
module Strings {

  type Str = string

  /** strings.HasPrefix */
  predicate HasPrefix(s: Str, prefix: Str) {
    |prefix| <= |s| && s[..|prefix|] == prefix
  }

  /** A byte in the class `\w` of Go's regexp syntax: ASCII letters, digits and underscore. */
  predicate IsWordByte(b: char) {
    ('0' <= b <= '9') || ('A' <= b <= 'Z') || ('a' <= b <= 'z') || b == '_'
  }

  /**
   * `AccessKeyPattern.MatchString(s)` for the pattern `^[\w]+$`: at least one byte and
   * only word bytes. Without the multi-line flag Go's `$` matches only at the end of the
   * text, and a byte of a multi-byte UTF-8 sequence is never a word byte, so checking
   * bytes agrees with the regexp engine's rune-wise match.
   */
  predicate MatchesAccessKeyPattern(s: Str) {
    |s| > 0 && forall i :: 0 <= i < |s| ==> IsWordByte(s[i])
  }
}
