/**
 * The display-glyph normalization calculate applies before evaluating:
 * the chain of str.replace calls that turns the multiplication sign, the
 * division sign and the minus sign into '*', '/' and '-'.
 */
module Glyphs {
  const Times: char := '\U{00D7}'
  const Divide: char := '\U{00F7}'
  const Minus: char := '\U{2212}'

  predicate IsGlyph(c: char) {
    c == Times || c == Divide || c == Minus
  }

  /** The ASCII operator each display glyph stands for; other characters are kept. */
  function NormalizeChar(c: char): (r: char)
    ensures !IsGlyph(r)
    ensures !IsGlyph(c) ==> r == c
  {
    if c == Times then '*' else if c == Divide then '/' else if c == Minus then '-' else c
  }

  /** str.replace with a one-character pattern: every occurrence is substituted. */
  function ReplaceChar(s: string, target: char, replacement: char): (r: string)
    ensures |r| == |s|
    ensures forall i :: 0 <= i < |s| ==> r[i] == (if s[i] == target then replacement else s[i])
  {
    if s == "" then ""
    else [if s[0] == target then replacement else s[0]] + ReplaceChar(s[1..], target, replacement)
  }

  /** The three replacements in the order the source chains them. */
  function Normalize(s: string): (r: string)
    ensures |r| == |s|
    ensures forall i :: 0 <= i < |s| ==> r[i] == NormalizeChar(s[i])
    ensures forall i :: 0 <= i < |r| ==> !IsGlyph(r[i])
  {
    ReplaceChar(ReplaceChar(ReplaceChar(s, Times, '*'), Divide, '/'), Minus, '-')
  }

  /** Normalization changes a text exactly when it holds a display glyph. */
  lemma NormalizeFixesPlainText(s: string)
    ensures Normalize(s) == s <==> forall i :: 0 <= i < |s| ==> !IsGlyph(s[i])
  {
  }

  /** Normalizing an already normalized expression changes nothing. */
  lemma NormalizeIdempotent(s: string)
    ensures Normalize(Normalize(s)) == Normalize(s)
  {
  }
}
