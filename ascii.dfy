/** ASCII character classes as Go's RE2 POSIX classes define them, and
    strings.ToLower restricted to ASCII. */
module Ascii {

  /** [[:upper:]] */
  predicate IsUpper(c: char) { 'A' <= c <= 'Z' }

  /** [[:lower:]] */
  predicate IsLower(c: char) { 'a' <= c <= 'z' }

  /** [[:alpha:]] */
  predicate IsAlpha(c: char) { IsUpper(c) || IsLower(c) }

  /** [[:digit:]] */
  predicate IsDigit(c: char) { '0' <= c <= '9' }

  /** [[:punct:]]: the ranges !-/ :-@ [-` {-~ */
  predicate IsPunct(c: char)
  {
    ('!' <= c <= '/') || (':' <= c <= '@') || ('[' <= c <= '`') || ('{' <= c <= '~')
  }

  /** [[:space:]]: tab, newline, vertical tab, form feed, carriage return (9 to 13) and space */
  predicate IsSpace(c: char) { c == ' ' || 9 <= c as int <= 13 }

  /** [[:xdigit:]], the digits a UUID is written in */
  predicate IsHexDigit(c: char) { IsDigit(c) || ('a' <= c <= 'f') || ('A' <= c <= 'F') }

  function LowerChar(c: char): (d: char)
    ensures !IsUpper(d)
    ensures IsAlpha(c) <==> IsAlpha(d)
    ensures IsLower(c) ==> d == c
    ensures !IsUpper(c) ==> d == c
    ensures IsUpper(c) ==> d as int == c as int + 32
  {
    if IsUpper(c) then (c as int + 32) as char else c
  }

  /** strings.ToLower on ASCII text: every upper-case letter is replaced by its
      lower-case form and every other character is kept. */
  function ToLower(s: string): (t: string)
    ensures |t| == |s|
    ensures forall i :: 0 <= i < |s| ==> t[i] == LowerChar(s[i])
  {
    if s == [] then [] else [LowerChar(s[0])] + ToLower(s[1..])
  }

  /** Lower-casing twice is lower-casing once. */
  lemma ToLowerIdempotent(s: string)
    ensures ToLower(ToLower(s)) == ToLower(s)
  {
    var t := ToLower(s);
    assert forall i :: 0 <= i < |t| ==> LowerChar(t[i]) == t[i];
  }
}
