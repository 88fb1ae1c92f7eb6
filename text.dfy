/** The JavaScript string operations the dashboard relies on:
    `String.prototype.trim`, `String.prototype.toLowerCase` and
    `String.prototype.includes`. */
module Text {

  /** WhiteSpace and LineTerminator code points of ECMAScript (section 12.2
      and 12.3 of ECMA-262): exactly the characters `trim` strips. Within
      ASCII these are tab, line feed, vertical tab, form feed, carriage
      return and space. */
  predicate IsJsWhitespace(c: char): (r: bool)
    ensures c as int < 128 ==> (r <==> 9 <= c as int <= 13 || c as int == 32)
  {
    c == '\t' || c == '\n' || c == '\U{000B}' || c == '\U{000C}' || c == '\r' || c == ' '
    || c == '\U{00A0}' || c == '\U{1680}' || ('\U{2000}' <= c <= '\U{200A}')
    || c == '\U{2028}' || c == '\U{2029}' || c == '\U{202F}' || c == '\U{205F}'
    || c == '\U{3000}' || c == '\U{FEFF}'
  }

  /** `s` without its leading whitespace. */
  function TrimStart(s: string): (r: string)
    ensures |r| <= |s| && r == s[|s| - |r|..]
    ensures r == [] || !IsJsWhitespace(r[0])
    ensures r == [] <==> forall i :: 0 <= i < |s| ==> IsJsWhitespace(s[i])
  {
    if s != [] && IsJsWhitespace(s[0]) then
      assert forall i :: 1 <= i < |s| ==> s[i] == s[1..][i - 1];
      TrimStart(s[1..])
    else s
  }

  /** `s` without its trailing whitespace. */
  function TrimEnd(s: string): (r: string)
    ensures |r| <= |s| && r == s[..|r|]
    ensures r == [] || !IsJsWhitespace(r[|r| - 1])
    ensures r == [] <==> forall i :: 0 <= i < |s| ==> IsJsWhitespace(s[i])
  {
    if s != [] && IsJsWhitespace(s[|s| - 1]) then
      assert forall i :: 0 <= i < |s| - 1 ==> s[i] == s[..|s| - 1][i];
      TrimEnd(s[..|s| - 1])
    else s
  }

  /** `s.trim()`: `TrimEnd` of `TrimStart`. Its contract states what the
      model relies on: the result neither starts nor ends with whitespace,
      and it is empty exactly when every character of `s` is whitespace.
      It is a slice of `s`, since `TrimStart` returns a suffix and
      `TrimEnd` a prefix. */
  function Trim(s: string): (r: string)
    ensures r == [] || (!IsJsWhitespace(r[0]) && !IsJsWhitespace(r[|r| - 1]))
    ensures r == [] <==> forall i :: 0 <= i < |s| ==> IsJsWhitespace(s[i])
  {
    TrimEnd(TrimStart(s))
  }

  /** `!s.trim()`: the trimmed string is empty, which happens exactly when
      every character of `s` is whitespace. */
  predicate IsBlank(s: string): (r: bool)
    ensures r <==> forall i :: 0 <= i < |s| ==> IsJsWhitespace(s[i])
  {
    Trim(s) == ""
  }

  /** `toLowerCase` restricted to ASCII letters. */
  function LowerChar(c: char): (r: char)
    ensures 'A' <= c <= 'Z' ==> r as int == c as int + 32
    ensures !('A' <= c <= 'Z') ==> r == c
  {
    if 'A' <= c <= 'Z' then (c as int + 32) as char else c
  }

  function Lower(s: string): (r: string)
    ensures |r| == |s|
    ensures forall i :: 0 <= i < |s| ==> r[i] == LowerChar(s[i])
  {
    if s == [] then [] else [LowerChar(s[0])] + Lower(s[1..])
  }

  /** `needle` occurs in `hay` starting at position `i`. */
  predicate OccursAt(hay: string, needle: string, i: nat)
  {
    i + |needle| <= |hay| && hay[i..i + |needle|] == needle
  }

  /** `hay.includes(needle)`, computed by trying each start position. */
  predicate Includes(hay: string, needle: string): (r: bool)
    ensures needle == [] ==> r
    ensures r ==> |needle| <= |hay|
    decreases |hay|
  {
    (|needle| <= |hay| && hay[..|needle|] == needle) || (hay != [] && Includes(hay[1..], needle))
  }

  /** `Includes` holds exactly when the needle occurs at some position. */
  lemma {:induction false} IncludesIffOccurs(hay: string, needle: string)
    ensures Includes(hay, needle) <==> exists i: nat :: OccursAt(hay, needle, i)
  {
    if Includes(hay, needle) {
      if |needle| <= |hay| && hay[..|needle|] == needle {
        assert OccursAt(hay, needle, 0);
      } else {
        IncludesIffOccurs(hay[1..], needle);
        var i: nat :| OccursAt(hay[1..], needle, i);
        assert hay[1..][i..i + |needle|] == hay[i + 1..i + 1 + |needle|];
        assert OccursAt(hay, needle, i + 1);
      }
    }
    if exists i: nat :: OccursAt(hay, needle, i) {
      var i: nat :| OccursAt(hay, needle, i);
      if i > 0 {
        assert hay[1..][i - 1..i - 1 + |needle|] == hay[i..i + |needle|];
        assert OccursAt(hay[1..], needle, i - 1);
        IncludesIffOccurs(hay[1..], needle);
      }
    }
  }

  /** The empty string occurs in every string. */
  lemma IncludesEmpty(hay: string)
    ensures Includes(hay, "")
  {
  }

  /** A non-empty needle cannot occur where its first character does not. */
  lemma {:induction false} IncludesNeedsFirstChar(hay: string, needle: string)
    requires needle != []
    requires forall i :: 0 <= i < |hay| ==> hay[i] != needle[0]
    ensures !Includes(hay, needle)
  {
    if hay != [] {
      assert |needle| <= |hay| ==> hay[..|needle|][0] != needle[0];
      IncludesNeedsFirstChar(hay[1..], needle);
    }
  }
}
