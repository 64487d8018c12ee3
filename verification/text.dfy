/**
 * The JavaScript string operations the pages rely on: `trim`, `toLowerCase`,
 * `includes` and `startsWith`, and the `\s` class of regular expressions.
 */
module Text {

  /**
   * The characters JavaScript's `trim` removes and `\s` matches: the
   * ECMAScript WhiteSpace and LineTerminator characters.
   */
  predicate IsSpace(c: char) {
    || c == '\t' || c == '\n' || c == '\U{000B}' || c == '\U{000C}' || c == '\r' || c == ' '
    || c == '\U{00A0}' || c == '\U{1680}' || ('\U{2000}' <= c <= '\U{200A}')
    || c == '\U{2028}' || c == '\U{2029}' || c == '\U{202F}' || c == '\U{205F}'
    || c == '\U{3000}' || c == '\U{FEFF}'
  }

  /** Every character is white space (so is the empty string). */
  predicate IsBlank(s: string) {
    forall k :: 0 <= k < |s| ==> IsSpace(s[k])
  }

  /** Index of the first non-space character at or after `i`, or `|s|`. */
  function TrimStartFrom(s: string, i: nat): (a: nat)
    requires i <= |s| && IsBlank(s[..i])
    ensures i <= a <= |s|
    ensures IsBlank(s[..a])
    ensures a < |s| ==> !IsSpace(s[a])
    decreases |s| - i
  {
    if i < |s| && IsSpace(s[i]) then
      assert s[..i + 1] == s[..i] + [s[i]];
      TrimStartFrom(s, i + 1)
    else i
  }

  /** Index just past the last non-space character in `s[..j]`, or `lo` when `s[lo..j]` is blank. */
  function TrimEndFrom(s: string, lo: nat, j: nat): (b: nat)
    requires lo <= j <= |s| && IsBlank(s[j..])
    ensures lo <= b <= j
    ensures IsBlank(s[b..])
    ensures b > lo ==> !IsSpace(s[b - 1])
    decreases j
  {
    if lo < j && IsSpace(s[j - 1]) then
      assert s[j - 1..] == [s[j - 1]] + s[j..];
      TrimEndFrom(s, lo, j - 1)
    else j
  }

  /** `String.prototype.trim`: `s` without its leading and trailing white space. */
  function Trim(s: string): (r: string)
    ensures exists a, b :: 0 <= a <= b <= |s| && r == s[a..b] && IsBlank(s[..a]) && IsBlank(s[b..])
    ensures r != [] ==> !IsSpace(r[0]) && !IsSpace(r[|r| - 1])
    ensures r == [] <==> IsBlank(s)
  {
    assert s[..0] == [];
    var a := TrimStartFrom(s, 0);
    assert s[|s|..] == [];
    var b := TrimEndFrom(s, a, |s|);
    assert a < b ==> s[a..b][0] == s[a];
    assert IsBlank(s) ==> a == |s|;
    assert a == b ==> IsBlank(s) by {
      if a == b {
        assert s[..a] == s;
      }
    }
    s[a..b]
  }

  /** Trimming a trimmed string changes nothing. */
  lemma TrimIdempotent(s: string)
    ensures Trim(Trim(s)) == Trim(s)
  {
    var t := Trim(s);
    var a := TrimStartFrom(t, 0);
    assert a == 0 by {
      assert t[..0] == [];
      if t != [] { assert !IsSpace(t[0]); }
    }
    assert t[|t|..] == [];
    var b := TrimEndFrom(t, a, |t|);
    assert b == |t| by {
      if t != [] { assert !IsSpace(t[|t| - 1]); }
    }
    assert t[0..|t|] == t;
  }

  /** `toLowerCase` on one character, for the ASCII letters (other characters are kept). */
  function LowerChar(c: char): (d: char)
    ensures 'A' <= c <= 'Z' ==> 'a' <= d <= 'z' && d as int - c as int == 32
    ensures !('A' <= c <= 'Z') ==> d == c
  {
    if 'A' <= c <= 'Z' then (c as int + 32) as char else c
  }

  /** `String.prototype.toLowerCase`, restricted to ASCII letters. */
  function Lower(s: string): (r: string)
    ensures |r| == |s|
    ensures forall k :: 0 <= k < |s| ==> r[k] == LowerChar(s[k])
  {
    if s == [] then [] else [LowerChar(s[0])] + Lower(s[1..])
  }

  /** Lower-casing twice is lower-casing once. */
  lemma LowerIdempotent(s: string)
    ensures Lower(Lower(s)) == Lower(s)
  {
  }

  /** `String.prototype.startsWith`. */
  predicate StartsWith(s: string, prefix: string) {
    prefix <= s
  }

  /** `needle` occurs in `hay` starting at position `i`. */
  predicate OccursAt(hay: string, needle: string, i: nat) {
    i + |needle| <= |hay| && hay[i..i + |needle|] == needle
  }

  /** An occurrence in `hay[1..]` is an occurrence in `hay` one position further on. */
  lemma OccursShift(hay: string, needle: string, j: nat)
    requires hay != []
    ensures OccursAt(hay[1..], needle, j) <==> OccursAt(hay, needle, j + 1)
  {
    if j + |needle| <= |hay[1..]| {
      assert hay[1..][j..j + |needle|] == hay[j + 1..j + 1 + |needle|];
    }
  }

  /** `String.prototype.includes`: `needle` occurs somewhere in `hay`. */
  function Includes(hay: string, needle: string): (r: bool)
    ensures r <==> exists i: nat :: OccursAt(hay, needle, i)
    decreases |hay|
  {
    if needle <= hay then
      assert hay[..|needle|] == needle;
      assert OccursAt(hay, needle, 0);
      true
    else if hay == [] then
      assert forall i: nat :: !OccursAt(hay, needle, i);
      false
    else
      var rest := Includes(hay[1..], needle);
      assert !OccursAt(hay, needle, 0);
      assert forall j: nat :: OccursAt(hay[1..], needle, j) <==> OccursAt(hay, needle, j + 1) by {
        forall j: nat { OccursShift(hay, needle, j); }
      }
      assert forall i: nat :: OccursAt(hay, needle, i) ==> i > 0 && OccursAt(hay[1..], needle, i - 1) by {
        forall i: nat | OccursAt(hay, needle, i) ensures i > 0 && OccursAt(hay[1..], needle, i - 1) {
          if i > 0 { OccursShift(hay, needle, i - 1); }
        }
      }
      rest
  }

  /** The empty string occurs in every string. */
  lemma IncludesEmpty(hay: string)
    ensures Includes(hay, "")
  {
    assert OccursAt(hay, "", 0);
  }
}
