/**
 * `String.prototype.trim`: removes leading and trailing white space, where
 * white space is ECMA-262's WhiteSpace and LineTerminator code points.
 */
module JsString {

  /** ECMA-262 WhiteSpace (tab, vertical tab, form feed, space, no-break space, BOM, Zs) and LineTerminator. */
  predicate IsSpace(c: char) {
    || c == '\t' || c == '\n' || c == '\U{000B}' || c == '\U{000C}' || c == '\r' || c == ' '
    || c == '\U{00A0}' || c == '\U{1680}' || ('\U{2000}' <= c <= '\U{200A}')
    || c == '\U{2028}' || c == '\U{2029}' || c == '\U{202F}' || c == '\U{205F}'
    || c == '\U{3000}' || c == '\U{FEFF}'
  }

  /** Every character of `s` at a position in [lo, hi) is white space. */
  predicate SpaceBetween(s: string, lo: int, hi: int)
    requires 0 <= lo <= hi <= |s|
  {
    forall k :: lo <= k < hi ==> IsSpace(s[k])
  }

  /** The first position at or after `from` that is not white space, or |s| when there is none. */
  function SkipSpace(s: string, from: nat): (i: nat)
    requires from <= |s|
    ensures from <= i <= |s|
    ensures SpaceBetween(s, from, i)
    ensures i == |s| || !IsSpace(s[i])
    decreases |s| - from
  {
    if from == |s| || !IsSpace(s[from]) then from else SkipSpace(s, from + 1)
  }

  /** The position after the last character of s[lo..hi] that is not white space, or lo when there is none. */
  function SkipSpaceBack(s: string, lo: nat, hi: nat): (j: nat)
    requires lo <= hi <= |s|
    ensures lo <= j <= hi
    ensures SpaceBetween(s, j, hi)
    ensures j == lo || !IsSpace(s[j - 1])
    decreases hi
  {
    if hi == lo || !IsSpace(s[hi - 1]) then hi else SkipSpaceBack(s, lo, hi - 1)
  }

  /**
   * `r` sits at position `i` of `s`, and everything of `s` before and after
   * it is white space.
   */
  predicate TrimmedAt(s: string, r: string, i: int) {
    && 0 <= i <= |s| - |r|
    && r == s[i..i + |r|]
    && SpaceBetween(s, 0, i)
    && SpaceBetween(s, i + |r|, |s|)
  }

  /**
   * `s.trim()`: the part of `s` between its leading and trailing white space.
   * It is empty exactly when `s` is all white space, and otherwise starts and
   * ends with a character that is not white space.
   */
  function Trim(s: string): (r: string)
    ensures exists i :: TrimmedAt(s, r, i)
    ensures r == "" <==> SpaceBetween(s, 0, |s|)
    ensures r != "" ==> !IsSpace(r[0]) && !IsSpace(r[|r| - 1])
  {
    var i := SkipSpace(s, 0);
    var j := SkipSpaceBack(s, i, |s|);
    assert TrimmedAt(s, s[i..j], i);
    assert i == j ==> SpaceBetween(s, 0, |s|);
    s[i..j]
  }

  /** `needle` occurs in `text` starting at position `i`. */
  predicate OccursAt(text: string, needle: string, i: int) {
    0 <= i && i + |needle| <= |text| && text[i..i + |needle|] == needle
  }

  /** `text.includes(needle)` on strings: `needle` occurs at some position of `text`. */
  function Contains(text: string, needle: string): (b: bool)
    ensures b <==> exists i :: OccursAt(text, needle, i)
  {
    if needle <= text then
      assert OccursAt(text, needle, 0);
      true
    else if text == [] then
      assert forall i :: !OccursAt(text, needle, i);
      false
    else
      var b := Contains(text[1..], needle);
      assert forall i :: OccursAt(text[1..], needle, i) <==> OccursAt(text, needle, i + 1) by {
        forall i ensures OccursAt(text[1..], needle, i) <==> OccursAt(text, needle, i + 1) {
          if 0 <= i && i + |needle| <= |text[1..]| {
            assert text[1..][i..i + |needle|] == text[i + 1..i + 1 + |needle|];
          }
        }
      }
      assert !OccursAt(text, needle, 0);
      assert b ==> exists i :: OccursAt(text, needle, i) by {
        if b {
          var i :| OccursAt(text[1..], needle, i);
          assert OccursAt(text, needle, i + 1);
        }
      }
      assert (exists i :: OccursAt(text, needle, i)) ==> b by {
        if exists i :: OccursAt(text, needle, i) {
          var i :| OccursAt(text, needle, i);
          assert OccursAt(text[1..], needle, i - 1);
        }
      }
      b
  }
}
