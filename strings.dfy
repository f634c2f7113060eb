/** Text helpers shared by the integration suite and the champion grids: substring search
    (Python's `in` on a str, JavaScript's `String.prototype.includes`) and lowercasing,
    restricted to ASCII letters. */
module Strings {

  /** `needle` occurs in `s` as a contiguous block. */
  predicate Contains(s: string, needle: string)
    ensures Contains(s, needle) ==> |needle| <= |s|
    decreases |s|
  {
    needle <= s || (s != [] && Contains(s[1..], needle))
  }

  /** `needle` is the slice of `s` that starts at `i`. */
  predicate OccursAt(s: string, needle: string, i: int)
  {
    0 <= i && i + |needle| <= |s| && s[i..i + |needle|] == needle
  }

  /** `Contains` is the usual definition: `needle` is the slice of `s` at some position. */
  lemma {:induction false} ContainsIff(s: string, needle: string)
    ensures Contains(s, needle) <==> exists i :: OccursAt(s, needle, i)
    decreases |s|
  {
    var n := |needle|;
    if needle <= s {
      assert OccursAt(s, needle, 0);
    } else if s == [] {
      // the empty needle is a prefix of every string, so here no slice can match
    } else {
      ContainsIff(s[1..], needle);
      if Contains(s, needle) {
        var j :| OccursAt(s[1..], needle, j);
        assert s[j + 1..j + 1 + n] == s[1..][j..j + n];
        assert OccursAt(s, needle, j + 1);
      }
      if exists i :: OccursAt(s, needle, i) {
        var i :| OccursAt(s, needle, i);
        // `i` is not 0, as `needle` is not a prefix of `s`
        assert s[1..][i - 1..i - 1 + n] == s[i..i + n];
        assert OccursAt(s[1..], needle, i - 1);
      }
    }
  }

  function LowerChar(c: char): (d: char)
    ensures !('A' <= d <= 'Z')
    ensures !('A' <= c <= 'Z') ==> d == c
  {
    if 'A' <= c <= 'Z' then (c as int - 'A' as int + 'a' as int) as char else c
  }

  function Lower(s: string): (r: string)
    ensures |r| == |s|
    ensures forall i :: 0 <= i < |s| ==> r[i] == LowerChar(s[i])
  {
    if s == [] then [] else [LowerChar(s[0])] + Lower(s[1..])
  }

  /** Lowercasing twice is lowercasing once. */
  lemma LowerIdempotent(s: string)
    ensures Lower(Lower(s)) == Lower(s)
  {
  }
}
