/** Text helpers: the two string operations the attempt logic uses on page
    contents, Python's `str.lower()` and the substring test `needle in text`.
    Lower-casing is modelled on ASCII letters only. */
module Text {

  function LowerChar(c: char): char
  {
    if 'A' <= c <= 'Z' then (c as int + 32) as char else c
  }

  /** `s.lower()`: same length, every character lowered, no upper-case letter left. */
  function Lower(s: string): (r: string)
    ensures |r| == |s|
    ensures forall i :: 0 <= i < |s| ==> r[i] == LowerChar(s[i])
    ensures forall i :: 0 <= i < |r| ==> !('A' <= r[i] <= 'Z')
  {
    seq(|s|, i requires 0 <= i < |s| => LowerChar(s[i]))
  }

  predicate StartsWith(s: string, prefix: string)
  {
    |prefix| <= |s| && s[..|prefix|] == prefix
  }

  /** `needle in s`, scanning the start positions of `s` one by one. */
  predicate Contains(s: string, needle: string)
    decreases |s|
  {
    StartsWith(s, needle) || (s != [] && Contains(s[1..], needle))
  }

  /** `needle in s.lower()`, the form in which the browser code looks for
      page markers such as "neterror" and "log in". */
  predicate MentionsIgnoringCase(s: string, needle: string)
  {
    Contains(Lower(s), needle)
  }

  /** `needle` occurs in `s` starting at position `i`. */
  predicate OccursAt(s: string, needle: string, i: int)
  {
    0 <= i && i + |needle| <= |s| && s[i..i + |needle|] == needle
  }

  /** The scan finds the needle exactly when it occurs at some position. */
  lemma ContainsIffOccurs(s: string, needle: string)
    ensures Contains(s, needle) <==> exists i :: OccursAt(s, needle, i)
  {
    if Contains(s, needle) {
      var i := FoundOccurs(s, needle);
    }
    if exists i :: OccursAt(s, needle, i) {
      var i :| OccursAt(s, needle, i);
      OccurrenceFound(s, needle, i);
    }
  }

  /** A successful scan names a position where the needle occurs. */
  lemma {:induction false} FoundOccurs(s: string, needle: string) returns (i: int)
    requires Contains(s, needle)
    ensures OccursAt(s, needle, i)
    decreases |s|
  {
    if StartsWith(s, needle) {
      i := 0;
    } else {
      var j := FoundOccurs(s[1..], needle);
      assert s[j + 1..j + 1 + |needle|] == s[1..][j..j + |needle|];
      i := j + 1;
    }
  }

  /** The scan reaches every position where the needle occurs. */
  lemma {:induction false} OccurrenceFound(s: string, needle: string, i: int)
    requires OccursAt(s, needle, i)
    ensures Contains(s, needle)
    decreases |s|
  {
    if i > 0 {
      assert s[1..][i - 1..i - 1 + |needle|] == s[i..i + |needle|];
      OccurrenceFound(s[1..], needle, i - 1);
    }
  }

  lemma LowerSlice(s: string, i: int, j: int)
    requires 0 <= i <= j <= |s|
    ensures Lower(s)[i..j] == Lower(s[i..j])
  {
    var a, b := Lower(s)[i..j], Lower(s[i..j]);
    assert |a| == |b|;
    forall k | 0 <= k < |a|
      ensures a[k] == b[k]
    {
    }
    assert a == b;
  }

  /** Lowering the page makes the test case-insensitive: wherever `needle` occurs
      in `s`, in whatever case, its lowered form occurs in `s.lower()`. */
  lemma OccurrenceSurvivesLowering(s: string, needle: string)
    requires Contains(s, needle)
    ensures MentionsIgnoringCase(s, Lower(needle))
  {
    ContainsIffOccurs(s, needle);
    var i :| OccursAt(s, needle, i);
    LowerSlice(s, i, i + |needle|);
    assert OccursAt(Lower(s), Lower(needle), i);
    ContainsIffOccurs(Lower(s), Lower(needle));
  }
}
