/**
 Python's substring test `needle in hay` on `str`: a case-sensitive search for
 a contiguous occurrence. The empty needle occurs in every string.
 */
module Text {

  /** `needle` occurs in `hay` starting at position `i`. */
  predicate OccursAt(hay: string, needle: string, i: int)
  {
    0 <= i && i + |needle| <= |hay| && hay[i..i + |needle|] == needle
  }

  /** Shifting the haystack by one character shifts every occurrence by one. */
  lemma ShiftOccurrence(hay: string, needle: string, i: int)
    requires |hay| > 0 && i >= 0
    ensures OccursAt(hay[1..], needle, i) <==> OccursAt(hay, needle, i + 1)
  {
    if i + |needle| <= |hay| - 1 {
      assert hay[1..][i..i + |needle|] == hay[i + 1..i + 1 + |needle|];
    }
  }

  /** `hay` begins with `needle`, compared character by character. */
  predicate StartsWith(hay: string, needle: string)
    ensures StartsWith(hay, needle) <==> OccursAt(hay, needle, 0)
    decreases |needle|
  {
    |needle| == 0 ||
    (|hay| > 0 && hay[0] == needle[0] && StartsWith(hay[1..], needle[1..]))
  }

  /** The substring test, trying each start position from the left. */
  function Contains(hay: string, needle: string): bool
    decreases |hay|
  {
    StartsWith(hay, needle) || (|hay| > 0 && Contains(hay[1..], needle))
  }

  /** `Contains` holds exactly when the needle occurs at some position. */
  lemma {:induction false} ContainsSpec(hay: string, needle: string)
    ensures Contains(hay, needle) <==> exists i :: OccursAt(hay, needle, i)
    decreases |hay|
  {
    if StartsWith(hay, needle) {
      assert OccursAt(hay, needle, 0);
    } else if |hay| == 0 {
      assert forall i :: !OccursAt(hay, needle, i);
    } else {
      ContainsSpec(hay[1..], needle);
      forall i | i >= 0
        ensures OccursAt(hay[1..], needle, i) <==> OccursAt(hay, needle, i + 1)
      {
        ShiftOccurrence(hay, needle, i);
      }
      if exists i :: OccursAt(hay, needle, i) {
        var i :| OccursAt(hay, needle, i);
        assert i >= 1;
        assert OccursAt(hay[1..], needle, i - 1);
      }
    }
  }
}
