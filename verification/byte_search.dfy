/**
 * Exact substring search over bytes, as the upload handler uses it: the first
 * offset of a needle in a haystack, or -1. Only the result is modelled, not
 * the skip-table algorithm that computes it.
 */
module ByteSearch {
  import opened Text

  /** `needle` occurs in `hay` starting at offset `i`. */
  predicate OccursAt(hay: Bytes, needle: Bytes, i: int) {
    0 <= i && i + |needle| <= |hay| && hay[i..i + |needle|] == needle
  }

  /** The first occurrence at or after `start`, or -1. */
  function IndexFrom(hay: Bytes, needle: Bytes, start: nat): (r: int)
    ensures r == -1 || (start <= r && OccursAt(hay, needle, r))
    ensures r == -1 ==> forall j :: start <= j ==> !OccursAt(hay, needle, j)
    ensures r != -1 ==> forall j :: start <= j < r ==> !OccursAt(hay, needle, j)
    decreases |hay| - start
  {
    if start + |needle| > |hay| then -1
    else if hay[start..start + |needle|] == needle then start
    else IndexFrom(hay, needle, start + 1)
  }

  /** `boyerMooreStringSearch(hay, needle)`: the first offset of `needle`, or -1 when it does not occur. */
  function IndexOf(hay: Bytes, needle: Bytes): (r: int)
    ensures r == -1 <==> forall j :: !OccursAt(hay, needle, j)
    ensures r != -1 ==> OccursAt(hay, needle, r) && forall j :: 0 <= j < r ==> !OccursAt(hay, needle, j)
  {
    IndexFrom(hay, needle, 0)
  }

  /** The offset found does not depend on bytes after the occurrence. */
  lemma {:induction false} IndexOfPrefix(hay: Bytes, more: Bytes, needle: Bytes)
    requires IndexOf(hay, needle) != -1
    ensures IndexOf(hay + more, needle) == IndexOf(hay, needle)
  {
    var r := IndexOf(hay, needle);
    var r' := IndexOf(hay + more, needle);
    assert (hay + more)[r..r + |needle|] == hay[r..r + |needle|];
    assert OccursAt(hay + more, needle, r);
    if r' < r {
      assert (hay + more)[r'..r' + |needle|] == hay[r'..r' + |needle|];
      assert OccursAt(hay, needle, r');
    }
  }
}
