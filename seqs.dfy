/** Sequence facts shared by the identity searches and the layer-index keys. */
module Seqs {

  /** Position of the first occurrence of `x` in `s` (Python's `next(i for ... if l is x)`). */
  function FirstIndex<T(==)>(s: seq<T>, x: T): (i: nat)
    requires x in s
    ensures i < |s| && s[i] == x
    ensures x !in s[..i]
  {
    if s[0] == x then 0
    else
      assert s == [s[0]] + s[1..];
      var j := FirstIndex(s[1..], x);
      assert s[..j + 1] == [s[0]] + s[1..][..j];
      j + 1
  }

  /** The first occurrence is the only position that holds `x` with no `x` before it. */
  lemma FirstIndexUnique<T>(s: seq<T>, x: T, i: nat)
    requires i < |s| && s[i] == x && x !in s[..i]
    ensures FirstIndex(s, x) == i
  {
  }

  /** Every element is smaller than the next one: a key of layer indices. */
  predicate StrictlyAscending(s: seq<int>)
  {
    forall i, j :: 0 <= i < j < |s| ==> s[i] < s[j]
  }

  /** In a strictly ascending sequence a value sits at one position only. */
  lemma AscendingInjective(s: seq<int>, i: nat, j: nat)
    requires StrictlyAscending(s)
    requires i < |s| && j < |s| && s[i] == s[j]
    ensures i == j
  {
  }
}
