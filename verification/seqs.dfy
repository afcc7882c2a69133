/**
 Order-preserving selection from a sequence, shared by the catalogue filter
 and the contract readers that skip failed reads.
 */
module Seqs {

  /** `xs` can be obtained from `ys` by deleting elements. */
  predicate IsSubsequence<T(==)>(xs: seq<T>, ys: seq<T>)
    decreases |ys|
  {
    if ys == [] then xs == []
    else
      || (xs != [] && xs[0] == ys[0] && IsSubsequence(xs[1..], ys[1..]))
      || IsSubsequence(xs, ys[1..])
  }

  /** Keeping the head of `ys` extends a selection from its tail. */
  lemma SubsequenceCons<T>(y: T, xs: seq<T>, ys: seq<T>)
    requires IsSubsequence(xs, ys)
    ensures IsSubsequence([y] + xs, [y] + ys)
  {
    assert ([y] + xs)[1..] == xs;
    assert ([y] + ys)[1..] == ys;
  }

  /** Dropping the head of `ys` keeps a selection from its tail. */
  lemma SubsequenceSkip<T>(y: T, xs: seq<T>, ys: seq<T>)
    requires IsSubsequence(xs, ys)
    ensures IsSubsequence(xs, [y] + ys)
  {
    assert ([y] + ys)[1..] == ys;
  }
}
