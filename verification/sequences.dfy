/** Facts about sequences that the sums of the model share. */
module Sequences {

  /** Taking the first element off one sequence and an equal element off a
      permutation of it leaves two permutations of each other. */
  lemma MultisetRemove<T>(xs: seq<T>, ys: seq<T>, k: nat)
    requires multiset(xs) == multiset(ys)
    requires 0 < |xs| && k < |ys| && ys[k] == xs[0]
    ensures multiset(xs[1..]) == multiset(ys[..k] + ys[k + 1..])
  {
    var x := xs[0];
    assert xs == [x] + xs[1..];
    assert ys == ys[..k] + [x] + ys[k + 1..];
    assert multiset(xs[1..]) == multiset(xs) - multiset{x};
    assert multiset(ys[..k] + ys[k + 1..]) == multiset(ys) - multiset{x};
  }

  /** A sequence is its prefix before `k`, its element at `k` and the rest. */
  lemma SplitAt<T>(ys: seq<T>, k: nat)
    requires k < |ys|
    ensures ys == ys[..k] + ([ys[k]] + ys[k + 1..])
  {
  }
}
