/** Sequences taken apart from the end, and the size of a subset. */
module Sequences {

  lemma Unsnoc<T>(xs: seq<T>) returns (init: seq<T>, last: T)
    requires xs != []
    ensures xs == init + [last] && |init| == |xs| - 1
  {
    init, last := xs[..|xs| - 1], xs[|xs| - 1];
  }

  lemma SubsetSize<T>(a: set<T>, b: set<T>)
    requires a <= b
    ensures |a| <= |b|
  {
    assert b == a + (b - a);
  }
}
