/** Ascending sort of a sequence of lengths, the `sorted` a triangle uses to
    keep a canonical copy of its sides. Modelled as an insertion sort; only the
    result (an ascending permutation) matters, not the algorithm. */
module Sorting {

  predicate Ascending(xs: seq<real>) {
    forall i, j :: 0 <= i < j < |xs| ==> xs[i] <= xs[j]
  }

  /** Inserts `x` into an ascending sequence, keeping it ascending. */
  function Insert(x: real, xs: seq<real>): (r: seq<real>)
    requires Ascending(xs)
    ensures |r| == |xs| + 1
    ensures Ascending(r)
    ensures multiset(r) == multiset(xs) + multiset{x}
    ensures r[0] == (if xs == [] || x <= xs[0] then x else xs[0])
  {
    if xs == [] || x <= xs[0] then
      [x] + xs
    else
      assert xs == [xs[0]] + xs[1..];
      [xs[0]] + Insert(x, xs[1..])
  }

  /** The ascending permutation of `xs`. */
  function Sort(xs: seq<real>): (r: seq<real>)
    ensures |r| == |xs|
    ensures Ascending(r)
    ensures multiset(r) == multiset(xs)
  {
    if xs == [] then
      []
    else
      assert xs == [xs[0]] + xs[1..];
      Insert(xs[0], Sort(xs[1..]))
  }

  /** The head of an ascending sequence is below every element it holds. */
  lemma HeadIsLeast(xs: seq<real>, v: real)
    requires Ascending(xs)
    requires v in multiset(xs)
    ensures xs[0] <= v
  {
    assert v in xs;
    var k :| 0 <= k < |xs| && xs[k] == v;
    assert k == 0 || xs[0] <= xs[k];
  }

  /** Two ascending sequences holding the same elements are equal: the sorted
      copy is determined by the multiset of its inputs alone. */
  lemma {:induction false} AscendingUnique(xs: seq<real>, ys: seq<real>)
    requires Ascending(xs) && Ascending(ys)
    requires multiset(xs) == multiset(ys)
    ensures xs == ys
    decreases |xs|
  {
    assert |ys| == |multiset(ys)| == |multiset(xs)| == |xs|;
    if xs != [] {
      assert xs[0] in multiset(xs) && ys[0] in multiset(ys);
      HeadIsLeast(ys, xs[0]);
      HeadIsLeast(xs, ys[0]);
      assert xs[0] == ys[0];
      assert xs == [xs[0]] + xs[1..];
      assert ys == [ys[0]] + ys[1..];
      assert multiset(xs) == multiset{xs[0]} + multiset(xs[1..]);
      assert multiset(ys) == multiset{xs[0]} + multiset(ys[1..]);
      assert multiset(xs[1..]) == multiset(xs) - multiset{xs[0]};
      assert multiset(ys[1..]) == multiset(ys) - multiset{xs[0]};
      AscendingUnique(xs[1..], ys[1..]);
    }
  }
}
