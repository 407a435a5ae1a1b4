/** Searching, inserting into and erasing from sequences the way the C++ code
    does with `std::find`, `vector::insert` and `vector::erase`. */
module Sequences {

  ghost predicate Differ<T>(xs: seq<T>, i: int, j: int) {
    0 <= i < j < |xs| ==> xs[i] != xs[j]
  }

  /** No element twice. (Stated through Differ, so that it is used where asked for.) */
  ghost predicate Distinct<T>(xs: seq<T>) {
    forall i, j :: Differ(xs, i, j)
  }

  lemma DistinctAt<T>(xs: seq<T>, i: nat, j: nat)
    requires Distinct(xs) && i < |xs| && j < |xs| && i != j
    ensures xs[i] != xs[j]
  {
    assert Differ(xs, i, j) && Differ(xs, j, i);
  }

  ghost predicate Permutes<T>(xs: seq<T>, ys: seq<T>) {
    multiset(xs) == multiset(ys)
  }

  function IndexFrom<T(==)>(xs: seq<T>, x: T, i: nat): (k: nat)
    requires i <= |xs|
    ensures i <= k <= |xs|
    ensures k < |xs| ==> xs[k] == x
    decreases |xs| - i
  {
    if i == |xs| || xs[i] == x then i else IndexFrom(xs, x, i + 1)
  }

  lemma {:induction false} IndexFromFirst<T>(xs: seq<T>, x: T, i: nat)
    requires i <= |xs|
    ensures forall j :: i <= j < IndexFrom(xs, x, i) ==> xs[j] != x
    decreases |xs| - i
  {
    if i < |xs| && xs[i] != x { IndexFromFirst(xs, x, i + 1); }
  }

  /** The index of the first `x`, or `|xs|` (the end iterator) when there is none. */
  function IndexOf<T(==)>(xs: seq<T>, x: T): (k: nat)
    ensures k <= |xs|
    ensures k < |xs| ==> xs[k] == x
    ensures k < |xs| <==> x in xs
  {
    IndexFromFirst(xs, x, 0);
    IndexFrom(xs, x, 0)
  }

  lemma IndexOfFirst<T>(xs: seq<T>, x: T)
    ensures forall i :: 0 <= i < IndexOf(xs, x) ==> xs[i] != x
  {
    IndexFromFirst(xs, x, 0);
  }

  lemma IndexOfIs<T>(xs: seq<T>, x: T, k: nat)
    requires k < |xs| && xs[k] == x
    requires Distinct(xs)
    ensures IndexOf(xs, x) == k
  {
    IndexOfFirst(xs, x);
    assert Differ(xs, IndexOf(xs, x), k);
  }

  function InsertAt<T>(xs: seq<T>, k: nat, x: T): (ys: seq<T>)
    requires k <= |xs|
    ensures |ys| == |xs| + 1 && ys[k] == x
  {
    xs[..k] + [x] + xs[k..]
  }

  lemma InsertCounts<T>(xs: seq<T>, k: nat, x: T)
    requires k <= |xs|
    ensures multiset(InsertAt(xs, k, x)) == multiset(xs) + multiset{x}
  {
    assert xs == xs[..k] + xs[k..];
  }

  function EraseAt<T>(xs: seq<T>, k: nat): (ys: seq<T>)
    requires k < |xs|
    ensures |ys| == |xs| - 1
  {
    xs[..k] + xs[k + 1..]
  }

  lemma EraseCounts<T>(xs: seq<T>, x: T)
    requires x in xs
    ensures multiset(Erase(xs, x)) == multiset(xs) - multiset{x}
  {
    var k := IndexOf(xs, x);
    assert xs == xs[..k] + [x] + xs[k + 1..];
  }

  /** `xs` without its first `x`. */
  function Erase<T(==)>(xs: seq<T>, x: T): (ys: seq<T>)
    requires x in xs
    ensures |ys| == |xs| - 1
  {
    EraseAt(xs, IndexOf(xs, x))
  }

  lemma InsertKeepsDistinct<T>(xs: seq<T>, k: nat, x: T)
    requires Distinct(xs) && x !in xs && k <= |xs|
    ensures Distinct(InsertAt(xs, k, x))
    ensures forall y :: y in InsertAt(xs, k, x) <==> y == x || y in xs
  {
    var ys := InsertAt(xs, k, x);
    forall i, j ensures Differ(ys, i, j) {
      assert Differ(xs, if i < k then i else i - 1, if j < k then j else j - 1);
    }
    InsertCounts(xs, k, x);
    forall y ensures y in ys <==> y == x || y in xs {
      assert y in multiset(ys) <==> y in multiset(xs) + multiset{x};
    }
  }

  lemma EraseKeepsDistinct<T>(xs: seq<T>, x: T)
    requires Distinct(xs) && x in xs
    ensures Distinct(Erase(xs, x))
    ensures forall y :: y in Erase(xs, x) <==> y != x && y in xs
  {
    var k, ys := IndexOf(xs, x), Erase(xs, x);
    forall i, j ensures Differ(ys, i, j) {
      assert Differ(xs, if i < k then i else i + 1, if j < k then j else j + 1);
    }
    DistinctCount(xs, x);
    EraseCounts(xs, x);
    forall y ensures y in ys <==> y != x && y in xs {
      assert y in multiset(ys) <==> y in multiset(xs) - multiset{x};
    }
  }

  /** Two permutations of each other have the same members and length. */
  lemma PermutesMembers<T>(xs: seq<T>, ys: seq<T>)
    requires Permutes(xs, ys)
    ensures |xs| == |ys|
    ensures forall x :: x in xs <==> x in ys
  {
    assert |multiset(xs)| == |multiset(ys)|;
    forall x ensures x in xs <==> x in ys {
      assert x in multiset(xs) <==> x in multiset(ys);
    }
  }

  lemma PermutesDistinct<T>(xs: seq<T>, ys: seq<T>)
    requires Permutes(xs, ys) && Distinct(ys)
    ensures Distinct(xs)
  {
    forall i, j ensures Differ(xs, i, j) {
      if 0 <= i < j < |xs| && xs[i] == xs[j] {
        var x := xs[i];
        assert xs == xs[..i] + [x] + xs[i + 1..j] + [x] + xs[j + 1..];
        assert multiset(xs)[x] >= 2;
        DistinctCount(ys, x);
        assert false;
      }
    }
  }

  lemma DistinctCount<T>(xs: seq<T>, x: T)
    requires Distinct(xs)
    ensures multiset(xs)[x] <= 1
  {
    if x in xs {
      var k := IndexOf(xs, x);
      assert xs == xs[..k] + [x] + xs[k + 1..];
      assert x !in xs[..k] && x !in xs[k + 1..] by {
        forall i: nat | i < |xs| && i != k ensures xs[i] != x { DistinctAt(xs, i, k); }
      }
    }
  }

  /** The partner of element i in a shuffle. */
  function Pick(picks: seq<nat>, i: nat): (j: nat)
    requires i < |picks|
    ensures j <= i
  {
    picks[i] % (i + 1)
  }

  function Swap<T>(xs: seq<T>, i: nat, j: nat): (ys: seq<T>)
    requires i < |xs| && j < |xs|
    ensures |ys| == |xs|
  {
    xs[i := xs[j]][j := xs[i]]
  }

  /** `std::random_shuffle`: for i = 1, 2, ... swap element i with element
      `picks[i] % (i + 1)`. Every run of the generator is some `picks`. */
  function ShuffleBy<T>(xs: seq<T>, picks: seq<nat>, i: nat): (ys: seq<T>)
    requires |picks| == |xs|
    requires i <= |xs|
    ensures Permutes(ys, xs)
    decreases |xs| - i
  {
    if i == |xs| then xs
    else
      SwapPermutes(xs, i, Pick(picks, i));
      ShuffleBy(Swap(xs, i, Pick(picks, i)), picks, i + 1)
  }

  lemma SwapPermutes<T>(xs: seq<T>, i: nat, j: nat)
    requires i < |xs| && j < |xs|
    ensures Permutes(Swap(xs, i, j), xs)
  {
  }
}
