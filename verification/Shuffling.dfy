/** `std::random_shuffle` can come to every order, and to nothing else. */
module Shuffling {
  import opened Sequences

  /** The order after the first `n` swaps. */
  function ShuffledTo<T>(xs: seq<T>, picks: seq<nat>, n: nat): (ys: seq<T>)
    requires n <= |xs| == |picks|
    ensures |ys| == |xs|
  {
    if n == 0 then xs else Swap(ShuffledTo(xs, picks, n - 1), n - 1, Pick(picks, n - 1))
  }

  lemma {:induction false} ShuffleGoesOn<T>(xs: seq<T>, picks: seq<nat>, n: nat)
    requires n <= |xs| == |picks|
    ensures ShuffleBy(xs, picks, 0) == ShuffleBy(ShuffledTo(xs, picks, n), picks, n)
  {
    hide Swap, Pick;
    if n > 0 { ShuffleGoesOn(xs, picks, n - 1); }
  }

  /** Later picks do not matter to earlier swaps. */
  lemma {:induction false} EarlierPicks<T>(xs: seq<T>, picks: seq<nat>, other: seq<nat>, n: nat)
    requires n <= |xs| == |picks| == |other| && picks[..n] == other[..n]
    ensures ShuffledTo(xs, picks, n) == ShuffledTo(xs, other, n)
  {
    if n > 0 {
      assert picks[..n][n - 1] == other[..n][n - 1];
      assert picks[..n - 1] == picks[..n][..n - 1] == other[..n - 1];
      EarlierPicks(xs, picks, other, n - 1);
      hide Swap;
    }
  }

  lemma SameFirst<T>(a: seq<T>, b: seq<T>, c: seq<T>)
    requires multiset(a + c) == multiset(b + c)
    ensures multiset(a) == multiset(b)
  {
    assert multiset(a + c) == multiset(a) + multiset(c) && multiset(b + c) == multiset(b) + multiset(c);
    forall x ensures multiset(a)[x] == multiset(b)[x] {
      assert (multiset(a) + multiset(c))[x] == (multiset(b) + multiset(c))[x];
    }
  }

  /** Where the element that the last swap put away has gone. */
  lemma FindAmongFirst<T>(xs: seq<T>, ys: seq<T>, n: nat) returns (j: nat)
    requires 0 < n <= |xs| == |ys| && Permutes(ys, xs) && ys[n..] == xs[n..]
    ensures j < n && ys[j] == xs[n - 1]
  {
    assert xs == xs[..n] + xs[n..] && ys == ys[..n] + ys[n..];
    SameFirst(ys[..n], xs[..n], xs[n..]);
    assert xs[..n][n - 1] in multiset(ys[..n]);
    j :| 0 <= j < n && ys[..n][j] == xs[n - 1];
  }

  lemma SwapBack<T>(xs: seq<T>, ys: seq<T>, n: nat, j: nat)
    requires j < n <= |xs| == |ys| && ys[j] == xs[n - 1] && ys[n..] == xs[n..]
    ensures Swap(ys, n - 1, j)[n - 1..] == xs[n - 1..]
    ensures Swap(Swap(ys, n - 1, j), n - 1, j) == ys
  {
    var zs := Swap(ys, n - 1, j);
    assert zs[n..] == ys[n..];
    assert zs[n - 1..] == [zs[n - 1]] + zs[n..] && xs[n - 1..] == [xs[n - 1]] + xs[n..];
  }

  lemma PickIs(picks: seq<nat>, i: nat)
    requires i < |picks| && picks[i] <= i
    ensures Pick(picks, i) == picks[i]
  {
  }

  lemma {:induction false} Reaches<T>(xs: seq<T>, ys: seq<T>, n: nat) returns (picks: seq<nat>)
    requires n <= |xs| == |ys| && Permutes(ys, xs) && ys[n..] == xs[n..]
    ensures |picks| == |xs| && ShuffledTo(xs, picks, n) == ys
    decreases n
  {
    if n == 0 {
      assert ys == ys[0..] && xs == xs[0..];
      picks := seq(|xs|, _ => 0);
    } else {
      var j := FindAmongFirst(xs, ys, n);
      var zs := Swap(ys, n - 1, j);
      SwapBack(xs, ys, n, j);
      SwapPermutes(ys, n - 1, j);
      hide Swap, Pick;
      var earlier := Reaches(xs, zs, n - 1);
      picks := earlier[n - 1 := j];
      EarlierPicks(xs, picks, earlier, n - 1);
      PickIs(picks, n - 1);
    }
  }

  /** With the right results of `rand()` a shuffle gives any order of the elements, and
      with whatever results it gives some order of them. */
  lemma ShuffleReachesIff<T>(xs: seq<T>, ys: seq<T>)
    ensures (exists picks: seq<nat> :: |picks| == |xs| && ShuffleBy(xs, picks, 0) == ys) <==> Permutes(ys, xs)
  {
    if Permutes(ys, xs) {
      PermutesMembers(ys, xs);
      assert ys[|xs|..] == xs[|xs|..];
      var picks := Reaches(xs, ys, |xs|);
      ShuffleGoesOn(xs, picks, |xs|);
      assert ShuffleBy(xs, picks, 0) == ys;
    }
  }
}
