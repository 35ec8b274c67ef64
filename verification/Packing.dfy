/**
 The greedy packing of one worker, as a function of its memory and of the problem
 memories in packing order: passes over the problems are repeated, and a problem that
 fits in what is left gets one more instance. Memory is counted in integer units.
 */
module Packing {
  import opened Sorting

  predicate Positive(mems: seq<int>) {
    forall i :: 0 <= i < |mems| ==> mems[i] > 0
  }

  /** Memory left after `k` whole passes and the first `j` problems of the next pass. */
  function Left(mems: seq<int>, m: int, k: nat, j: nat): int
    requires j <= |mems|
    decreases k, j
  {
    if j > 0 then
      var r := Left(mems, m, k, j - 1);
      if r >= mems[j - 1] then r - mems[j - 1] else r
    else if k > 0 then Left(mems, m, k - 1, |mems|)
    else m
  }

  /** Pass `k` gives an instance to the problem at position `j`. */
  predicate Fits(mems: seq<int>, m: int, k: nat, j: nat)
    requires j < |mems|
  {
    Left(mems, m, k, j) >= mems[j]
  }

  /** Instances given to position `i` by `k` whole passes and the first `j` problems of the next. */
  function Count(mems: seq<int>, m: int, k: nat, j: nat, i: nat): nat
    requires j <= |mems|
    decreases k, j
  {
    if j > 0 then Count(mems, m, k, j - 1, i) + (if i == j - 1 && Fits(mems, m, k, j - 1) then 1 else 0)
    else if k > 0 then Count(mems, m, k - 1, |mems|, i)
    else 0
  }

  /** Pass `k` places something. */
  predicate Productive(mems: seq<int>, m: int, k: nat) {
    Left(mems, m, k + 1, 0) < Left(mems, m, k, 0)
  }

  lemma {:induction false} LeftShrinks(mems: seq<int>, m: int, k: nat, j: nat, k': nat, j': nat)
    requires Positive(mems) && j <= |mems| && j' <= |mems|
    requires k < k' || (k == k' && j <= j')
    ensures Left(mems, m, k', j') <= Left(mems, m, k, j)
    decreases k', j'
  {
    if k == k' && j == j' {
    } else if j' > 0 {
      LeftShrinks(mems, m, k, j, k', j' - 1);
    } else {
      LeftShrinks(mems, m, k, j, k' - 1, |mems|);
    }
  }

  lemma {:induction false} LeftStaysNonNegative(mems: seq<int>, m: int, k: nat, j: nat)
    requires j <= |mems| && m >= 0
    ensures Left(mems, m, k, j) >= 0
    decreases k, j
  {
    if j == 0 && k == 0 {
    } else if j > 0 {
      LeftStaysNonNegative(mems, m, k, j - 1);
    } else {
      LeftStaysNonNegative(mems, m, k - 1, |mems|);
    }
  }

  /** A worker with no memory left is passed over: the `continue` of the loop changes nothing. */
  lemma {:induction false} NothingFitsInNothing(mems: seq<int>, m: int, k: nat, j: nat, i: nat)
    requires Positive(mems) && j <= |mems|
    requires Left(mems, m, k, 0) <= 0
    ensures Left(mems, m, k, j) == Left(mems, m, k, 0)
    ensures Count(mems, m, k, j, i) == Count(mems, m, k, 0, i)
    decreases j
  {
    if j == 0 {
    } else {
      NothingFitsInNothing(mems, m, k, j - 1, i);
    }
  }

  /** A problem that once fails to fit never fits again. */
  lemma {:induction false} MisfitForever(mems: seq<int>, m: int, k: nat, k': nat, j: nat)
    requires Positive(mems) && j < |mems| && k <= k'
    requires !Fits(mems, m, k, j)
    ensures !Fits(mems, m, k', j)
  {
    LeftShrinks(mems, m, k, j, k', j);
  }

  /** One pass gives position `i` at most one instance, and exactly when it fits. */
  lemma {:induction false} PassCount(mems: seq<int>, m: int, k: nat, j: nat, i: nat)
    requires j <= |mems| && i < |mems|
    ensures Count(mems, m, k, j, i) == Count(mems, m, k, 0, i) + (if i < j && Fits(mems, m, k, i) then 1 else 0)
    decreases j
  {
    if j == 0 {
    } else {
      PassCount(mems, m, k, j - 1, i);
    }
  }

  /** The passes that give position `i` an instance come first, so `Count` also says which they are. */
  lemma {:induction false} CountIsPrefix(mems: seq<int>, m: int, k: nat, i: nat)
    requires Positive(mems) && i < |mems|
    ensures Count(mems, m, k, 0, i) <= k
    ensures forall k' :: 0 <= k' < k ==> (Fits(mems, m, k', i) <==> k' < Count(mems, m, k, 0, i))
    decreases k
  {
    if k == 0 {
    } else {
      CountIsPrefix(mems, m, k - 1, i);
      PassCount(mems, m, k - 1, |mems|, i);
      if Fits(mems, m, k - 1, i) {
        var c := Count(mems, m, k - 1, 0, i);
        if c < k - 1 {
          MisfitForever(mems, m, c, k - 1, i);
          assert false;
        }
      }
    }
  }

  /** An unproductive pass is a pass in which nothing fits, and nothing fits in any later one. */
  lemma {:induction false} UnproductivePass(mems: seq<int>, m: int, k: nat, k': nat, j: nat)
    requires Positive(mems) && j < |mems| && k <= k'
    requires !Productive(mems, m, k)
    ensures !Fits(mems, m, k', j)
    ensures Left(mems, m, k, j) == Left(mems, m, k, 0) < mems[j]
  {
    assert Left(mems, m, k + 1, 0) == Left(mems, m, k, |mems|);
    LeftShrinks(mems, m, k, 0, k, j);
    LeftShrinks(mems, m, k, j, k, |mems|);
    LeftShrinks(mems, m, k, j + 1, k, |mems|);
    assert !Fits(mems, m, k, j);
    MisfitForever(mems, m, k, k', j);
  }

  /** In a productive pass some position gets an instance. */
  lemma {:induction false} ProductivePass(mems: seq<int>, m: int, k: nat, j: nat) returns (i: nat)
    requires Positive(mems) && j <= |mems|
    requires Left(mems, m, k, j) < Left(mems, m, k, 0)
    ensures i < j && Fits(mems, m, k, i)
    ensures Left(mems, m, k, j) <= Left(mems, m, k, 0) - mems[i]
    decreases j
  {
    if Fits(mems, m, k, j - 1) {
      i := j - 1;
      LeftShrinks(mems, m, k, 0, k, j - 1);
    } else {
      i := ProductivePass(mems, m, k, j - 1);
    }
  }

  /** The number of productive passes that follow pass `k` without a break. */
  function PassesFrom(mems: seq<int>, m: int, k: nat): (n: nat)
    requires Positive(mems)
    ensures forall k' :: k <= k' < k + n ==> Productive(mems, m, k')
    ensures !Productive(mems, m, k + n)
    decreases Left(mems, m, k, 0)
  {
    if Productive(mems, m, k) then
      assert Left(mems, m, k, 0) >= 0 by {
        var i := ProductivePass(mems, m, k, |mems|);
        LeftShrinks(mems, m, k, 0, k, i);
      }
      1 + PassesFrom(mems, m, k + 1)
    else 0
  }

  /** The number of passes that place something on the worker. */
  function Passes(mems: seq<int>, m: int): nat
    requires Positive(mems)
  {
    PassesFrom(mems, m, 0)
  }

  /** Instances of the problem at position `i` once the worker is packed. */
  function Final(mems: seq<int>, m: int, i: nat): nat
    requires Positive(mems)
  {
    Count(mems, m, Passes(mems, m), 0, i)
  }

  /** Memory of the worker that stays unallocated. */
  function Rest(mems: seq<int>, m: int): int
    requires Positive(mems)
  {
    Left(mems, m, Passes(mems, m), 0)
  }

  /** More passes change nothing once the worker is packed. */
  lemma {:induction false} Stable(mems: seq<int>, m: int, k: nat, j: nat, i: nat)
    requires Positive(mems) && j <= |mems| && Passes(mems, m) <= k
    ensures Count(mems, m, k, j, i) == Final(mems, m, i)
    ensures Left(mems, m, k, j) == Rest(mems, m)
    decreases k, j
  {
    if j == 0 && k == Passes(mems, m) {
    } else if j > 0 {
      Stable(mems, m, k, j - 1, i);
      UnproductivePass(mems, m, Passes(mems, m), k, j - 1);
    } else {
      Stable(mems, m, k - 1, |mems|, i);
    }
  }

  /** The productive passes are exactly the first `Passes` ones. */
  lemma {:induction false} ProductivePrefix(mems: seq<int>, m: int, k: nat)
    requires Positive(mems)
    ensures Productive(mems, m, k) <==> k < Passes(mems, m)
  {
    if k >= Passes(mems, m) {
      Stable(mems, m, k, 0, 0);
      Stable(mems, m, k + 1, 0, 0);
    }
  }

  // ---- Capacity -----------------------------------------------------------------------

  /** Memory used by the first `n` positions after `k` passes and `j` problems. */
  function Used(mems: seq<int>, m: int, k: nat, j: nat, n: nat): int
    requires j <= |mems| && n <= |mems|
  {
    if n == 0 then 0 else Used(mems, m, k, j, n - 1) + Count(mems, m, k, j, n - 1) * mems[n - 1]
  }

  lemma {:induction false} UsedSkip(mems: seq<int>, m: int, k: nat, j: nat, n: nat)
    requires 0 < j <= |mems| && n <= |mems|
    ensures Used(mems, m, k, j, n) ==
            Used(mems, m, k, j - 1, n) + (if j - 1 < n && Fits(mems, m, k, j - 1) then mems[j - 1] else 0)
    decreases n
  {
    if n == 0 {
    } else {
      UsedSkip(mems, m, k, j, n - 1);
      if n == j && Fits(mems, m, k, j - 1) {
        assert Count(mems, m, k, j, n - 1) == Count(mems, m, k, j - 1, n - 1) + 1;
        var c := Count(mems, m, k, j - 1, n - 1);
        assert (c + 1) * mems[n - 1] == c * mems[n - 1] + mems[n - 1];
      } else {
        assert Count(mems, m, k, j, n - 1) == Count(mems, m, k, j - 1, n - 1);
      }
    }
  }

  lemma {:induction false} UsedNextPass(mems: seq<int>, m: int, k: nat, n: nat)
    requires k > 0 && n <= |mems|
    ensures Used(mems, m, k, 0, n) == Used(mems, m, k - 1, |mems|, n)
    decreases n
  {
    if n == 0 {
    } else {
      UsedNextPass(mems, m, k, n - 1);
      assert Count(mems, m, k, 0, n - 1) == Count(mems, m, k - 1, |mems|, n - 1);
    }
  }

  lemma {:induction false} UsedNothing(mems: seq<int>, m: int, n: nat)
    requires n <= |mems|
    ensures Used(mems, m, 0, 0, n) == 0
    decreases n
  {
    if n == 0 {
    } else {
      UsedNothing(mems, m, n - 1);
      assert Count(mems, m, 0, 0, n - 1) == 0;
    }
  }

  /** At every point of the loop the worker's memory is what is left plus what its instances use. */
  lemma {:induction false} Conservation(mems: seq<int>, m: int, k: nat, j: nat)
    requires j <= |mems|
    ensures m == Left(mems, m, k, j) + Used(mems, m, k, j, |mems|)
    decreases k, j
  {
    if j > 0 {
      Conservation(mems, m, k, j - 1);
      UsedSkip(mems, m, k, j, |mems|);
    } else if k > 0 {
      Conservation(mems, m, k - 1, |mems|);
      UsedNextPass(mems, m, k, |mems|);
    } else {
      UsedNothing(mems, m, |mems|);
    }
  }

  /** Memory used by the packed worker. */
  function Packed(mems: seq<int>, m: int): int
    requires Positive(mems)
  {
    Used(mems, m, Passes(mems, m), 0, |mems|)
  }

  /** A packed worker is never over its memory, and no further instance of any problem fits. */
  lemma {:induction false} Saturated(mems: seq<int>, m: int)
    requires Positive(mems)
    ensures m == Rest(mems, m) + Packed(mems, m)
    ensures m >= 0 ==> 0 <= Packed(mems, m) <= m
    ensures forall i :: 0 <= i < |mems| ==> Rest(mems, m) < mems[i]
  {
    Conservation(mems, m, Passes(mems, m), 0);
    LeftShrinks(mems, m, 0, 0, Passes(mems, m), 0);
    if m >= 0 { LeftStaysNonNegative(mems, m, Passes(mems, m), 0); }
    forall i | 0 <= i < |mems|
      ensures Rest(mems, m) < mems[i]
    {
      UnproductivePass(mems, m, Passes(mems, m), Passes(mems, m), i);
    }
  }

  /** If any problem fits in the whole worker, more than half of the worker is allocated. */
  lemma {:induction false} HalfUtilised(mems: seq<int>, m: int, i: nat)
    requires Positive(mems) && i < |mems|
    ensures mems[i] <= m ==> 2 * Packed(mems, m) > m
    ensures mems[i] > m ==> Final(mems, m, i) == 0
  {
    Saturated(mems, m);
    if mems[i] <= m {
      ProductivePrefix(mems, m, 0);
      var i0 := ProductivePass(mems, m, 0, |mems|);
      LeftShrinks(mems, m, 1, 0, Passes(mems, m), 0);
      assert Rest(mems, m) < mems[i0];
    } else {
      LeftShrinks(mems, m, 0, 0, 0, i);
      CountIsPrefix(mems, m, Passes(mems, m), i);
      assert !Fits(mems, m, 0, i);
    }
  }

  // ---- Fairness -----------------------------------------------------------------------

  /** A problem never gets more than one instance more than a problem that needs no more memory. */
  lemma {:induction false} Fair(mems: seq<int>, m: int, big: nat, small: nat)
    requires Positive(mems) && big < |mems| && small < |mems|
    requires mems[big] >= mems[small]
    ensures Final(mems, m, big) <= Final(mems, m, small) + 1
  {
    var k := Passes(mems, m);
    CountIsPrefix(mems, m, k, big);
    CountIsPrefix(mems, m, k, small);
    var s := Final(mems, m, small);
    if Final(mems, m, big) > s + 1 {
      assert Fits(mems, m, s + 1, big);
      assert !Fits(mems, m, s, small);
      LeftShrinks(mems, m, s, small, s + 1, big);
      assert false;
    }
  }

  function Sum(mems: seq<int>, n: nat): int
    requires n <= |mems|
  {
    if n == 0 then 0 else Sum(mems, n - 1) + mems[n - 1]
  }

  lemma {:induction false} SumGrows(mems: seq<int>, n: nat, n': nat)
    requires Positive(mems) && n <= n' <= |mems|
    ensures 0 <= Sum(mems, n) <= Sum(mems, n')
    decreases n'
  {
    if n == n' && n == 0 {
    } else if n < n' {
      SumGrows(mems, n, n' - 1);
    } else {
      SumGrows(mems, n - 1, n - 1);
    }
  }

  /** While all problems together still fit, a pass serves every one of them. */
  lemma {:induction false} FullPass(mems: seq<int>, m: int, k: nat, j: nat)
    requires Positive(mems) && j <= |mems|
    requires Left(mems, m, k, 0) >= Sum(mems, |mems|)
    ensures Left(mems, m, k, j) == Left(mems, m, k, 0) - Sum(mems, j)
    ensures j < |mems| ==> Fits(mems, m, k, j)
    decreases j
  {
    if j == 0 {
    } else {
      FullPass(mems, m, k, j - 1);
    }
    if j < |mems| {
      SumGrows(mems, j + 1, |mems|);
    }
  }

  lemma {:induction false} FullPasses(mems: seq<int>, m: int, k: nat)
    requires Positive(mems)
    requires k * Sum(mems, |mems|) <= m
    ensures Left(mems, m, k, 0) == m - k * Sum(mems, |mems|)
    decreases k
  {
    if k == 0 {
    } else {
      var total := Sum(mems, |mems|);
      SumGrows(mems, 0, |mems|);
      assert k * total == (k - 1) * total + total;
      FullPasses(mems, m, k - 1);
      FullPass(mems, m, k - 1, |mems|);
    }
  }

  /** Every problem gets at least as many instances as whole sets of all problems fit in the worker. */
  lemma {:induction false} FairShare(mems: seq<int>, m: int, sets: nat, i: nat)
    requires Positive(mems) && i < |mems|
    requires sets * Sum(mems, |mems|) <= m
    ensures sets <= Final(mems, m, i)
  {
    if sets > 0 {
      var total, k := Sum(mems, |mems|), sets - 1;
      SumGrows(mems, 0, |mems|);
      assert sets * total == k * total + total;
      FullPasses(mems, m, k);
      FullPass(mems, m, k, i);
      if Passes(mems, m) <= k {
        UnproductivePass(mems, m, Passes(mems, m), k, i);
        assert false;
      }
      CountIsPrefix(mems, m, Passes(mems, m), i);
    }
  }

  // ---- Number of passes ---------------------------------------------------------------

  /** The productive passes are as many as the instances of the most replicated problem. */
  lemma {:induction false} PassesIsLargestCount(mems: seq<int>, m: int)
    requires Positive(mems)
    ensures forall i :: 0 <= i < |mems| ==> Final(mems, m, i) <= Passes(mems, m)
    ensures Passes(mems, m) > 0 ==> exists i :: 0 <= i < |mems| && Final(mems, m, i) == Passes(mems, m)
  {
    var k := Passes(mems, m);
    forall i | 0 <= i < |mems|
      ensures Final(mems, m, i) <= k
    {
      CountIsPrefix(mems, m, k, i);
    }
    if k > 0 {
      ProductivePrefix(mems, m, k - 1);
      var i := ProductivePass(mems, m, k - 1, |mems|);
      CountIsPrefix(mems, m, k, i);
      assert Final(mems, m, i) == k;
    }
  }

  lemma {:induction false} PassesCost(mems: seq<int>, m: int, least: nat, k: nat)
    requires Positive(mems) && k <= Passes(mems, m)
    requires forall i :: 0 <= i < |mems| ==> least <= mems[i]
    ensures Left(mems, m, k, 0) <= m - k * least
    ensures k > 0 ==> Left(mems, m, k, 0) >= 0
    decreases k
  {
    if k == 0 {
    } else {
      PassesCost(mems, m, least, k - 1);
      ProductivePrefix(mems, m, k - 1);
      var i := ProductivePass(mems, m, k - 1, |mems|);
      LeftShrinks(mems, m, 0, 0, k - 1, i);
      LeftStaysNonNegative(mems, m, k, 0);
      assert k * least == (k - 1) * least + least;
    }
  }

  /** With memory `m` and a smallest problem of `least` units there are at most `m / least` productive passes. */
  lemma {:induction false} PassBound(mems: seq<int>, m: int, least: nat)
    requires Positive(mems) && least > 0
    requires forall i :: 0 <= i < |mems| ==> least <= mems[i]
    ensures m < 0 ==> Passes(mems, m) == 0
    ensures m >= 0 ==> Passes(mems, m) <= m / least
  {
    var k := Passes(mems, m);
    PassesCost(mems, m, least, k);
    if k > 0 {
      ProductivePrefix(mems, m, 0);
      var i := ProductivePass(mems, m, 0, |mems|);
      LeftShrinks(mems, m, 0, 0, 0, i);
      AtMostQuotient(k, least, m);
    }
  }

  lemma {:induction false} AtMostQuotient(k: nat, d: nat, m: nat)
    requires d > 0 && k * d <= m
    ensures k <= m / d
  {
    var q := m / d;
    assert m < (q + 1) * d;
    if k > q {
      MulMonotone(q + 1, k, d);
    }
  }

  lemma {:induction false} MulMonotone(a: nat, b: nat, d: nat)
    requires a <= b
    ensures a * d <= b * d
  {
    assert b * d == a * d + (b - a) * d;
  }

  // ---- Ties in the sort ---------------------------------------------------------------

  ghost predicate Descending(mems: seq<int>) {
    DescendingBy((m: int) => m, mems)
  }

  lemma {:induction false} DescendingMeans(mems: seq<int>)
    ensures Descending(mems) <==> forall i, j :: 0 <= i < j < |mems| ==> mems[i] >= mems[j]
  {
    var key := (m: int) => m;
    assert forall i :: 0 <= i < |mems| ==> key(mems[i]) == mems[i];
  }

  lemma {:induction false} LargestHead(a: seq<int>, b: seq<int>)
    requires Descending(a) && multiset(a) == multiset(b) && |a| > 0 && |b| > 0
    ensures b[0] <= a[0]
  {
    DescendingHead((m: int) => m, a);
    assert b[0] in multiset(b);
  }

  lemma {:induction false} DescendingTail(a: seq<int>)
    requires Descending(a) && |a| > 0
    ensures Descending(a[1..]) && a == [a[0]] + a[1..] && multiset(a[1..]) == multiset(a) - multiset{a[0]}
  {
    DescendingMeans(a);
    DescendingMeans(a[1..]);
    assert a == [a[0]] + a[1..];
  }

  /** A multiset of memories has one descending order, so ties cannot change the counts by position. */
  lemma {:induction false} OneDescendingOrder(a: seq<int>, b: seq<int>)
    requires Descending(a) && Descending(b) && multiset(a) == multiset(b)
    ensures a == b
    decreases |a|
  {
    assert |a| == |multiset(a)| == |multiset(b)| == |b|;
    if a == [] {
    } else {
      LargestHead(a, b);
      LargestHead(b, a);
      DescendingTail(a);
      DescendingTail(b);
      hide *;
      OneDescendingOrder(a[1..], b[1..]);
    }
  }
}
