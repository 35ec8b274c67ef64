/**
 When the packing loop ends, without assuming that problems need memory or that workers have any. A
 pass is quiet on a worker if it skips the worker or places nothing there; the loop ends with the
 first pass that is quiet on every worker.
 */
module Halting {
  import opened Packing

  /** Memory left before pass `k`: a worker with nothing left is skipped. */
  function Before(mems: seq<int>, m: int, k: nat): int {
    if k == 0 then m
    else
      var r := Before(mems, m, k - 1);
      if r <= 0 then r else Left(mems, r, 0, |mems|)
  }

  /** Pass `k` counts no change on a worker that started with memory `m`. */
  ghost predicate Quiet(mems: seq<int>, m: int, k: nat) {
    Before(mems, m, k) <= 0 || forall j :: 0 <= j < |mems| ==> !Fits(mems, Before(mems, m, k), 0, j)
  }

  ghost predicate QuietOnAll(mems: seq<int>, memories: seq<int>, k: nat) {
    forall w :: 0 <= w < |memories| ==> Quiet(mems, memories[w], k)
  }

  /** The packing loop ends. */
  ghost predicate Ends(mems: seq<int>, memories: seq<int>) {
    exists k: nat :: QuietOnAll(mems, memories, k)
  }

  lemma {:induction false} NothingFits(mems: seq<int>, r: int, j: nat)
    requires j <= |mems| && forall i :: 0 <= i < |mems| ==> !Fits(mems, r, 0, i)
    ensures Left(mems, r, 0, j) == r
    decreases j
  {
    if j == 0 {
    } else {
      NothingFits(mems, r, j - 1);
      assert !Fits(mems, r, 0, j - 1);
    }
  }

  /** A worker that is quiet once stays quiet, so the others can be waited for. */
  lemma {:induction false} QuietStays(mems: seq<int>, m: int, k: nat, k': nat)
    requires Quiet(mems, m, k) && k <= k'
    ensures Before(mems, m, k') == Before(mems, m, k) && Quiet(mems, m, k')
    decreases k'
  {
    if k == k' {
    } else {
      var last := k' - 1;
      QuietStays(mems, m, k, last);
      if Before(mems, m, last) > 0 { NothingFits(mems, Before(mems, m, last), |mems|); }
    }
  }

  /** With positive problem memories this is the packing of `Packing`. */
  lemma {:induction false} BeforeIsLeft(mems: seq<int>, m: int, k: nat)
    requires Positive(mems)
    ensures Before(mems, m, k) == Left(mems, m, k, 0)
    decreases k
  {
    if k == 0 {
    } else {
      var i := k - 1;
      BeforeIsLeft(mems, m, i);
      if Before(mems, m, i) <= 0 {
        NothingFitsInNothing(mems, m, i, |mems|, 0);
      } else {
        WithinPass(mems, m, i, |mems|);
      }
    }
  }

  lemma {:induction false} WithinPass(mems: seq<int>, m: int, k: nat, j: nat)
    requires j <= |mems|
    ensures Left(mems, Left(mems, m, k, 0), 0, j) == Left(mems, m, k, j)
    decreases j
  {
    if j == 0 {
    } else {
      WithinPass(mems, m, k, j - 1);
    }
  }

  // ---- Problems that need no memory -----------------------------------------------------

  /** The first `n` problems need memory, the others do not. */
  ghost predicate PositiveFront(mems: seq<int>, n: nat) {
    && n <= |mems|
    && (forall i :: 0 <= i < n ==> mems[i] > 0)
    && (forall i :: n <= i < |mems| ==> mems[i] <= 0)
  }

  lemma {:induction false} FrontOf(mems: seq<int>) returns (n: nat)
    requires Descending(mems)
    ensures PositiveFront(mems, n)
    decreases |mems|
  {
    DescendingMeans(mems);
    if mems == [] || mems[|mems| - 1] > 0 {
      n := |mems|;
    } else {
      DescendingMeans(mems[..|mems| - 1]);
      n := FrontOf(mems[..|mems| - 1]);
    }
  }

  lemma {:induction false} StaysNonNegative(mems: seq<int>, r: int, j: nat)
    requires j <= |mems| && r >= 0
    ensures Left(mems, r, 0, j) >= 0
    decreases j
  {
    if j == 0 {
    } else {
      StaysNonNegative(mems, r, j - 1);
    }
  }

  /** A problem that needs no memory fits in every pass over a worker that has some left. */
  lemma {:induction false} FreeProblemFits(mems: seq<int>, m: int, k: nat, j: nat)
    requires j < |mems| && mems[j] <= 0 && Before(mems, m, k) > 0
    ensures !Quiet(mems, m, k)
  {
    StaysNonNegative(mems, Before(mems, m, k), j);
    assert Fits(mems, Before(mems, m, k), 0, j);
  }

  /** With a negative problem last in the order, every pass leaves the worker with memory. */
  lemma {:induction false} NegativeKeepsMemory(mems: seq<int>, m: int, k: nat)
    requires mems != [] && mems[|mems| - 1] < 0 && m > 0
    ensures Before(mems, m, k) > 0
    decreases k
  {
    if k == 0 {
    } else {
      var r, last := Before(mems, m, k - 1), |mems| - 1;
      NegativeKeepsMemory(mems, m, k - 1);
      StaysNonNegative(mems, r, last);
      assert Left(mems, r, 0, |mems|) == Left(mems, r, 0, last) - mems[last];
    }
  }

  /** Problems that need exactly no memory leave the others' packing as it is. */
  lemma {:induction false} LeftOfFront(mems: seq<int>, n: nat, r: int, j: nat)
    requires n <= |mems| && j <= |mems| && forall i :: n <= i < |mems| ==> mems[i] == 0
    ensures Left(mems, r, 0, j) == Left(mems[..n], r, 0, if j < n then j else n)
    decreases j
  {
    if j == 0 {
    } else {
      LeftOfFront(mems, n, r, j - 1);
    }
  }

  lemma {:induction false} BeforeOfFront(mems: seq<int>, n: nat, m: int, k: nat)
    requires n <= |mems| && forall i :: n <= i < |mems| ==> mems[i] == 0
    ensures Before(mems, m, k) == Before(mems[..n], m, k)
    decreases k
  {
    if k == 0 {
    } else {
      BeforeOfFront(mems, n, m, k - 1);
      LeftOfFront(mems, n, Before(mems, m, k - 1), |mems|);
    }
  }

  /** Packing the problems that need memory leaves nothing of the worker. */
  ghost predicate FillsExactly(front: seq<int>, m: int) {
    Positive(front) && Rest(front, m) == 0
  }

  /**
   The condition on one worker: it has no memory, or every problem needs some, or the least demanding
   problem needs exactly none and the ones that need memory fill the worker to the last unit.
   */
  ghost predicate Settles(mems: seq<int>, m: int, n: nat)
    requires n <= |mems|
  {
    m <= 0 || n == |mems| || (mems[|mems| - 1] == 0 && FillsExactly(mems[..n], m))
  }

  lemma {:induction false} SettledIsQuiet(mems: seq<int>, m: int, n: nat) returns (k: nat)
    requires Descending(mems) && PositiveFront(mems, n) && Settles(mems, m, n)
    ensures Quiet(mems, m, k)
  {
    DescendingMeans(mems);
    if m <= 0 {
      k := 0;
    } else if n == |mems| {
      k := Passes(mems, m);
      BeforeIsLeft(mems, m, k);
      forall j | 0 <= j < |mems|
        ensures !Fits(mems, Before(mems, m, k), 0, j)
      {
        WithinPass(mems, m, k, j);
        UnproductivePass(mems, m, k, k, j);
      }
    } else {
      k := Passes(mems[..n], m);
      BeforeOfFront(mems, n, m, k);
      BeforeIsLeft(mems[..n], m, k);
    }
  }

  lemma {:induction false} QuietIsSettled(mems: seq<int>, m: int, n: nat, k: nat)
    requires Descending(mems) && PositiveFront(mems, n) && Quiet(mems, m, k)
    ensures Settles(mems, m, n)
  {
    DescendingMeans(mems);
    if m > 0 && n < |mems| {
      var last, front := |mems| - 1, mems[..n];
      if mems[last] < 0 { NegativeKeepsMemory(mems, m, k); }
      if Before(mems, m, k) > 0 { FreeProblemFits(mems, m, k, last); }
      assert mems[last] == 0;
      BeforeOfFront(mems, n, m, k);
      BeforeIsLeft(front, m, k);
      RestWhenEmpty(front, m, k);
    }
  }

  lemma {:induction false} RestWhenEmpty(front: seq<int>, m: int, k: nat)
    requires Positive(front) && m >= 0 && Left(front, m, k, 0) <= 0
    ensures Rest(front, m) == 0
  {
    var p := Passes(front, m);
    LeftStaysNonNegative(front, m, k, 0);
    LeftStaysNonNegative(front, m, p, 0);
    if k <= p {
      LeftShrinks(front, m, k, 0, p, 0);
    } else {
      Stable(front, m, k, 0, 0);
    }
  }

  lemma {:induction false} QuietTogether(mems: seq<int>, memories: seq<int>, n: nat) returns (k: nat)
    requires Descending(mems) && PositiveFront(mems, n)
    requires forall w :: 0 <= w < |memories| ==> Settles(mems, memories[w], n)
    ensures QuietOnAll(mems, memories, k)
    decreases |memories|
  {
    k := 0;
    if memories == [] {
    } else {
      var last := |memories| - 1;
      var k0 := QuietTogether(mems, memories[..last], n);
      var k1 := SettledIsQuiet(mems, memories[last], n);
      k := k0 + k1;
      forall w | 0 <= w < |memories|
        ensures Quiet(mems, memories[w], k)
      {
        if w < last {
          assert memories[..last][w] == memories[w];
          QuietStays(mems, memories[w], k0, k);
        } else {
          QuietStays(mems, memories[w], k1, k);
        }
      }
    }
  }

  /** The loop ends exactly if the condition holds on every worker. */
  lemma {:induction false} EndsIffSettled(mems: seq<int>, memories: seq<int>, n: nat)
    requires Descending(mems) && PositiveFront(mems, n)
    ensures Ends(mems, memories) <==> forall w :: 0 <= w < |memories| ==> Settles(mems, memories[w], n)
  {
    if k: nat :| QuietOnAll(mems, memories, k) {
      forall w | 0 <= w < |memories|
        ensures Settles(mems, memories[w], n)
      {
        QuietIsSettled(mems, memories[w], n, k);
      }
    }
    if forall w :: 0 <= w < |memories| ==> Settles(mems, memories[w], n) {
      var k := QuietTogether(mems, memories, n);
    }
  }

  /** Positive problem memories are enough, whatever the workers have. */
  lemma {:induction false} PositiveEnds(mems: seq<int>, memories: seq<int>)
    requires Descending(mems) && Positive(mems)
    ensures Ends(mems, memories)
  {
    EndsIffSettled(mems, memories, |mems|);
  }

  /** One problem without a memory need, and a worker with memory: the loop never ends. */
  lemma {:induction false} FreeProblemNeverEnds(m: int)
    requires m > 0
    ensures !Ends([0], [m])
  {
    DescendingMeans([0]);
    EndsIffSettled([0], [m], 0);
    assert [0][..0] == [];
    assert Passes([], m) == 0;
    assert Rest([], m) == m;
    assert !Settles([0], [m][0], 0);
  }
}
