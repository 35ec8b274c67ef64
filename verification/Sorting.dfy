/** The part of Go's `slices.SortFunc` that the scheduler relies on. */
module Sorting {

  ghost predicate DescendingBy<T(!new)>(key: T -> int, xs: seq<T>) {
    forall i, j :: 0 <= i < j < |xs| ==> key(xs[i]) >= key(xs[j])
  }

  lemma {:induction false} DescendingCons<T(!new)>(key: T -> int, x: T, xs: seq<T>)
    requires DescendingBy(key, xs)
    requires forall y :: y in multiset(xs) ==> key(y) <= key(x)
    ensures DescendingBy(key, [x] + xs)
  {
    assert forall i :: 0 <= i < |xs| ==> xs[i] in multiset(xs);
  }

  method Insert<T(!new)>(key: T -> int, x: T, xs: seq<T>) returns (sorted: seq<T>)
    requires DescendingBy(key, xs)
    ensures DescendingBy(key, sorted)
    ensures multiset(sorted) == multiset([x] + xs)
    decreases |xs|
  {
    if xs == [] || key(x) >= key(xs[0]) {
      DescendingHead(key, xs);
      DescendingCons(key, x, xs);
      sorted := [x] + xs;
    } else {
      var head, others := xs[0], xs[1..];
      assert xs == [head] + others;
      DescendingHead(key, xs);
      var tail := Insert(key, x, others);
      InsertedBelow(key, x, others, head, tail);
      DescendingCons(key, head, tail);
      sorted := [head] + tail;
      assert multiset(sorted) == multiset{head} + multiset([x] + others) == multiset([x] + xs);
    }
  }

  lemma {:induction false} DescendingHead<T(!new)>(key: T -> int, xs: seq<T>)
    requires DescendingBy(key, xs)
    ensures forall y :: y in multiset(xs) ==> key(y) <= key(xs[0])
  {
    forall y: T | y in multiset(xs)
      ensures key(y) <= key(xs[0])
    {
      assert y in xs;
    }
  }

  lemma {:induction false} InsertedBelow<T(!new)>(key: T -> int, x: T, xs: seq<T>, head: T, sorted: seq<T>)
    requires multiset(sorted) == multiset([x] + xs)
    requires key(x) <= key(head) && forall y :: y in multiset([head] + xs) ==> key(y) <= key(head)
    ensures forall y :: y in multiset(sorted) ==> key(y) <= key(head)
  {
    assert multiset([x] + xs) == multiset{x} + multiset(xs);
    assert multiset([head] + xs) == multiset{head} + multiset(xs);
  }

  /** Some permutation of `xs`, descending by `key`; elements with equal keys come in any order. */
  method SortFunc<T(!new)>(key: T -> int, xs: seq<T>) returns (sorted: seq<T>)
    ensures DescendingBy(key, sorted)
    ensures multiset(sorted) == multiset(xs)
    decreases |xs|
  {
    if xs == [] {
      sorted := [];
    } else {
      var rest := SortFunc(key, xs[1..]);
      sorted := Insert(key, xs[0], rest);
      assert xs == [xs[0]] + xs[1..];
    }
  }

  /** Sorting keeps the elements and their number. */
  lemma {:induction false} PermutationKeeps<T(!new)>(xs: seq<T>, ys: seq<T>)
    requires multiset(xs) == multiset(ys)
    ensures |xs| == |ys|
    ensures forall x :: x in xs <==> x in ys
  {
    assert |xs| == |multiset(xs)| == |multiset(ys)| == |ys|;
    forall x: T
      ensures x in xs <==> x in ys
    {
      assert x in xs <==> x in multiset(xs);
      assert x in ys <==> x in multiset(ys);
    }
  }
}
