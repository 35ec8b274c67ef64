/**
 What every result of `FillSchedule` guarantees. All statements are about any `pre`, `post`
 and `entries` with `Filled(pre, post, entries)`, which is the contract of the method.
 */
module Guarantees {
  import opened Int32
  import opened Packing
  import opened Placement
  import opened Sorting

  /** `sched.Get(w, id)` on a filled schedule. */
  function Get(entries: map<(string, string), int32>, w: string, id: string): int {
    if (w, id) in entries then entries[(w, id)] else 0
  }

  /** The instance counts of worker memory `m` fit in the schedule's `int32` values. */
  ghost predicate CountsFit(ps: seq<Problem>, m: int)
    requires PositiveMemory(ps)
  {
    forall id :: Placed(ps, m)[id] <= INT32_MAX
  }

  /** They do if the worker has room for at most that many instances of the smallest problem. */
  lemma {:induction false} SmallCountsFit(ps: seq<Problem>, m: int, least: nat)
    requires PositiveMemory(ps) && least > 0 && forall p :: p in ps ==> least <= p.memory
    requires m < 0 || m / least <= 0x7FFF_FFFF
    ensures CountsFit(ps, m)
  {
    var k := Passes(Mems(ps), m);
    forall i | 0 <= i < |ps|
      ensures least <= Mems(ps)[i]
    {
      assert ps[i] in ps;
    }
    forall id
      ensures Placed(ps, m)[id] <= INT32_MAX
    {
      assert |Placed(ps, m)[id := 0]| == |Placed(ps, m)| - Placed(ps, m)[id];
      if m < 0 {
        PassBound(Mems(ps), m, least);
      } else {
        TallyCost(ps, m, least, k, 0);
        LeftStaysNonNegative(Mems(ps), m, k, 0);
        AtMostQuotient(|Placed(ps, m)|, least, m);
      }
    }
  }

  /** Every instance takes at least `least` units. */
  lemma {:induction false} TallyCost(ps: seq<Problem>, m: int, least: nat, k: nat, j: nat)
    requires j <= |ps| && forall i :: 0 <= i < |ps| ==> least <= Mems(ps)[i]
    ensures |Tally(ps, m, k, j)| * least <= m - Left(Mems(ps), m, k, j)
    decreases k, j
  {
    if j == 0 && k == 0 {
    } else if j > 0 {
      TallyCost(ps, m, least, k, j - 1);
      var before := Tally(ps, m, k, j - 1);
      assert (|before| + 1) * least == |before| * least + least;
    } else {
      TallyCost(ps, m, least, k - 1, |ps|);
    }
  }

  lemma {:induction false} FilledParts(pre: SchedulerState, post: SchedulerState, entries: map<(string, string), int32>)
    requires Filled(pre, post, entries)
    ensures DescendingOrder(post.problems, pre.problems) && PositiveMemory(post.problems)
    ensures DescendingOrder(post.problems, post.problems)
    ensures post.workers == RecordedWorkers(pre, post.problems) && post.removeList == []
    ensures CountsMatch(post.instanceCounts, pre.instanceCounts, Ids(post.problems),
            Total(PackedTallies(post.problems, pre.workers)))
    ensures entries == EntriesFor(post.problems, pre.workers, RemovedIds(pre))
  {
  }

  /** An entry is a zero for a removed problem and otherwise the worker's instances of the problem. */
  lemma {:induction false} EntryMeaning(pre: SchedulerState, post: SchedulerState,
                                        entries: map<(string, string), int32>, w: string, id: string)
    requires Filled(pre, post, entries)
    ensures (w, id) in entries <==>
            w in pre.workers && (id in pre.removeList || id in Placed(post.problems, pre.workers[w].memory))
    ensures w in pre.workers && CountsFit(post.problems, pre.workers[w].memory) ==>
              Get(entries, w, id) ==
                if id in pre.removeList then 0 else Placed(post.problems, pre.workers[w].memory)[id]
  {
    InEntriesFor(post.problems, pre.workers, RemovedIds(pre), w, id);
  }

  /** What a worker gets does not depend on the other workers, on their order, or on what ran before. */
  lemma {:induction false} WorkersAreIndependent(pre: SchedulerState, post: SchedulerState,
                                                 entries: map<(string, string), int32>, w: string, pre': SchedulerState,
                                                 post': SchedulerState, entries': map<(string, string), int32>,
                                                 w': string, id: string)
    requires Filled(pre, post, entries) && Filled(pre', post', entries')
    requires post.problems == post'.problems
    requires w in pre.workers && w' in pre'.workers && pre.workers[w].memory == pre'.workers[w'].memory
    requires id in pre.removeList <==> id in pre'.removeList
    ensures (w, id) in entries <==> (w', id) in entries'
    ensures Get(entries, w, id) == Get(entries', w', id)
  {
    InEntriesFor(post.problems, pre.workers, RemovedIds(pre), w, id);
    InEntriesFor(post'.problems, pre'.workers, RemovedIds(pre'), w', id);
  }

  // ---- Capacity -----------------------------------------------------------------------

  /** Memory of the problems `ps` when `count` gives their instances. */
  ghost function Load(ps: seq<Problem>, count: map<string, int>, n: nat): int
    requires n <= |ps|
  {
    if n == 0 then 0
    else Load(ps, count, n - 1) + (if ps[n - 1].id in count then count[ps[n - 1].id] * ps[n - 1].memory else 0)
  }

  /** The instance counts that a filled schedule holds for one worker. */
  ghost function CountsOn(entries: map<(string, string), int32>, w: string): map<string, int> {
    map wp | wp in entries && wp.0 == w :: wp.1 := entries[wp]
  }

  lemma {:induction false} InCountsOn(entries: map<(string, string), int32>, w: string, id: string)
    ensures id in CountsOn(entries, w) <==> (w, id) in entries
    ensures id in CountsOn(entries, w) ==> CountsOn(entries, w)[id] == entries[(w, id)]
  {
  }

  lemma {:induction false} LoadIsUsed(ps: seq<Problem>, m: int, count: map<string, int>, removed: set<string>, n: nat)
    requires PositiveMemory(ps) && DistinctIds(ps) && n <= |ps|
    requires forall i :: 0 <= i < |ps| ==>
               (if ps[i].id in count then count[ps[i].id] else 0) ==
               (if ps[i].id in removed then 0 else Placed(ps, m)[ps[i].id])
    ensures 0 <= Load(ps, count, n) <= Used(Mems(ps), m, Passes(Mems(ps), m), 0, n)
    ensures (forall i :: 0 <= i < n ==> ps[i].id !in removed) ==>
              Load(ps, count, n) == Used(Mems(ps), m, Passes(Mems(ps), m), 0, n)
    decreases n
  {
    if n == 0 {
    } else {
      var i := n - 1;
      LoadIsUsed(ps, m, count, removed, i);
      TallyIsCount(ps, m, Passes(Mems(ps), m), 0, i);
      var c: nat := Count(Mems(ps), m, Passes(Mems(ps), m), 0, i);
      assert 0 <= c * ps[i].memory;
      assert 0 * ps[i].memory == 0;
    }
  }

  /** The schedule of a worker never exceeds its memory, and leaves no room for one more instance. */
  lemma {:induction false} Capacity(pre: SchedulerState, post: SchedulerState, entries: map<(string, string), int32>,
                                    w: string)
    requires Filled(pre, post, entries) && DistinctIds(post.problems) && w in pre.workers
    requires CountsFit(post.problems, pre.workers[w].memory)
    ensures var load := Load(post.problems, CountsOn(entries, w), |post.problems|);
            var m := pre.workers[w].memory;
            && (m >= 0 ==> 0 <= load <= m)
            && ((forall p :: p in post.problems ==> p.id !in pre.removeList) ==>
                  (forall p :: p in post.problems ==> load + p.memory > m) &&
                  ((exists p :: p in post.problems && p.memory <= m) ==> 2 * load > m))
  {
    hide Filled;
    FilledParts(pre, post, entries);
    var ps, m := post.problems, pre.workers[w].memory;
    LoadOnWorker(pre, post, entries, w);
    Saturated(Mems(ps), m);
    if forall p :: p in ps ==> p.id !in pre.removeList {
      forall p | p in ps
        ensures Packed(Mems(ps), m) + p.memory > m
        ensures p.memory <= m ==> 2 * Packed(Mems(ps), m) > m
      {
        PackedTightly(ps, m, p);
      }
    }
  }

  lemma {:induction false} PackedTightly(ps: seq<Problem>, m: int, p: Problem)
    requires PositiveMemory(ps) && p in ps
    ensures Packed(Mems(ps), m) + p.memory > m
    ensures p.memory <= m ==> 2 * Packed(Mems(ps), m) > m
  {
    var i :| 0 <= i < |ps| && ps[i] == p;
    Saturated(Mems(ps), m);
    assert Rest(Mems(ps), m) < Mems(ps)[i];
    HalfUtilised(Mems(ps), m, i);
  }

  lemma {:induction false} LoadOnWorker(pre: SchedulerState, post: SchedulerState,
                                        entries: map<(string, string), int32>, w: string)
    requires Filled(pre, post, entries) && DistinctIds(post.problems) && w in pre.workers
    requires CountsFit(post.problems, pre.workers[w].memory)
    ensures var load := Load(post.problems, CountsOn(entries, w), |post.problems|);
            var packed := Packed(Mems(post.problems), pre.workers[w].memory);
            && 0 <= load <= packed
            && ((forall p :: p in post.problems ==> p.id !in pre.removeList) ==> load == packed)
  {
    var ps, m, count := post.problems, pre.workers[w].memory, CountsOn(entries, w);
    forall i | 0 <= i < |ps|
      ensures (if ps[i].id in count then count[ps[i].id] else 0) ==
              (if ps[i].id in RemovedIds(pre) then 0 else Placed(ps, m)[ps[i].id])
    {
      InCountsOn(entries, w, ps[i].id);
      EntryMeaning(pre, post, entries, w, ps[i].id);
    }
    LoadIsUsed(ps, m, count, RemovedIds(pre), |ps|);
  }

  /** With distinct IDs a problem's instances are those of its position. */
  lemma {:induction false} PlacedIsFinal(ps: seq<Problem>, m: int, i: nat)
    requires PositiveMemory(ps) && DistinctIds(ps) && i < |ps|
    ensures Placed(ps, m)[ps[i].id] == Final(Mems(ps), m, i)
  {
    TallyIsCount(ps, m, Passes(Mems(ps), m), 0, i);
  }

  /** The loop makes at most one pass more than the largest worker holds of the smallest problem. */
  lemma {:induction false} LoopBound(ps: seq<Problem>, memories: map<string, int>, passes: nat, least: nat, most: nat)
    requires PositiveMemory(ps) && PassesMade(ps, memories, passes)
    requires least > 0 && forall p :: p in ps ==> least <= p.memory
    requires forall w :: w in memories ==> memories[w] <= most
    ensures passes <= 1 + most / least
  {
    hide Passes;
    if passes > 1 {
      var w :| w in memories && Passes(Mems(ps), memories[w]) == passes - 1;
      forall i | 0 <= i < |ps|
        ensures least <= Mems(ps)[i]
      {
        assert ps[i] in ps;
      }
      PassBound(Mems(ps), memories[w], least);
      QuotientBound(passes - 1, memories[w], least, most);
    }
  }

  lemma {:induction false} QuotientBound(k: nat, m: int, d: nat, most: nat)
    requires d > 0 && 0 <= m <= most && k <= m / d
    ensures k <= most / d
  {
    var fit := m / d;
    assert fit * d <= m;
    MulMonotone(k, fit, d);
    AtMostQuotient(k, d, most);
  }

  // ---- Fairness -----------------------------------------------------------------------

  /** On every worker a problem gets at most one instance more than a problem that needs no more memory. */
  lemma {:induction false} ScheduleIsFair(pre: SchedulerState, post: SchedulerState,
                                          entries: map<(string, string), int32>, w: string, big: nat, small: nat)
    requires Filled(pre, post, entries) && DistinctIds(post.problems) && w in pre.workers
    requires CountsFit(post.problems, pre.workers[w].memory)
    requires big < |post.problems| && small < |post.problems|
    requires post.problems[big].memory >= post.problems[small].memory
    requires post.problems[small].id !in pre.removeList
    ensures Get(entries, w, post.problems[big].id) <= Get(entries, w, post.problems[small].id) + 1
  {
    hide Filled;
    FilledParts(pre, post, entries);
    var ps, m := post.problems, pre.workers[w].memory;
    EntryMeaning(pre, post, entries, w, ps[big].id);
    EntryMeaning(pre, post, entries, w, ps[small].id);
    PlacedIsFinal(ps, m, big);
    PlacedIsFinal(ps, m, small);
    Fair(Mems(ps), m, big, small);
  }

  /** On every worker each problem gets at least as many instances as whole sets of problems fit there. */
  lemma {:induction false} ScheduleShare(pre: SchedulerState, post: SchedulerState,
                                         entries: map<(string, string), int32>, w: string, i: nat, sets: nat)
    requires Filled(pre, post, entries) && DistinctIds(post.problems) && w in pre.workers
    requires CountsFit(post.problems, pre.workers[w].memory)
    requires i < |post.problems| && post.problems[i].id !in pre.removeList
    requires sets * Sum(Mems(post.problems), |post.problems|) <= pre.workers[w].memory
    ensures sets <= Get(entries, w, post.problems[i].id)
  {
    hide Filled;
    FilledParts(pre, post, entries);
    var ps, m := post.problems, pre.workers[w].memory;
    EntryMeaning(pre, post, entries, w, ps[i].id);
    PlacedIsFinal(ps, m, i);
    FairShare(Mems(ps), m, sets, i);
  }

  // ---- Ties and refills ---------------------------------------------------------------

  lemma {:induction false} MemsAppend(a: seq<Problem>, b: seq<Problem>)
    ensures Mems(a + b) == Mems(a) + Mems(b)
  {
  }

  function Without(ps: seq<Problem>, j: nat): (rest: seq<Problem>)
    requires j < |ps|
    ensures |rest| == |ps| - 1
  {
    ps[..j] + ps[j + 1..]
  }

  lemma {:induction false} MemsWithout(ps: seq<Problem>, j: nat)
    requires j < |ps|
    ensures multiset(Without(ps, j)) == multiset(ps) - multiset{ps[j]}
    ensures multiset(Mems(ps)) == multiset(Mems(Without(ps, j))) + multiset{ps[j].memory}
  {
    var left, right := ps[..j], ps[j + 1..];
    assert ps == left + ([ps[j]] + right);
    MemsAppend(left, [ps[j]] + right);
    MemsAppend([ps[j]], right);
    MemsAppend(left, right);
    assert Mems([ps[j]]) == [ps[j].memory];
  }

  lemma {:induction false} MemsOfMultiset(a: seq<Problem>, b: seq<Problem>)
    requires multiset(a) == multiset(b)
    ensures multiset(Mems(a)) == multiset(Mems(b))
    decreases |a|
  {
    hide Without;
    if a == [] {
      assert |b| == |multiset(b)| == 0;
    } else {
      var j := PositionOf(a[0], a, b);
      MemsWithout(a, 0);
      MemsWithout(b, j);
      MemsOfMultiset(Without(a, 0), Without(b, j));
    }
  }

  lemma {:induction false} PositionOf(p: Problem, a: seq<Problem>, b: seq<Problem>) returns (j: nat)
    requires multiset(a) == multiset(b) && p in a
    ensures j < |b| && b[j] == p
  {
    assert p in multiset(a);
    assert p in multiset(b);
    j :| 0 <= j < |b| && b[j] == p;
  }

  lemma {:induction false} DescendingMems(sorted: seq<Problem>, ps: seq<Problem>)
    requires DescendingOrder(sorted, ps)
    ensures Descending(Mems(sorted))
  {
    var key := (p: Problem) => p.memory;
    assert DescendingBy(key, sorted);
    forall i, j | 0 <= i < j < |sorted|
      ensures Mems(sorted)[i] >= Mems(sorted)[j]
    {
      assert key(sorted[i]) >= key(sorted[j]);
    }
    DescendingMeans(Mems(sorted));
  }

  /** However ties are broken, the counts by position and the memory left on each worker are the same. */
  lemma {:induction false} TiesDoNotMatter(pre: SchedulerState, a: SchedulerState, b: SchedulerState,
                                           ea: map<(string, string), int32>, eb: map<(string, string), int32>)
    requires Filled(pre, a, ea) && Filled(pre, b, eb)
    ensures Mems(a.problems) == Mems(b.problems)
    ensures PositiveMemory(a.problems) && PositiveMemory(b.problems)
    ensures forall w :: w in pre.workers ==>
              Rest(Mems(a.problems), pre.workers[w].memory) == Rest(Mems(b.problems), pre.workers[w].memory)
    ensures DistinctIds(pre.problems) ==> forall w, i :: w in pre.workers && 0 <= i < |a.problems| ==>
              Placed(a.problems, pre.workers[w].memory)[a.problems[i].id] ==
              Placed(b.problems, pre.workers[w].memory)[b.problems[i].id]
  {
    MemsOfMultiset(a.problems, b.problems);
    DescendingMems(a.problems, pre.problems);
    DescendingMems(b.problems, pre.problems);
    OneDescendingOrder(Mems(a.problems), Mems(b.problems));
    SortKeeps(a.problems, pre.problems);
    SortKeeps(b.problems, pre.problems);
    if DistinctIds(pre.problems) {
      forall w, i | w in pre.workers && 0 <= i < |a.problems|
        ensures Placed(a.problems, pre.workers[w].memory)[a.problems[i].id] ==
                Placed(b.problems, pre.workers[w].memory)[b.problems[i].id]
      {
        var m := pre.workers[w].memory;
        PlacedIsFinal(a.problems, m, i);
        PlacedIsFinal(b.problems, m, i);
      }
    }
  }

  ghost predicate DistinctMemory(ps: seq<Problem>) {
    forall p, q :: p in ps && q in ps && p.memory == q.memory ==> p == q
  }

  /** Refilling with the same problems and workers changes nothing, unless two problems tie in memory. */
  lemma {:induction false} RefillIsStable(pre: SchedulerState, mid: SchedulerState, post: SchedulerState,
                                          e1: map<(string, string), int32>, e2: map<(string, string), int32>)
    requires Filled(pre, mid, e1) && Filled(mid, post, e2)
    requires pre.removeList == [] && DistinctMemory(pre.problems)
    ensures post.problems == mid.problems && post.workers == mid.workers && e1 == e2
  {
    hide Filled;
    FilledParts(pre, mid, e1);
    FilledParts(mid, post, e2);
    SortKeeps(mid.problems, pre.problems);
    SameOrder(mid.problems, post.problems);
    SameAfterRefill(pre, mid, post, e1, e2);
  }

  lemma {:induction false} SameOrder(a: seq<Problem>, b: seq<Problem>)
    requires DescendingOrder(a, a) && DescendingOrder(b, a) && DistinctMemory(a)
    ensures a == b
  {
    SortKeeps(b, a);
    MemsOfMultiset(a, b);
    DescendingMems(a, a);
    DescendingMems(b, a);
    OneDescendingOrder(Mems(a), Mems(b));
    forall i | 0 <= i < |a|
      ensures a[i] == b[i]
    {
      assert a[i] in a && b[i] in b;
      assert Mems(a)[i] == Mems(b)[i];
    }
  }

  lemma {:induction false} SameAfterRefill(pre: SchedulerState, mid: SchedulerState, post: SchedulerState,
                                           e1: map<(string, string), int32>, e2: map<(string, string), int32>)
    requires Filled(pre, mid, e1) && Filled(mid, post, e2)
    requires pre.removeList == [] && mid.problems == post.problems
    ensures post.workers == mid.workers && e1 == e2
  {
    hide *;
    FilledParts(pre, mid, e1);
    FilledParts(mid, post, e2);
    NothingRemoved(pre);
    NothingRemoved(mid);
    WorkersAfterRefill(pre, mid, post.problems);
    EntriesByMemory(post.problems, pre.workers, mid.workers, {});
  }

  lemma {:induction false} NothingRemoved(s: SchedulerState)
    requires s.removeList == []
    ensures RemovedIds(s) == {}
  {
  }

  lemma {:induction false} WorkersAfterRefill(pre: SchedulerState, mid: SchedulerState, ps: seq<Problem>)
    requires PositiveMemory(ps) && RemovedIds(pre) == RemovedIds(mid) == {}
    requires mid.workers == RecordedWorkers(pre, ps)
    ensures RecordedWorkers(mid, ps) == mid.workers
    ensures mid.workers.Keys == pre.workers.Keys
    ensures forall w :: w in pre.workers ==> pre.workers[w].memory == mid.workers[w].memory
  {
    forall w | w in mid.workers
      ensures RecordedWorkers(mid, ps)[w] == mid.workers[w]
    {
      RecordedTwice(ps, pre.workers[w].memory, pre.workers[w].schedule);
    }
  }

  lemma {:induction false} EntriesByMemory(ps: seq<Problem>, a: map<string, WorkerState>, b: map<string, WorkerState>,
                                           removed: set<string>)
    requires PositiveMemory(ps) && a.Keys == b.Keys
    requires forall w :: w in a ==> a[w].memory == b[w].memory
    ensures EntriesFor(ps, a, removed) == EntriesFor(ps, b, removed)
  {
    forall w, id
      ensures (w, id) in EntriesFor(ps, a, removed) <==> (w, id) in EntriesFor(ps, b, removed)
      ensures (w, id) in EntriesFor(ps, a, removed) ==>
              EntriesFor(ps, a, removed)[(w, id)] == EntriesFor(ps, b, removed)[(w, id)]
    {
      InEntriesFor(ps, a, removed, w, id);
      InEntriesFor(ps, b, removed, w, id);
    }
    SamePairs(EntriesFor(ps, a, removed), EntriesFor(ps, b, removed));
  }

  lemma {:induction false} RecordedTwice(ps: seq<Problem>, m: int, s: map<string, int>)
    requires PositiveMemory(ps)
    ensures Recorded(ps, m, Recorded(ps, m, s, {}), {}) == Recorded(ps, m, s, {})
  {
  }

  // ---- Instance counts ----------------------------------------------------------------

  /** `sched.Get(w, id)` summed over the workers `ws`. */
  ghost function SumOver(entries: map<(string, string), int32>, ws: set<string>, id: string): int {
    if ws == {} then 0
    else var w :| w in ws; Get(entries, w, id) + SumOver(entries, ws - {w}, id)
  }

  lemma {:induction false} SumIsTotal(entries: map<(string, string), int32>, ts: Tallies, id: string)
    requires forall w :: w in ts ==> Get(entries, w, id) == ts[w][id]
    ensures SumOver(entries, ts.Keys, id) == Total(ts)[id]
    decreases |ts|
  {
    if ts == map[] {
    } else {
      var w :| w in ts.Keys && SumOver(entries, ts.Keys, id) ==
          Get(entries, w, id) + SumOver(entries, ts.Keys - {w}, id);
      TotalSplit(ts, w);
      assert (ts - {w}).Keys == ts.Keys - {w};
      SumIsTotal(entries, ts - {w}, id);
    }
  }

  lemma {:induction false} SumOfZeros(entries: map<(string, string), int32>, ws: set<string>, id: string)
    requires forall w :: w in ws ==> Get(entries, w, id) == 0
    ensures SumOver(entries, ws, id) == 0
    decreases ws
  {
    if ws == {} {
    } else {
      var w :| w in ws && SumOver(entries, ws, id) == Get(entries, w, id) + SumOver(entries, ws - {w}, id);
      SumOfZeros(entries, ws - {w}, id);
    }
  }

  /**
   `GetInstanceCount` of a scheduled problem is its number of scheduled instances, except for a problem
   that was removed and added again before the fill and fits somewhere in the first pass.
   */
  lemma {:induction false} InstanceCountIsSum(pre: SchedulerState, post: SchedulerState,
                                              entries: map<(string, string), int32>, id: string)
    requires Filled(pre, post, entries) && id in Ids(post.problems)
    requires forall w :: w in pre.workers ==> CountsFit(post.problems, pre.workers[w].memory)
    ensures id in post.instanceCounts
    ensures InstanceCount(post, id) == SumOver(entries, pre.workers.Keys, id) <==>
            id !in pre.removeList || forall w :: w in pre.workers ==>
              !FirstPass(post.problems, pre.workers[w].memory, id)
  {
    hide Filled, Total, FirstPass;
    CountIsTotal(pre, post, entries, id);
    var ts := PackedTallies(post.problems, pre.workers);
    forall w | w in ts
      ensures Get(entries, w, id) == if id in pre.removeList then 0 else ts[w][id]
      ensures id in ts[w] <==> FirstPass(post.problems, pre.workers[w].memory, id)
    {
      EntryMeaning(pre, post, entries, w, id);
      PlacedInFirstPass(post.problems, pre.workers[w].memory, id);
    }
    assert ts.Keys == pre.workers.Keys;
    SumAgainstTotal(entries, ts, id, id in pre.removeList);
  }

  /**
   The exception occurs: a problem that is removed and added again before the next fill is counted but
   not scheduled.
   */
  lemma {:induction false} ReaddedIsMiscounted(s: SchedulerState, post: SchedulerState,
                                               entries: map<(string, string), int32>, a: Problem, w: string)
    requires s.problems == [a] && w in s.workers && 0 < a.memory <= s.workers[w].memory
    requires Filled(WithProblem(WithoutProblem(s, a.id), a), post, entries)
    requires forall v :: v in s.workers ==> CountsFit(post.problems, s.workers[v].memory)
    ensures InstanceCount(post, a.id) != SumOver(entries, s.workers.Keys, a.id)
  {
    var pre := WithProblem(WithoutProblem(s, a.id), a);
    assert pre.problems == [a] && pre.workers == s.workers && a.id in pre.removeList;
    hide Filled, SumOver, Total;
    FilledParts(pre, post, entries);
    SortKeeps(post.problems, [a]);
    assert post.problems[0] in [a];
    assert Fits(Mems(post.problems), s.workers[w].memory, 0, 0);
    assert FirstPass(post.problems, pre.workers[w].memory, a.id);
    InstanceCountIsSum(pre, post, entries, a.id);
  }

  lemma {:induction false} CountIsTotal(pre: SchedulerState, post: SchedulerState,
                                        entries: map<(string, string), int32>, id: string)
    requires Filled(pre, post, entries) && id in Ids(post.problems)
    ensures PositiveMemory(post.problems) && id in post.instanceCounts
    ensures post.instanceCounts[id] == Total(PackedTallies(post.problems, pre.workers))[id]
  {
  }

  lemma {:induction false} SumAgainstTotal(entries: map<(string, string), int32>, ts: Tallies, id: string, zeroed: bool)
    requires forall w :: w in ts ==> Get(entries, w, id) == if zeroed then 0 else ts[w][id]
    ensures Total(ts)[id] == SumOver(entries, ts.Keys, id) <==> !zeroed || forall w :: w in ts ==> id !in ts[w]
  {
    if !zeroed {
      SumIsTotal(entries, ts, id);
    } else {
      SumOfZeros(entries, ts.Keys, id);
      if w :| w in ts && id in ts[w] {
        TotalSplit(ts, w);
      } else {
        NoneInTotal(ts, id);
      }
    }
  }

  lemma {:induction false} NoneInTotal(ts: Tallies, id: string)
    requires forall w :: w in ts ==> id !in ts[w]
    ensures id !in Total(ts)
    decreases |ts|
  {
    if ts == map[] {
    } else {
      var w :| w in ts;
      TotalSplit(ts, w);
      NoneInTotal(ts - {w}, id);
    }
  }
}
