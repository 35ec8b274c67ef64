/**
 What one run of `FillSchedule` means: the instance counts by problem ID that the packing
 of each worker yields, and the scheduler state and schedule entries that follow from them.
 */
module Placement {
  import opened Int32
  import opened Packing
  import opened Schedules
  import opened Sorting

  /** types/problem.go */
  datatype Problem = Problem(
    id: string, memory: int, islandCount: int32, startTime: real,
    migrationFrequency: int32, migrationSize: int32, imagePath: string)

  /** A `scheduler.Worker` record without its metrics. */
  datatype WorkerState = WorkerState(cpuCount: int, memory: int, schedule: map<string, int>)

  /** The fields of `PrelimScheduler`. */
  datatype SchedulerState = SchedulerState(
    problems: seq<Problem>,
    workers: map<string, WorkerState>,
    removeList: seq<string>,
    instanceCounts: map<string, int>)

  function WithWorker(s: SchedulerState, id: string, cpuCount: int, memory: int): SchedulerState {
    s.(workers := s.workers[id := WorkerState(cpuCount, memory, map[])])
  }

  function WithoutWorker(s: SchedulerState, id: string): SchedulerState {
    s.(workers := s.workers - {id})
  }

  /** A problem is added unless the very same metadata is listed already. */
  function WithProblem(s: SchedulerState, p: Problem): SchedulerState {
    s.(problems := if p in s.problems then s.problems else s.problems + [p],
       instanceCounts := s.instanceCounts[p.id := 0])
  }

  /** The first position with the given ID, or the length. */
  function FirstWith(ps: seq<Problem>, id: string): (i: nat)
    ensures i <= |ps|
    ensures i < |ps| ==> ps[i].id == id
    ensures forall j :: 0 <= j < i ==> ps[j].id != id
  {
    if ps == [] || ps[0].id == id then 0 else 1 + FirstWith(ps[1..], id)
  }

  lemma {:induction false} FirstWithIs(ps: seq<Problem>, id: string, i: nat)
    requires i <= |ps| && (i < |ps| ==> ps[i].id == id) && forall j :: 0 <= j < i ==> ps[j].id != id
    ensures FirstWith(ps, id) == i
  {
  }

  /** The first problem with the ID goes; an unknown ID changes nothing. */
  function WithoutProblem(s: SchedulerState, id: string): SchedulerState {
    var i := FirstWith(s.problems, id);
    if i == |s.problems| then s
    else s.(problems := s.problems[..i] + s.problems[i + 1..],
            removeList := s.removeList + [id],
            instanceCounts := s.instanceCounts - {id})
  }

  function Mems(ps: seq<Problem>): (mems: seq<int>)
    ensures |mems| == |ps|
    ensures forall i :: 0 <= i < |ps| ==> mems[i] == ps[i].memory
  {
    seq(|ps|, i requires 0 <= i < |ps| => ps[i].memory)
  }

  ghost function Ids(ps: seq<Problem>): set<string> {
    set p | p in ps :: p.id
  }

  ghost predicate DistinctIds(ps: seq<Problem>) {
    forall i, j :: 0 <= i < j < |ps| ==> ps[i].id != ps[j].id
  }

  /** Problem memories that the packing loop needs in order to end. */
  ghost predicate PositiveMemory(ps: seq<Problem>) {
    forall i :: 0 <= i < |ps| ==> ps[i].memory > 0
  }

  /** What sorting `ps` may return: ties may come in any order. */
  ghost predicate DescendingOrder(sorted: seq<Problem>, ps: seq<Problem>) {
    && multiset(sorted) == multiset(ps)
    && DescendingBy((p: Problem) => p.memory, sorted)
  }

  lemma {:induction false} SortKeeps(sorted: seq<Problem>, ps: seq<Problem>)
    requires DescendingOrder(sorted, ps)
    ensures |sorted| == |ps| && forall p :: p in sorted <==> p in ps
    ensures Ids(sorted) == Ids(ps)
    ensures PositiveMemory(sorted) <==> PositiveMemory(ps)
    ensures DistinctIds(sorted) <==> DistinctIds(ps)
  {
    assert |sorted| == |multiset(sorted)| == |multiset(ps)| == |ps|;
    assert forall p :: p in sorted <==> p in multiset(sorted);
    assert forall p :: p in ps <==> p in multiset(ps);
    assert PositiveMemory(sorted) <==> forall p :: p in sorted ==> p.memory > 0;
    assert PositiveMemory(ps) <==> forall p :: p in ps ==> p.memory > 0;
    DistinctIdsByCard(sorted);
    DistinctIdsByCard(ps);
  }

  lemma {:induction false} DistinctIdsByCard(ps: seq<Problem>)
    ensures |Ids(ps)| <= |ps|
    ensures DistinctIds(ps) <==> |Ids(ps)| == |ps|
    decreases |ps|
  {
    if ps == [] {
    } else {
      var last, front := ps[|ps| - 1], ps[..|ps| - 1];
      DistinctIdsByCard(front);
      DistinctIdsStep(front, last);
      hide *;
      assert ps == front + [last];
      assert |Ids(front) + {last.id}| == |Ids(front)| + if last.id in Ids(front) then 0 else 1 by {
        if last.id in Ids(front) { assert Ids(front) + {last.id} == Ids(front); }
      }
    }
  }

  lemma {:induction false} DistinctIdsStep(front: seq<Problem>, last: Problem)
    ensures Ids(front + [last]) == Ids(front) + {last.id}
    ensures DistinctIds(front + [last]) <==> DistinctIds(front) && last.id !in Ids(front)
  {
    var ps := front + [last];
    assert forall i :: 0 <= i < |front| ==> ps[i] == front[i];
    if last.id in Ids(front) {
      var p :| p in front && p.id == last.id;
      var i :| 0 <= i < |front| && front[i] == p;
      assert ps[i].id == ps[|front|].id;
    } else {
      forall i | 0 <= i < |front|
        ensures ps[i].id != last.id
      {
        assert front[i] in front;
      }
    }
  }

  /** `GetInstanceCount` on a scheduler state. */
  function InstanceCount(s: SchedulerState, id: string): int {
    if id in s.instanceCounts then s.instanceCounts[id] else 0
  }

  // ---- Instances by problem ID --------------------------------------------------------

  /** The IDs given an instance by `k` passes and the first `j` problems of the next pass. */
  function Tally(ps: seq<Problem>, m: int, k: nat, j: nat): multiset<string>
    requires j <= |ps|
    decreases k, j
  {
    if j > 0 then
      if Fits(Mems(ps), m, k, j - 1) then Tally(ps, m, k, j - 1) + multiset{ps[j - 1].id}
      else Tally(ps, m, k, j - 1)
    else if k > 0 then Tally(ps, m, k - 1, |ps|)
    else multiset{}
  }

  /** The instances, by problem ID, of a packed worker with memory `m`. */
  function Placed(ps: seq<Problem>, m: int): multiset<string>
    requires PositiveMemory(ps)
  {
    Tally(ps, m, Passes(Mems(ps), m), 0)
  }

  /** With distinct IDs the tally of an ID is the count of its position. */
  lemma {:induction false} TallyIsCount(ps: seq<Problem>, m: int, k: nat, j: nat, i: nat)
    requires DistinctIds(ps) && j <= |ps| && i < |ps|
    ensures Tally(ps, m, k, j)[ps[i].id] == Count(Mems(ps), m, k, j, i)
    decreases k, j
  {
    if j == 0 && k == 0 {
    } else if j > 0 {
      TallyIsCount(ps, m, k, j - 1, i);
      assert ps[j - 1].id == ps[i].id <==> i == j - 1;
    } else {
      TallyIsCount(ps, m, k - 1, |ps|, i);
    }
  }

  /** Only listed problems are tallied. */
  lemma {:induction false} TallyIsListed(ps: seq<Problem>, m: int, k: nat, j: nat, id: string)
    requires j <= |ps| && id in Tally(ps, m, k, j)
    ensures id in Ids(ps)
    decreases k, j
  {
    if j == 0 && k == 0 {
    } else if j > 0 {
      assert ps[j - 1] in ps;
      if id in Tally(ps, m, k, j - 1) { TallyIsListed(ps, m, k, j - 1, id); }
    } else {
      TallyIsListed(ps, m, k - 1, |ps|, id);
    }
  }

  /** A problem with the given ID fits in the first pass over the worker. */
  predicate FirstPass(ps: seq<Problem>, m: int, id: string) {
    exists i :: 0 <= i < |ps| && ps[i].id == id && Fits(Mems(ps), m, 0, i)
  }

  /** Whether an ID gets instances at all is decided in the first pass. */
  lemma {:induction false} PlacedInFirstPass(ps: seq<Problem>, m: int, id: string)
    requires PositiveMemory(ps)
    ensures id in Placed(ps, m) <==> FirstPass(ps, m, id)
  {
    var mems, k := Mems(ps), Passes(Mems(ps), m);
    if id in Placed(ps, m) {
      TalliedInFirstPass(ps, m, k, 0, id);
    }
    if i :| 0 <= i < |ps| && ps[i].id == id && Fits(mems, m, 0, i) {
      if k == 0 {
        UnproductivePass(mems, m, 0, 0, i);
        assert false;
      } else {
        assert id in Tally(ps, m, 0, i + 1);
        TallyGrows(ps, m, 0, i + 1, k, 0, id);
      }
    }
  }

  lemma {:induction false} TalliedInFirstPass(ps: seq<Problem>, m: int, k: nat, j: nat, id: string)
    requires PositiveMemory(ps) && j <= |ps| && id in Tally(ps, m, k, j)
    ensures FirstPass(ps, m, id)
    decreases k, j
  {
    if j == 0 {
      TalliedInFirstPass(ps, m, k - 1, |ps|, id);
    } else if Fits(Mems(ps), m, k, j - 1) && ps[j - 1].id == id {
      if !Fits(Mems(ps), m, 0, j - 1) {
        MisfitForever(Mems(ps), m, 0, k, j - 1);
        assert false;
      }
    } else {
      TalliedInFirstPass(ps, m, k, j - 1, id);
    }
  }

  lemma {:induction false} TallyGrows(ps: seq<Problem>, m: int, k: nat, j: nat, k': nat, j': nat, id: string)
    requires j <= |ps| && j' <= |ps| && (k < k' || (k == k' && j <= j')) && id in Tally(ps, m, k, j)
    ensures id in Tally(ps, m, k', j')
    decreases k', j'
  {
    if k == k' && j == j' {
    } else if j' > 0 {
      TallyGrows(ps, m, k, j, k', j' - 1, id);
    } else {
      TallyGrows(ps, m, k, j, k' - 1, |ps|, id);
    }
  }

  lemma {:induction false} TallyStable(ps: seq<Problem>, m: int, k: nat, j: nat)
    requires PositiveMemory(ps) && j <= |ps| && Passes(Mems(ps), m) <= k
    ensures Tally(ps, m, k, j) == Placed(ps, m)
    decreases k, j
  {
    if j == 0 && k == Passes(Mems(ps), m) {
    } else if j > 0 {
      TallyStable(ps, m, k, j - 1);
      UnproductivePass(Mems(ps), m, Passes(Mems(ps), m), k, j - 1);
    } else {
      TallyStable(ps, m, k - 1, |ps|);
    }
  }

  /** Skipping a worker without memory has the same effect as a pass over the problems. */
  lemma {:induction false} TallyOfNothing(ps: seq<Problem>, m: int, k: nat, j: nat)
    requires PositiveMemory(ps) && j <= |ps| && Left(Mems(ps), m, k, 0) <= 0
    ensures Tally(ps, m, k, j) == Tally(ps, m, k, 0)
    ensures Left(Mems(ps), m, k, j) == Left(Mems(ps), m, k, 0)
    decreases j
  {
    if j == 0 {
    } else {
      TallyOfNothing(ps, m, k, j - 1);
    }
  }

  // ---- Boards: what the loop has written so far -----------------------------------------

  /** Each worker's instances. */
  type Tallies = map<string, multiset<string>>

  /** All instances on all workers. */
  ghost function Total(ts: Tallies): multiset<string>
    decreases |ts|
  {
    if ts == map[] then multiset{}
    else var w :| w in ts; ts[w] + Total(ts - {w})
  }

  lemma {:induction false} TotalSplit(ts: Tallies, w: string)
    requires w in ts
    ensures Total(ts) == ts[w] + Total(ts - {w})
    decreases |ts|
  {
    var v :| v in ts && Total(ts) == ts[v] + Total(ts - {v});
    hide *;
    if v == w {
    } else {
      TotalSplit(ts - {v}, w);
      TotalSplit(ts - {w}, v);
      assert ts - {v} - {w} == ts - {w} - {v};
      Reorder(ts[v], ts[w], Total(ts - {v} - {w}));
    }
  }

  lemma {:induction false} Reorder(a: multiset<string>, b: multiset<string>, c: multiset<string>)
    ensures a + (b + c) == b + (a + c)
  {
  }

  lemma {:induction false} TotalUpdate(ts: Tallies, w: string, p: string)
    requires w in ts
    ensures Total(ts[w := ts[w] + multiset{p}]) == Total(ts) + multiset{p}
  {
    var ts' := ts[w := ts[w] + multiset{p}];
    TotalSplit(ts, w);
    TotalSplit(ts', w);
    assert ts' - {w} == ts - {w};
  }

  lemma {:induction false} TotalOfNothing(ts: Tallies)
    requires forall w :: w in ts ==> ts[w] == multiset{}
    ensures Total(ts) == multiset{}
    decreases |ts|
  {
    if ts == map[] {
    } else {
      var w :| w in ts;
      TotalSplit(ts, w);
      TotalOfNothing(ts - {w});
    }
  }

  /** The schedule entries, the workers' recorded schedules and the instance counts. */
  datatype Board = Board(
    entries: map<(string, string), int32>,
    schedules: map<string, map<string, int>>,
    counts: map<string, int>)

  /** The value that `sched.Get(w, id) + 1` stores. */
  function NewVal(entries: map<(string, string), int32>, w: string, id: string): int32 {
    var current: int := if (w, id) in entries then entries[(w, id)] else 0;
    Wrap(current + 1)
  }

  /** Give worker `w` one more instance of problem `id`; a missing count reads as zero. */
  function PlaceOn(b: Board, w: string, id: string): Board {
    var newVal := NewVal(b.entries, w, id);
    Board(b.entries[(w, id) := newVal],
          b.schedules[w := (if w in b.schedules then b.schedules[w] else map[])[id := newVal]],
          b.counts[id := (if id in b.counts then b.counts[id] else 0) + 1])
  }

  lemma {:induction false} LoopBoardStep(b: Board, ps: seq<Problem>, order: seq<string>, memories: map<string, int>,
                                         k: nat)
    requires forall w :: w in order ==> w in memories
    ensures LoopBoard(b, ps, order, memories, 0) == b
    ensures LoopBoard(b, ps, order, memories, k + 1) ==
            PassBoard(LoopBoard(b, ps, order, memories, k), ps, order, memories, k, |order|)
  {
  }

  lemma {:induction false} PlaceOnParts(b: Board, w: string, id: string, newVal: int32, b': Board)
    requires w in b.schedules && newVal == NewVal(b.entries, w, id)
    requires b'.entries == b.entries[(w, id) := newVal]
    requires b'.schedules == b.schedules[w := b.schedules[w][id := newVal]]
    requires b'.counts == b.counts[id := (if id in b.counts then b.counts[id] else 0) + 1]
    ensures b' == PlaceOn(b, w, id)
  {
  }

  /** The first `j` problems of pass `k` for worker `w`. */
  function PackBoard(b: Board, ps: seq<Problem>, w: string, m: int, k: nat, j: nat): Board
    requires j <= |ps|
  {
    if j == 0 then b
    else
      var b' := PackBoard(b, ps, w, m, k, j - 1);
      if Fits(Mems(ps), m, k, j - 1) then PlaceOn(b', w, ps[j - 1].id) else b'
  }

  /** Pass `k` for the first `n` workers of `order`. */
  function PassBoard(b: Board, ps: seq<Problem>, order: seq<string>, memories: map<string, int>, k: nat, n: nat): Board
    requires n <= |order| && forall w :: w in order ==> w in memories
  {
    if n == 0 then b
    else
      PackBoard(PassBoard(b, ps, order, memories, k, n - 1), ps, order[n - 1], memories[order[n - 1]], k, |ps|)
  }

  /** The first `k` passes. */
  function LoopBoard(b: Board, ps: seq<Problem>, order: seq<string>, memories: map<string, int>, k: nat): Board
    requires forall w :: w in order ==> w in memories
  {
    if k == 0 then b
    else PassBoard(LoopBoard(b, ps, order, memories, k - 1), ps, order, memories, k - 1, |order|)
  }

  /** `s` is the recorded schedule `s0` overridden by the instances `t`. */
  ghost predicate Overridden(s: map<string, int>, s0: map<string, int>, t: multiset<string>) {
    && (forall id :: id in s <==> id in s0 || id in t)
    && (forall id :: id in s ==> s[id] == if id in t then Wrap(t[id]) else s0[id])
  }

  ghost predicate EntriesMatch(entries: map<(string, string), int32>, ts: Tallies) {
    && (forall w, id :: (w, id) in entries <==> w in ts && id in ts[w])
    && (forall w, id :: (w, id) in entries ==> entries[(w, id)] == Wrap(ts[w][id]))
  }

  ghost predicate SchedulesMatch(schedules: map<string, map<string, int>>, schedules0: map<string, map<string, int>>,
                                 ts: Tallies) {
    && schedules.Keys == schedules0.Keys == ts.Keys
    && (forall w :: w in ts ==> Overridden(schedules[w], schedules0[w], ts[w]))
  }

  /** The counts `counts0` with the scheduled problems `ids` recounted. */
  ghost predicate CountsMatch(counts: map<string, int>, counts0: map<string, int>, ids: set<string>,
                              total: multiset<string>) {
    && counts.Keys == counts0.Keys + ids
    && (forall id :: id in counts ==> counts[id] == if id in ids then total[id] else counts0[id])
  }

  /** Board `b` is what the loop makes of `b0` when the workers have got the instances `ts`. */
  ghost predicate Matches(b: Board, b0: Board, ids: set<string>, ts: Tallies) {
    && EntriesMatch(b.entries, ts)
    && SchedulesMatch(b.schedules, b0.schedules, ts)
    && CountsMatch(b.counts, b0.counts, ids, Total(ts))
  }

  lemma {:induction false} EntriesStep(entries: map<(string, string), int32>, ts: Tallies, w: string, p: string)
    requires EntriesMatch(entries, ts) && w in ts
    ensures NewVal(entries, w, p) == Wrap(ts[w][p] + 1)
    ensures EntriesMatch(entries[(w, p) := Wrap(ts[w][p] + 1)], ts[w := ts[w] + multiset{p}])
  {
    assert (w, p) in entries <==> p in ts[w];
    WrapAdd(ts[w][p], 1);
    var t := ts[w] + multiset{p};
    forall v, id
      ensures (v, id) in entries[(w, p) := Wrap(ts[w][p] + 1)] <==> v in ts[w := t] && id in ts[w := t][v]
      ensures (v, id) in entries[(w, p) := Wrap(ts[w][p] + 1)] ==>
                entries[(w, p) := Wrap(ts[w][p] + 1)][(v, id)] == Wrap(ts[w := t][v][id])
    {
      EntryStep(entries, ts, w, p, v, id);
    }
  }

  lemma {:induction false} EntryStep(entries: map<(string, string), int32>, ts: Tallies, w: string, p: string,
                                     v: string, id: string)
    requires w in ts
    requires (v, id) in entries <==> v in ts && id in ts[v]
    requires (v, id) in entries ==> entries[(v, id)] == Wrap(ts[v][id])
    ensures var entries', ts' := entries[(w, p) := Wrap(ts[w][p] + 1)], ts[w := ts[w] + multiset{p}];
            && ((v, id) in entries' <==> v in ts' && id in ts'[v])
            && ((v, id) in entries' ==> entries'[(v, id)] == Wrap(ts'[v][id]))
  {
  }

  lemma {:induction false} OverriddenStep(s: map<string, int>, s0: map<string, int>, t: multiset<string>, p: string)
    requires Overridden(s, s0, t)
    ensures Overridden(s[p := Wrap(t[p] + 1)], s0, t + multiset{p})
  {
  }

  lemma {:induction false} SchedulesStep(schedules: map<string, map<string, int>>,
                                         schedules0: map<string, map<string, int>>, ts: Tallies, w: string, p: string)
    requires SchedulesMatch(schedules, schedules0, ts) && w in ts
    ensures SchedulesMatch(schedules[w := schedules[w][p := Wrap(ts[w][p] + 1)]], schedules0,
            ts[w := ts[w] + multiset{p}])
  {
    OverriddenStep(schedules[w], schedules0[w], ts[w], p);
  }

  lemma {:induction false} CountsStep(counts: map<string, int>, counts0: map<string, int>, ids: set<string>,
                                      total: multiset<string>, p: string)
    requires CountsMatch(counts, counts0, ids, total) && p in ids
    ensures p in counts && CountsMatch(counts[p := counts[p] + 1], counts0, ids, total + multiset{p})
  {
  }

  lemma {:induction false} EntriesOfPlaceOn(b: Board, ts: Tallies, w: string, p: string)
    requires EntriesMatch(b.entries, ts) && w in ts
    ensures EntriesMatch(PlaceOn(b, w, p).entries, ts[w := ts[w] + multiset{p}])
  {
    EntriesStep(b.entries, ts, w, p);
  }

  lemma {:induction false} SchedulesOfPlaceOn(b: Board, b0: Board, ts: Tallies, w: string, p: string)
    requires EntriesMatch(b.entries, ts) && SchedulesMatch(b.schedules, b0.schedules, ts) && w in ts
    ensures SchedulesMatch(PlaceOn(b, w, p).schedules, b0.schedules, ts[w := ts[w] + multiset{p}])
  {
    EntriesStep(b.entries, ts, w, p);
    SchedulesStep(b.schedules, b0.schedules, ts, w, p);
  }

  lemma {:induction false} CountsOfPlaceOn(b: Board, b0: Board, ids: set<string>, ts: Tallies, w: string, p: string)
    requires CountsMatch(b.counts, b0.counts, ids, Total(ts))
    requires w in ts && p in ids
    ensures CountsMatch(PlaceOn(b, w, p).counts, b0.counts, ids, Total(ts[w := ts[w] + multiset{p}]))
  {
    CountsStep(b.counts, b0.counts, ids, Total(ts), p);
    TotalUpdate(ts, w, p);
  }

  /** One placement keeps the board in step with the tallies. */
  lemma {:induction false} BoardStep(b: Board, b0: Board, ids: set<string>, ts: Tallies, w: string, p: string,
                                     ts': Tallies)
    requires Matches(b, b0, ids, ts) && w in ts && p in ids
    requires ts' == ts[w := ts[w] + multiset{p}]
    ensures Matches(PlaceOn(b, w, p), b0, ids, ts')
  {
    EntriesOfPlaceOn(b, ts, w, p);
    SchedulesOfPlaceOn(b, b0, ts, w, p);
    CountsOfPlaceOn(b, b0, ids, ts, w, p);
  }

  lemma {:induction false} TallyStep(ps: seq<Problem>, ts: Tallies, w: string, m: int, k: nat, j: nat)
    requires j < |ps|
    ensures ps[j].id in Ids(ps)
    ensures var t := Tally(ps, m, k, j);
            ts[w := Tally(ps, m, k, j + 1)] ==
            ts[w := t][w := if Fits(Mems(ps), m, k, j) then t + multiset{ps[j].id} else t]
  {
    assert ps[j] in ps;
  }

  lemma {:induction false} PackStep(b: Board, b0: Board, ps: seq<Problem>, ts: Tallies, w: string, m: int, k: nat,
                                    j: nat)
    requires j < |ps| && Fits(Mems(ps), m, k, j)
    requires Matches(b, b0, Ids(ps), ts[w := Tally(ps, m, k, j)])
    ensures Matches(PlaceOn(b, w, ps[j].id), b0, Ids(ps), ts[w := Tally(ps, m, k, j + 1)])
  {
    TallyStep(ps, ts, w, m, k, j);
    BoardStep(b, b0, Ids(ps), ts[w := Tally(ps, m, k, j)], w, ps[j].id, ts[w := Tally(ps, m, k, j + 1)]);
  }

  lemma {:induction false} PackBoardMatches(b: Board, b0: Board, ps: seq<Problem>, ts: Tallies, w: string, m: int,
                                            k: nat, j: nat)
    requires j <= |ps|
    requires Matches(b, b0, Ids(ps), ts[w := Tally(ps, m, k, 0)])
    ensures Matches(PackBoard(b, ps, w, m, k, j), b0, Ids(ps), ts[w := Tally(ps, m, k, j)])
    decreases j
  {
    if j == 0 {
    } else {
      PackBoardMatches(b, b0, ps, ts, w, m, k, j - 1);
      if Fits(Mems(ps), m, k, j - 1) {
        PackStep(PackBoard(b, ps, w, m, k, j - 1), b0, ps, ts, w, m, k, j - 1);
      }
    }
  }

  ghost predicate Distinct(order: seq<string>) {
    forall i, j :: 0 <= i < j < |order| ==> order[i] != order[j]
  }

  /** Workers of `order` up to `n` have finished pass `k`, the others are at its start. */
  ghost function TalliesWithin(ps: seq<Problem>, order: seq<string>, memories: map<string, int>, k: nat,
                               n: nat): Tallies
    requires n <= |order|
  {
    map w | w in memories :: Tally(ps, memories[w], if w in order[..n] then k + 1 else k, 0)
  }

  lemma {:induction false} WithinStart(ps: seq<Problem>, order: seq<string>, memories: map<string, int>, k: nat, n: nat)
    requires n < |order| && Distinct(order) && order[n] in memories
    ensures var ts, w := TalliesWithin(ps, order, memories, k, n), order[n];
            ts[w := Tally(ps, memories[w], k, 0)] == ts
  {
    assert order[n] !in order[..n];
  }

  lemma {:induction false} WithinStep(ps: seq<Problem>, order: seq<string>, memories: map<string, int>, k: nat, n: nat)
    requires n < |order| && Distinct(order) && order[n] in memories
    ensures var ts, w := TalliesWithin(ps, order, memories, k, n), order[n];
            ts[w := Tally(ps, memories[w], k, |ps|)] == TalliesWithin(ps, order, memories, k, n + 1)
  {
    var ts, ts', w := TalliesWithin(ps, order, memories, k, n), TalliesWithin(ps, order, memories, k, n + 1), order[n];
    assert order[..n + 1] == order[..n] + [w];
    assert ts'[w] == Tally(ps, memories[w], k + 1, 0) == Tally(ps, memories[w], k, |ps|);
    forall v | v in memories && v != w
      ensures ts[v] == ts'[v]
    {
      assert v in order[..n + 1] <==> v in order[..n];
    }
  }

  lemma {:induction false} Rewrite(b: Board, b0: Board, ids: set<string>, ts: Tallies, ts': Tallies)
    requires Matches(b, b0, ids, ts) && ts == ts'
    ensures Matches(b, b0, ids, ts')
  {
  }

  lemma {:induction false} PassStep(b: Board, b0: Board, ps: seq<Problem>, order: seq<string>,
                                    memories: map<string, int>, k: nat, n: nat)
    requires n < |order| && Distinct(order) && order[n] in memories
    requires Matches(b, b0, Ids(ps), TalliesWithin(ps, order, memories, k, n))
    ensures Matches(PackBoard(b, ps, order[n], memories[order[n]], k, |ps|), b0, Ids(ps),
            TalliesWithin(ps, order, memories, k, n + 1))
  {
    var ts, w := TalliesWithin(ps, order, memories, k, n), order[n];
    WithinStart(ps, order, memories, k, n);
    WithinStep(ps, order, memories, k, n);
    Rewrite(b, b0, Ids(ps), ts, ts[w := Tally(ps, memories[w], k, 0)]);
    PackBoardMatches(b, b0, ps, ts, w, memories[w], k, |ps|);
    Rewrite(PackBoard(b, ps, w, memories[w], k, |ps|), b0, Ids(ps),
            ts[w := Tally(ps, memories[w], k, |ps|)], TalliesWithin(ps, order, memories, k, n + 1));
  }

  lemma {:induction false} PassBoardMatches(b: Board, b0: Board, ps: seq<Problem>, order: seq<string>,
                                            memories: map<string, int>, k: nat, n: nat)
    requires n <= |order| && Distinct(order) && forall w :: w in order ==> w in memories
    requires Matches(b, b0, Ids(ps), TalliesWithin(ps, order, memories, k, 0))
    ensures Matches(PassBoard(b, ps, order, memories, k, n), b0, Ids(ps), TalliesWithin(ps, order, memories, k, n))
    decreases n
  {
    hide *;
    if n == 0 {
      StartOfPass(b, ps, order, memories, k);
    } else {
      var i := n - 1;
      PassBoardMatches(b, b0, ps, order, memories, k, i);
      VisitOfPass(b, ps, order, memories, k, i);
      PassStep(PassBoard(b, ps, order, memories, k, i), b0, ps, order, memories, k, i);
    }
  }

  /** All workers after `k` passes. */
  ghost function TalliesAt(ps: seq<Problem>, memories: map<string, int>, k: nat): Tallies {
    map w | w in memories :: Tally(ps, memories[w], k, 0)
  }

  /** `order` lists each worker once. */
  ghost predicate Enumerated(order: seq<string>, memories: map<string, int>) {
    |order| == |memories| && (set w | w in order) == memories.Keys
  }

  lemma {:induction false} EnumeratedMeans(order: seq<string>, memories: map<string, int>)
    requires Enumerated(order, memories)
    ensures Distinct(order) && forall w :: w in order <==> w in memories
  {
    assert forall w :: w in order <==> w in (set v | v in order);
    DistinctByCount(order);
    assert |memories| == |memories.Keys|;
  }

  lemma {:induction false} DistinctByCount(order: seq<string>)
    ensures |set w | w in order| <= |order|
    ensures |set w | w in order| == |order| ==> Distinct(order)
    decreases |order|
  {
    if order == [] {
    } else {
      var front, last := order[..|order| - 1], order[|order| - 1];
      DistinctByCount(front);
      assert order == front + [last];
      var all, some := set w | w in order, set w | w in front;
      if last in some {
        assert all == some;
      } else {
        assert all == some + {last};
      }
    }
  }

  /** The board after `k` passes over all workers, in whatever order the passes visit them. */
  lemma {:induction false} LoopBoardMatches(b: Board, b0: Board, ps: seq<Problem>, order: seq<string>,
                                            memories: map<string, int>, k: nat)
    requires Enumerated(order, memories)
    requires Matches(b, b0, Ids(ps), TalliesAt(ps, memories, 0))
    ensures Matches(LoopBoard(b, ps, order, memories, k), b0, Ids(ps), TalliesAt(ps, memories, k))
    decreases k
  {
    EnumeratedMeans(order, memories);
    LoopBoardStep(b, ps, order, memories, 0);
    hide *;
    if k == 0 {
    } else {
      var i := k - 1;
      LoopBoardMatches(b, b0, ps, order, memories, i);
      LoopBoardStep(b, ps, order, memories, i);
      LoopStep(LoopBoard(b, ps, order, memories, i), b0, ps, order, memories, i);
    }
  }

  lemma {:induction false} LoopStep(b: Board, b0: Board, ps: seq<Problem>, order: seq<string>,
                                    memories: map<string, int>, k: nat)
    requires Enumerated(order, memories)
    requires Matches(b, b0, Ids(ps), TalliesAt(ps, memories, k))
    ensures Matches(PassBoard(b, ps, order, memories, k, |order|), b0, Ids(ps), TalliesAt(ps, memories, k + 1))
  {
    EnumeratedMeans(order, memories);
    WithinEnds(ps, order, memories, k);
    Rewrite(b, b0, Ids(ps), TalliesAt(ps, memories, k), TalliesWithin(ps, order, memories, k, 0));
    PassBoardMatches(b, b0, ps, order, memories, k, |order|);
    Rewrite(PassBoard(b, ps, order, memories, k, |order|), b0, Ids(ps),
            TalliesWithin(ps, order, memories, k, |order|), TalliesAt(ps, memories, k + 1));
  }

  lemma {:induction false} WithinEnds(ps: seq<Problem>, order: seq<string>, memories: map<string, int>, k: nat)
    requires Enumerated(order, memories)
    ensures TalliesAt(ps, memories, k) == TalliesWithin(ps, order, memories, k, 0)
    ensures TalliesAt(ps, memories, k + 1) == TalliesWithin(ps, order, memories, k, |order|)
  {
    EnumeratedMeans(order, memories);
    assert order[..|order|] == order;
  }

  /** What the visit of problem `ps[j]` does in a pass over a worker. */
  lemma {:induction false} NextProblem(b: Board, ps: seq<Problem>, w: string, m: int, k: nat, j: nat)
    requires j < |ps|
    ensures PackBoard(b, ps, w, m, k, 0) == b
    ensures Fits(Mems(ps), m, k, j) <==> Left(Mems(ps), m, k, j) >= ps[j].memory
    ensures Left(Mems(ps), m, k, j + 1) ==
            Left(Mems(ps), m, k, j) - if Fits(Mems(ps), m, k, j) then ps[j].memory else 0
    ensures PackBoard(b, ps, w, m, k, j + 1) ==
            if Fits(Mems(ps), m, k, j) then PlaceOn(PackBoard(b, ps, w, m, k, j), w, ps[j].id)
            else PackBoard(b, ps, w, m, k, j)
  {
  }

  lemma {:induction false} PassEnds(b: Board, ps: seq<Problem>, w: string, m: int, k: nat)
    ensures PackBoard(b, ps, w, m, k, 0) == b
    ensures Left(Mems(ps), m, k, |ps|) == Left(Mems(ps), m, k + 1, 0)
    ensures Productive(Mems(ps), m, k) <==> Left(Mems(ps), m, k + 1, 0) < Left(Mems(ps), m, k, 0)
  {
  }

  /** The `continue` for a worker without memory skips nothing. */
  lemma {:induction false} PackBoardSkip(b: Board, ps: seq<Problem>, w: string, m: int, k: nat, j: nat)
    requires PositiveMemory(ps) && j <= |ps| && Left(Mems(ps), m, k, 0) <= 0
    ensures PackBoard(b, ps, w, m, k, j) == b
    ensures Left(Mems(ps), m, k, j) == Left(Mems(ps), m, k, 0)
    decreases j
  {
    if j == 0 {
    } else {
      PackBoardSkip(b, ps, w, m, k, j - 1);
    }
  }

  /** The content of `workersRemainingMem` after `k` passes. */
  ghost function RemainingAt(ps: seq<Problem>, memories: map<string, int>, k: nat): map<string, int> {
    map w | w in memories :: Left(Mems(ps), memories[w], k, 0)
  }

  /** The content of `workersRemainingMem` when pass `k` has visited the first `n` workers of `order`. */
  ghost function RemainingWithin(ps: seq<Problem>, order: seq<string>, memories: map<string, int>, k: nat,
                                 n: nat): map<string, int>
    requires n <= |order| && forall w :: w in order ==> w in memories
  {
    if n == 0 then RemainingAt(ps, memories, k)
    else
      var w := order[n - 1];
      RemainingWithin(ps, order, memories, k, n - 1)[w := Left(Mems(ps), memories[w], k + 1, 0)]
  }

  lemma {:induction false} InRemainingWithin(ps: seq<Problem>, order: seq<string>, memories: map<string, int>, k: nat,
                                             n: nat, w: string)
    requires n <= |order| && w in memories && forall v :: v in order ==> v in memories
    ensures RemainingWithin(ps, order, memories, k, n).Keys == memories.Keys
    ensures RemainingWithin(ps, order, memories, k, n)[w] ==
            Left(Mems(ps), memories[w], if w in order[..n] then k + 1 else k, 0)
    decreases n
  {
    if n == 0 {
    } else {
      InRemainingWithin(ps, order, memories, k, n - 1, w);
      assert order[..n] == order[..n - 1] + [order[n - 1]];
      assert order[n - 1] in order;
    }
  }

  lemma {:induction false} FirstRemaining(ps: seq<Problem>, memories: map<string, int>)
    ensures RemainingAt(ps, memories, 0) == memories
  {
  }

  lemma {:induction false} NextRemaining(ps: seq<Problem>, order: seq<string>, memories: map<string, int>, k: nat,
                                         n: nat)
    requires n < |order| && Enumerated(order, memories) && forall v :: v in order ==> v in memories
    ensures order[n] in memories && order[n] in RemainingWithin(ps, order, memories, k, n)
    ensures RemainingWithin(ps, order, memories, k, n)[order[n]] == Left(Mems(ps), memories[order[n]], k, 0)
    ensures RemainingWithin(ps, order, memories, k, n + 1) ==
            RemainingWithin(ps, order, memories, k, n)[order[n] := Left(Mems(ps), memories[order[n]], k + 1, 0)]
  {
    EnumeratedMeans(order, memories);
    assert order[n] in order && order[n] !in order[..n];
    InRemainingWithin(ps, order, memories, k, n, order[n]);
  }

  lemma {:induction false} LastRemaining(ps: seq<Problem>, order: seq<string>, memories: map<string, int>, k: nat)
    requires Enumerated(order, memories)
    ensures RemainingWithin(ps, order, memories, k, |order|) == RemainingAt(ps, memories, k + 1)
  {
    EnumeratedMeans(order, memories);
    assert order[..|order|] == order;
    forall w | w in memories
      ensures RemainingWithin(ps, order, memories, k, |order|).Keys == memories.Keys
      ensures RemainingWithin(ps, order, memories, k, |order|)[w] == RemainingAt(ps, memories, k + 1)[w]
    {
      InRemainingWithin(ps, order, memories, k, |order|, w);
    }
    if order == [] {
      assert memories == map[];
    } else {
      InRemainingWithin(ps, order, memories, k, |order|, order[0]);
    }
  }

  /** Pass `k` places something on one of the first `n` workers of `order`. */
  predicate SomeProductive(ps: seq<Problem>, order: seq<string>, memories: map<string, int>, k: nat, n: nat)
    requires n <= |order| && forall w :: w in order ==> w in memories
  {
    n > 0 && (SomeProductive(ps, order, memories, k, n - 1) || Productive(Mems(ps), memories[order[n - 1]], k))
  }

  /** Nothing has happened at the start of a pass. */
  lemma {:induction false} StartOfPass(b: Board, ps: seq<Problem>, order: seq<string>, memories: map<string, int>,
                                       k: nat)
    requires forall w :: w in order ==> w in memories
    ensures PassBoard(b, ps, order, memories, k, 0) == b
    ensures RemainingWithin(ps, order, memories, k, 0) == RemainingAt(ps, memories, k)
    ensures !SomeProductive(ps, order, memories, k, 0)
  {
  }

  /** What the visit of worker `order[n]` adds to a pass. */
  lemma {:induction false} VisitOfPass(b: Board, ps: seq<Problem>, order: seq<string>, memories: map<string, int>,
                                       k: nat, n: nat)
    requires n < |order| && forall w :: w in order ==> w in memories
    ensures order[n] in memories
    ensures PassBoard(b, ps, order, memories, k, n + 1) ==
            PackBoard(PassBoard(b, ps, order, memories, k, n), ps, order[n], memories[order[n]], k, |ps|)
    ensures SomeProductive(ps, order, memories, k, n + 1) <==>
            SomeProductive(ps, order, memories, k, n) || Productive(Mems(ps), memories[order[n]], k)
  {
    assert order[n] in order;
  }

  /** The largest number of productive passes over the first `n` workers of `order`. */
  function MaxPasses(ps: seq<Problem>, order: seq<string>, memories: map<string, int>, n: nat): nat
    requires PositiveMemory(ps) && n <= |order| && forall w :: w in order ==> w in memories
  {
    if n == 0 then 0
    else
      var others, own := MaxPasses(ps, order, memories, n - 1), Passes(Mems(ps), memories[order[n - 1]]);
      if own > others then own else others
  }

  lemma {:induction false} SomeProductiveMeans(ps: seq<Problem>, order: seq<string>, memories: map<string, int>, k: nat,
                                               n: nat)
    requires PositiveMemory(ps) && n <= |order| && forall w :: w in order ==> w in memories
    ensures SomeProductive(ps, order, memories, k, n) <==> k < MaxPasses(ps, order, memories, n)
    decreases n
  {
    if n == 0 {
    } else {
      SomeProductiveMeans(ps, order, memories, k, n - 1);
      assert order[n - 1] in order;
      ProductivePrefix(Mems(ps), memories[order[n - 1]], k);
    }
  }

  lemma {:induction false} MaxPassesMeans(ps: seq<Problem>, order: seq<string>, memories: map<string, int>, n: nat)
    requires PositiveMemory(ps) && n <= |order| && forall w :: w in order ==> w in memories
    ensures forall a :: 0 <= a < n ==>
            order[a] in memories && Passes(Mems(ps), memories[order[a]]) <= MaxPasses(ps, order, memories, n)
    ensures MaxPasses(ps, order, memories, n) > 0 ==>
              exists w :: w in order && w in memories && Passes(Mems(ps), memories[w]) ==
                MaxPasses(ps, order, memories, n)
    decreases n
  {
    if n == 0 {
    } else {
      MaxPassesMeans(ps, order, memories, n - 1);
      assert order[n - 1] in order;
    }
  }

  // ---- What a whole run of `FillSchedule` means -----------------------------------------

  /** The schedule entries: a zero for each removed problem, a count for each placed one. */
  ghost function EntriesFor(ps: seq<Problem>, workers: map<string, WorkerState>,
                            removed: set<string>): map<(string, string), int32>
    requires PositiveMemory(ps)
  {
    map w, id | w in workers && id in Ids(ps) + removed && (id in removed || id in Placed(ps, workers[w].memory)) ::
      (w, id) := if id in removed then 0 else Wrap(Placed(ps, workers[w].memory)[id])
  }

  /** The schedule that the master records for a worker that had recorded schedule `s0`. */
  ghost function Recorded(ps: seq<Problem>, m: int, s0: map<string, int>, removed: set<string>): map<string, int>
    requires PositiveMemory(ps)
  {
    (s0 + map id | id in Placed(ps, m) :: Wrap(Placed(ps, m)[id])) - removed
  }

  ghost function PackedTallies(ps: seq<Problem>, workers: map<string, WorkerState>): Tallies
    requires PositiveMemory(ps)
  {
    map w | w in workers :: Placed(ps, workers[w].memory)
  }

  ghost function IdsIn(list: seq<string>): set<string> {
    set id | id in list
  }

  ghost function RemovedIds(s: SchedulerState): set<string> {
    IdsIn(s.removeList)
  }

  /** The board once the problems `ids` are zeroed in the schedule and dropped from every worker's record. */
  ghost function Cleared(b: Board, ids: set<string>): Board {
    Board(b.entries + (map w, id | w in b.schedules && id in ids :: (w, id) := 0),
          map w | w in b.schedules :: b.schedules[w] - ids,
          b.counts)
  }

  /** The loop's board at its end is the board of the packed workers. */
  lemma {:induction false} PackedAt(ps: seq<Problem>, workers: map<string, WorkerState>, memories: map<string, int>,
                                    k: nat)
    requires PositiveMemory(ps)
    requires memories == map w | w in workers :: workers[w].memory
    requires forall w :: w in workers ==> Passes(Mems(ps), workers[w].memory) <= k
    ensures TalliesAt(ps, memories, k) == PackedTallies(ps, workers)
  {
    forall w | w in workers
      ensures Tally(ps, memories[w], k, 0) == Placed(ps, workers[w].memory)
    {
      TallyStable(ps, workers[w].memory, k, 0);
    }
  }

  lemma {:induction false} InEntriesFor(ps: seq<Problem>, workers: map<string, WorkerState>, removed: set<string>,
                                        w: string, id: string)
    requires PositiveMemory(ps)
    ensures (w, id) in EntriesFor(ps, workers, removed) <==>
            w in workers && (id in removed || id in Placed(ps, workers[w].memory))
    ensures (w, id) in EntriesFor(ps, workers, removed) ==>
              EntriesFor(ps, workers, removed)[(w, id)] ==
                if id in removed then 0 else Wrap(Placed(ps, workers[w].memory)[id])
  {
    if w in workers && id in Placed(ps, workers[w].memory) {
      TallyIsListed(ps, workers[w].memory, Passes(Mems(ps), workers[w].memory), 0, id);
    }
  }

  lemma {:induction false} InCleared(b: Board, ids: set<string>, w: string, id: string)
    ensures (w, id) in Cleared(b, ids).entries <==> (w in b.schedules && id in ids) || (w, id) in b.entries
    ensures (w, id) in Cleared(b, ids).entries ==>
              Cleared(b, ids).entries[(w, id)] == if w in b.schedules && id in ids then 0 else b.entries[(w, id)]
  {
  }

  lemma {:induction false} SamePairs(a: map<(string, string), int32>, b: map<(string, string), int32>)
    requires forall w, id :: (w, id) in a <==> (w, id) in b
    requires forall w, id :: (w, id) in a ==> a[(w, id)] == b[(w, id)]
    ensures a == b
  {
    forall wp: (string, string)
      ensures wp in a <==> wp in b
      ensures wp in a ==> a[wp] == b[wp]
    {
      assert wp == (wp.0, wp.1);
    }
  }

  lemma {:induction false} ClearedMore(b: Board, ids: set<string>, id: string)
    ensures Cleared(Cleared(b, ids), {id}) == Cleared(b, ids + {id})
  {
    var left, right := Cleared(Cleared(b, ids), {id}), Cleared(b, ids + {id});
    forall w, p
      ensures (w, p) in left.entries <==> (w, p) in right.entries
      ensures (w, p) in left.entries ==> left.entries[(w, p)] == right.entries[(w, p)]
    {
      InCleared(b, ids, w, p);
      InCleared(Cleared(b, ids), {id}, w, p);
      InCleared(b, ids + {id}, w, p);
    }
    SamePairs(left.entries, right.entries);
    ClearedSchedules(b, ids, id);
  }

  lemma {:induction false} ClearedSchedules(b: Board, ids: set<string>, id: string)
    ensures Cleared(Cleared(b, ids), {id}).schedules == Cleared(b, ids + {id}).schedules
  {
    forall w | w in b.schedules
      ensures Cleared(Cleared(b, ids), {id}).schedules[w] == Cleared(b, ids + {id}).schedules[w]
    {
      assert b.schedules[w] - ids - {id} == b.schedules[w] - (ids + {id});
    }
  }

  lemma {:induction false} ClearedNone(b: Board)
    ensures Cleared(b, {}) == b
  {
    forall w | w in b.schedules
      ensures b.schedules[w] - {} == b.schedules[w]
    {
    }
    assert Cleared(b, {}).schedules == b.schedules;
  }

  /** Problem `id` zeroed and dropped for the workers in `done` only. */
  ghost function ClearedFor(b: Board, done: set<string>, id: string): Board {
    Board(b.entries + (map w | w in done :: (w, id) := 0),
          map w | w in b.schedules :: if w in done then b.schedules[w] - {id} else b.schedules[w],
          b.counts)
  }

  ghost function ClearedOnce(b: Board, w: string, id: string): Board
    requires w in b.schedules
  {
    Board(b.entries[(w, id) := 0], b.schedules[w := b.schedules[w] - {id}], b.counts)
  }

  lemma {:induction false} ClearedForStep(b: Board, done: set<string>, w: string, id: string)
    requires w in b.schedules && w !in done
    ensures w in ClearedFor(b, done, id).schedules
    ensures ClearedOnce(ClearedFor(b, done, id), w, id) == ClearedFor(b, done + {w}, id)
  {
    var left, right := ClearedOnce(ClearedFor(b, done, id), w, id), ClearedFor(b, done + {w}, id);
    ClearedForEntries(b, done, w, id);
    assert left.schedules == right.schedules;
  }

  lemma {:induction false} ClearedForEntries(b: Board, done: set<string>, w: string, id: string)
    requires w in b.schedules && w !in done
    ensures ClearedFor(b, done, id).entries[(w, id) := 0] == ClearedFor(b, done + {w}, id).entries
  {
    var left, right := ClearedFor(b, done, id).entries[(w, id) := 0], ClearedFor(b, done + {w}, id).entries;
    forall v, p
      ensures (v, p) in left <==> (v, p) in right
      ensures (v, p) in left ==> left[(v, p)] == right[(v, p)]
    {
      InClearedFor(b, done, id, v, p);
      InClearedFor(b, done + {w}, id, v, p);
      hide ClearedFor;
    }
    SamePairs(left, right);
  }

  lemma {:induction false} InClearedFor(b: Board, done: set<string>, id: string, v: string, p: string)
    ensures (v, p) in ClearedFor(b, done, id).entries <==> (v in done && p == id) || (v, p) in b.entries
    ensures (v, p) in ClearedFor(b, done, id).entries ==>
              ClearedFor(b, done, id).entries[(v, p)] == if v in done && p == id then 0 else b.entries[(v, p)]
  {
  }

  lemma {:induction false} ClearedForNone(b: Board, id: string)
    ensures ClearedFor(b, {}, id) == b
  {
    assert ClearedFor(b, {}, id).schedules == b.schedules;
    assert ClearedFor(b, {}, id).entries == b.entries;
  }

  lemma {:induction false} ClearedForAll(b: Board, id: string)
    ensures ClearedFor(b, b.schedules.Keys, id) == Cleared(b, {id})
  {
    var left, right := ClearedFor(b, b.schedules.Keys, id), Cleared(b, {id});
    assert left.schedules == right.schedules;
    forall v, p
      ensures (v, p) in left.entries <==> (v, p) in right.entries
      ensures (v, p) in left.entries ==> left.entries[(v, p)] == right.entries[(v, p)]
    {
      InClearedFor(b, b.schedules.Keys, id, v, p);
      InCleared(b, {id}, v, p);
    }
    SamePairs(left.entries, right.entries);
  }

  lemma {:induction false} FilledEntries(b: Board, ps: seq<Problem>, workers: map<string, WorkerState>,
                                         removed: set<string>)
    requires PositiveMemory(ps)
    requires EntriesMatch(b.entries, PackedTallies(ps, workers)) && b.schedules.Keys == workers.Keys
    ensures Cleared(b, removed).entries == EntriesFor(ps, workers, removed)
  {
    var left, right := Cleared(b, removed).entries, EntriesFor(ps, workers, removed);
    forall w, id
      ensures (w, id) in left <==> (w, id) in right
      ensures (w, id) in left ==> left[(w, id)] == right[(w, id)]
    {
      InCleared(b, removed, w, id);
      InEntriesFor(ps, workers, removed, w, id);
      assert (w, id) in b.entries <==> w in workers && id in PackedTallies(ps, workers)[w];
    }
    SamePairs(left, right);
  }

  lemma {:induction false} FilledSchedule(s: map<string, int>, s0: map<string, int>, ps: seq<Problem>, m: int,
                                          removed: set<string>)
    requires PositiveMemory(ps) && Overridden(s, s0, Placed(ps, m))
    ensures s - removed == Recorded(ps, m, s0, removed)
  {
    var left, right := s - removed, Recorded(ps, m, s0, removed);
    forall id
      ensures id in left <==> id in right
      ensures id in left ==> left[id] == right[id]
    {
      assert id in s <==> id in s0 || id in Placed(ps, m);
    }
  }

  /** The worker records after packing the problems `ps`. */
  ghost function RecordedWorkers(pre: SchedulerState, ps: seq<Problem>): map<string, WorkerState>
    requires PositiveMemory(ps)
  {
    map w | w in pre.workers ::
      pre.workers[w].(schedule := Recorded(ps, pre.workers[w].memory, pre.workers[w].schedule, RemovedIds(pre)))
  }

  /** `post` and `entries` are what `FillSchedule` may make of `pre`; only the order of ties is free. */
  ghost predicate Filled(pre: SchedulerState, post: SchedulerState, entries: map<(string, string), int32>)
  {
    var ps := post.problems;
    && DescendingOrder(ps, pre.problems)
    && PositiveMemory(ps)
    && post.workers == RecordedWorkers(pre, ps)
    && post.removeList == []
    && CountsMatch(post.instanceCounts, pre.instanceCounts, Ids(ps), Total(PackedTallies(ps, pre.workers)))
    && entries == EntriesFor(ps, pre.workers, RemovedIds(pre))
  }

  /** `passes` is one more than the largest number of productive passes on a worker. */
  ghost predicate PassesMade(ps: seq<Problem>, memories: map<string, int>, passes: nat)
    requires PositiveMemory(ps)
  {
    && (forall w :: w in memories ==> Passes(Mems(ps), memories[w]) < passes)
    && (passes > 1 ==> exists w :: w in memories && Passes(Mems(ps), memories[w]) == passes - 1)
  }

  /** The board that `FillSchedule` starts its loop from. */
  ghost predicate Zeroed(b: Board, b0: Board, ids: set<string>) {
    && b.entries == map[] && b.schedules == b0.schedules
    && CountsMatch(b.counts, b0.counts, ids, multiset{})
  }

  lemma {:induction false} ZeroedMatches(b: Board, b0: Board, ps: seq<Problem>, memories: map<string, int>)
    requires Zeroed(b, b0, Ids(ps)) && b0.schedules.Keys == memories.Keys
    ensures Matches(b, b0, Ids(ps), TalliesAt(ps, memories, 0))
  {
    TotalOfNothing(TalliesAt(ps, memories, 0));
  }

  lemma {:induction false} MaxIsPassesMade(ps: seq<Problem>, order: seq<string>, memories: map<string, int>)
    requires PositiveMemory(ps) && Enumerated(order, memories)
    ensures PassesMade(ps, memories, 1 + MaxPasses(ps, order, memories, |order|))
  {
    EnumeratedMeans(order, memories);
    MaxPassesMeans(ps, order, memories, |order|);
    forall w | w in memories
      ensures Passes(Mems(ps), memories[w]) < 1 + MaxPasses(ps, order, memories, |order|)
    {
      assert w in order;
      var a :| 0 <= a < |order| && order[a] == w;
    }
  }

  /** The loop ends with the packed workers' instances on the board. */
  lemma {:induction false} LoopPacks(pre: SchedulerState, ps: seq<Problem>, b: Board, order: seq<string>,
                                     memories: map<string, int>, passes: nat)
    requires PositiveMemory(ps) && Enumerated(order, memories) && PassesMade(ps, memories, passes)
    requires memories == map w | w in pre.workers :: pre.workers[w].memory
    requires Zeroed(b, BoardOfState(pre), Ids(ps))
    ensures Matches(LoopBoard(b, ps, order, memories, passes), BoardOfState(pre), Ids(ps),
            PackedTallies(ps, pre.workers))
  {
    EnumeratedMeans(order, memories);
    ZeroedMatches(b, BoardOfState(pre), ps, memories);
    LoopBoardMatches(b, BoardOfState(pre), ps, order, memories, passes);
    forall w | w in pre.workers
      ensures Passes(Mems(ps), pre.workers[w].memory) <= passes
    {
      assert w in memories;
    }
    PackedAt(ps, pre.workers, memories, passes);
    Rewrite(LoopBoard(b, ps, order, memories, passes), BoardOfState(pre), Ids(ps),
            TalliesAt(ps, memories, passes), PackedTallies(ps, pre.workers));
  }

  lemma {:induction false} SchedulesRecorded(loop: Board, pre: SchedulerState, ps: seq<Problem>, w: string)
    requires PositiveMemory(ps) && w in pre.workers
    requires SchedulesMatch(loop.schedules, BoardOfState(pre).schedules, PackedTallies(ps, pre.workers))
    ensures w in loop.schedules
    ensures loop.schedules[w] - RemovedIds(pre) ==
            Recorded(ps, pre.workers[w].memory, pre.workers[w].schedule, RemovedIds(pre))
  {
    assert Overridden(loop.schedules[w], pre.workers[w].schedule, PackedTallies(ps, pre.workers)[w]);
    FilledSchedule(loop.schedules[w], pre.workers[w].schedule, ps, pre.workers[w].memory, RemovedIds(pre));
  }

  /** State `pre` with problems in a new order, nothing to remove, and the records and counts of a board. */
  ghost function StateAfter(pre: SchedulerState, ps: seq<Problem>, final: Board): SchedulerState
    requires final.schedules.Keys == pre.workers.Keys
  {
    SchedulerState(ps, map w | w in pre.workers :: pre.workers[w].(schedule := final.schedules[w]), [], final.counts)
  }

  lemma {:induction false} WorkersRecorded(pre: SchedulerState, ps: seq<Problem>, loop: Board)
    requires PositiveMemory(ps)
    requires SchedulesMatch(loop.schedules, BoardOfState(pre).schedules, PackedTallies(ps, pre.workers))
    ensures Cleared(loop, RemovedIds(pre)).schedules.Keys == pre.workers.Keys
    ensures StateAfter(pre, ps, Cleared(loop, RemovedIds(pre))).workers == RecordedWorkers(pre, ps)
  {
    forall w | w in pre.workers
      ensures w in loop.schedules
      ensures loop.schedules[w] - RemovedIds(pre) ==
              Recorded(ps, pre.workers[w].memory, pre.workers[w].schedule, RemovedIds(pre))
    {
      SchedulesRecorded(loop, pre, ps, w);
    }
    SameRecords(pre, ps, loop);
  }

  lemma {:induction false} SameRecords(pre: SchedulerState, ps: seq<Problem>, loop: Board)
    requires PositiveMemory(ps) && loop.schedules.Keys == pre.workers.Keys
    requires forall w :: w in pre.workers ==>
               loop.schedules[w] - RemovedIds(pre) ==
               Recorded(ps, pre.workers[w].memory, pre.workers[w].schedule, RemovedIds(pre))
    ensures Cleared(loop, RemovedIds(pre)).schedules.Keys == pre.workers.Keys
    ensures StateAfter(pre, ps, Cleared(loop, RemovedIds(pre))).workers == RecordedWorkers(pre, ps)
  {
  }

  /** Clearing the removed problems from the loop's board yields the state and entries of a filled schedule. */
  lemma {:induction false} ClearedIsFilled(pre: SchedulerState, ps: seq<Problem>, loop: Board)
    requires DescendingOrder(ps, pre.problems) && PositiveMemory(ps)
    requires Matches(loop, BoardOfState(pre), Ids(ps), PackedTallies(ps, pre.workers))
    ensures var final := Cleared(loop, RemovedIds(pre));
            final.schedules.Keys == pre.workers.Keys && Filled(pre, StateAfter(pre, ps, final), final.entries)
  {
    WorkersRecorded(pre, ps, loop);
    FilledEntries(loop, ps, pre.workers, RemovedIds(pre));
  }

  ghost function MemoriesOf(s: SchedulerState): map<string, int> {
    map w | w in s.workers :: s.workers[w].memory
  }

  /** The whole of `FillSchedule` after the sort, from the zeroed board to the cleared one. */
  lemma {:induction false} FillMeans(pre: SchedulerState, ps: seq<Problem>, b: Board, order: seq<string>,
                                     ms: map<string, int>, passes: nat, final: Board, post: SchedulerState)
    requires DescendingOrder(ps, pre.problems) && PositiveMemory(ps)
    requires ms == MemoriesOf(pre) && Enumerated(order, ms)
    requires forall w :: w in order ==> w in ms
    requires passes == 1 + MaxPasses(ps, order, ms, |order|)
    requires Zeroed(b, BoardOfState(pre), Ids(ps))
    requires final == Cleared(LoopBoard(b, ps, order, ms, passes), RemovedIds(pre))
    requires final.schedules.Keys == pre.workers.Keys && post == StateAfter(pre, ps, final)
    ensures Filled(pre, post, final.entries)
    ensures PassesMade(ps, ms, passes)
  {
    MaxIsPassesMade(ps, order, ms);
    LoopPacks(pre, ps, b, order, ms, passes);
    ClearedIsFilled(pre, ps, LoopBoard(b, ps, order, ms, passes));
  }

  ghost function BoardOfState(s: SchedulerState): Board {
    Board(map[], map w | w in s.workers :: s.workers[w].schedule, s.instanceCounts)
  }
}
