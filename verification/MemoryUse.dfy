/**
 The memory that a worker's containers use once the messages of a fill have been handled. A problem that
 finds no room in the first pass over a worker gets no entry, and a worker that runs it is not told to stop.
 */
module MemoryUse {
  import opened Int32
  import opened Packing
  import opened Placement
  import opened Guarantees
  import opened Protocol
  import opened Schedules
  import opened Cluster

  /** What a worker had recorded, is not removed, and gets no room in the first pass: it is not told to stop it. */
  ghost function LeftRunning(ps: seq<Problem>, m: int, s0: map<string, int>, removed: set<string>): map<string, int> {
    map id | id in s0 && id !in removed && !FirstPass(ps, m, id) :: s0[id]
  }

  /** Instances that are packed but not scheduled, because their problem is waiting for removal. */
  ghost function Withheld(ps: seq<Problem>, m: int, removed: set<string>): map<string, int>
    requires PositiveMemory(ps)
  {
    map id | id in Placed(ps, m) && id in removed :: Placed(ps, m)[id]
  }

  // ---- Loads --------------------------------------------------------------------------

  lemma {:induction false} LoadAdds(ps: seq<Problem>, sum: map<string, int>, a: map<string, int>, b: map<string, int>,
                                    n: nat)
    requires n <= |ps|
    requires forall i :: 0 <= i < n ==>
               (if ps[i].id in sum then sum[ps[i].id] else 0) ==
               (if ps[i].id in a then a[ps[i].id] else 0) + (if ps[i].id in b then b[ps[i].id] else 0)
    ensures Load(ps, sum, n) == Load(ps, a, n) + Load(ps, b, n)
    decreases n
  {
    if n == 0 {
    } else {
      var p := ps[n - 1];
      LoadAdds(ps, sum, a, b, n - 1);
      var x, y := if p.id in a then a[p.id] else 0, if p.id in b then b[p.id] else 0;
      assert (x + y) * p.memory == x * p.memory + y * p.memory;
      assert Load(ps, sum, n) == Load(ps, sum, n - 1) + (x + y) * p.memory;
    }
  }

  lemma {:induction false} LoadNonNegative(ps: seq<Problem>, count: map<string, int>, n: nat)
    requires PositiveMemory(ps) && n <= |ps| && forall id :: id in count ==> count[id] >= 0
    ensures Load(ps, count, n) >= 0
    decreases n
  {
    if n == 0 {
    } else {
      var i := n - 1;
      LoadNonNegative(ps, count, i);
      if ps[i].id in count {
        var c: nat := count[ps[i].id];
        assert c * ps[i].memory >= 0;
      }
    }
  }

  /** One instance of a listed problem loads at least its memory. */
  lemma {:induction false} LoadAtLeast(ps: seq<Problem>, count: map<string, int>, n: nat, i: nat)
    requires PositiveMemory(ps) && i < n <= |ps| && forall id :: id in count ==> count[id] > 0
    requires ps[i].id in count
    ensures Load(ps, count, n) >= ps[i].memory
    decreases n
  {
    var last := n - 1;
    if i == last {
      LoadNonNegative(ps, count, last);
      var c := count[ps[i].id];
      assert c * ps[i].memory == ps[i].memory + (c - 1) * ps[i].memory;
      assert (c - 1) * ps[i].memory >= 0;
    } else {
      LoadAtLeast(ps, count, last, i);
      if ps[last].id in count {
        var c: nat := count[ps[last].id];
        assert c * ps[last].memory >= 0;
      }
    }
  }

  lemma {:induction false} NothingLoadsNothing(ps: seq<Problem>, n: nat)
    requires n <= |ps|
    ensures Load(ps, map[], n) == 0
    decreases n
  {
    if n == 0 {
    } else {
      NothingLoadsNothing(ps, n - 1);
    }
  }

  /** What is scheduled on a worker, what is withheld, and the rest make up its memory. */
  lemma {:induction false} ScheduledLoad(pre: SchedulerState, post: SchedulerState,
                                         entries: map<(string, string), int32>, w: string)
    requires Filled(pre, post, entries) && DistinctIds(post.problems) && w in pre.workers
    requires CountsFit(post.problems, pre.workers[w].memory)
    ensures var ps, n, m := post.problems, |post.problems|, pre.workers[w].memory;
            Load(ps, CountsOn(entries, w), n) + Load(ps, Withheld(ps, m, RemovedIds(pre)), n) + Rest(Mems(ps), m) == m
  {
    hide Filled, Load, Withheld;
    FilledParts(pre, post, entries);
    var ps, m := post.problems, pre.workers[w].memory;
    PlacedLoad(ps, m);
    Saturated(Mems(ps), m);
    forall i | 0 <= i < |ps|
      ensures (if ps[i].id in AllPlaced(ps, m) then AllPlaced(ps, m)[ps[i].id] else 0) ==
              (if ps[i].id in CountsOn(entries, w) then CountsOn(entries, w)[ps[i].id] else 0) +
              (if ps[i].id in Withheld(ps, m, RemovedIds(pre)) then Withheld(ps, m, RemovedIds(pre))[ps[i].id] else 0)
    {
      InCountsOn(entries, w, ps[i].id);
      EntryMeaning(pre, post, entries, w, ps[i].id);
      InWithheld(ps, m, RemovedIds(pre), ps[i].id);
    }
    LoadAdds(ps, AllPlaced(ps, m), CountsOn(entries, w), Withheld(ps, m, RemovedIds(pre)), |ps|);
  }

  ghost function AllPlaced(ps: seq<Problem>, m: int): map<string, int>
    requires PositiveMemory(ps)
  {
    map id | id in Placed(ps, m) :: Placed(ps, m)[id]
  }

  lemma {:induction false} PlacedLoad(ps: seq<Problem>, m: int)
    requires PositiveMemory(ps) && DistinctIds(ps)
    ensures Load(ps, AllPlaced(ps, m), |ps|) == Packed(Mems(ps), m)
  {
    LoadIsUsed(ps, m, AllPlaced(ps, m), {}, |ps|);
  }

  lemma {:induction false} InWithheld(ps: seq<Problem>, m: int, removed: set<string>, id: string)
    requires PositiveMemory(ps)
    ensures id in Withheld(ps, m, removed) <==> id in Placed(ps, m) && id in removed
    ensures id in Withheld(ps, m, removed) ==> Withheld(ps, m, removed)[id] == Placed(ps, m)[id]
  {
  }

  /** The recorded load of a worker is what the schedule packs on it plus what it leaves running. */
  lemma {:induction false} RecordedLoad(pre: SchedulerState, post: SchedulerState,
                                        entries: map<(string, string), int32>, w: string)
    requires Filled(pre, post, entries) && w in pre.workers && CountsFit(post.problems, pre.workers[w].memory)
    ensures w in post.workers
    ensures var ps, n, m := post.problems, |post.problems|, pre.workers[w].memory;
            var left := LeftRunning(ps, m, pre.workers[w].schedule, RemovedIds(pre));
            Load(ps, post.workers[w].schedule, n) == Load(ps, CountsOn(entries, w), n) + Load(ps, left, n)
  {
    hide Filled, Load, Recorded, RecordedWorkers, FirstPass;
    FilledParts(pre, post, entries);
    RecordsOf(pre, post.problems, w);
    var ps, m, s0 := post.problems, pre.workers[w].memory, pre.workers[w].schedule;
    var left := LeftRunning(ps, m, s0, RemovedIds(pre));
    forall i | 0 <= i < |ps|
      ensures (if ps[i].id in post.workers[w].schedule then post.workers[w].schedule[ps[i].id] else 0) ==
              (if ps[i].id in CountsOn(entries, w) then CountsOn(entries, w)[ps[i].id] else 0) +
              (if ps[i].id in left then left[ps[i].id] else 0)
    {
      InCountsOn(entries, w, ps[i].id);
      EntryOrRecord(pre, ps, entries, w, ps[i].id);
      EntryInAdvance(pre, ps, entries, w, ps[i].id);
    }
    LoadAdds(ps, post.workers[w].schedule, CountsOn(entries, w), left, |ps|);
  }

  /** Which entries a worker will get can be told from its memory before the fill. */
  lemma {:induction false} EntryInAdvance(pre: SchedulerState, ps: seq<Problem>, entries: map<(string, string), int32>,
                                          w: string, id: string)
    requires PositiveMemory(ps) && w in pre.workers && entries == EntriesFor(ps, pre.workers, RemovedIds(pre))
    ensures (w, id) in entries <==> id in RemovedIds(pre) || FirstPass(ps, pre.workers[w].memory, id)
  {
    hide FirstPass;
    InEntriesFor(ps, pre.workers, RemovedIds(pre), w, id);
    PlacedInFirstPass(ps, pre.workers[w].memory, id);
  }

  // ---- Records ------------------------------------------------------------------------

  /** Zeros are never recorded. */
  ghost predicate PositiveRecords(s: SchedulerState) {
    forall w :: w in s.workers ==> PositiveCounts(s.workers[w].schedule)
  }

  ghost predicate PositiveCounts(schedule: map<string, int>) {
    forall id :: id in schedule ==> schedule[id] > 0
  }

  lemma {:induction false} FillKeepsPositive(pre: SchedulerState, post: SchedulerState,
                                             entries: map<(string, string), int32>)
    requires Filled(pre, post, entries) && PositiveRecords(pre)
    requires forall w :: w in pre.workers ==> CountsFit(post.problems, pre.workers[w].memory)
    ensures PositiveRecords(post)
  {
    hide Filled, PositiveCounts, Recorded, CountsFit;
    FilledParts(pre, post, entries);
    forall w | w in post.workers
      ensures PositiveCounts(post.workers[w].schedule)
    {
      RecordsOf(pre, post.problems, w);
      RecordedIsPositive(post.problems, pre.workers[w].memory, pre.workers[w].schedule, RemovedIds(pre));
    }
  }

  lemma {:induction false} RecordedIsPositive(ps: seq<Problem>, m: int, s0: map<string, int>, removed: set<string>)
    requires PositiveMemory(ps) && PositiveCounts(s0) && CountsFit(ps, m)
    ensures PositiveCounts(Recorded(ps, m, s0, removed))
  {
    assert forall id :: id in Placed(ps, m) ==> 0 < Placed(ps, m)[id] <= INT32_MAX;
  }

  lemma {:induction false} NextKeepsPositive(s: Cluster, step: Step, s': Cluster)
    requires Next(s, step, s') && PositiveRecords(s.sched)
    ensures PositiveRecords(s'.sched)
  {
    hide Filled;
    if step.Fill? {
      var entries :| Filled(s.sched, s'.sched, entries) && Enumerates(s'.outbox, entries);
      FilledParts(s.sched, s'.sched, entries);
      FillKeepsPositive(s.sched, s'.sched, entries);
    }
  }

  lemma {:induction false} RecordsArePositive(states: seq<Cluster>, steps: seq<Step>, i: nat)
    requires Run(states, steps) && i < |states|
    ensures PositiveRecords(states[i].sched)
    decreases i
  {
    hide PositiveRecords, Next;
    if i == 0 {
      NothingRecorded(states[0]);
    } else {
      RecordsArePositive(states, steps, i - 1);
      NextKeepsPositive(states[i - 1], steps[i - 1], states[i]);
    }
  }

  lemma {:induction false} NothingRecorded(s: Cluster)
    requires Init(s)
    ensures PositiveRecords(s.sched)
  {
  }

  lemma {:induction false} NextKeepsRecord(s: Cluster, step: Step, s': Cluster, w: string)
    requires Inv(s) && Next(s, step, s') && !step.Fill? && step != Unregister(w)
    requires w in s.sched.workers
    ensures w in s'.sched.workers && s'.sched.workers[w] == s.sched.workers[w]
  {
    assert SessionOk(s, w);
  }

  lemma {:induction false} RecordStays(states: seq<Cluster>, steps: seq<Step>, i: nat, j: nat, w: string)
    requires Run(states, steps) && i <= j <= |steps| && w in states[i].sched.workers
    requires forall k :: i <= k < j ==> !steps[k].Fill? && steps[k] != Unregister(w)
    ensures w in states[j].sched.workers && states[j].sched.workers[w] == states[i].sched.workers[w]
    decreases j
  {
    if i == j {
    } else {
      var last := j - 1;
      RecordStays(states, steps, i, last, w);
      RunKeeps(states, steps, last);
      assert Next(states[last], steps[last], states[last + 1]);
      NextKeepsRecord(states[last], steps[last], states[j], w);
    }
  }

  // ---- Memory in use ------------------------------------------------------------------

  /**
   Between two fills, a worker with nothing on its way runs listed problems only, and uses the memory
   that the last fill scheduled, at most its own, plus the memory of what that fill left running.
   */
  lemma {:induction false} MemoryInUse(states: seq<Cluster>, steps: seq<Step>, f: nat, j: nat, w: string,
                                       entries: map<(string, string), int32>)
    requires Run(states, steps) && f < j <= |steps| && steps[f].Fill?
    requires Filled(states[f].sched, states[f + 1].sched, entries)
    requires DistinctIds(states[f + 1].sched.problems) && w in states[f].sched.workers
    requires forall k :: f < k < j ==> !steps[k].Fill? && steps[k] != Unregister(w)
    requires w in states[j].nodes && Pending(states[j], w) == []
    ensures PositiveMemory(states[f + 1].sched.problems)
    ensures var ps, n := states[f + 1].sched.problems, |states[f + 1].sched.problems|;
            var m, s0, removed := states[f].sched.workers[w].memory, states[f].sched.workers[w].schedule,
                                  RemovedIds(states[f].sched);
            var used, scheduled := Load(ps, states[j].nodes[w], n), Load(ps, CountsOn(entries, w), n);
            var left, withheld := Load(ps, LeftRunning(ps, m, s0, removed), n), Load(ps, Withheld(ps, m, removed), n);
            && states[j].nodes[w].Keys <= Ids(ps)
            && used == scheduled + left && (m >= 0 ==> scheduled <= m)
            && used + withheld + Rest(Mems(ps), m) == m + left
  {
    hide Filled, Load, Inv, LeftRunning, Withheld, CountsOn, Rest;
    var pre, post := states[f].sched, states[f + 1].sched;
    CountsFitAtFill(states, steps, f, w);
    LoadWithin(pre, post, entries, w);
    ScheduledLoad(pre, post, entries, w);
    RecordedLoad(pre, post, entries, w);
    RecordInUse(states, steps, f, j, w);
    KnownAfterFill(states, steps, f, w, entries);
  }

  /** No problem that waits for removal has been added again. */
  ghost predicate NoneReadded(s: SchedulerState) {
    forall id :: id in s.removeList ==> id !in Ids(s.problems)
  }

  /** Everything that was recorded for a worker is removed, or fits in the first pass over it. */
  ghost predicate AllKept(ps: seq<Problem>, m: int, s0: map<string, int>, removed: set<string>) {
    forall id :: id in s0 ==> id in removed || FirstPass(ps, m, id)
  }

  /** If no two problems tie in memory, the order in which the fill packs them is known before the fill. */
  lemma {:induction false} OrderInAdvance(pre: SchedulerState, post: SchedulerState,
                                          entries: map<(string, string), int32>, ps: seq<Problem>)
    requires Filled(pre, post, entries) && DescendingOrder(ps, pre.problems) && DistinctMemory(pre.problems)
    ensures post.problems == ps
  {
    hide Filled;
    FilledParts(pre, post, entries);
    SortKeeps(ps, pre.problems);
    SameOrder(ps, post.problems);
  }

  /**
   When a worker with nothing on its way stays within its memory, told from the state before the fill and
   the order in which the fill breaks ties: exactly if what the fill leaves running fits in the rest of
   the packing and in what it withholds. If no problem waiting for removal has been added again, nothing
   is withheld, and then it stays within its memory exactly if every problem that it had recorded is
   being removed or fits in the first pass.
   */
  lemma {:induction false} StaysWithinMemory(states: seq<Cluster>, steps: seq<Step>, f: nat, j: nat, w: string)
    requires Run(states, steps) && f < j <= |steps| && steps[f].Fill?
    requires DistinctIds(states[f + 1].sched.problems) && w in states[f].sched.workers
    requires forall k :: f < k < j ==> !steps[k].Fill? && steps[k] != Unregister(w)
    requires w in states[j].nodes && Pending(states[j], w) == []
    ensures PositiveMemory(states[f + 1].sched.problems)
    ensures var ps, n := states[f + 1].sched.problems, |states[f + 1].sched.problems|;
            var m, s0, removed := states[f].sched.workers[w].memory, states[f].sched.workers[w].schedule,
                                  RemovedIds(states[f].sched);
            var used := Load(ps, states[j].nodes[w], n);
            && (used <= m <==> Load(ps, LeftRunning(ps, m, s0, removed), n) <=
                               Rest(Mems(ps), m) + Load(ps, Withheld(ps, m, removed), n))
            && (m >= 0 && AllKept(ps, m, s0, removed) ==> used <= m)
            && (NoneReadded(states[f].sched) ==> (used <= m <==> m >= 0 && AllKept(ps, m, s0, removed)))
  {
    hide Filled, Load, Inv, LeftRunning, Withheld, CountsOn, Rest, AllKept, NoneReadded;
    var pre, post := states[f].sched, states[f + 1].sched;
    var entries := FilledWith(states, steps, f);
    MemoryInUse(states, steps, f, j, w, entries);
    RunKeeps(states, steps, f);
    RecordsArePositive(states, steps, f);
    KnownRecords(states[f], w);
    LeftLoad(pre, post, entries, w);
  }

  lemma {:induction false} FilledWith(states: seq<Cluster>, steps: seq<Step>, f: nat)
    returns (entries: map<(string, string), int32>)
    requires Run(states, steps) && f < |steps| && steps[f].Fill?
    ensures Filled(states[f].sched, states[f + 1].sched, entries)
  {
    hide Filled;
    assert Next(states[f], steps[f], states[f + 1]);
    entries :| Filled(states[f].sched, states[f + 1].sched, entries) && Enumerates(states[f + 1].outbox, entries);
  }

  lemma {:induction false} KnownRecords(s: Cluster, w: string)
    requires Inv(s) && PositiveRecords(s.sched) && w in s.sched.workers
    ensures PositiveCounts(s.sched.workers[w].schedule)
    ensures forall id :: id in s.sched.workers[w].schedule ==> id in Ids(s.sched.problems) || id in s.sched.removeList
  {
    assert RecordedIsKnown(s, w);
  }

  /**
   What is left running loads nothing exactly if there is nothing of it, and else more than the rest of
   the packing.
   */
  lemma {:induction false} LeftLoad(pre: SchedulerState, post: SchedulerState, entries: map<(string, string), int32>,
                                    w: string)
    requires Filled(pre, post, entries) && w in pre.workers && PositiveCounts(pre.workers[w].schedule)
    requires forall id :: id in pre.workers[w].schedule ==> id in Ids(pre.problems) || id in pre.removeList
    ensures PositiveMemory(post.problems)
    ensures var ps, n, m, s0 := post.problems, |post.problems|, pre.workers[w].memory, pre.workers[w].schedule;
            var left := Load(ps, LeftRunning(ps, m, s0, RemovedIds(pre)), n);
            var withheld := Load(ps, Withheld(ps, m, RemovedIds(pre)), n);
            && left >= 0 && withheld >= 0 && (NoneReadded(pre) ==> withheld == 0)
            && (m >= 0 ==> Rest(Mems(ps), m) >= 0) && (m < 0 ==> Rest(Mems(ps), m) < 0)
            && (AllKept(ps, m, s0, RemovedIds(pre)) ==> left == 0)
            && (!AllKept(ps, m, s0, RemovedIds(pre)) ==> left > Rest(Mems(ps), m))
  {
    hide Filled, Load, FirstPass, LeftRunning, Withheld, AllKept, NoneReadded, PositiveCounts;
    FilledParts(pre, post, entries);
    SortKeeps(post.problems, pre.problems);
    var ps, n, m, s0 := post.problems, |post.problems|, pre.workers[w].memory, pre.workers[w].schedule;
    NothingLoadsNothing(ps, n);
    WithheldIsPositive(ps, m, RemovedIds(pre));
    LoadNonNegative(ps, Withheld(ps, m, RemovedIds(pre)), n);
    RestSign(ps, m);
    if NoneReadded(pre) { NothingWithheld(pre, ps, m); }
    LeftOverloads(ps, m, s0, RemovedIds(pre));
  }

  lemma {:induction false} WithheldIsPositive(ps: seq<Problem>, m: int, removed: set<string>)
    requires PositiveMemory(ps)
    ensures forall id :: id in Withheld(ps, m, removed) ==> Withheld(ps, m, removed)[id] >= 0
  {
  }

  lemma {:induction false} LeftOverloads(ps: seq<Problem>, m: int, s0: map<string, int>, removed: set<string>)
    requires PositiveMemory(ps) && PositiveCounts(s0)
    requires forall id :: id in s0 ==> id in Ids(ps) || id in removed
    ensures AllKept(ps, m, s0, removed) ==> LeftRunning(ps, m, s0, removed) == map[]
    ensures !AllKept(ps, m, s0, removed) ==> Load(ps, LeftRunning(ps, m, s0, removed), |ps|) > Rest(Mems(ps), m)
    ensures Load(ps, LeftRunning(ps, m, s0, removed), |ps|) >= 0
  {
    hide Load, FirstPass, Rest;
    var left := LeftRunning(ps, m, s0, removed);
    LoadNonNegative(ps, left, |ps|);
    if !AllKept(ps, m, s0, removed) {
      var id :| id in s0 && id !in removed && !FirstPass(ps, m, id);
      var p :| p in ps && p.id == id;
      var i :| 0 <= i < |ps| && ps[i] == p;
      LoadAtLeast(ps, left, |ps|, i);
      Saturated(Mems(ps), m);
      assert Rest(Mems(ps), m) < Mems(ps)[i];
    }
  }

  lemma {:induction false} NothingWithheld(pre: SchedulerState, ps: seq<Problem>, m: int)
    requires NoneReadded(pre) && PositiveMemory(ps) && Ids(ps) == Ids(pre.problems)
    ensures Withheld(ps, m, RemovedIds(pre)) == map[]
  {
    forall id | id in RemovedIds(pre)
      ensures id !in Placed(ps, m)
    {
      if id in Placed(ps, m) {
        TallyIsListed(ps, m, Passes(Mems(ps), m), 0, id);
        assert false;
      }
    }
  }

  lemma {:induction false} RestSign(ps: seq<Problem>, m: int)
    requires PositiveMemory(ps)
    ensures m >= 0 ==> Rest(Mems(ps), m) >= 0
    ensures m < 0 ==> Rest(Mems(ps), m) < 0
  {
    var k := Passes(Mems(ps), m);
    if m >= 0 {
      LeftStaysNonNegative(Mems(ps), m, k, 0);
    } else {
      LeftShrinks(Mems(ps), m, 0, 0, k, 0);
    }
  }

  lemma {:induction false} CountsFitAtFill(states: seq<Cluster>, steps: seq<Step>, f: nat, w: string)
    requires Run(states, steps) && f < |steps| && steps[f].Fill? && w in states[f].sched.workers
    ensures PositiveMemory(states[f + 1].sched.problems)
    ensures CountsFit(states[f + 1].sched.problems, states[f].sched.workers[w].memory)
  {
    assert Next(states[f], steps[f], states[f + 1]);
  }

  lemma {:induction false} LoadWithin(pre: SchedulerState, post: SchedulerState, entries: map<(string, string), int32>,
                                      w: string)
    requires Filled(pre, post, entries) && DistinctIds(post.problems) && w in pre.workers
    requires CountsFit(post.problems, pre.workers[w].memory)
    ensures pre.workers[w].memory >= 0 ==>
              0 <= Load(post.problems, CountsOn(entries, w), |post.problems|) <= pre.workers[w].memory
  {
    Capacity(pre, post, entries, w);
  }

  lemma {:induction false} RecordInUse(states: seq<Cluster>, steps: seq<Step>, f: nat, j: nat, w: string)
    requires Run(states, steps) && f < j <= |steps| && steps[f].Fill? && w in states[f].sched.workers
    requires forall k :: f < k < j ==> !steps[k].Fill? && steps[k] != Unregister(w)
    requires w in states[j].nodes && Pending(states[j], w) == []
    ensures w in states[f + 1].sched.workers
    ensures states[j].nodes[w] == states[f + 1].sched.workers[w].schedule
  {
    hide *;
    FillKeepsWorkers(states, steps, f, w);
    RunShape(states, steps);
    RecordStays(states, steps, f + 1, j, w);
    RunKeeps(states, steps, j);
    DrainedWorker(states[j], w);
  }

  lemma {:induction false} RunShape(states: seq<Cluster>, steps: seq<Step>)
    requires Run(states, steps)
    ensures |states| == |steps| + 1
  {
  }

  lemma {:induction false} DrainedWorker(s: Cluster, w: string)
    requires Inv(s) && w in s.sched.workers && w in s.nodes && Pending(s, w) == []
    ensures s.nodes[w] == s.sched.workers[w].schedule
  {
    assert SessionOk(s, w);
  }

  lemma {:induction false} FillKeepsWorkers(states: seq<Cluster>, steps: seq<Step>, f: nat, w: string)
    requires Run(states, steps) && f < |steps| && steps[f].Fill? && w in states[f].sched.workers
    ensures w in states[f + 1].sched.workers
  {
    assert Next(states[f], steps[f], states[f + 1]);
    var entries :| Filled(states[f].sched, states[f + 1].sched, entries) && Enumerates(states[f + 1].outbox, entries);
    FilledParts(states[f].sched, states[f + 1].sched, entries);
  }

  lemma {:induction false} KnownAfterFill(states: seq<Cluster>, steps: seq<Step>, f: nat, w: string,
                                          entries: map<(string, string), int32>)
    requires Run(states, steps) && f < |steps| && w in states[f].sched.workers
    requires Filled(states[f].sched, states[f + 1].sched, entries)
    ensures w in states[f + 1].sched.workers
    ensures states[f + 1].sched.workers[w].schedule.Keys <= Ids(states[f + 1].sched.problems)
  {
    RunKeeps(states, steps, f);
    assert RecordedIsKnown(states[f], w);
    KnownAfter(states[f].sched, states[f + 1].sched, entries, w);
  }

  lemma {:induction false} KnownAfter(pre: SchedulerState, post: SchedulerState, entries: map<(string, string), int32>,
                                      w: string)
    requires Filled(pre, post, entries) && w in pre.workers
    requires forall id :: id in pre.workers[w].schedule ==> id in Ids(pre.problems) || id in pre.removeList
    ensures w in post.workers && post.workers[w].schedule.Keys <= Ids(post.problems)
  {
    hide Filled;
    FilledParts(pre, post, entries);
    forall id | id in post.workers[w].schedule
      ensures id in Ids(post.problems)
    {
      RecordedAfterFill(pre, post, entries, w, id);
    }
  }

  /**
   Workers do go over their memory. One that was packed with instances of `a` runs them on when a
   larger problem `b` takes the room: no entry mentions `a`, and the worker ends up over its memory.
   */
  lemma {:induction false} OverloadAcrossFills(pre: SchedulerState, mid: SchedulerState, post: SchedulerState,
                                               e1: map<(string, string), int32>, e2: map<(string, string), int32>,
                                               w: string, a: Problem, b: Problem)
    requires Filled(pre, mid, e1) && Filled(WithProblem(mid, b), post, e2)
    requires pre.problems == [a] && pre.removeList == [] && w in pre.workers
    requires a.id != b.id && 0 < a.memory < b.memory <= pre.workers[w].memory < a.memory + b.memory
    requires CountsFit([a], pre.workers[w].memory)
    ensures w in post.workers && (w, a.id) !in e2
    ensures Load(post.problems, post.workers[w].schedule, |post.problems|) > pre.workers[w].memory
  {
    hide *;
    var m := pre.workers[w].memory;
    FilledParts(pre, mid, e1);
    SoleProblem(mid.problems, a);
    RecordOf(pre, [a], w);
    AloneRecorded(a, m, pre.workers[w].schedule);
    AfterAdd(mid, b, [a]);
    FilledParts(WithProblem(mid, b), post, e2);
    LargerFirst(post.problems, a, b);
    RecordOf(WithProblem(mid, b), [b, a], w);
    CrowdedOut(b, a, m);
    InEntriesFor([b, a], mid.workers, {}, w, a.id);
    Overloaded(a, b, m, mid.workers[w].schedule, post.workers[w].schedule);
  }

  lemma {:induction false} RecordOf(pre: SchedulerState, ps: seq<Problem>, w: string)
    requires PositiveMemory(ps) && w in pre.workers && pre.removeList == []
    ensures RemovedIds(pre) == {} && w in RecordedWorkers(pre, ps)
    ensures RecordedWorkers(pre, ps)[w] ==
            pre.workers[w].(schedule := Recorded(ps, pre.workers[w].memory, pre.workers[w].schedule, {}))
  {
  }

  lemma {:induction false} AloneRecorded(a: Problem, m: int, s0: map<string, int>)
    requires 0 < a.memory <= m
    ensures a.id in Recorded([a], m, s0, {}) && Recorded([a], m, s0, {})[a.id] == Wrap(Placed([a], m)[a.id])
  {
    AlonePacked(a, m);
  }

  lemma {:induction false} AfterAdd(s: SchedulerState, b: Problem, ps: seq<Problem>)
    requires s.problems == ps && b !in ps
    ensures WithProblem(s, b).problems == ps + [b]
    ensures WithProblem(s, b).workers == s.workers && WithProblem(s, b).removeList == s.removeList
  {
  }

  lemma {:induction false} Overloaded(a: Problem, b: Problem, m: int, s0: map<string, int>, s: map<string, int>)
    requires a.id != b.id && 0 < a.memory < b.memory <= m < a.memory + b.memory
    requires CountsFit([a], m) && a.id in s0 && s0[a.id] == Wrap(Placed([a], m)[a.id])
    requires s == Recorded([b, a], m, s0, {})
    ensures Load([b, a], s, 2) > m
  {
    AlonePacked(a, m);
    CrowdedOut(b, a, m);
    assert s[b.id] == 1 && s[a.id] == Placed([a], m)[a.id];
    assert Load([b, a], s, 1) == b.memory;
    assert Load([b, a], s, 2) == b.memory + s[a.id] * a.memory;
  }

  lemma {:induction false} SoleProblem(ps: seq<Problem>, a: Problem)
    requires DescendingOrder(ps, [a])
    ensures ps == [a]
  {
    SortKeeps(ps, [a]);
    assert ps[0] in [a];
  }

  lemma {:induction false} LargerFirst(ps: seq<Problem>, a: Problem, b: Problem)
    requires DescendingOrder(ps, [a, b]) && a.memory < b.memory
    ensures ps == [b, a]
  {
    SortKeeps(ps, [a, b]);
    DescendingMems(ps, [a, b]);
    assert a in ps && b in ps;
  }

  lemma {:induction false} AlonePacked(a: Problem, m: int)
    requires 0 < a.memory <= m
    ensures m - a.memory < Placed([a], m)[a.id] * a.memory
    ensures a.id in Placed([a], m)
  {
    var mems := Mems([a]);
    PlacedIsFinal([a], m, 0);
    Saturated(mems, m);
    assert Packed(mems, m) == Used(mems, m, Passes(mems, m), 0, 0) + Final(mems, m, 0) * mems[0];
  }

  /** A problem that takes the whole room in the first pass is the only one to get an instance. */
  lemma {:induction false} CrowdedOut(b: Problem, a: Problem, m: int)
    requires a.id != b.id && 0 < a.memory < b.memory <= m < a.memory + b.memory
    ensures Placed([b, a], m)[b.id] == 1 && a.id !in Placed([b, a], m)
  {
    var ps := [b, a];
    var mems := Mems(ps);
    PlacedIsFinal(ps, m, 0);
    PlacedIsFinal(ps, m, 1);
    CountIsPrefix(mems, m, Passes(mems, m), 0);
    CountIsPrefix(mems, m, Passes(mems, m), 1);
    assert Left(mems, m, 0, 0) == m && Left(mems, m, 0, 1) == m - b.memory;
    assert Fits(mems, m, 0, 0) && !Fits(mems, m, 0, 1);
    LeftShrinks(mems, m, 0, 1, 1, 0);
    assert !Fits(mems, m, 1, 0);
    ProductivePrefix(mems, m, 0);
  }

  /**
   With a problem added again while it waits for removal, the first pass does not decide: here `a` finds
   no room beside `b`, but the instance of `b` is withheld, and the worker stays within its memory.
   */
  lemma {:induction false} ReaddedLeavesRoom(pre: SchedulerState, post: SchedulerState,
                                             entries: map<(string, string), int32>, w: string, a: Problem, b: Problem,
                                             c: nat)
    requires Filled(pre, post, entries) && pre.problems == [a, b] && pre.removeList == [b.id] && w in pre.workers
    requires a.id != b.id && 0 < a.memory < b.memory <= pre.workers[w].memory < a.memory + b.memory
    requires pre.workers[w].schedule == map[a.id := c] && c * a.memory <= pre.workers[w].memory
    ensures PositiveMemory(post.problems)
    ensures !AllKept(post.problems, pre.workers[w].memory, pre.workers[w].schedule, RemovedIds(pre))
    ensures w in post.workers
    ensures Load(post.problems, post.workers[w].schedule, |post.problems|) <= pre.workers[w].memory
  {
    RemovedAlone(pre, b.id);
    hide *;
    FilledParts(pre, post, entries);
    LargerFirst(post.problems, a, b);
    RecordsOf(pre, post.problems, w);
    CrowdedBeside(post.problems, pre.workers[w].memory, pre.workers[w].schedule, a, b, c);
  }

  lemma {:induction false} CrowdedBeside(ps: seq<Problem>, m: int, s0: map<string, int>, a: Problem, b: Problem, c: nat)
    requires ps == [b, a] && PositiveMemory(ps) && s0 == map[a.id := c] && c * a.memory <= m
    requires a.id != b.id && 0 < a.memory < b.memory <= m < a.memory + b.memory
    ensures !AllKept(ps, m, s0, {b.id})
    ensures Load(ps, Recorded(ps, m, s0, {b.id}), |ps|) <= m
  {
    hide *;
    CrowdedOut(b, a, m);
    PlacedInFirstPass(ps, m, a.id);
    NotKept(ps, m, s0, {b.id}, a.id);
    OnlyOld(a, b, m, c, Recorded(ps, m, s0, {b.id}));
  }

  lemma {:induction false} RemovedAlone(s: SchedulerState, id: string)
    requires s.removeList == [id]
    ensures RemovedIds(s) == {id}
  {
  }

  lemma {:induction false} NotKept(ps: seq<Problem>, m: int, s0: map<string, int>, removed: set<string>, id: string)
    requires id in s0 && id !in removed && !FirstPass(ps, m, id)
    ensures !AllKept(ps, m, s0, removed)
  {
  }

  lemma {:induction false} OnlyOld(a: Problem, b: Problem, m: int, c: nat, s: map<string, int>)
    requires PositiveMemory([b, a]) && a.id != b.id && a.id !in Placed([b, a], m)
    requires s == Recorded([b, a], m, map[a.id := c], {b.id})
    ensures Load([b, a], s, 2) == c * a.memory
  {
    assert b.id !in s && s[a.id] == c;
    assert Load([b, a], s, 1) == 0;
  }
}
