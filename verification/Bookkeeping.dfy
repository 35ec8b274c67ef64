/**
 What the master's books say in every run of the cluster: the instance counts it reports, the IDs on its
 problem list, and the memory of a worker, which is the one that the worker announced when it joined.
 */
module Bookkeeping {
  import opened Int32
  import opened Packing
  import opened Placement
  import opened Guarantees
  import opened Protocol
  import opened Schedules
  import opened Cluster
  import opened Convergence
  import opened MemoryUse

  // ---- Instance counts ----------------------------------------------------------------

  /** A fill does not touch the counts of problems that are not listed. */
  lemma {:induction false} FillKeepsOtherCounts(pre: SchedulerState, post: SchedulerState,
                                                entries: map<(string, string), int32>, id: string)
    requires Filled(pre, post, entries) && id !in Ids(pre.problems)
    ensures id in post.instanceCounts <==> id in pre.instanceCounts
    ensures InstanceCount(post, id) == InstanceCount(pre, id)
  {
    FilledParts(pre, post, entries);
    SortKeeps(post.problems, pre.problems);
    hide *;
    CountOfUnlisted(post.instanceCounts, pre.instanceCounts, Ids(post.problems),
                    Total(PackedTallies(post.problems, pre.workers)), id);
    SameCount(pre, post, id);
  }

  lemma {:induction false} CountOfUnlisted(counts: map<string, int>, counts0: map<string, int>, ids: set<string>,
                                           total: multiset<string>, id: string)
    requires CountsMatch(counts, counts0, ids, total) && id !in ids
    ensures id in counts <==> id in counts0
    ensures id in counts ==> counts[id] == counts0[id]
  {
  }

  lemma {:induction false} SameCount(s: SchedulerState, s': SchedulerState, id: string)
    requires id in s.instanceCounts <==> id in s'.instanceCounts
    requires id in s.instanceCounts ==> s'.instanceCounts[id] == s.instanceCounts[id]
    ensures InstanceCount(s', id) == InstanceCount(s, id)
  {
  }

  /** A problem that is added starts with the count 0, listed before or not; no other count changes. */
  lemma {:induction false} AddedCounts(s: SchedulerState, p: Problem, id: string)
    ensures InstanceCount(WithProblem(s, p), id) == if id == p.id then 0 else InstanceCount(s, id)
  {
  }

  /** A listed problem that is removed has the count 0; no other count changes, and none at all for an unknown ID. */
  lemma {:induction false} RemovedCounts(s: SchedulerState, removed: string, id: string)
    ensures InstanceCount(WithoutProblem(s, removed), id) ==
            if id == removed && removed in Ids(s.problems) then 0 else InstanceCount(s, id)
    ensures removed !in Ids(s.problems) ==> WithoutProblem(s, removed) == s
  {
    var i := FirstWith(s.problems, removed);
    if i < |s.problems| {
      assert s.problems[i] in s.problems;
    } else {
      assert forall p :: p in s.problems ==> p.id != removed;
    }
  }

  /** Only listed problems have a count. */
  ghost predicate CountsAreListed(s: SchedulerState) {
    forall id :: id in s.instanceCounts ==> id in Ids(s.problems)
  }

  lemma {:induction false} NextKeepsCounts(s: Cluster, step: Step, s': Cluster)
    requires Next(s, step, s') && CountsAreListed(s.sched)
    ensures CountsAreListed(s'.sched)
  {
    match step
    case Add(p) => AddKeepsCounts(s.sched, p);
    case Remove(id) => RemoveKeepsCounts(s.sched, id);
    case Fill =>
      var entries :| Filled(s.sched, s'.sched, entries) && Enumerates(s'.outbox, entries);
      FillKeepsCounts(s.sched, s'.sched, entries);
    case _ =>
  }

  lemma {:induction false} AddKeepsCounts(s: SchedulerState, p: Problem)
    requires CountsAreListed(s)
    ensures CountsAreListed(WithProblem(s, p))
  {
    var ps := WithProblem(s, p).problems;
    assert p in ps && forall q :: q in s.problems ==> q in ps;
  }

  lemma {:induction false} RemoveKeepsCounts(s: SchedulerState, id: string)
    requires CountsAreListed(s)
    ensures CountsAreListed(WithoutProblem(s, id))
  {
    var i := FirstWith(s.problems, id);
    if i < |s.problems| { IdsWithout(s.problems, i); }
  }

  lemma {:induction false} FillKeepsCounts(pre: SchedulerState, post: SchedulerState,
                                           entries: map<(string, string), int32>)
    requires Filled(pre, post, entries) && CountsAreListed(pre)
    ensures CountsAreListed(post)
  {
    hide Filled, Total, PackedTallies;
    FilledParts(pre, post, entries);
    SortKeeps(post.problems, pre.problems);
  }

  lemma {:induction false} CountsStayListed(states: seq<Cluster>, steps: seq<Step>, i: nat)
    requires Run(states, steps) && i < |states|
    ensures CountsAreListed(states[i].sched)
    decreases i
  {
    hide Next;
    if i == 0 {
    } else {
      CountsStayListed(states, steps, i - 1);
      NextKeepsCounts(states[i - 1], steps[i - 1], states[i]);
    }
  }

  /** In every reachable state a problem that is not listed is reported with no instances. */
  lemma {:induction false} UnlistedReportsNone(states: seq<Cluster>, steps: seq<Step>, i: nat, id: string)
    requires Run(states, steps) && i < |states|
    requires forall p :: p in states[i].sched.problems ==> p.id != id
    ensures InstanceCount(states[i].sched, id) == 0
  {
    CountsStayListed(states, steps, i);
  }

  /** After a removal nothing is reported for the problem until it is added again, whatever is filled in between. */
  lemma {:induction false} RemovedReportsNone(states: seq<Cluster>, steps: seq<Step>, i: nat, j: nat, id: string)
    requires Run(states, steps) && i < j <= |steps|
    requires steps[i] == Remove(id) && Once(states[i].sched.problems, id)
    requires forall k :: i < k < j ==> !Adds(steps[k], id)
    ensures InstanceCount(states[j].sched, id) == 0
  {
    assert Next(states[i], steps[i], states[i + 1]);
    OnceIsListed(states[i].sched.problems, id);
    RemoveWaits(states[i].sched, id);
    WaitsUntilFill(states, steps, i + 1, j, id);
    CountsStayListed(states, steps, j);
  }

  lemma {:induction false} NextKeepsCountOf(s: Cluster, step: Step, s': Cluster, id: string)
    requires Next(s, step, s') && !step.Fill? && !Adds(step, id) && step != Remove(id)
    ensures InstanceCount(s'.sched, id) == InstanceCount(s.sched, id)
  {
    if step.Add? {
      AddedCounts(s.sched, step.p, id);
    } else if step.Remove? {
      RemovedCounts(s.sched, step.id, id);
    }
  }

  lemma {:induction false} CountStays(states: seq<Cluster>, steps: seq<Step>, i: nat, j: nat, id: string)
    requires Run(states, steps) && i <= j <= |steps|
    requires forall k :: i <= k < j ==> !steps[k].Fill? && !Adds(steps[k], id) && steps[k] != Remove(id)
    ensures InstanceCount(states[j].sched, id) == InstanceCount(states[i].sched, id)
    decreases j
  {
    hide Next, InstanceCount, Adds;
    if i == j {
    } else {
      CountStays(states, steps, i, j - 1, id);
      NextKeepsCountOf(states[j - 1], steps[j - 1], states[j], id);
    }
  }

  /**
   What is reported for a listed problem from a fill to the next, unless it is added again or removed: the
   instances that the fill has scheduled, unless the problem waited for removal then.
   */
  lemma {:induction false} ReportsWhatIsScheduled(states: seq<Cluster>, steps: seq<Step>, f: nat, j: nat,
                                                  entries: map<(string, string), int32>, id: string)
    requires Run(states, steps) && f < j <= |steps| && steps[f].Fill?
    requires Filled(states[f].sched, states[f + 1].sched, entries)
    requires id in Ids(states[f].sched.problems) && id !in states[f].sched.removeList
    requires forall k :: f < k < j ==> !steps[k].Fill? && !Adds(steps[k], id) && steps[k] != Remove(id)
    ensures InstanceCount(states[j].sched, id) == SumOver(entries, states[f].sched.workers.Keys, id)
  {
    hide *;
    RunShape(states, steps);
    CountStays(states, steps, f + 1, j, id);
    AllCountsFit(states, steps, f);
    FilledParts(states[f].sched, states[f + 1].sched, entries);
    SortKeeps(states[f + 1].sched.problems, states[f].sched.problems);
    InstanceCountIsSum(states[f].sched, states[f + 1].sched, entries, id);
  }

  lemma {:induction false} AllCountsFit(states: seq<Cluster>, steps: seq<Step>, f: nat)
    requires Run(states, steps) && f < |steps| && steps[f].Fill?
    ensures PositiveMemory(states[f + 1].sched.problems)
    ensures forall w :: w in states[f].sched.workers ==>
              CountsFit(states[f + 1].sched.problems, states[f].sched.workers[w].memory)
  {
    assert Next(states[f], steps[f], states[f + 1]);
  }

  // ---- Problem IDs --------------------------------------------------------------------

  /** Adding a problem keeps the listed IDs distinct exactly if the very same problem is listed, or the ID is not. */
  lemma {:induction false} AddKeepsDistinct(s: SchedulerState, p: Problem)
    requires DistinctIds(s.problems)
    ensures DistinctIds(WithProblem(s, p).problems) <==> p in s.problems || forall q :: q in s.problems ==> q.id != p.id
  {
    DistinctIdsStep(s.problems, p);
  }

  lemma {:induction false} RemoveKeepsDistinct(s: SchedulerState, id: string)
    requires DistinctIds(s.problems)
    ensures DistinctIds(WithoutProblem(s, id).problems)
  {
    var i := FirstWith(s.problems, id);
    if i < |s.problems| {
      var rest := s.problems[..i] + s.problems[i + 1..];
      forall a, b | 0 <= a < b < |rest|
        ensures rest[a].id != rest[b].id
      {
        assert rest[a] == s.problems[if a < i then a else a + 1] && rest[b] == s.problems[if b < i then b else b + 1];
      }
    }
  }

  /** No problem is added under an ID that is listed with other metadata. */
  ghost predicate AddsCleanly(s: Cluster, step: Step) {
    step.Add? ==> step.p in s.sched.problems || forall q :: q in s.sched.problems ==> q.id != step.p.id
  }

  lemma {:induction false} NextKeepsDistinct(s: Cluster, step: Step, s': Cluster)
    requires Next(s, step, s') && DistinctIds(s.sched.problems)
    ensures DistinctIds(s'.sched.problems) <==> AddsCleanly(s, step)
  {
    hide DistinctIds, FillStep;
    match step
    case Add(p) => AddKeepsDistinct(s.sched, p);
    case Remove(id) => RemoveKeepsDistinct(s.sched, id);
    case Fill => FillKeepsDistinct(s, s');
    case _ =>
  }

  lemma {:induction false} FillKeepsDistinct(s: Cluster, s': Cluster)
    requires FillStep(s, s') && DistinctIds(s.sched.problems)
    ensures DistinctIds(s'.sched.problems)
  {
    var entries :| Filled(s.sched, s'.sched, entries) && Enumerates(s'.outbox, entries);
    hide *;
    FilledParts(s.sched, s'.sched, entries);
    SortKeeps(s'.sched.problems, s.sched.problems);
  }

  /** The listed IDs are distinct throughout a run exactly if every problem is added cleanly. */
  lemma {:induction false} IdsStayDistinct(states: seq<Cluster>, steps: seq<Step>, n: nat)
    requires Run(states, steps) && n <= |steps|
    ensures (forall i :: 0 <= i <= n ==> DistinctIds(states[i].sched.problems)) <==>
            forall i :: 0 <= i < n ==> AddsCleanly(states[i], steps[i])
    decreases n
  {
    hide Next, DistinctIds, AddsCleanly;
    if n == 0 {
      NoneListed(states[0]);
    } else {
      var last := n - 1;
      IdsStayDistinct(states, steps, last);
      if DistinctIds(states[last].sched.problems) {
        NextKeepsDistinct(states[last], steps[last], states[n]);
      }
    }
  }

  lemma {:induction false} NoneListed(s: Cluster)
    requires Init(s)
    ensures DistinctIds(s.sched.problems)
  {
  }

  // ---- What a worker announced ----------------------------------------------------------

  ghost predicate Connects(step: Step, w: string) {
    step.Connect? && step.w == w
  }

  /** The session of `w`, before and after it reaches the scheduler, goes back to step `c`. */
  ghost predicate Announced(s: Cluster, w: string, cpuCount: int, memory: int) {
    && w in s.sessions
    && (s.sessions[w].Connecting? ==> s.sessions[w] == Connecting(cpuCount, memory))
    && (w in s.sched.workers ==>
          s.sched.workers[w].memory == memory && s.sched.workers[w].cpuCount == cpuCount)
  }

  lemma {:induction false} NextKeepsAnnounced(s: Cluster, step: Step, s': Cluster, w: string, cpuCount: int,
                                              memory: int)
    requires Inv(s) && Next(s, step, s') && Announced(s, w, cpuCount, memory) && w in s'.sessions
    ensures !Connects(step, w) && Announced(s', w, cpuCount, memory)
  {
    assert SessionOk(s, w);
    hide Inv, SessionOk, Filled;
    if step.Fill? {
      var entries :| Filled(s.sched, s'.sched, entries) && Enumerates(s'.outbox, entries);
      FilledParts(s.sched, s'.sched, entries);
    }
  }

  lemma {:induction false} JustAnnounced(s: Cluster, step: Step, s': Cluster, w: string)
    requires Inv(s) && Next(s, step, s') && w !in s.sessions && w in s'.sessions
    ensures Connects(step, w) && Announced(s', w, step.cpuCount, step.memory)
  {
    assert SessionOk(s, w);
  }

  lemma {:induction false} SessionIsAnnounced(states: seq<Cluster>, steps: seq<Step>, i: nat, w: string)
    returns (c: nat)
    requires Run(states, steps) && i < |states| && w in states[i].sessions
    ensures c < i && Connects(steps[c], w) && forall k :: c < k < i ==> !Connects(steps[k], w)
    ensures Announced(states[i], w, steps[c].cpuCount, steps[c].memory)
    decreases i
  {
    hide Inv, Next, Announced;
    c := 0;
    if i == 0 {
      assert false;
    } else {
      var last := i - 1;
      RunKeeps(states, steps, last);
      if w in states[last].sessions {
        c := SessionIsAnnounced(states, steps, last, w);
        NextKeepsAnnounced(states[last], steps[last], states[i], w, steps[c].cpuCount, steps[c].memory);
      } else {
        c := last;
        JustAnnounced(states[last], steps[last], states[i], w);
      }
    }
  }

  /** In every reachable state a registered worker has the memory and the CPUs of its last hello message. */
  lemma {:induction false} RegisteredAsAnnounced(states: seq<Cluster>, steps: seq<Step>, i: nat, w: string)
    returns (c: nat)
    requires Run(states, steps) && i < |states| && w in states[i].sched.workers
    ensures c < i
    ensures steps[c] == Connect(w, states[i].sched.workers[w].cpuCount, states[i].sched.workers[w].memory)
    ensures forall k :: c < k < i ==> !(steps[k].Connect? && steps[k].w == w)
  {
    RunKeeps(states, steps, i);
    assert SessionOk(states[i], w);
    hide Inv;
    c := SessionIsAnnounced(states, steps, i, w);
  }

  lemma {:induction false} MemoryIsAnnounced(states: seq<Cluster>, steps: seq<Step>, c: nat, i: nat, w: string)
    requires Run(states, steps) && c < i <= |steps| && w in states[i].sched.workers
    requires steps[c].Connect? && steps[c].w == w && forall k :: c < k < i ==> !(steps[k].Connect? && steps[k].w == w)
    ensures states[i].sched.workers[w].memory == steps[c].memory
    ensures states[i].sched.workers[w].cpuCount == steps[c].cpuCount
  {
    var c' := RegisteredAsAnnounced(states, steps, i, w);
    assert c' == c;
  }

  /** No fill schedules more on a worker than the memory that the worker announced. */
  lemma {:induction false} ScheduledWithinAnnounced(states: seq<Cluster>, steps: seq<Step>, c: nat, f: nat, w: string,
                                                    entries: map<(string, string), int32>)
    requires Run(states, steps) && c < f < |steps| && steps[f].Fill? && w in states[f].sched.workers
    requires steps[c].Connect? && steps[c].w == w && forall k :: c < k < f ==> !(steps[k].Connect? && steps[k].w == w)
    requires Filled(states[f].sched, states[f + 1].sched, entries) && DistinctIds(states[f + 1].sched.problems)
    ensures var ps := states[f + 1].sched.problems;
            steps[c].memory >= 0 ==> 0 <= Load(ps, CountsOn(entries, w), |ps|) <= steps[c].memory
  {
    hide Filled, Load, CountsOn;
    MemoryIsAnnounced(states, steps, c, f, w);
    CountsFitAtFill(states, steps, f, w);
    LoadWithin(states[f].sched, states[f + 1].sched, entries, w);
  }

  /**
   With no problem added again while it waits for removal, a worker with nothing on its way stays within the
   memory that it announced exactly if every problem that it had recorded before the fill is being removed or
   fits in the first pass over that memory.
   */
  lemma {:induction false} StaysWithinAnnounced(states: seq<Cluster>, steps: seq<Step>, c: nat, f: nat, j: nat,
                                                w: string)
    requires Run(states, steps) && c < f < j <= |steps| && steps[f].Fill? && w in states[f].sched.workers
    requires steps[c].Connect? && steps[c].w == w && forall k :: c < k < f ==> !(steps[k].Connect? && steps[k].w == w)
    requires DistinctIds(states[f + 1].sched.problems) && NoneReadded(states[f].sched)
    requires forall k :: f < k < j ==> !steps[k].Fill? && steps[k] != Unregister(w)
    requires w in states[j].nodes && Pending(states[j], w) == []
    ensures var ps, m, pre := states[f + 1].sched.problems, steps[c].memory, states[f].sched;
            Load(ps, states[j].nodes[w], |ps|) <= m <==>
            m >= 0 && AllKept(ps, m, pre.workers[w].schedule, RemovedIds(pre))
  {
    hide Load, AllKept, NoneReadded;
    MemoryIsAnnounced(states, steps, c, f, w);
    StaysWithinMemory(states, steps, f, j, w);
  }
}
