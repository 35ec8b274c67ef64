/** container_mgr/contmanager.go */
module ContainerManagers {
  import opened Int32
  import opened Contexts
  import opened Containers
  import opened ContainerGuarantees
  import opened ProblemStores
  import opened Protocol

  /** A started container; it runs until its context is done. */
  datatype ProblemContainer = ProblemContainer(problemID: string, containerID: int32, containerContext: nat)

  ghost function ContextByID(containers: map<int32, ProblemContainer>): map<int32, nat> {
    map k | k in containers :: containers[k].containerContext
  }

  class CmProblem {
    var problemContainers: map<int32, ProblemContainer>
    const problemContext: nat
    ghost const problemID: string

    constructor (problemContext: nat, ghost problemID: string)
      ensures problemContainers == map[] && this.problemContext == problemContext && this.problemID == problemID
    {
      problemContainers := map[];
      this.problemContext, this.problemID := problemContext, problemID;
    }

    ghost function Value(): Tracked
      reads this
    {
      Tracked(problemContext, ContextByID(problemContainers))
    }
  }

  /** Stopping one more container of `values`. */
  lemma {:induction false} StopOne(before: seq<Context>, contexts: seq<Context>, values: map<int32, nat>,
                                   removed: set<int32>, key: int32)
    requires Rooted(before) && Cancelled(before, contexts, ContextsOf(values, removed)) && key in values
    ensures Rooted(contexts) && Rooted(Cancel(contexts, values[key]))
    ensures Cancelled(before, Cancel(contexts, values[key]), ContextsOf(values, removed + {key}))
  {
    CancelMore(before, contexts, ContextsOf(values, removed), values[key]);
    assert ContextsOf(values, removed + {key}) == ContextsOf(values, removed) + {values[key]};
  }

  lemma {:induction false} StopNone(contexts: seq<Context>, values: map<int32, nat>)
    ensures Cancelled(contexts, contexts, ContextsOf(values, {}))
  {
  }

  lemma {:induction false} PartCard(removed: set<int32>, todo: set<int32>, all: map<int32, ProblemContainer>)
    requires removed <= all.Keys && todo == all.Keys - removed
    ensures |removed| + |todo| == |all| && |all - removed| == |todo|
  {
    assert all.Keys == removed + todo && (all - removed).Keys == todo;
    assert |all| == |all.Keys| && |all - removed| == |(all - removed).Keys|;
  }

  lemma {:induction false} InRange(m: Manager, id: string)
    requires Inv(m) && id in m.tracked
    ensures HasContext(m, id) && Rooted(m.contexts)
  {
    KeptContext(m, id);
  }

  lemma {:induction false} GrowIs(m: Manager, id: string, attempts: seq<Attempt>, n: nat, contexts: seq<Context>,
                                  t: Tracked, m': Manager)
    requires Inv(m) && HasContext(m, id) && n <= |attempts| && t.context == m.tracked[id].context
    requires StartFirst(Group(m.contexts, m.tracked[id].containers), t.context, attempts, n) ==
             Group(contexts, t.containers)
    requires m' == Manager(contexts, m.ctx, m.tracked[id := t])
    ensures m' == More(m, id, attempts, n) && Inv(m')
  {
    hide Inv;
    GrowKeeps(m, id, attempts, n);
  }

  /** One more turn of the growing loop. */
  lemma {:induction false} GrowOne(g: Group, parent: nat, attempts: seq<Attempt>, n: nat,
                                   records: map<int32, ProblemContainer>, pc: ProblemContainer)
    requires parent < |g.contexts| && n < |attempts|
    requires ContextByID(records) == StartFirst(g, parent, attempts, n).containers
    requires pc.containerContext == |StartFirst(g, parent, attempts, n).contexts|
    ensures Group(NewChild(StartFirst(g, parent, attempts, n).contexts, parent),
                  ContextByID(records[ContainerID(attempts[n].draw) := pc])) ==
            StartFirst(g, parent, attempts, n + 1)
    ensures parent < |NewChild(StartFirst(g, parent, attempts, n).contexts, parent)|
  {
  }

  /** The IDs after growing, with the numbers drawn written out. */
  lemma {:induction false} GrownKeys(g: Group, parent: nat, attempts: seq<Attempt>, n: nat,
                                     before: map<int32, ProblemContainer>, after: map<int32, ProblemContainer>)
    requires parent < |g.contexts| && n <= |attempts| && g.containers == ContextByID(before)
    requires ContextByID(after) == StartFirst(g, parent, attempts, n).containers
    ensures after.Keys == before.Keys + set i | 0 <= i < n :: attempts[i].draw % 2048
  {
    GroupKeys(g, parent, attempts, n);
    hide StartFirst;
    assert ContextByID(before).Keys == before.Keys && ContextByID(after).Keys == after.Keys;
  }

  /** The containers `removed`, as many as are too many, are stopped and have left the record. */
  ghost predicate RecordShrunk(before: seq<Context>, t: Tracked, instances: int, removed: set<int32>,
                               contexts: seq<Context>, t': Tracked)
  {
    && instances <= |t.containers|
    && removed <= t.containers.Keys && |removed| == Excess(|t.containers|, instances)
    && t' == Tracked(t.context, t.containers - removed)
    && Cancelled(before, contexts, ContextsOf(t.containers, removed))
  }

  lemma {:induction false} ShrunkRecord(before: seq<Context>, t: Tracked, instances: int, removed: set<int32>,
                                        contexts: seq<Context>, t': Tracked)
    requires instances <= |t.containers|
    requires removed <= t.containers.Keys && |removed| == Excess(|t.containers|, instances)
    requires t' == Tracked(t.context, t.containers - removed)
    requires Cancelled(before, contexts, ContextsOf(t.containers, removed))
    ensures RecordShrunk(before, t, instances, removed, contexts, t')
  {
  }

  lemma {:induction false} ShrinkIs(m: Manager, id: string, instances: int, removed: set<int32>,
                                    contexts: seq<Context>, t: Tracked, m': Manager)
    requires id in m.tracked && instances <= |m.tracked[id].containers|
    requires RecordShrunk(m.contexts, m.tracked[id], instances, removed, contexts, t)
    requires m' == Manager(contexts, m.ctx, m.tracked[id := t])
    ensures ShrunkTo(m, id, instances, removed, m')
  {
    hide Cancelled;
  }

  lemma {:induction false} NothingRemoved(m: Manager, id: string)
    requires id in m.tracked
    ensures Shrunk(m, id, {}, m)
  {
    var t := m.tracked[id];
    StopNone(m.contexts, t.containers);
    assert t.containers - {} == t.containers;
    assert m.tracked[id := t] == m.tracked;
  }

  lemma {:induction false} UnknownAdjust(m: Manager, id: string, instances: int, attempts: seq<Attempt>)
    requires HasContext(m, id) && instances > |m.tracked[id].containers|
    ensures AdjustStep(m, id, instances, false, attempts, m, false)
  {
  }

  lemma {:induction false} GrownAdjust(m: Manager, id: string, instances: int, attempts: seq<Attempt>, m': Manager,
                                       ok: bool)
    requires Inv(m) && HasContext(m, id) && 0 < instances - |m.tracked[id].containers| <= |attempts|
    requires m' == More(m, id, attempts, FirstFailure(attempts, instances - |m.tracked[id].containers|))
    requires var missing := instances - |m.tracked[id].containers|; ok <==> FirstFailure(attempts, missing) == missing
    ensures AdjustStep(m, id, instances, true, attempts, m', ok) && Inv(m')
  {
    hide Inv, More;
    GrowKeeps(m, id, attempts, FirstFailure(attempts, instances - |m.tracked[id].containers|));
  }

  lemma {:induction false} EqualAdjust(m: Manager, id: string, known: bool, attempts: seq<Attempt>)
    requires HasContext(m, id)
    ensures AdjustStep(m, id, |m.tracked[id].containers|, known, attempts, m, true)
  {
    NothingRemoved(m, id);
    assert ShrunkTo(m, id, |m.tracked[id].containers|, {}, m);
  }

  lemma {:induction false} ShrunkAdjust(m: Manager, id: string, instances: int, known: bool, attempts: seq<Attempt>,
                                        removed: set<int32>, m': Manager)
    requires Inv(m) && HasContext(m, id) && instances <= |m.tracked[id].containers|
    requires ShrunkTo(m, id, instances, removed, m')
    ensures AdjustStep(m, id, instances, known, attempts, m', true) && Inv(m')
  {
    hide Inv, Shrunk;
    ShrinkKeeps(m, id, removed, m');
  }

  lemma {:induction false} UntrackIs(m: Manager, id: string, m': Manager)
    requires Inv(m) && id in m.tracked
    requires m' == Manager(Cancel(m.contexts, m.tracked[id].context), m.ctx, m.tracked - {id})
    ensures UntrackStep(m, id, m', true) && Inv(m')
    ensures m.tracked[id].context < |m'.contexts| && m'.contexts[m.tracked[id].context].done
  {
    CancelIsCancelled(m.contexts, m.tracked[id].context);
    hide Inv, Cancel, Cancelled;
    UntrackKeeps(m, id, m', true);
  }

  lemma {:induction false} UntrackUnknown(m: Manager, id: string)
    requires id !in m.tracked
    ensures UntrackStep(m, id, m, false)
  {
  }

  lemma {:induction false} UntrackOk(m: Manager, id: string, m': Manager, ok: bool)
    requires UntrackStep(m, id, m', ok)
    ensures ok <==> id in m.tracked
  {
  }

  lemma {:induction false} DestroyIs(m: Manager, m': Manager)
    requires Inv(m) && m' == m.(contexts := Cancel(m.contexts, m.ctx))
    ensures DestroyStep(m, m') && Inv(m')
    ensures forall c :: m.ctx <= c < |m'.contexts| ==> m'.contexts[c].done
  {
    CancelIsCancelled(m.contexts, m.ctx);
    hide Inv, Cancel, Cancelled;
    DestroyKeeps(m, m');
    forall c | m.ctx <= c < |m'.contexts|
      ensures m'.contexts[c].done
    {
      DoneBelow(m', c);
    }
  }

  lemma {:induction false} RestByID(containers: map<int32, ProblemContainer>, removed: set<int32>)
    ensures ContextByID(containers - removed) == ContextByID(containers) - removed
    ensures ContextByID(containers).Keys == containers.Keys
  {
  }

  lemma {:induction false} RestWithout(containers: map<int32, ProblemContainer>, removed: set<int32>, key: int32)
    ensures containers - removed - {key} == containers - (removed + {key})
  {
  }

  lemma {:induction false} TrackIs(m: Manager, id: string, known: bool, m': Manager)
    requires Inv(m) && m.ctx < |m.contexts|
    requires m' == if !known || id in m.tracked then m else Registered(m, id)
    ensures TrackStep(m, id, known, m', known) && Inv(m')
  {
    hide Inv;
    TrackKeeps(m, id, known, m', known);
  }

  class ContainerManager {
    var problemContainers: map<string, CmProblem>
    var contexts: seq<Context>                 // every context of the process, by creation
    const ctx: nat
    const problemStore: ProblemStore

    /** Problems are tracked under their own ID, so no two share a record. */
    ghost predicate Valid()
      reads `problemContainers
    {
      forall id :: id in problemContainers ==> problemContainers[id].problemID == id
    }

    ghost function State(): Manager
      reads `problemContainers, `contexts, problemContainers.Values
    {
      Manager(contexts, ctx, map id | id in problemContainers :: problemContainers[id].Value())
    }

    constructor (problemStore: ProblemStore)
      ensures Valid() && State() == Initial() && this.problemStore == problemStore
    {
      problemContainers := map[];
      contexts := NewChild([Context(-1, false)], 0);
      ctx := 1;
      this.problemStore := problemStore;
    }

    predicate HasProblem(problemID: string)
      reads `problemContainers
    {
      problemID in problemContainers
    }

    method TrackProblem(problemID: string) returns (ok: bool)
      requires Valid() && Inv(State())
      modifies `problemContainers, `contexts
      ensures Valid() && Inv(State())
      ensures TrackStep(old(State()), problemID, problemID in problemStore.problems, State(), ok)
      ensures ok <==> problemID in problemStore.problems
      ensures !ok || problemID in old(problemContainers) ==> unchanged(`problemContainers) && unchanged(`contexts)
      ensures ok && problemID !in old(problemContainers) ==>
                && problemContainers.Keys == old(problemContainers.Keys) + {problemID}
                && problemContainers[problemID].problemContainers == map[]
                && problemContainers[problemID].problemContext == |old(contexts)|
                && ctx < |old(contexts)| && contexts == old(contexts) + [Context(ctx, old(contexts)[ctx].done)]
      ensures fresh(problemContainers.Values - old(problemContainers.Values))
    {
      hide Inv, NewChild, TrackStep, State;
      ghost var m := State();
      CtxInRange(m);
      StateParts();
      TrackedIsRecorded(problemID);
      ok := problemStore.GetMetadata(problemID).Some?;
      if ok && !HasProblem(problemID) {
        var problem := Register(problemID, m);
      }
      TrackIs(m, problemID, ok, State());
    }

    /** A record with a new context is put under the problem's ID. */
    method Register(problemID: string, ghost m: Manager) returns (problem: CmProblem)
      requires Valid() && m == State() && ctx < |contexts| && problemID !in problemContainers
      modifies `problemContainers, `contexts
      ensures Valid() && fresh(problem) && problemContainers == old(problemContainers)[problemID := problem]
      ensures State() == Registered(m, problemID)
      ensures problem.problemContainers == map[] && problem.problemContext == |old(contexts)|
      ensures contexts == old(contexts) + [Context(ctx, old(contexts)[ctx].done)]
    {
      var problemContext := |contexts|;
      contexts := NewChild(contexts, ctx);
      assert contexts == old(contexts) + [Context(ctx, old(contexts)[ctx].done)];
      hide NewChild;
      problem := new CmProblem(problemContext, problemID);
      problemContainers := problemContainers[problemID := problem];
      RecordAdded(problemID, m, problem);
    }

    lemma {:induction false} RecordAdded(problemID: string, m: Manager, problem: CmProblem)
      requires problemContainers.Keys == m.tracked.Keys + {problemID} && problemID !in m.tracked
      requires problemContainers[problemID] == problem && problem.Value() == Tracked(|m.contexts|, map[])
      requires forall id :: id in m.tracked ==> problemContainers[id].Value() == m.tracked[id]
      ensures State().tracked == m.tracked[problemID := Tracked(|m.contexts|, map[])]
    {
    }

    method UntrackProblem(problemID: string) returns (ok: bool)
      requires Valid() && Inv(State())
      modifies `problemContainers, `contexts
      ensures Valid() && Inv(State())
      ensures UntrackStep(old(State()), problemID, State(), ok)
      ensures ok <==> problemID in old(problemContainers)
      ensures problemContainers == old(problemContainers) - {problemID}
      ensures ok ==>
                var c := old(problemContainers[problemID].problemContext);
                c < |contexts| && contexts[c].done
      ensures !ok ==> contexts == old(contexts)
      ensures problemContainers.Values <= old(problemContainers.Values)
    {
      hide Inv, Cancel, UntrackStep;
      ghost var m := State();
      ok := problemID in problemContainers;
      if ok {
        var problem := problemContainers[problemID];
        problemContainers := problemContainers - {problemID};
        contexts := Cancel(contexts, problem.problemContext);
        assert State().tracked == m.tracked - {problemID};
        UntrackIs(m, problemID, State());
      } else {
        UntrackUnknown(m, problemID);
      }
    }

    /** The image runs from its start; a failed start leaves no context behind. */
    method NewProblemContainer(problemID: string, problemContext: nat, containerID: int32, started: bool)
      returns (pc: Option<ProblemContainer>)
      requires problemContext < |contexts|
      modifies `contexts
      ensures started ==> contexts == NewChild(old(contexts), problemContext) &&
                          pc == Some(ProblemContainer(problemID, containerID, |old(contexts)|))
      ensures !started ==> contexts == old(contexts) && pc == None
    {
      if !started {
        return None;
      }
      pc := Some(ProblemContainer(problemID, containerID, |contexts|));
      contexts := NewChild(contexts, problemContext);
    }

    /** The growing loop of `adjustInstances`. */
    method Grow(problemID: string, problem: CmProblem, instances: int, attempts: seq<Attempt>) returns (ok: bool)
      requires problem.problemContext < |contexts|
      requires |problem.problemContainers| < instances <= |problem.problemContainers| + |attempts|
      modifies `contexts, problem
      ensures var started := FirstFailure(attempts, instances - |old(problem.problemContainers)|);
              var g := Group(old(contexts), old(problem.Value().containers));
              Group(contexts, problem.Value().containers) == StartFirst(g, problem.problemContext, attempts, started)
      ensures var missing := instances - |old(problem.problemContainers)|;
              ok <==> FirstFailure(attempts, missing) == missing
      ensures var started := FirstFailure(attempts, instances - |old(problem.problemContainers)|);
              problem.problemContainers.Keys ==
              old(problem.problemContainers.Keys) + (set i | 0 <= i < started :: attempts[i].draw % 2048)
    {
      hide StartFirst, NewChild, ContextByID, ContainerID;
      ghost var g := Group(contexts, problem.Value().containers);
      ghost var n := instances - |problem.problemContainers|;
      GroupNone(g, problem.problemContext, attempts);
      var i, have := |problem.problemContainers|, |problem.problemContainers|;
      while i < instances
        invariant have <= i <= instances && i - have <= FirstFailure(attempts, n)
        invariant problem.problemContext < |contexts|
        invariant Group(contexts, problem.Value().containers) ==
                  StartFirst(g, problem.problemContext, attempts, i - have)
      {
        var attempt := attempts[i - have];
        var newID := ContainerID(attempt.draw);
        var pc := NewProblemContainer(problemID, problem.problemContext, newID, attempt.started);
        if pc.None? {
          GrownKeys(g, problem.problemContext, attempts, i - have, old(problem.problemContainers),
                    problem.problemContainers);
          return false;
        }
        GrowOne(g, problem.problemContext, attempts, i - have, problem.problemContainers, pc.value);
        problem.problemContainers := problem.problemContainers[newID := pc.value];
        i := i + 1;
      }
      GrownKeys(g, problem.problemContext, attempts, n, old(problem.problemContainers), problem.problemContainers);
      ok := true;
    }

    /** The shrinking loop of `adjustInstances`; Go visits the map in any order. */
    method Shrink(problem: CmProblem, instances: int) returns (ghost removed: set<int32>)
      requires Rooted(contexts) && |problem.problemContainers| > instances
      modifies `contexts, problem
      ensures RecordShrunk(old(contexts), old(problem.Value()), instances, removed, contexts, problem.Value())
      ensures problem.problemContainers == old(problem.problemContainers) - removed
      ensures |problem.problemContainers| == if instances < 0 then 0 else instances
    {
      hide Cancelled, Cancel, ContextsOf, Descends, RecordShrunk;
      ghost var before, values := contexts, problem.Value().containers;
      StopNone(contexts, values);
      removed := {};
      var removedCount, toRemove := 0, |problem.problemContainers| - instances;
      var todo := problem.problemContainers.Keys;
      while todo != {} && removedCount < toRemove
        invariant removed <= values.Keys && todo == values.Keys - removed
        invariant removedCount == |removed| <= toRemove
        invariant problem.problemContainers == old(problem.problemContainers) - removed
        invariant Rooted(contexts) && Cancelled(before, contexts, ContextsOf(values, removed))
      {
        var key :| key in todo;
        var pc := problem.problemContainers[key];
        StopOne(before, contexts, values, removed, key);
        RestWithout(old(problem.problemContainers), removed, key);
        contexts := Cancel(contexts, pc.containerContext);
        problem.problemContainers := problem.problemContainers - {key};
        removedCount := removedCount + 1;
        todo, removed := todo - {key}, removed + {key};
      }
      PartCard(removed, todo, old(problem.problemContainers));
      RestByID(old(problem.problemContainers), removed);
      hide ContextByID;
      ShrunkRecord(before, old(problem.Value()), instances, removed, contexts, problem.Value());
    }

    /** Every record but that of `problemID` is as it was in `m`. */
    ghost predicate OthersAsIn(m: Manager, problemID: string)
      reads `problemContainers, problemContainers.Values
    {
      && m.tracked.Keys == problemContainers.Keys && problemID in problemContainers
      && forall id :: id in problemContainers && id != problemID ==> problemContainers[id].Value() == m.tracked[id]
    }

    lemma {:induction false} StateIs(m: Manager, problemID: string, value: Tracked)
      requires OthersAsIn(m, problemID) && problemContainers[problemID].Value() == value && m.ctx == ctx
      ensures State() == Manager(contexts, ctx, m.tracked[problemID := value])
    {
    }

    lemma {:induction false} RecordOf(problemID: string)
      requires problemID in problemContainers
      ensures problemID in State().tracked && State().tracked[problemID] == problemContainers[problemID].Value()
      ensures |problemContainers[problemID].Value().containers| == |problemContainers[problemID].problemContainers|
      ensures State().contexts == contexts && State().ctx == ctx
      ensures OthersAsIn(State(), problemID)
    {
      var records := problemContainers[problemID].problemContainers;
      assert ContextByID(records).Keys == records.Keys;
      assert |ContextByID(records)| == |ContextByID(records).Keys| && |records| == |records.Keys|;
    }

    /** The record of one problem grows; the others stay. */
    method GrowProblem(problemID: string, instances: int, attempts: seq<Attempt>, ghost m: Manager,
                       ghost n: nat) returns (ok: bool)
      requires Valid() && Inv(m) && m == State() && problemID in problemContainers && HasContext(m, problemID)
      requires n == instances - |problemContainers[problemID].problemContainers| && 0 < n <= |attempts|
      modifies `contexts, problemContainers[problemID]
      ensures State() ==
              More(m, problemID, attempts, FirstFailure(attempts, n)) && (ok <==> FirstFailure(attempts, n) == n)
      ensures problemContainers[problemID].problemContainers.Keys ==
              old(problemContainers[problemID].problemContainers.Keys) +
              (set i | 0 <= i < FirstFailure(attempts, n) :: attempts[i].draw % 2048)
    {
      hide Inv, StartFirst, More;
      var problem := problemContainers[problemID];
      RecordOf(problemID);
      ok := Grow(problemID, problem, instances, attempts);
      assert OthersAsIn(m, problemID);
      StateIs(m, problemID, problem.Value());
      GrowIs(m, problemID, attempts, FirstFailure(attempts, n), contexts, problem.Value(), State());
    }

    /** The record of one problem shrinks; the others stay. */
    method ShrinkProblem(problemID: string, instances: int, ghost m: Manager) returns (ghost removed: set<int32>)
      requires Valid() && Inv(m) && m == State() && problemID in problemContainers
      requires problemID in m.tracked && |m.tracked[problemID].containers| > instances
      modifies `contexts, problemContainers[problemID]
      ensures ShrunkTo(m, problemID, instances, removed, State())
      ensures |problemContainers[problemID].problemContainers| == if instances < 0 then 0 else instances
    {
      InRange(m, problemID);
      hide *;
      RecordOf(problemID);
      removed := ShrinkOne(problemID, instances, m);
      StateIs(m, problemID, problemContainers[problemID].Value());
      ShrinkIs(m, problemID, instances, removed, contexts, problemContainers[problemID].Value(), State());
    }

    method ShrinkOne(problemID: string, instances: int, ghost m: Manager) returns (ghost removed: set<int32>)
      requires Valid() && Rooted(contexts) && OthersAsIn(m, problemID)
      requires problemID in m.tracked && |m.tracked[problemID].containers| > instances
      requires problemContainers[problemID].Value() == m.tracked[problemID]
      requires |problemContainers[problemID].problemContainers| == |m.tracked[problemID].containers|
      requires contexts == m.contexts
      modifies `contexts, problemContainers[problemID]
      ensures RecordShrunk(m.contexts, m.tracked[problemID], instances, removed, contexts,
                           problemContainers[problemID].Value())
      ensures |problemContainers[problemID].problemContainers| == if instances < 0 then 0 else instances
      ensures OthersAsIn(m, problemID)
    {
      hide RecordShrunk, Rooted;
      removed := Shrink(problemContainers[problemID], instances);
    }

    /** `adjustInstances`. */
    method AdjustInstances(problemID: string, instances: int, attempts: seq<Attempt>) returns (ok: bool)
      requires Valid() && Inv(State()) && problemID in problemContainers
      requires instances - |problemContainers[problemID].problemContainers| <= |attempts|
      modifies `contexts, problemContainers[problemID]
      ensures Valid() && Inv(State())
      ensures HasContext(old(State()), problemID) &&
              AdjustStep(old(State()), problemID, instances, problemID in problemStore.problems, attempts, State(), ok)
      ensures instances <= old(|problemContainers[problemID].problemContainers|) ==>
                ok && |problemContainers[problemID].problemContainers| == if instances < 0 then 0 else instances
      ensures instances > old(|problemContainers[problemID].problemContainers|) ==>
                var missing := instances - old(|problemContainers[problemID].problemContainers|);
                var started := if problemID in problemStore.problems then FirstFailure(attempts, missing) else 0;
                && (ok <==> started == missing)
                && problemContainers[problemID].problemContainers.Keys ==
                   old(problemContainers[problemID].problemContainers.Keys) +
                   (set i | 0 <= i < started :: attempts[i].draw % 2048)
    {
      hide State, Inv, HasContext, AdjustStep, More, ShrunkTo, FirstFailure, CmProblem.Value;
      ghost var m := State();
      RecordOf(problemID);
      InRange(m, problemID);
      var have := |problemContainers[problemID].problemContainers|;
      ghost var known := problemID in problemStore.problems;
      ok := true;
      if have < instances {
        if problemStore.GetMetadata(problemID).None? {
          UnknownAdjust(m, problemID, instances, attempts);
          return false;
        }
        ok := GrowProblem(problemID, instances, attempts, m, instances - have);
        GrownAdjust(m, problemID, instances, attempts, State(), ok);
      } else if have > instances {
        ghost var removed := ShrinkProblem(problemID, instances, m);
        ShrunkAdjust(m, problemID, instances, known, attempts, removed, State());
      } else {
        EqualAdjust(m, problemID, known, attempts);
      }
    }

    method HandleInstancesEvent(problemID: string, instances: int32, attempts: seq<Attempt>) returns (ok: bool)
      requires Valid() && Inv(State())
      requires problemID in problemContainers ==>
               instances - |problemContainers[problemID].problemContainers| <= |attempts|
      modifies `problemContainers, `contexts, problemContainers.Values
      ensures Valid() && Inv(State())
      ensures problemID in old(State()).tracked ==> HasContext(old(State()), problemID)
      ensures EventStep(old(State()), problemID, instances, problemID in problemStore.problems, attempts, State(), ok)
      ensures problemContainers.Values <= old(problemContainers.Values)
      ensures instances == 0 ==> problemContainers == old(problemContainers) - {problemID}
      ensures instances != 0 ==> problemContainers == old(problemContainers)
      ensures problemID !in old(problemContainers) ==> (ok <==> instances == 0) && unchanged(`contexts)
      ensures problemID in problemContainers && instances <= old(|problemContainers[problemID].problemContainers|) ==>
                ok && |problemContainers[problemID].problemContainers| == if instances < 0 then 0 else instances
      ensures problemID in problemContainers && instances > old(|problemContainers[problemID].problemContainers|) ==>
                var missing := instances - old(|problemContainers[problemID].problemContainers|);
                var started := if problemID in problemStore.problems then FirstFailure(attempts, missing) else 0;
                && (ok <==> started == missing)
                && problemContainers[problemID].problemContainers.Keys ==
                   old(problemContainers[problemID].problemContainers.Keys) +
                   (set i | 0 <= i < started :: attempts[i].draw % 2048)
    {
      hide State, Inv, AdjustStep, UntrackStep, HasContext;
      ghost var m := State();
      TrackedIsRecorded(problemID);
      if instances == 0 {
        if problemID in problemContainers {
          InRange(m, problemID);
        }
        var untracked := UntrackProblem(problemID);
        UntrackOk(m, problemID, State(), untracked);
        ok := true;
      } else if !HasProblem(problemID) {
        ok := false;
      } else {
        ok := AdjustInstances(problemID, instances, attempts);
      }
    }

    lemma {:induction false} StateParts()
      ensures State().contexts == contexts && State().ctx == ctx
    {
    }

    lemma {:induction false} TrackedIsRecorded(problemID: string)
      ensures problemID in State().tracked <==> problemID in problemContainers
    {
    }

    method Destroy()
      requires Valid() && Inv(State())
      modifies `contexts
      ensures Valid() && Inv(State())
      ensures DestroyStep(old(State()), State())
      ensures forall c :: ctx <= c < |contexts| ==> contexts[c].done
    {
      hide Inv, Cancel, DestroyStep;
      ghost var m := State();
      contexts := Cancel(contexts, ctx);
      assert State().tracked == m.tracked;
      DestroyIs(m, State());
    }
  }
}
