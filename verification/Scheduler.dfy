/** scheduler/prelim_scheduler.go */
module Scheduler {
  import opened Int32
  import opened Packing
  import opened Placement
  import opened Schedules
  import opened Sorting

  /** A `*scheduler.Worker`. */
  class Worker {
    const workerID: string
    const cpuCount: int
    const memory: int
    var schedule: map<string, int>

    constructor (workerID: string, cpuCount: int, memory: int)
      ensures this.workerID == workerID && this.cpuCount == cpuCount && this.memory == memory
      ensures schedule == map[]
    {
      this.workerID, this.cpuCount, this.memory := workerID, cpuCount, memory;
      schedule := map[];
    }

    ghost function Value(): WorkerState
      reads this
    {
      WorkerState(cpuCount, memory, schedule)
    }
  }

  /** Workers come in descending order of their memory; ties in any order. */
  ghost predicate MostMemoryFirst(order: seq<string>, memories: map<string, int>) {
    forall i, j :: 0 <= i < j < |order| && order[i] in memories && order[j] in memories ==>
                     memories[order[i]] >= memories[order[j]]
  }

  class PrelimScheduler {
    var problems: seq<Problem>
    var workers: map<string, Worker>
    var removeList: seq<string>
    var instanceCounts: map<string, int>

    /** Workers are registered under their own ID, so no two share a record. */
    ghost predicate Valid()
      reads `workers
    {
      forall w :: w in workers ==> workers[w].workerID == w
    }

    /** No ID that can reach a schedule key holds the separator. */
    ghost predicate SeparatorFree()
      reads `problems, `workers, `removeList
    {
      ListedAtFree() && forall id :: id in removeList ==> AtFree(id)
    }

    ghost predicate ListedAtFree()
      reads `problems, `workers
    {
      && (forall w :: w in workers ==> AtFree(w))
      && (forall id :: id in Ids(problems) ==> AtFree(id))
    }

    ghost function State(): SchedulerState
      reads this, workers.Values
    {
      SchedulerState(problems, map w | w in workers :: workers[w].Value(), removeList, instanceCounts)
    }

    ghost function Memories(): map<string, int>
      reads `workers
    {
      map w | w in workers :: workers[w].memory
    }

    ghost function Schedules(): map<string, map<string, int>>
      reads `workers, workers.Values
    {
      map w | w in workers :: workers[w].schedule
    }

    ghost function BoardOf(sched: Schedule): Board
      requires sched.Valid()
      reads `workers, `instanceCounts, workers.Values, sched
    {
      Board(sched.Pairs(), Schedules(), instanceCounts)
    }

    constructor ()
      ensures Valid()
      ensures State() == SchedulerState([], map[], [], map[])
    {
      problems := [];
      workers := map[];
      removeList := [];
      instanceCounts := map[];
    }

    // ---- FillSchedule -------------------------------------------------------------------

    /** The schedule entry of problem `p` on worker `w` goes up by one, which may wrap. */
    method Increment(sched: Schedule, w: string, p: string) returns (newVal: int32)
      requires sched.Valid() && AtFree(w) && AtFree(p)
      modifies sched
      ensures sched.Valid()
      ensures newVal == NewVal(old(sched.Pairs()), w, p)
      ensures sched.Pairs() == old(sched.Pairs())[(w, p) := newVal]
    {
      var current: int := sched.Get(w, p);
      newVal := Wrap(current + 1);
      sched.Set(w, p, newVal);
    }

    /** The new entry is recorded for the worker, and the problem has one more instance. */
    method Note(w: string, p: string, newVal: int32)
      requires Valid() && w in workers
      modifies this`instanceCounts, workers[w]
      ensures Schedules() == old(Schedules())[w := old(Schedules())[w][p := newVal]]
      ensures instanceCounts ==
              old(instanceCounts)[p := (if p in old(instanceCounts) then old(instanceCounts)[p] else 0) + 1]
    {
      var worker := workers[w];
      worker.schedule := worker.schedule[p := newVal];
      instanceCounts := instanceCounts[p := (if p in instanceCounts then instanceCounts[p] else 0) + 1];
    }

    /** The statements that give worker `w` one more instance of problem `p`. */
    method Place(sched: Schedule, w: string, p: string)
      requires Valid() && sched.Valid() && AtFree(w) && AtFree(p)
      requires w in workers
      modifies this`instanceCounts, workers[w], sched
      ensures sched.Valid() && BoardOf(sched) == PlaceOn(old(BoardOf(sched)), w, p)
    {
      hide Schedule.Valid, Schedule.Pairs, PlaceOn, NewVal;
      ghost var b := BoardOf(sched);
      var newVal := Increment(sched, w, p);
      ghost var pairs := sched.Pairs();
      assert Schedules() == b.schedules;
      Note(w, p, newVal);
      PlaceOnParts(b, w, p, newVal, Board(pairs, Schedules(), instanceCounts));
    }

    /** Pass `k` over the problems for worker `w`, which has memory `m`. */
    method PackWorker(sched: Schedule, w: string, memory: int, ghost m: int, ghost k: nat, ghost b: Board)
      returns (remainingMem: int, changes: nat)
      requires Valid() && SeparatorFree() && sched.Valid() && PositiveMemory(problems)
      requires w in workers && memory == Left(Mems(problems), m, k, 0) && b == BoardOf(sched)
      modifies this`instanceCounts, workers[w], sched
      ensures sched.Valid()
      ensures remainingMem == Left(Mems(problems), m, k + 1, 0)
      ensures BoardOf(sched) == PackBoard(b, problems, w, m, k, |problems|)
      ensures changes > 0 <==> Productive(Mems(problems), m, k)
    {
      hide BoardOf, PackBoard, PlaceOn, Left, Fits, Productive, Mems, Schedule.Valid;
      PassEnds(b, problems, w, m, k);
      remainingMem := memory;
      changes := 0;
      for j := 0 to |problems|
        invariant sched.Valid()
        invariant BoardOf(sched) == PackBoard(b, problems, w, m, k, j)
        invariant remainingMem == Left(Mems(problems), m, k, j)
        invariant remainingMem <= memory
        invariant changes > 0 <==> remainingMem < memory
      {
        var p := problems[j];
        NextProblem(b, problems, w, m, k, j);
        assert p.id in Ids(problems);
        if remainingMem >= p.memory {
          Place(sched, w, p.id);
          remainingMem := remainingMem - p.memory;
          changes := changes + 1;
        }
      }
    }

    /** The loop body for worker `w` in pass `k`, with its `continue`. */
    method VisitWorker(sched: Schedule, w: string, memory: int, ghost m: int, ghost k: nat, ghost b: Board)
      returns (remainingMem: int, changes: nat)
      requires Valid() && SeparatorFree() && sched.Valid() && PositiveMemory(problems)
      requires w in workers && memory == Left(Mems(problems), m, k, 0) && b == BoardOf(sched)
      modifies this`instanceCounts, workers[w], sched
      ensures sched.Valid()
      ensures remainingMem == Left(Mems(problems), m, k + 1, 0)
      ensures BoardOf(sched) == PackBoard(b, problems, w, m, k, |problems|)
      ensures changes > 0 <==> Productive(Mems(problems), m, k)
    {
      if memory <= 0 {
        PackBoardSkip(b, problems, w, m, k, |problems|);
        return memory, 0;
      }
      remainingMem, changes := PackWorker(sched, w, memory, m, k, b);
    }

    /** Pass `k` over all workers, which have memories `ms`. */
    method PackPass(sched: Schedule, order: seq<string>, memories: map<string, int>, ghost ms: map<string, int>,
                    ghost k: nat, ghost b: Board)
      returns (workersRemainingMem: map<string, int>, changeCount: nat)
      requires Valid() && SeparatorFree() && sched.Valid() && PositiveMemory(problems)
      requires ms.Keys == workers.Keys && Enumerated(order, ms) && forall w :: w in order ==> w in ms
      requires memories == RemainingAt(problems, ms, k) && b == BoardOf(sched)
      modifies this`instanceCounts, workers.Values, sched
      ensures sched.Valid()
      ensures BoardOf(sched) == PassBoard(b, problems, order, ms, k, |order|)
      ensures workersRemainingMem == RemainingAt(problems, ms, k + 1)
      ensures changeCount > 0 <==> SomeProductive(problems, order, ms, k, |order|)
    {
      hide *;
      workersRemainingMem := memories;
      changeCount := 0;
      StartOfPass(b, problems, order, ms, k);
      for i := 0 to |order|
        invariant sched.Valid()
        invariant BoardOf(sched) == PassBoard(b, problems, order, ms, k, i)
        invariant workersRemainingMem == RemainingWithin(problems, order, ms, k, i)
        invariant changeCount > 0 <==> SomeProductive(problems, order, ms, k, i)
      {
        var w := order[i];
        NextRemaining(problems, order, ms, k, i);
        VisitOfPass(b, problems, order, ms, k, i);
        var remainingMem,
          changes := VisitWorker(sched, w, workersRemainingMem[w], ms[w], k, PassBoard(b, problems, order, ms, k, i));
        workersRemainingMem := workersRemainingMem[w := remainingMem];
        changeCount := changeCount + changes;
      }
      LastRemaining(problems, order, ms, k);
    }

    /** Problem `p` is zeroed in the schedule of worker `w` and dropped from its record. */
    method ClearOne(sched: Schedule, w: string, p: string)
      requires Valid() && sched.Valid() && AtFree(w) && AtFree(p) && w in workers
      modifies workers[w], sched
      ensures sched.Valid()
      ensures BoardOf(sched) == ClearedOnce(old(BoardOf(sched)), w, p)
    {
      ghost var schedules := Schedules();
      sched.Set(w, p, 0);
      var worker := workers[w];
      worker.schedule := worker.schedule - {p};
      assert Schedules() == schedules[w := schedules[w] - {p}];
    }

    /** Problem `p` is zeroed for every worker. */
    method ClearProblem(sched: Schedule, p: string, ghost b: Board)
      requires Valid() && SeparatorFree() && sched.Valid() && AtFree(p) && b == BoardOf(sched)
      modifies workers.Values, sched
      ensures sched.Valid()
      ensures BoardOf(sched) == Cleared(b, {p})
    {
      ghost var done: set<string> := {};
      ClearedForNone(b, p);
      var todo := workers.Keys;
      while todo != {}
        invariant done + todo == workers.Keys && done !! todo
        invariant sched.Valid()
        invariant BoardOf(sched) == ClearedFor(b, done, p)
      {
        var w :| w in todo;
        ClearedForStep(b, done, w, p);
        ClearOne(sched, w, p);
        todo := todo - {w};
        done := done + {w};
      }
      assert done == b.schedules.Keys;
      ClearedForAll(b, p);
    }

    /** The loop over `ss.removeList`, whose IDs are `removed`, and the clearing of the list. */
    method ClearRemoved(sched: Schedule, ghost b: Board, ghost removed: set<string>)
      requires Valid() && SeparatorFree() && sched.Valid() && b == BoardOf(sched)
      requires removed == IdsIn(removeList)
      modifies `removeList, workers.Values, sched
      ensures SeparatorFree() && sched.Valid() && removeList == []
      ensures BoardOf(sched) == Cleared(b, removed)
    {
      hide ListedAtFree, BoardOf, Schedules, Schedule.Valid, Schedule.Pairs, Cleared, IdsIn;
      ghost var done: set<string> := {};
      ClearedNone(b);
      IdsInPrefix(removeList);
      for i := 0 to |removeList|
        invariant removeList == old(removeList)
        invariant done == IdsIn(removeList[..i])
        invariant sched.Valid()
        invariant BoardOf(sched) == Cleared(b, done)
      {
        var p := removeList[i];
        ClearedMore(b, done, p);
        ClearProblem(sched, p, Cleared(b, done));
        IdsInStep(removeList, i);
        done := done + {p};
      }
      removeList := [];
    }

    static lemma {:induction false} IdsInPrefix(list: seq<string>)
      ensures IdsIn(list[..0]) == {} && IdsIn(list[..|list|]) == IdsIn(list)
    {
      assert list[..|list|] == list;
    }

    static lemma {:induction false} IdsInStep(list: seq<string>, i: nat)
      requires i < |list|
      ensures IdsIn(list[..i + 1]) == IdsIn(list[..i]) + {list[i]}
    {
      assert list[..i + 1] == list[..i] + [list[i]];
    }

    /** `workers`, collected from the map and sorted by memory. */
    method SortedWorkers() returns (order: seq<string>)
      ensures Enumerated(order, Memories()) && forall w :: w in order ==> w in Memories()
      ensures forall i, j :: 0 <= i < j < |order| ==> Memories()[order[i]] >= Memories()[order[j]]
    {
      order := [];
      var todo := workers.Keys;
      while todo != {}
        invariant todo <= workers.Keys
        invariant |order| + |todo| == |workers|
        invariant forall w :: w in order <==> w in workers && w !in todo
      {
        var w :| w in todo;
        order := order + [w];
        todo := todo - {w};
      }
      var memories := map w | w in workers :: workers[w].memory;
      order := ByMemory(order, memories);
      assert memories == Memories() && memories.Keys == workers.Keys;
      assert |memories| == |memories.Keys| == |workers.Keys| == |workers|;
    }

    static method ByMemory(ids: seq<string>, memories: map<string, int>) returns (order: seq<string>)
      requires forall w :: w in ids <==> w in memories
      ensures |order| == |ids| && (set w | w in order) == memories.Keys && forall w :: w in order ==> w in memories
      ensures MostMemoryFirst(order, memories)
    {
      var key := w => if w in memories then memories[w] else 0;
      order := SortFunc(key, ids);
      PermutationKeeps(ids, order);
      KeyedByMemory(key, order, memories);
    }

    static lemma {:induction false} KeyedByMemory(key: string -> int, order: seq<string>, memories: map<string, int>)
      requires DescendingBy(key, order) && forall w :: w in memories ==> key(w) == memories[w]
      ensures MostMemoryFirst(order, memories)
    {
      forall i, j | 0 <= i < j < |order| && order[i] in memories && order[j] in memories
        ensures memories[order[i]] >= memories[order[j]]
      {
        assert key(order[i]) >= key(order[j]);
      }
    }

    /** Every listed problem starts the fill without instances. */
    method ResetCounts()
      modifies `instanceCounts
      ensures CountsMatch(instanceCounts, old(instanceCounts), Ids(problems), multiset{})
      ensures forall p :: p in problems ==> p.id in instanceCounts && instanceCounts[p.id] == 0
      ensures forall id :: id !in Ids(problems) ==> GetInstanceCount(id) == old(GetInstanceCount(id))
    {
      for i := 0 to |problems|
        invariant CountsMatch(instanceCounts, old(instanceCounts), Ids(problems[..i]), multiset{})
      {
        assert Ids(problems[..i + 1]) == Ids(problems[..i]) + {problems[i].id} by {
          assert problems[..i + 1] == problems[..i] + [problems[i]];
        }
        instanceCounts := instanceCounts[problems[i].id := 0];
      }
      assert problems[..|problems|] == problems;
    }

    /** `workersRemainingMem` before the loop. */
    method AllMemory() returns (memories: map<string, int>)
      ensures memories == Memories() && memories.Keys == workers.Keys
    {
      memories := map w | w in workers :: workers[w].memory;
    }

    /** The `for changeCount > 0` loop. */
    method Pack(sched: Schedule, order: seq<string>, ghost ms: map<string, int>,
                ghost b: Board) returns (ghost passes: nat)
      requires Valid() && SeparatorFree() && sched.Valid() && PositiveMemory(problems)
      requires ms == Memories() && Enumerated(order, ms) && forall w :: w in order ==> w in ms
      requires b == BoardOf(sched)
      modifies this`instanceCounts, workers.Values, sched
      ensures sched.Valid()
      ensures passes == 1 + MaxPasses(problems, order, ms, |order|)
      ensures BoardOf(sched) == LoopBoard(b, problems, order, ms, passes)
    {
      hide *;
      var workersRemainingMem := AllMemory();
      ghost var most := MaxPasses(problems, order, ms, |order|);
      FirstRemaining(problems, ms);
      LoopBoardStep(b, problems, order, ms, 0);
      var changeCount := 1;
      passes := 0;
      while changeCount > 0
        invariant sched.Valid()
        invariant BoardOf(sched) == LoopBoard(b, problems, order, ms, passes)
        invariant workersRemainingMem == RemainingAt(problems, ms, passes)
        invariant changeCount > 0 <==> passes <= most
        invariant passes <= most + 1
        decreases most + 1 - passes
      {
        SomeProductiveMeans(problems, order, ms, passes, |order|);
        LoopBoardStep(b, problems, order, ms, passes);
        workersRemainingMem, changeCount :=
          PackPass(sched, order, workersRemainingMem, ms, passes, LoopBoard(b, problems, order, ms, passes));
        passes := passes + 1;
      }
    }

    /** The sort of the problems and the reset of their counts. */
    method Prepare(sched: Schedule, ghost pre: SchedulerState)
      requires Valid() && SeparatorFree() && PositiveMemory(problems) && pre == State()
      modifies this`problems, this`instanceCounts, sched
      ensures SeparatorFree() && PositiveMemory(problems) && sched.Valid()
      ensures DescendingOrder(problems, pre.problems)
      ensures Zeroed(BoardOf(sched), BoardOfState(pre), Ids(problems))
    {
      assert pre.problems == problems && pre.instanceCounts == instanceCounts;
      assert pre.workers == map w | w in workers :: workers[w].Value();
      hide *;
      sched.Reset();
      SortProblems();
      ResetCounts();
      ZeroedNow(sched, pre);
    }

    /** The listed problems are put in packing order. */
    method SortProblems()
      requires SeparatorFree() && PositiveMemory(problems)
      modifies `problems
      ensures SeparatorFree() && PositiveMemory(problems) && DescendingOrder(problems, old(problems))
    {
      problems := SortFunc((p: Problem) => p.memory, problems);
      SortKeeps(problems, old(problems));
      hide DescendingBy, PositiveMemory;
    }

    lemma {:induction false} ZeroedNow(sched: Schedule, pre: SchedulerState)
      requires sched.Valid() && sched.Pairs() == map[]
      requires pre.workers == map w | w in workers :: workers[w].Value()
      requires CountsMatch(instanceCounts, pre.instanceCounts, Ids(problems), multiset{})
      ensures Zeroed(BoardOf(sched), BoardOfState(pre), Ids(problems))
    {
      assert BoardOf(sched).schedules == BoardOfState(pre).schedules;
    }

    /** The workers of `pre` are still registered, with their memory and CPU count. */
    ghost predicate Registered(pre: SchedulerState)
      reads `workers
    {
      && pre.workers.Keys == workers.Keys
      && forall w :: w in workers ==>
           pre.workers[w].cpuCount == workers[w].cpuCount && pre.workers[w].memory == workers[w].memory
    }

    lemma {:induction false} RegisteredNow(pre: SchedulerState)
      requires pre == State()
      ensures Registered(pre) && RemovedIds(pre) == IdsIn(removeList)
    {
    }

    lemma {:induction false} StateIs(pre: SchedulerState, final: Board, sched: Schedule)
      requires sched.Valid() && Registered(pre) && removeList == [] && final == BoardOf(sched)
      ensures final.schedules.Keys == pre.workers.Keys && State() == StateAfter(pre, problems, final)
      ensures Memories() == MemoriesOf(pre)
      ensures final.entries == sched.Pairs()
    {
      forall w | w in workers
        ensures workers[w].Value() == pre.workers[w].(schedule := final.schedules[w])
      {
      }
    }

    /** The ghost result is the number of passes that the loop makes. */
    method FillSchedule(sched: Schedule) returns (ghost passes: nat)
      requires Valid() && SeparatorFree() && PositiveMemory(problems)
      modifies this`problems, this`instanceCounts, this`removeList, workers.Values, sched
      ensures Valid() && SeparatorFree() && sched.Valid()
      ensures Filled(old(State()), State(), sched.Pairs())
      ensures PassesMade(problems, Memories(), passes)
    {
      hide *;
      ghost var pre, ms := State(), Memories();
      RegisteredNow(pre);
      Prepare(sched, pre);
      var order := SortedWorkers();
      ghost var b := BoardOf(sched);
      passes := Pack(sched, order, ms, b);
      ghost var loop := LoopBoard(b, problems, order, ms, passes);
      ClearRemoved(sched, loop, RemovedIds(pre));
      ghost var final := BoardOf(sched);
      StateIs(pre, final, sched);
      FillMeans(pre, problems, b, order, ms, passes, final, State());
    }

    // ---- Registration -------------------------------------------------------------------

    /** A new record replaces any old one under the ID; the records of the others stay. */
    method AddWorker(id: string, cpuCount: int, memory: int)
      requires Valid()
      modifies `workers
      ensures Valid()
      ensures State() == WithWorker(old(State()), id, cpuCount, memory)
      ensures workers.Keys == old(workers.Keys) + {id} && fresh(workers[id])
      ensures workers[id].memory == memory && workers[id].cpuCount == cpuCount && workers[id].schedule == map[]
      ensures forall w :: w in old(workers) && w != id ==> workers[w] == old(workers[w])
    {
      var worker := new Worker(id, cpuCount, memory);
      workers := workers[id := worker];
    }

    method RemoveWorker(id: string)
      requires Valid()
      modifies `workers
      ensures Valid()
      ensures State() == WithoutWorker(old(State()), id)
      ensures workers.Keys == old(workers.Keys) - {id}
      ensures forall w :: w in workers ==> workers[w] == old(workers[w])
    {
      workers := workers - {id};
      assert State().workers == old(State()).workers - {id};
    }

    method AddProblem(problem: Problem)
      modifies `problems, `instanceCounts
      ensures State() == WithProblem(old(State()), problem)
      ensures problems == old(problems) + if problem in old(problems) then [] else [problem]
      ensures GetInstanceCount(problem.id) == 0
      ensures forall id :: id != problem.id ==> GetInstanceCount(id) == old(GetInstanceCount(id))
    {
      instanceCounts := instanceCounts[problem.id := 0];
      if problem in problems {
        return;
      }
      problems := problems + [problem];
    }

    method RemoveProblem(id: string)
      modifies `problems, `instanceCounts, `removeList
      ensures State() == WithoutProblem(old(State()), id)
      ensures (forall p :: p in old(problems) ==> p.id != id) ==>
                unchanged(`problems) && unchanged(`instanceCounts) && unchanged(`removeList)
      ensures forall i :: 0 <= i < |old(problems)| && old(problems)[i].id == id &&
                          (forall j :: 0 <= j < i ==> old(problems)[j].id != id) ==>
                problems == old(problems)[..i] + old(problems)[i + 1..]
      ensures (exists p :: p in old(problems) && p.id == id) ==>
                removeList == old(removeList) + [id] && GetInstanceCount(id) == 0
      ensures forall other :: other != id ==> GetInstanceCount(other) == old(GetInstanceCount(other))
    {
      var index := 0;
      while index < |problems| && problems[index].id != id
        invariant 0 <= index <= |problems|
        invariant forall j :: 0 <= j < index ==> problems[j].id != id
      {
        index := index + 1;
      }
      FirstWithIs(problems, id, index);
      hide FirstWith;
      if index == |problems| {
        return;
      }
      instanceCounts := instanceCounts - {id};
      problems := problems[..index] + problems[index + 1..];
      removeList := removeList + [id];
    }

    function GetInstanceCount(id: string): (n: int)
      reads this, workers.Values
      ensures n == InstanceCount(State(), id)
    {
      if id in instanceCounts then instanceCounts[id] else 0
    }

    /** `GetWorkers` hands out copies: later changes of the scheduler do not reach them. */
    method GetWorkers() returns (copies: seq<(string, WorkerState)>)
      requires Valid()
      ensures |copies| == |workers|
      ensures forall w :: w in workers ==> (w, State().workers[w]) in copies
      ensures forall c :: c in copies ==>
                c.0 in workers && c.1.memory == workers[c.0].memory && c.1.cpuCount == workers[c.0].cpuCount &&
                  c.1.schedule == workers[c.0].schedule
      ensures forall i, j :: 0 <= i < j < |copies| ==> copies[i].0 != copies[j].0
    {
      copies := [];
      var todo := workers.Keys;
      while todo != {}
        invariant todo <= workers.Keys && |copies| + |todo| == |workers|
        invariant forall c :: c in copies ==>
                    c.0 in workers && c.0 !in todo && c.1.memory == workers[c.0].memory &&
                      c.1.cpuCount == workers[c.0].cpuCount && c.1.schedule == workers[c.0].schedule
        invariant forall w :: w in workers && w !in todo ==> (w, State().workers[w]) in copies
        invariant forall i, j :: 0 <= i < j < |copies| ==> copies[i].0 != copies[j].0
      {
        var w :| w in todo;
        copies := copies + [(w, WorkerState(workers[w].cpuCount, workers[w].memory, workers[w].schedule))];
        todo := todo - {w};
      }
    }
  }
}
