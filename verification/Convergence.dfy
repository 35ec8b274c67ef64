/** What holds in every run of the cluster. */
module Convergence {
  import opened Int32
  import opened Packing
  import opened Placement
  import opened Guarantees
  import opened Protocol
  import opened Schedules
  import opened Cluster

  // ---- Sessions and convergence -------------------------------------------------------

  /** Every call that a tick makes finds a channel: no send reports an unknown worker. */
  lemma {:induction false} EverySendFindsItsChannel(states: seq<Cluster>, steps: seq<Step>, i: nat)
    requires Run(states, steps) && i < |states|
    ensures states[i].sched.workers.Keys <= states[i].channels
    ensures forall k :: 0 <= k < |states[i].outbox| ==> states[i].outbox[k].worker in states[i].channels
  {
    RunKeeps(states, steps, i);
    forall w | w in states[i].sched.workers
      ensures w in states[i].channels
    {
      assert SessionOk(states[i], w);
    }
  }

  /**
   In every reachable state a live worker will run what the master has recorded, and does so once
   nothing is on its way.
   */
  lemma {:induction false} WorkersConverge(states: seq<Cluster>, steps: seq<Step>, i: nat, w: string)
    requires Run(states, steps) && i < |states|
    requires w in states[i].sessions && states[i].sessions[w].Live?
    ensures w in states[i].nodes && w in states[i].sched.workers
    ensures DeliverAll(states[i].nodes[w], Pending(states[i], w)) == states[i].sched.workers[w].schedule
    ensures Pending(states[i], w) == [] ==> states[i].nodes[w] == states[i].sched.workers[w].schedule
  {
    RunKeeps(states, steps, i);
    assert SessionOk(states[i], w);
  }

  /**
   Why a session may not start while the tick still holds calls for its worker: the record of the new
   session would agree with the worker only if all those calls together ask for nothing.
   */
  lemma {:induction false} RejoinDuringTick(s: Cluster, w: string, cpuCount: int, memory: int, s1: Cluster, s2: Cluster)
    requires Inv(s) && w !in s.sessions
    requires s1 == s.(channels := s.channels + {w}, sessions := s.sessions[w := Connecting(cpuCount, memory)],
                      wire := s.wire[w := []], nodes := s.nodes[w := map[]])
    requires RegisterStep(s1, w, s2)
    ensures Simulated(s2, w) <==> AsksNothing(ForWorker(s.outbox, w))
  {
    assert Pending(s2, w) == ForWorker(s.outbox, w);
    NothingDelivered(ForWorker(s.outbox, w));
  }

  /** The last message about each problem is a zero. */
  ghost predicate AsksNothing(msgs: seq<Msg>) {
    forall p :: Latest(msgs, p).Some? ==> Latest(msgs, p).value == 0
  }

  lemma {:induction false} NothingDelivered(msgs: seq<Msg>)
    ensures DeliverAll(map[], msgs) == map[] <==> AsksNothing(msgs)
  {
    forall p
      ensures p in DeliverAll(map[], msgs) <==> Latest(msgs, p).Some? && Latest(msgs, p).value != 0
    {
      LastMessageWins(map[], msgs, p);
    }
    if DeliverAll(map[], msgs) != map[] {
      var p :| p in DeliverAll(map[], msgs);
    }
  }

  // ---- Removal ------------------------------------------------------------------------

  /** Problem `id` is taken off the list and waits for the next fill. */
  ghost predicate Waiting(s: Cluster, id: string) {
    id !in Ids(s.sched.problems) && id in s.sched.removeList
  }

  /** No fill and no record knows problem `id` any more. */
  ghost predicate Gone(s: Cluster, id: string) {
    && id !in Ids(s.sched.problems) && id !in s.sched.removeList
    && (forall w :: w in s.sched.workers ==> id !in s.sched.workers[w].schedule)
  }

  ghost predicate Adds(step: Step, id: string) {
    step.Add? && step.p.id == id
  }

  ghost predicate Once(ps: seq<Problem>, id: string) {
    exists i :: 0 <= i < |ps| && ps[i].id == id && forall j :: 0 <= j < |ps| && j != i ==> ps[j].id != id
  }

  /** Removal by ID takes a problem off the list exactly if the ID was listed once. */
  lemma {:induction false} RemoveWaits(s: SchedulerState, id: string)
    requires id in Ids(s.problems)
    ensures id in WithoutProblem(s, id).removeList
    ensures id !in Ids(WithoutProblem(s, id).problems) <==> Once(s.problems, id)
  {
    ListedIsFound(s.problems, id);
    OthersAfterRemoval(s.problems, FirstWith(s.problems, id), id);
    hide Once, Ids;
  }

  lemma {:induction false} ListedIsFound(ps: seq<Problem>, id: string)
    requires id in Ids(ps)
    ensures FirstWith(ps, id) < |ps|
  {
    var p :| p in ps && p.id == id;
    var k :| 0 <= k < |ps| && ps[k] == p;
  }

  lemma {:induction false} OthersAfterRemoval(ps: seq<Problem>, i: nat, id: string)
    requires i < |ps| && ps[i].id == id
    ensures id !in Ids(ps[..i] + ps[i + 1..]) <==> Once(ps, id)
  {
    var rest := ps[..i] + ps[i + 1..];
    if k :| 0 <= k < |ps| && k != i && ps[k].id == id {
      assert rest[if k < i then k else k - 1] == ps[k];
      assert ps[k] in rest;
      assert !Once(ps, id);
    } else {
      forall q | q in rest
        ensures q.id != id
      {
        var k :| 0 <= k < |rest| && rest[k] == q;
        assert q == ps[if k < i then k else k + 1];
      }
    }
  }

  lemma {:induction false} OnceIsListed(ps: seq<Problem>, id: string)
    requires Once(ps, id)
    ensures id in Ids(ps)
  {
    var i :| 0 <= i < |ps| && ps[i].id == id;
    assert ps[i] in ps;
  }

  lemma {:induction false} WithoutKeepsOut(s: SchedulerState, other: string, id: string)
    requires id !in Ids(s.problems)
    ensures id !in Ids(WithoutProblem(s, other).problems)
    ensures id in WithoutProblem(s, other).removeList <==> id in s.removeList
  {
    var i := FirstWith(s.problems, other);
    if i < |s.problems| {
      IdsWithout(s.problems, i);
      assert s.problems[i] in s.problems;
    }
  }

  lemma {:induction false} AddKeepsOut(s: SchedulerState, p: Problem, id: string)
    requires id !in Ids(s.problems) && p.id != id
    ensures id !in Ids(WithProblem(s, p).problems)
  {
  }

  /** The next fill sends a zero for the problem to every registered worker, and ends the wait. */
  lemma {:induction false} NextWhileWaiting(s: Cluster, step: Step, s': Cluster, id: string)
    requires Inv(s) && Next(s, step, s') && Waiting(s, id) && !Adds(step, id)
    ensures !step.Fill? ==> Waiting(s', id)
    ensures step.Fill? ==> Gone(s', id) && forall w :: w in s.sched.workers ==> Entry(w, id, 0) in s'.outbox
  {
    match step
    case Add(p) => AddKeepsOut(s.sched, p, id);
    case Remove(other) => WithoutKeepsOut(s.sched, other, id);
    case Fill =>
      var entries :| Filled(s.sched, s'.sched, entries) && Enumerates(s'.outbox, entries);
      FillEndsWait(s, s', entries, id);
    case _ =>
  }

  lemma {:induction false} FillEndsWait(s: Cluster, s': Cluster, entries: map<(string, string), int32>, id: string)
    requires Inv(s) && Waiting(s, id)
    requires Filled(s.sched, s'.sched, entries) && Enumerates(s'.outbox, entries)
    ensures Gone(s', id)
    ensures forall w :: w in s.sched.workers ==> Entry(w, id, 0) in s'.outbox
  {
    hide Filled;
    FilledParts(s.sched, s'.sched, entries);
    SortKeeps(s'.sched.problems, s.sched.problems);
    forall w | w in s.sched.workers
      ensures Entry(w, id, 0) in s'.outbox
      ensures w in s'.sched.workers && id !in s'.sched.workers[w].schedule
    {
      InEntriesFor(s'.sched.problems, s.sched.workers, RemovedIds(s.sched), w, id);
      assert Entry((w, id).0, (w, id).1, entries[(w, id)]) in s'.outbox;
      assert RecordedIsKnown(s, w);
      RecordedAfterFill(s.sched, s'.sched, entries, w, id);
    }
  }

  /** Later fills carry no entry for the problem. */
  lemma {:induction false} NextWhenGone(s: Cluster, step: Step, s': Cluster, id: string)
    requires Inv(s) && Next(s, step, s') && Gone(s, id) && !Adds(step, id)
    ensures Gone(s', id)
    ensures step.Fill? ==> forall e :: e in s'.outbox ==> e.problem != id
  {
    match step
    case Add(p) => AddKeepsOut(s.sched, p, id);
    case Remove(other) => WithoutKeepsOut(s.sched, other, id);
    case Fill =>
      var entries :| Filled(s.sched, s'.sched, entries) && Enumerates(s'.outbox, entries);
      FillKeepsGone(s, s', entries, id);
    case _ =>
  }

  lemma {:induction false} FillKeepsGone(s: Cluster, s': Cluster, entries: map<(string, string), int32>, id: string)
    requires Inv(s) && Gone(s, id)
    requires Filled(s.sched, s'.sched, entries) && Enumerates(s'.outbox, entries)
    ensures Gone(s', id)
    ensures forall e :: e in s'.outbox ==> e.problem != id
  {
    hide Filled;
    FilledParts(s.sched, s'.sched, entries);
    var ps := s'.sched.problems;
    SortKeeps(ps, s.sched.problems);
    forall w | w in s.sched.workers
      ensures id !in Placed(ps, s.sched.workers[w].memory)
    {
      var m := s.sched.workers[w].memory;
      if id in Placed(ps, m) {
        TallyIsListed(ps, m, Passes(Mems(ps), m), 0, id);
        assert false;
      }
    }
    forall e | e in s'.outbox
      ensures e.problem != id
    {
      assert (e.worker, e.problem) in entries;
      InEntriesFor(ps, s.sched.workers, RemovedIds(s.sched), e.worker, e.problem);
    }
  }

  lemma {:induction false} WaitsUntilFill(states: seq<Cluster>, steps: seq<Step>, i: nat, j: nat, id: string)
    requires Run(states, steps) && i <= j <= |steps| && Waiting(states[i], id)
    requires forall k :: i <= k < j ==> !Adds(steps[k], id)
    ensures Waiting(states[j], id) || Gone(states[j], id)
    ensures (exists k :: i <= k < j && steps[k].Fill?) ==> Gone(states[j], id)
    ensures (forall k :: i <= k < j ==> !steps[k].Fill?) ==> Waiting(states[j], id)
    decreases j
  {
    if i == j {
    } else {
      var last := j - 1;
      WaitsUntilFill(states, steps, i, last, id);
      RunKeeps(states, steps, last);
      assert Next(states[last], steps[last], states[last + 1]);
      if Waiting(states[last], id) {
        NextWhileWaiting(states[last], steps[last], states[j], id);
      } else {
        NextWhenGone(states[last], steps[last], states[j], id);
      }
    }
  }

  /** The first fill after the removal of a problem tells every registered worker to stop it. */
  lemma {:induction false} RemovalIsSent(states: seq<Cluster>, steps: seq<Step>, i: nat, f: nat, id: string, w: string)
    requires Run(states, steps) && i < f < |steps|
    requires steps[i] == Remove(id) && Once(states[i].sched.problems, id)
    requires steps[f].Fill? && forall k :: i < k < f ==> !steps[k].Fill? && !Adds(steps[k], id)
    requires w in states[f].sched.workers
    ensures Entry(w, id, 0) in states[f + 1].outbox
  {
    assert Next(states[i], steps[i], states[i + 1]) && Next(states[f], steps[f], states[f + 1]);
    OnceIsListed(states[i].sched.problems, id);
    RemoveWaits(states[i].sched, id);
    WaitsUntilFill(states, steps, i + 1, f, id);
    RunKeeps(states, steps, f);
    NextWhileWaiting(states[f], steps[f], states[f + 1], id);
  }

  /** After that, no fill carries an entry for the problem unless it is added again. */
  lemma {:induction false} NoEntryAfterRemoval(states: seq<Cluster>, steps: seq<Step>, i: nat, f: nat, k: nat,
                                               id: string)
    requires Run(states, steps) && i < f < k < |steps|
    requires steps[i] == Remove(id) && Once(states[i].sched.problems, id)
    requires steps[f].Fill? && steps[k].Fill? && forall x :: i < x < k ==> !Adds(steps[x], id)
    ensures forall e :: e in states[k + 1].outbox ==> e.problem != id
  {
    assert Next(states[i], steps[i], states[i + 1]) && Next(states[k], steps[k], states[k + 1]);
    OnceIsListed(states[i].sched.problems, id);
    RemoveWaits(states[i].sched, id);
    WaitsUntilFill(states, steps, i + 1, k, id);
    RunKeeps(states, steps, k);
    NextWhenGone(states[k], steps[k], states[k + 1], id);
  }

  /** Once a fill has followed the removal of a problem, a worker with nothing on its way does not run the problem. */
  lemma {:induction false} RemovalIsFinal(states: seq<Cluster>, steps: seq<Step>, i: nat, f: nat, j: nat, id: string,
                                          w: string)
    requires Run(states, steps) && i < f < j <= |steps|
    requires steps[i] == Remove(id) && Once(states[i].sched.problems, id)
    requires steps[f].Fill? && forall k :: i < k < j ==> !Adds(steps[k], id)
    requires w in states[j].sessions && states[j].sessions[w].Live? && Pending(states[j], w) == []
    ensures w in states[j].nodes && id !in states[j].nodes[w]
  {
    assert Next(states[i], steps[i], states[i + 1]);
    OnceIsListed(states[i].sched.problems, id);
    RemoveWaits(states[i].sched, id);
    WaitsUntilFill(states, steps, i + 1, j, id);
    WorkersConverge(states, steps, j, w);
  }

  // ---- Ticks that cannot finish ---------------------------------------------------------

  /**
   The next send is to a worker that has a channel but whose session does not take messages. Here a
   worker does not reconnect while the tick holds calls for it; `Sessions` is about reconnects as well.
   */
  ghost predicate Stuck(s: Cluster) {
    s.outbox != [] && !Sendable(s, s.outbox[0].worker)
  }

  /** A send to the worker goes through: the worker is unknown and skipped, or its session is live. */
  ghost predicate Sendable(s: Cluster, w: string) {
    w in s.channels ==> w in s.sessions && s.sessions[w].Live?
  }

  /** In a tick the next send can be made exactly if it is not stuck. */
  lemma {:induction false} SendUnlessStuck(s: Cluster)
    requires Inv(s) && s.outbox != []
    ensures (exists s' :: SendStep(s, s')) <==> !Stuck(s)
  {
    var e, rest := s.outbox[0], s.outbox[1..];
    assert SessionOk(s, e.worker);
    if e.worker !in s.channels {
      assert SendStep(s, s.(outbox := rest));
    } else if e.worker in s.sessions && s.sessions[e.worker].Live? {
      var msgs := s.wire[e.worker] + [AdjustInstances(e.problem, e.count)];
      assert SendStep(s, s.(outbox := rest, wire := s.wire[e.worker := msgs]));
    }
  }

  /** Sends, one after the other, that finish the tick. */
  ghost predicate FinishedBy(s: Cluster, states: seq<Cluster>) {
    && states != [] && states[0] == s && states[|states| - 1].outbox == []
    && forall i :: 0 <= i < |states| - 1 ==> SendStep(states[i], states[i + 1])
  }

  /** A tick can be finished by its sends exactly if each of its calls can be sent as things are. */
  lemma {:induction false} TickCanFinish(s: Cluster)
    requires Inv(s)
    ensures (exists states :: FinishedBy(s, states)) <==>
            forall i :: 0 <= i < |s.outbox| ==> Sendable(s, s.outbox[i].worker)
    decreases |s.outbox|
  {
    if s.outbox == [] {
      assert FinishedBy(s, [s]);
    } else {
      hide Inv;
      if states :| FinishedBy(s, states) {
        FinishedSends(s, states);
      }
      if forall i :: 0 <= i < |s.outbox| ==> Sendable(s, s.outbox[i].worker) {
        assert !Stuck(s);
        SendUnlessStuck(s);
        var s' :| SendStep(s, s');
        SendKeeps(s, s');
        SentLeavesRest(s, s');
        TickCanFinish(s');
        var rest :| FinishedBy(s', rest);
        SendFirst(s, s', rest);
      }
    }
  }

  lemma {:induction false} FinishedSends(s: Cluster, states: seq<Cluster>)
    requires Inv(s) && s.outbox != [] && FinishedBy(s, states)
    ensures forall i :: 0 <= i < |s.outbox| ==> Sendable(s, s.outbox[i].worker)
    decreases |s.outbox|, 0
  {
    hide Inv;
    assert SendStep(states[0], states[1]);
    var s', rest := states[1], states[1..];
    SendKeeps(s, s');
    SentLeavesRest(s, s');
    SendUnlessStuck(s);
    assert FinishedBy(s', rest);
    if s'.outbox != [] { FinishedSends(s', rest); }
    forall i | 0 <= i < |s.outbox|
      ensures Sendable(s, s.outbox[i].worker)
    {
      if i > 0 { assert Sendable(s', s'.outbox[i - 1].worker); }
    }
  }

  lemma {:induction false} SentLeavesRest(s: Cluster, s': Cluster)
    requires SendStep(s, s')
    ensures s'.outbox == s.outbox[1..]
    ensures forall w :: Sendable(s', w) <==> Sendable(s, w)
  {
  }

  lemma {:induction false} SendFirst(s: Cluster, s': Cluster, rest: seq<Cluster>)
    requires SendStep(s, s') && FinishedBy(s', rest)
    ensures FinishedBy(s, [s] + rest)
  {
    var states := [s] + rest;
    forall i | 0 <= i < |states| - 1
      ensures SendStep(states[i], states[i + 1])
    {
      if i > 0 { assert states[i] == rest[i - 1] && states[i + 1] == rest[i]; }
    }
  }

  /** Short of a reconnect, no step frees the tick. */
  lemma {:induction false} NextWhenStuck(s: Cluster, step: Step, s': Cluster)
    requires Inv(s) && Next(s, step, s') && Stuck(s)
    ensures !step.Fill? && !step.Send?
    ensures s'.outbox == s.outbox && Stuck(s')
  {
    var w := s.outbox[0].worker;
    assert SessionOk(s, w);
    assert ForWorker(s.outbox, w) != [];
  }

  /** So a tick with a send to a worker that has left stays as it is unless the worker reconnects during the tick. */
  lemma {:induction false} StuckWithoutReconnect(states: seq<Cluster>, steps: seq<Step>, i: nat, j: nat)
    requires Run(states, steps) && i <= j < |states| && Stuck(states[i])
    ensures Stuck(states[j]) && states[j].outbox == states[i].outbox
    ensures forall k :: i <= k < j ==> !steps[k].Fill? && !steps[k].Send?
    decreases j
  {
    hide Stuck, Inv, Next;
    if i == j {
    } else {
      var last := j - 1;
      StuckWithoutReconnect(states, steps, i, last);
      RunKeeps(states, steps, last);
      NextWhenStuck(states[last], steps[last], states[j]);
    }
  }

  /** It happens: a problem is removed, and the worker leaves between the fill and the send that tells it. */
  lemma {:induction false} StuckIsReached(w: string, memory: int, p: Problem)
    returns (states: seq<Cluster>, steps: seq<Step>)
    ensures Run(states, steps) && Stuck(states[|steps|])
  {
    hide *;
    var s: Cluster;
    states, steps, s := JoinRun(w, memory);
    var removed := AddThenRemove(s, p);
    states, steps := Extend(states, steps, Add(p), s.(sched := WithProblem(s.sched, p)));
    states, steps := Extend(states, steps, Remove(p.id), removed);
    var filled := removed.(sched := removed.sched.(removeList := []), outbox := [Entry(w, p.id, 0)]);
    ZeroFillStep(removed, filled, w, p.id);
    states, steps := Extend(states, steps, Fill, filled);
    var left := LeaveStep(filled, w);
    states, steps := Extend(states, steps, Break(w), left);
  }

  lemma {:induction false} Extend(states: seq<Cluster>, steps: seq<Step>, step: Step, s': Cluster)
    returns (longer: seq<Cluster>, more: seq<Step>)
    requires Run(states, steps) && Next(states[|steps|], step, s')
    ensures Run(longer, more) && |longer| == |more| + 1 && longer[|more|] == s'
  {
    hide Init, Next;
    longer, more := states + [s'], steps + [step];
    forall i | 0 <= i < |more|
      ensures Next(longer[i], more[i], longer[i + 1])
    {
      if i < |steps| {
        assert longer[i] == states[i] && longer[i + 1] == states[i + 1] && more[i] == steps[i];
      }
    }
  }

  /** One worker joins an empty cluster. */
  lemma {:induction false} JoinRun(w: string, memory: int)
    returns (states: seq<Cluster>, steps: seq<Step>, s: Cluster)
    ensures Run(states, steps) && |states| == |steps| + 1 && states[|steps|] == s
    ensures s.sched.problems == [] && s.sched.workers.Keys == {w} && s.sched.removeList == []
    ensures s.sched.workers[w].schedule == map[] && s.outbox == []
    ensures w in s.sessions && s.sessions[w].Live? && w in s.channels
  {
    var none := Cluster(SchedulerState([], map[], [], map[]), {}, map[], [], map[], map[]);
    var connected := none.(channels := none.channels + {w}, sessions := none.sessions[w := Connecting(1, memory)],
                           wire := none.wire[w := []], nodes := none.nodes[w := map[]]);
    s := connected.(sched := WithWorker(none.sched, w, 1, memory), sessions := connected.sessions[w := Live]);
    assert Init(none) && ConnectStep(none, w, 1, memory, connected) && RegisterStep(connected, w, s);
    states, steps := [none, connected, s], [Connect(w, 1, memory), Register(w)];
  }

  lemma {:induction false} AddThenRemove(s: Cluster, p: Problem) returns (removed: Cluster)
    requires s.sched.problems == [] && s.sched.removeList == []
    ensures Next(s, Add(p), s.(sched := WithProblem(s.sched, p)))
    ensures Next(s.(sched := WithProblem(s.sched, p)), Remove(p.id), removed)
    ensures removed == s.(sched := removed.sched) && removed.sched.workers == s.sched.workers
    ensures removed.sched.problems == [] && removed.sched.removeList == [p.id]
  {
    var added := s.(sched := WithProblem(s.sched, p));
    removed := added.(sched := WithoutProblem(added.sched, p.id));
    FirstWithIs([p], p.id, 0);
    assert [p][..0] + [p][1..] == [];
  }

  lemma {:induction false} LeaveStep(s: Cluster, w: string) returns (left: Cluster)
    requires w in s.sessions && s.sessions[w].Live? && w in s.channels && s.outbox != [] && s.outbox[0].worker == w
    ensures Next(s, Break(w), left) && Stuck(left)
  {
    left := s.(sessions := s.sessions[w := Closing], wire := s.wire - {w}, nodes := s.nodes - {w});
  }

  lemma {:induction false} ZeroFillStep(s: Cluster, filled: Cluster, w: string, id: string)
    requires s.sched.problems == [] && s.sched.workers.Keys == {w} && s.sched.removeList == [id]
    requires s.sched.workers[w].schedule == map[] && s.outbox == []
    requires filled == s.(sched := s.sched.(removeList := []), outbox := [Entry(w, id, 0)])
    ensures Next(s, Fill, filled)
  {
    hide Filled, Enumerates, CountsFit, PositiveMemory;
    ZeroIsFilled(s.sched, filled.sched, w, id);
  }

  /** Without problems a fill carries the removal zeros only. */
  lemma {:induction false} ZeroIsFilled(pre: SchedulerState, post: SchedulerState, w: string, id: string)
    requires pre.problems == [] && pre.workers.Keys == {w} && pre.removeList == [id] && pre.workers[w].schedule == map[]
    requires post == pre.(removeList := [])
    ensures Filled(pre, post, map[(w, id) := 0]) && Enumerates([Entry(w, id, 0)], map[(w, id) := 0])
    ensures PositiveMemory([]) && CountsFit([], pre.workers[w].memory)
  {
    hide *;
    ZeroEntries(pre.workers, w, id);
    ZeroRecords(pre, w, id);
    ZeroEnumerated(w, id);
    NothingFits(pre.workers[w].memory);
    NothingListed(pre);
    IsFilled(pre, post, map[(w, id) := 0]);
  }

  lemma {:induction false} IsFilled(pre: SchedulerState, post: SchedulerState, entries: map<(string, string), int32>)
    requires DescendingOrder(post.problems, pre.problems) && PositiveMemory(post.problems)
    requires post.workers == RecordedWorkers(pre, post.problems) && post.removeList == []
    requires CountsMatch(post.instanceCounts, pre.instanceCounts, Ids(post.problems),
                         Total(PackedTallies(post.problems, pre.workers)))
    requires entries == EntriesFor(post.problems, pre.workers, RemovedIds(pre))
    ensures Filled(pre, post, entries)
  {
    hide DescendingOrder, PositiveMemory, CountsMatch, EntriesFor, RecordedWorkers;
  }

  lemma {:induction false} NothingFits(m: int)
    ensures PositiveMemory([]) && CountsFit([], m)
  {
    NothingPlaced(m);
    hide Placed;
  }

  lemma {:induction false} NothingListed(pre: SchedulerState)
    ensures DescendingOrder([], []) && PositiveMemory([])
    ensures CountsMatch(pre.instanceCounts, pre.instanceCounts, Ids([]), Total(PackedTallies([], pre.workers)))
  {
    NoTallies(pre.workers);
    hide Total, PackedTallies;
    assert Ids([]) == {};
  }

  lemma {:induction false} ZeroEnumerated(w: string, id: string)
    ensures Enumerates([Entry(w, id, 0)], map[(w, id) := 0])
  {
  }

  lemma {:induction false} ZeroEntries(workers: map<string, WorkerState>, w: string, id: string)
    requires workers.Keys == {w}
    ensures EntriesFor([], workers, {id}) == map[(w, id) := 0]
  {
    forall v, p
      ensures (v, p) in EntriesFor([], workers, {id}) <==> v == w && p == id
      ensures (v, p) in EntriesFor([], workers, {id}) ==> EntriesFor([], workers, {id})[(v, p)] == 0
    {
      InEntriesFor([], workers, {id}, v, p);
      if v in workers { NothingPlaced(workers[v].memory); }
    }
    SamePairs(EntriesFor([], workers, {id}), map[(w, id) := 0]);
  }

  lemma {:induction false} ZeroRecords(pre: SchedulerState, w: string, id: string)
    requires pre.workers.Keys == {w} && pre.removeList == [id] && pre.workers[w].schedule == map[]
    ensures RemovedIds(pre) == {id} && RecordedWorkers(pre, []) == pre.workers
  {
    NothingPlaced(pre.workers[w].memory);
    RecordsOf(pre, [], w);
    assert Recorded([], pre.workers[w].memory, map[], {id}) == map[];
  }

  lemma {:induction false} NoTallies(workers: map<string, WorkerState>)
    ensures Total(PackedTallies([], workers)) == multiset{}
  {
    forall w | w in workers
      ensures PackedTallies([], workers)[w] == multiset{}
    {
      NothingPlaced(workers[w].memory);
    }
    TotalOfNothing(PackedTallies([], workers));
  }

  lemma {:induction false} NothingPlaced(m: int)
    ensures Placed([], m) == multiset{}
  {
    if id :| id in Placed([], m) {
      PlacedInFirstPass([], m, id);
      assert false;
    }
  }
}
