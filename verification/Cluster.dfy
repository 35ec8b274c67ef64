/**
 The master, its sessions and its workers as a state machine. A tick fills the schedule in one
 step and then makes the calls of `Apply` one by one; joins, departures, problem changes and the
 workers' handling of messages may come in between.
 */
module Cluster {
  import opened Int32
  import opened Packing
  import opened Placement
  import opened Guarantees
  import opened Protocol
  import opened Schedules

  /** A session between the hello message and the removal of the worker from the scheduler. */
  datatype Phase =
    | Connecting(cpuCount: int, memory: int)  // channel registered, `AddWorker` not yet called
    | Live                                    // messages flow
    | Closing                                 // stream broken, `RemoveWorker` not yet called

  datatype Cluster = Cluster(
    sched: SchedulerState,
    channels: set<string>,                    // the keys of `channs`, which never shrink
    sessions: map<string, Phase>,
    outbox: seq<Entry>,                       // calls that `Apply` has still to make in this tick
    wire: map<string, seq<Msg>>,              // messages sent to a worker and not yet handled
    nodes: map<string, map<string, int>>)     // container counts on the workers

  datatype Step =
    | Connect(w: string, cpuCount: int, memory: int)
    | Register(w: string)
    | Break(w: string)
    | Unregister(w: string)
    | Add(p: Problem)
    | Remove(id: string)
    | Fill
    | Send
    | Handle(w: string)

  ghost predicate Init(s: Cluster) {
    s == Cluster(SchedulerState([], map[], [], map[]), {}, map[], [], map[], map[])
  }

  /** The messages on their way to `w`, including those of this tick that are not sent yet. */
  ghost function Pending(s: Cluster, w: string): seq<Msg> {
    (if w in s.wire then s.wire[w] else []) + ForWorker(s.outbox, w)
  }

  // ---- Steps --------------------------------------------------------------------------

  /** No second session under an ID in use, and none while the tick still holds calls for an earlier one. */
  ghost predicate ConnectStep(s: Cluster, w: string, cpuCount: int, memory: int, s': Cluster) {
    && w !in s.sessions && ForWorker(s.outbox, w) == []
    && s' == s.(channels := s.channels + {w}, sessions := s.sessions[w := Connecting(cpuCount, memory)],
                wire := s.wire[w := []], nodes := s.nodes[w := map[]])
  }

  ghost predicate RegisterStep(s: Cluster, w: string, s': Cluster) {
    && w in s.sessions && s.sessions[w].Connecting?
    && s' == s.(sched := WithWorker(s.sched, w, s.sessions[w].cpuCount, s.sessions[w].memory),
                sessions := s.sessions[w := Live])
  }

  ghost predicate BreakStep(s: Cluster, w: string, s': Cluster) {
    && w in s.sessions && s.sessions[w].Live?
    && s' == s.(sessions := s.sessions[w := Closing], wire := s.wire - {w}, nodes := s.nodes - {w})
  }

  ghost predicate UnregisterStep(s: Cluster, w: string, s': Cluster) {
    && w in s.sessions && s.sessions[w].Closing?
    && s' == s.(sched := WithoutWorker(s.sched, w), sessions := s.sessions - {w})
  }

  ghost predicate FillStep(s: Cluster, s': Cluster) {
    && s.outbox == []
    && (exists entries :: Filled(s.sched, s'.sched, entries) && Enumerates(s'.outbox, entries))
    && (forall w :: w in s.sched.workers ==> CountsFit(s'.sched.problems, s.sched.workers[w].memory))
    && s' == s.(sched := s'.sched, outbox := s'.outbox)
  }

  /** The next call of `Apply`: unknown workers are skipped, a live one takes the message. */
  ghost predicate SendStep(s: Cluster, s': Cluster) {
    && s.outbox != []
    && var e := s.outbox[0];
       if e.worker !in s.channels then s' == s.(outbox := s.outbox[1..])
       else
         && e.worker in s.sessions && s.sessions[e.worker].Live? && e.worker in s.wire
         && s' == s.(outbox := s.outbox[1..],
                     wire := s.wire[e.worker := s.wire[e.worker] + [AdjustInstances(e.problem, e.count)]])
  }

  ghost predicate HandleStep(s: Cluster, w: string, s': Cluster) {
    && w in s.wire && w in s.nodes && s.wire[w] != []
    && s' == s.(wire := s.wire[w := s.wire[w][1..]], nodes := s.nodes[w := Deliver(s.nodes[w], s.wire[w][0])])
  }

  ghost predicate Next(s: Cluster, step: Step, s': Cluster) {
    match step
    case Connect(w, cpuCount, memory) => ConnectStep(s, w, cpuCount, memory, s')
    case Register(w) => RegisterStep(s, w, s')
    case Break(w) => BreakStep(s, w, s')
    case Unregister(w) => UnregisterStep(s, w, s')
    case Add(p) => s' == s.(sched := WithProblem(s.sched, p))
    case Remove(id) => s' == s.(sched := WithoutProblem(s.sched, id))
    case Fill => FillStep(s, s')
    case Send => SendStep(s, s')
    case Handle(w) => HandleStep(s, w, s')
  }

  ghost predicate Run(states: seq<Cluster>, steps: seq<Step>) {
    && |states| == |steps| + 1
    && Init(states[0])
    && (forall i :: 0 <= i < |steps| ==> Next(states[i], steps[i], states[i + 1]))
  }

  // ---- The invariant ------------------------------------------------------------------

  /** What a worker runs once everything on its way has been handled is what the master has recorded. */
  ghost predicate Simulated(s: Cluster, w: string) {
    && w in s.sched.workers && w in s.wire && w in s.nodes
    && DeliverAll(s.nodes[w], Pending(s, w)) == s.sched.workers[w].schedule
  }

  ghost predicate SessionOk(s: Cluster, w: string) {
    if w !in s.sessions then w !in s.sched.workers && w !in s.wire && w !in s.nodes
    else
      && w in s.channels
      && match s.sessions[w]
         case Connecting(_, _) =>
           && w !in s.sched.workers
           && w in s.wire && w in s.nodes && Pending(s, w) == [] && s.nodes[w] == map[]
         case Live => Simulated(s, w)
         case Closing => w in s.sched.workers && w !in s.wire && w !in s.nodes
  }

  /** Every recorded problem is scheduled or about to be removed. */
  ghost predicate RecordedIsKnown(s: Cluster, w: string) {
    w in s.sched.workers ==>
      forall id :: id in s.sched.workers[w].schedule ==> id in Ids(s.sched.problems) || id in s.sched.removeList
  }

  ghost predicate OutboxKnown(s: Cluster) {
    forall i :: 0 <= i < |s.outbox| ==> s.outbox[i].worker in s.channels
  }

  ghost predicate Inv(s: Cluster) {
    && (forall w: string :: SessionOk(s, w))
    && (forall w: string :: RecordedIsKnown(s, w))
    && OutboxKnown(s)
  }

  /** A step that does not touch what concerns worker `w`. */
  ghost predicate SameFor(s: Cluster, s': Cluster, w: string) {
    && (w in s.sched.workers <==> w in s'.sched.workers)
    && (w in s.sched.workers ==> s.sched.workers[w] == s'.sched.workers[w])
    && (w in s.sessions <==> w in s'.sessions)
    && (w in s.sessions ==> s.sessions[w] == s'.sessions[w])
    && (w in s.channels ==> w in s'.channels)
    && (w in s.wire <==> w in s'.wire)
    && (w in s.nodes <==> w in s'.nodes)
    && (w in s.nodes ==> s.nodes[w] == s'.nodes[w])
    && Pending(s, w) == Pending(s', w)
  }

  lemma {:induction false} SameKeepsSession(s: Cluster, s': Cluster, w: string)
    requires SessionOk(s, w) && SameFor(s, s', w)
    ensures SessionOk(s', w)
  {
  }

  lemma {:induction false} ConnectKeeps(s: Cluster, w: string, cpuCount: int, memory: int, s': Cluster)
    requires Inv(s) && ConnectStep(s, w, cpuCount, memory, s')
    ensures Inv(s')
  {
    forall v: string
      ensures SessionOk(s', v) && RecordedIsKnown(s', v)
    {
      assert SessionOk(s, v) && RecordedIsKnown(s, v);
      if v != w { SameKeepsSession(s, s', v); }
    }
  }

  lemma {:induction false} RegisterKeeps(s: Cluster, w: string, s': Cluster)
    requires Inv(s) && RegisterStep(s, w, s')
    ensures Inv(s')
  {
    forall v: string
      ensures SessionOk(s', v) && RecordedIsKnown(s', v)
    {
      assert SessionOk(s, v) && RecordedIsKnown(s, v);
      if v != w { SameKeepsSession(s, s', v); }
    }
  }

  lemma {:induction false} BreakKeeps(s: Cluster, w: string, s': Cluster)
    requires Inv(s) && BreakStep(s, w, s')
    ensures Inv(s')
  {
    forall v: string
      ensures SessionOk(s', v) && RecordedIsKnown(s', v)
    {
      assert SessionOk(s, v) && RecordedIsKnown(s, v);
      if v != w { SameKeepsSession(s, s', v); }
    }
  }

  lemma {:induction false} UnregisterKeeps(s: Cluster, w: string, s': Cluster)
    requires Inv(s) && UnregisterStep(s, w, s')
    ensures Inv(s')
  {
    forall v: string
      ensures SessionOk(s', v) && RecordedIsKnown(s', v)
    {
      assert SessionOk(s, v) && RecordedIsKnown(s, v);
      if v != w { SameKeepsSession(s, s', v); }
    }
  }

  lemma {:induction false} AddKeeps(s: Cluster, p: Problem, s': Cluster)
    requires Inv(s) && s' == s.(sched := WithProblem(s.sched, p))
    ensures Inv(s')
  {
    assert forall q :: q in s.sched.problems ==> q in s'.sched.problems;
    assert Ids(s.sched.problems) <= Ids(s'.sched.problems);
    forall v: string
      ensures SessionOk(s', v) && RecordedIsKnown(s', v)
    {
      assert SessionOk(s, v) && RecordedIsKnown(s, v);
      SameKeepsSession(s, s', v);
    }
  }

  lemma {:induction false} IdsWithout(ps: seq<Problem>, i: nat)
    requires i < |ps|
    ensures Ids(ps) == Ids(ps[..i] + ps[i + 1..]) + {ps[i].id}
  {
    var qs := ps[..i] + ps[i + 1..];
    assert ps == ps[..i] + [ps[i]] + ps[i + 1..];
    assert forall p :: p in ps <==> p in qs || p == ps[i];
  }

  lemma {:induction false} RemoveKeeps(s: Cluster, id: string, s': Cluster)
    requires Inv(s) && s' == s.(sched := WithoutProblem(s.sched, id))
    ensures Inv(s')
  {
    var i := FirstWith(s.sched.problems, id);
    if i < |s.sched.problems| { IdsWithout(s.sched.problems, i); }
    forall v: string
      ensures SessionOk(s', v) && RecordedIsKnown(s', v)
    {
      assert SessionOk(s, v) && RecordedIsKnown(s, v);
      SameKeepsSession(s, s', v);
    }
  }

  lemma {:induction false} SendKeeps(s: Cluster, s': Cluster)
    requires Inv(s) && SendStep(s, s')
    ensures Inv(s')
  {
    var e, rest := s.outbox[0], s.outbox[1..];
    assert s.outbox == [e] + rest;
    forall v: string
      ensures SessionOk(s', v) && RecordedIsKnown(s', v)
    {
      assert SessionOk(s, v) && RecordedIsKnown(s, v);
      assert ForWorker(s.outbox, v) ==
        (if e.worker == v then [AdjustInstances(e.problem, e.count)] else []) + ForWorker(rest, v);
      assert Pending(s, v) == Pending(s', v);
      SameKeepsSession(s, s', v);
    }
  }

  lemma {:induction false} HandleKeeps(s: Cluster, w: string, s': Cluster)
    requires Inv(s) && HandleStep(s, w, s')
    ensures Inv(s')
  {
    forall v: string
      ensures SessionOk(s', v) && RecordedIsKnown(s', v)
    {
      assert SessionOk(s, v) && RecordedIsKnown(s, v);
      if v != w {
        SameKeepsSession(s, s', v);
      } else {
        assert Pending(s, w) == [s.wire[w][0]] + Pending(s', w);
        assert Pending(s, w)[1..] == Pending(s', w);
      }
    }
  }

  /** The batch of a fill turns the old record of a worker into the new one. */
  lemma {:induction false} FillDelivers(pre: SchedulerState, post: SchedulerState,
                                        entries: map<(string, string), int32>, calls: seq<Entry>, w: string)
    requires Filled(pre, post, entries) && Enumerates(calls, entries)
    requires w in pre.workers && CountsFit(post.problems, pre.workers[w].memory)
    ensures w in post.workers
    ensures DeliverAll(pre.workers[w].schedule, ForWorker(calls, w)) == post.workers[w].schedule
  {
    hide Filled, Enumerates, Recorded, DeliverAll, Latest, ForWorker;
    FilledParts(pre, post, entries);
    RecordsOf(pre, post.problems, w);
    var s0 := pre.workers[w].schedule;
    var record := Recorded(post.problems, pre.workers[w].memory, s0, RemovedIds(pre));
    var delivered := DeliverAll(s0, ForWorker(calls, w));
    forall p
      ensures p in delivered <==> p in record
      ensures p in delivered ==> delivered[p] == record[p]
    {
      LastMessageWins(s0, ForWorker(calls, w), p);
      BatchOf(calls, entries, w, p);
      EntryOrRecord(pre, post.problems, entries, w, p);
    }
  }

  lemma {:induction false} RecordsOf(pre: SchedulerState, ps: seq<Problem>, w: string)
    requires PositiveMemory(ps) && w in pre.workers
    ensures w in RecordedWorkers(pre, ps)
    ensures RecordedWorkers(pre, ps)[w] ==
            pre.workers[w].(schedule := Recorded(ps, pre.workers[w].memory, pre.workers[w].schedule, RemovedIds(pre)))
  {
  }

  /** A record holds what the entries say, and what it held before for problems without an entry. */
  lemma {:induction false} EntryOrRecord(pre: SchedulerState, ps: seq<Problem>, entries: map<(string, string), int32>,
                                         w: string, p: string)
    requires PositiveMemory(ps) && w in pre.workers && CountsFit(ps, pre.workers[w].memory)
    requires entries == EntriesFor(ps, pre.workers, RemovedIds(pre))
    ensures var s0 := pre.workers[w].schedule;
            var record := Recorded(ps, pre.workers[w].memory, s0, RemovedIds(pre));
            if (w, p) in entries then
              && entries[(w, p)] >= 0
              && (p in record <==> entries[(w, p)] != 0)
              && (p in record ==> record[p] == entries[(w, p)])
            else
              && (p in record <==> p in s0)
              && (p in record ==> record[p] == s0[p])
  {
    InEntriesFor(ps, pre.workers, RemovedIds(pre), w, p);
    hide EntriesFor;
  }

  lemma {:induction false} RecordedAfterFill(pre: SchedulerState, post: SchedulerState,
                                             entries: map<(string, string), int32>, w: string, id: string)
    requires Filled(pre, post, entries) && w in pre.workers
    requires id in pre.workers[w].schedule ==> id in Ids(pre.problems) || id in pre.removeList
    ensures w in post.workers && post.workers[w].memory == pre.workers[w].memory
    ensures id in post.workers[w].schedule ==> id in Ids(post.problems)
    ensures id in pre.removeList ==> id !in post.workers[w].schedule
  {
    hide Filled;
    FilledParts(pre, post, entries);
    SortKeeps(post.problems, pre.problems);
    var m := pre.workers[w].memory;
    if id in Placed(post.problems, m) {
      TallyIsListed(post.problems, m, Passes(Mems(post.problems), m), 0, id);
    }
  }

  lemma {:induction false} FillKeeps(s: Cluster, s': Cluster)
    requires Inv(s) && FillStep(s, s')
    ensures Inv(s')
  {
    var entries :| Filled(s.sched, s'.sched, entries) && Enumerates(s'.outbox, entries);
    hide Filled, Enumerates;
    FilledParts(s.sched, s'.sched, entries);
    forall v: string
      ensures SessionOk(s', v) && RecordedIsKnown(s', v)
    {
      assert SessionOk(s, v) && RecordedIsKnown(s, v);
      FillKeepsSession(s, s', entries, v);
    }
    FillKeepsOutbox(s, s', entries);
  }

  lemma {:induction false} FillKeepsOutbox(s: Cluster, s': Cluster, entries: map<(string, string), int32>)
    requires (forall w: string :: SessionOk(s, w)) && s'.channels == s.channels
    requires Filled(s.sched, s'.sched, entries) && Enumerates(s'.outbox, entries)
    ensures OutboxKnown(s')
  {
    hide Filled;
    FilledParts(s.sched, s'.sched, entries);
    forall i | 0 <= i < |s'.outbox|
      ensures s'.outbox[i].worker in s'.channels
    {
      var e := s'.outbox[i];
      assert (e.worker, e.problem) in entries;
      InEntriesFor(s'.sched.problems, s.sched.workers, RemovedIds(s.sched), e.worker, e.problem);
      assert SessionOk(s, e.worker);
    }
  }

  lemma {:induction false} FillKeepsSession(s: Cluster, s': Cluster, entries: map<(string, string), int32>, v: string)
    requires SessionOk(s, v) && RecordedIsKnown(s, v) && s.outbox == []
    requires Filled(s.sched, s'.sched, entries) && Enumerates(s'.outbox, entries)
    requires forall w :: w in s.sched.workers ==> CountsFit(s'.sched.problems, s.sched.workers[w].memory)
    requires s' == s.(sched := s'.sched, outbox := s'.outbox)
    ensures SessionOk(s', v) && RecordedIsKnown(s', v)
  {
    hide Filled, Enumerates, Pending;
    FilledParts(s.sched, s'.sched, entries);
    if v in s.sched.workers {
      FillDelivers(s.sched, s'.sched, entries, s'.outbox, v);
      FillKeepsRecords(s, s', entries, v);
      PendingAfterFill(s, s', v);
    } else {
      NoCallsFor(s, s', entries, v);
      PendingAfterFill(s, s', v);
    }
  }

  lemma {:induction false} FillKeepsRecords(s: Cluster, s': Cluster, entries: map<(string, string), int32>, v: string)
    requires RecordedIsKnown(s, v) && v in s.sched.workers && Filled(s.sched, s'.sched, entries)
    ensures v in s'.sched.workers && RecordedIsKnown(s', v)
  {
    hide Filled;
    FilledParts(s.sched, s'.sched, entries);
    forall id | id in s'.sched.workers[v].schedule
      ensures id in Ids(s'.sched.problems)
    {
      RecordedAfterFill(s.sched, s'.sched, entries, v, id);
    }
  }

  /** A fill adds its calls for a worker to what was on its way before. */
  lemma {:induction false} PendingAfterFill(s: Cluster, s': Cluster, v: string)
    requires s.outbox == [] && s'.wire == s.wire
    ensures v in s.wire ==> Pending(s', v) == Pending(s, v) + ForWorker(s'.outbox, v)
    ensures ForWorker(s'.outbox, v) == [] ==> Pending(s', v) == Pending(s, v)
    ensures forall node :: DeliverAll(node, Pending(s, v) + ForWorker(s'.outbox, v)) ==
                           DeliverAll(DeliverAll(node, Pending(s, v)), ForWorker(s'.outbox, v))
  {
    forall node
      ensures DeliverAll(node, Pending(s, v) + ForWorker(s'.outbox, v)) ==
              DeliverAll(DeliverAll(node, Pending(s, v)), ForWorker(s'.outbox, v))
    {
      DeliverAppend(node, Pending(s, v), ForWorker(s'.outbox, v));
    }
  }

  lemma {:induction false} NoCallsFor(s: Cluster, s': Cluster, entries: map<(string, string), int32>, v: string)
    requires v !in s.sched.workers
    requires Filled(s.sched, s'.sched, entries) && Enumerates(s'.outbox, entries)
    ensures ForWorker(s'.outbox, v) == []
  {
    hide Filled;
    FilledParts(s.sched, s'.sched, entries);
    if ForWorker(s'.outbox, v) != [] {
      var m := ForWorker(s'.outbox, v)[0];
      InForWorker(s'.outbox, v, m);
      InEntriesFor(s'.sched.problems, s.sched.workers, RemovedIds(s.sched), v, m.problem);
      assert false;
    }
  }

  /** Every step keeps the invariant. */
  lemma {:induction false} NextKeeps(s: Cluster, step: Step, s': Cluster)
    requires Inv(s) && Next(s, step, s')
    ensures Inv(s')
  {
    hide Inv, ConnectStep, RegisterStep, BreakStep, UnregisterStep, FillStep, SendStep, HandleStep;
    match step
    case Connect(w, cpuCount, memory) => ConnectKeeps(s, w, cpuCount, memory, s');
    case Register(w) => RegisterKeeps(s, w, s');
    case Break(w) => BreakKeeps(s, w, s');
    case Unregister(w) => UnregisterKeeps(s, w, s');
    case Add(p) => AddKeeps(s, p, s');
    case Remove(id) => RemoveKeeps(s, id, s');
    case Fill => FillKeeps(s, s');
    case Send => SendKeeps(s, s');
    case Handle(w) => HandleKeeps(s, w, s');
  }

  lemma {:induction false} RunKeeps(states: seq<Cluster>, steps: seq<Step>, i: nat)
    requires Run(states, steps) && i < |states|
    ensures Inv(states[i])
    decreases i
  {
    if i == 0 {
    } else {
      RunKeeps(states, steps, i - 1);
      NextKeeps(states[i - 1], steps[i - 1], states[i]);
    }
  }
}
