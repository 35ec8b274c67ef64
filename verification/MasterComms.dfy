/** The master's end of the worker sessions, comms/volpe/master.go, and the tick of master/master.go. */
module MasterComms {
  import opened Int32
  import opened Guarantees
  import opened Placement
  import opened Protocol
  import opened Schedules
  import opened Scheduler
  import opened Cluster

  /** Every known worker's queue grew by its messages among `calls`, in order; unknown workers got nothing. */
  ghost predicate Sent(channs0: map<string, seq<Msg>>, channs: map<string, seq<Msg>>, calls: seq<Entry>) {
    && channs.Keys == channs0.Keys
    && forall w :: w in channs ==> channs[w] == channs0[w] + ForWorker(calls, w)
  }

  lemma {:induction false} SentOne(channs0: map<string, seq<Msg>>, channs: map<string, seq<Msg>>, calls: seq<Entry>,
                                   e: Entry)
    requires Sent(channs0, channs, calls)
    ensures e.worker in channs ==>
              Sent(channs0, channs[e.worker := channs[e.worker] + [AdjustInstances(e.problem, e.count)]], calls + [e])
    ensures e.worker !in channs ==> Sent(channs0, channs, calls + [e])
    ensures e.worker in channs <==> e.worker in channs0
  {
    assert e.worker in channs.Keys <==> e.worker in channs0.Keys;
    var m := AdjustInstances(e.problem, e.count);
    var channs' := if e.worker in channs then channs[e.worker := channs[e.worker] + [m]] else channs;
    forall w | w in channs'
      ensures channs'[w] == channs0[w] + ForWorker(calls + [e], w)
    {
      ForWorkerAppend(calls, [e], w);
      assert [e][1..] == [];
      assert ForWorker([e], w) == if e.worker == w then [AdjustInstances(e.problem, e.count)] else [];
    }
  }

  lemma {:induction false} NothingSent(channs: map<string, seq<Msg>>)
    ensures Sent(channs, channs, [])
  {
  }

  lemma {:induction false} SentKeepsKeys(channs0: map<string, seq<Msg>>, channs: map<string, seq<Msg>>,
                                         calls: seq<Entry>)
    requires Sent(channs0, channs, calls)
    ensures channs.Keys == channs0.Keys
  {
  }

  /** How many of the first `n` calls are for workers without a channel. */
  function Unknown(channs: map<string, seq<Msg>>, calls: seq<Entry>, n: nat): nat
    requires n <= |calls|
  {
    if n == 0 then 0 else Unknown(channs, calls, n - 1) + (if calls[n - 1].worker in channs then 0 else 1)
  }

  /** That many of the calls have a worker outside the map. */
  lemma {:induction false} UnknownIsCount(channs: map<string, seq<Msg>>, calls: seq<Entry>, n: nat)
    requires n <= |calls|
    ensures Unknown(channs, calls, n) == |set i | 0 <= i < n && calls[i].worker !in channs|
    decreases n
  {
    if n == 0 {
    } else {
      var last := n - 1;
      UnknownIsCount(channs, calls, last);
      var before, after := set i | 0 <= i < last && calls[i].worker !in channs,
                           set i | 0 <= i < n && calls[i].worker !in channs;
      assert after == before + if calls[last].worker in channs then {} else {last};
    }
  }

  /** The sends get as far as the first call for a known worker that nothing takes any more. */
  predicate StopsAt(channs: map<string, seq<Msg>>, calls: seq<Entry>, takes: Entry -> bool, done: nat) {
    && done <= |calls|
    && (forall i :: 0 <= i < done && calls[i].worker in channs ==> takes(calls[i]))
    && (done < |calls| ==> calls[done].worker in channs && !takes(calls[done]))
  }

  /** A send reaches the worker's handler, finds no channel, or waits for a handler for good. */
  datatype SendResult = Taken | UnknownWorker | Blocked

  lemma {:induction false} NoneUnknown(channs: map<string, seq<Msg>>, calls: seq<Entry>, n: nat)
    requires n <= |calls| && forall i :: 0 <= i < |calls| ==> calls[i].worker in channs
    ensures Unknown(channs, calls, n) == 0
    decreases n
  {
    if n == 0 {
    } else {
      NoneUnknown(channs, calls, n - 1);
    }
  }

  /** The calls of a filled schedule are for registered workers. */
  lemma {:induction false} CallsAreForWorkers(pre: SchedulerState, post: SchedulerState,
                                              entries: map<(string, string), int32>, calls: seq<Entry>)
    requires Filled(pre, post, entries) && Enumerates(calls, entries)
    ensures forall i :: 0 <= i < |calls| ==> calls[i].worker in pre.workers
  {
    hide Filled;
    FilledParts(pre, post, entries);
    forall i | 0 <= i < |calls|
      ensures calls[i].worker in pre.workers
    {
      assert (calls[i].worker, calls[i].problem) in entries;
      InEntriesFor(post.problems, pre.workers, RemovedIds(pre), calls[i].worker, calls[i].problem);
    }
  }

  /** Once a tick's messages have been handled after all earlier ones, a worker runs what the master records. */
  lemma {:induction false} TickDelivers(pre: SchedulerState, post: SchedulerState,
                                        entries: map<(string, string), int32>, calls: seq<Entry>,
                                        channs0: map<string, seq<Msg>>, channs: map<string, seq<Msg>>,
                                        node: map<string, int>, w: string)
    requires Filled(pre, post, entries) && Enumerates(calls, entries) && Sent(channs0, channs, calls)
    requires w in pre.workers && w in channs0 && CountsFit(post.problems, pre.workers[w].memory)
    requires DeliverAll(node, channs0[w]) == pre.workers[w].schedule
    ensures w in channs && w in post.workers
    ensures DeliverAll(node, channs[w]) == post.workers[w].schedule
  {
    hide Filled, Enumerates;
    FillDelivers(pre, post, entries, calls, w);
    assert w in channs.Keys;
    DeliverAppend(node, channs0[w], ForWorker(calls, w));
  }

  class MasterComms {
    var channs: map<string, seq<Msg>>
    const sched: PrelimScheduler

    /** Every worker that the scheduler knows has a channel. */
    ghost predicate Valid()
      reads `channs, sched`workers
    {
      sched.Valid() && sched.workers.Keys <= channs.Keys
    }

    constructor (sched: PrelimScheduler)
      requires sched.Valid() && sched.workers == map[]
      ensures Valid() && channs == map[] && this.sched == sched
    {
      channs := map[];
      this.sched := sched;
    }

    /** `StartStreams` up to its handler thread: the channel is there before the scheduler hears of the worker. */
    method OpenSession(workerID: string, cpuCount: int, memory: int)
      requires Valid()
      modifies `channs, sched`workers
      ensures Valid() && channs == old(channs)[workerID := []]
      ensures sched.State() == WithWorker(old(sched.State()), workerID, cpuCount, memory)
      ensures sched.workers.Keys == old(sched.workers.Keys) + {workerID}
      ensures sched.workers[workerID].memory == memory && sched.workers[workerID].cpuCount == cpuCount
    {
      channs := channs[workerID := []];
      sched.AddWorker(workerID, cpuCount, memory);
      assert workerID in sched.State().workers.Keys;
      assert sched.workers.Keys == sched.State().workers.Keys;
    }

    /** The end of `StartStreams`: the channel stays in the map. */
    method CloseSession(workerID: string)
      requires Valid()
      modifies sched`workers
      ensures Valid()
      ensures sched.State() == WithoutWorker(old(sched.State()), workerID)
      ensures workerID !in sched.workers && channs.Keys == old(channs.Keys)
    {
      sched.RemoveWorker(workerID);
      assert sched.workers.Keys == sched.State().workers.Keys;
    }

    /** `taken` says whether the handler of the worker takes the message from the unbuffered channel. */
    method SendMasterMessage(workerID: string, msg: Msg, taken: bool) returns (r: SendResult)
      modifies `channs
      ensures r == if workerID !in old(channs) then UnknownWorker else if taken then Taken else Blocked
      ensures channs == if r.Taken? then old(channs)[workerID := old(channs)[workerID] + [msg]] else old(channs)
    {
      if workerID !in channs {
        return UnknownWorker;
      }
      if !taken {
        return Blocked;
      }
      channs := channs[workerID := channs[workerID] + [msg]];
      r := Taken;
    }

    /** The calls that `Apply` makes during a tick: an unknown worker does not stop them, a blocked send does. */
    method SendAll(calls: seq<Entry>, takes: Entry -> bool) returns (done: nat, failures: nat)
      modifies `channs
      ensures StopsAt(old(channs), calls, takes, done)
      ensures Sent(old(channs), channs, calls[..done]) && failures == Unknown(old(channs), calls, done)
      ensures done < |calls| ==> calls[done].worker in old(channs) && !takes(calls[done])
      ensures failures == |set i | 0 <= i < done && calls[i].worker !in old(channs)|
    {
      hide Sent;
      NothingSent(channs);
      failures := 0;
      for i := 0 to |calls|
        invariant forall k :: 0 <= k < i && calls[k].worker in old(channs) ==> takes(calls[k])
        invariant Sent(old(channs), channs, calls[..i]) && failures == Unknown(old(channs), calls, i)
      {
        var e := calls[i];
        SentOne(old(channs), channs, calls[..i], e);
        assert calls[..i + 1] == calls[..i] + [e];
        var r := SendMasterMessage(e.worker, AdjustInstances(e.problem, e.count), takes(e));
        match r {
          case Blocked =>
            UnknownIsCount(old(channs), calls, i);
            return i, failures;
          case UnknownWorker => failures := failures + 1;
          case Taken =>
        }
      }
      assert calls[..|calls|] == calls;
      done := |calls|;
      UnknownIsCount(old(channs), calls, done);
    }

    /** The schedule is filled and its entries are visited; each is for a worker that has a channel. */
    method FillAndVisit(schedule: Schedule) returns (calls: seq<Entry>)
      requires Valid() && sched.SeparatorFree() && PositiveMemory(sched.problems)
      modifies schedule, sched`problems, sched`instanceCounts, sched`removeList, sched.workers.Values
      ensures Valid() && sched.SeparatorFree() && schedule.Valid()
      ensures Filled(old(sched.State()), sched.State(), schedule.Pairs())
      ensures Enumerates(calls, schedule.Pairs())
      ensures forall i :: 0 <= i < |calls| ==> calls[i].worker in channs
    {
      hide Filled, Enumerates;
      hide PrelimScheduler.State, PrelimScheduler.SeparatorFree, Schedule.Valid, Schedule.Pairs;
      ghost var pre := sched.State();
      KnownWorkers();
      var passes := sched.FillSchedule(schedule);
      ValidIsKeyed(schedule);
      calls := schedule.Apply();
      CallsAreForWorkers(pre, sched.State(), schedule.Pairs(), calls);
    }

    /**
     One tick: fill the schedule, then one message for each of its entries. None of them is for an unknown
     worker, and the tick ends with all of them sent unless one waits for a worker that has left.
     */
    method UpdateAndSendSchedOnce(schedule: Schedule, takes: Entry -> bool)
      returns (ghost calls: seq<Entry>, done: nat, failures: nat)
      requires Valid() && sched.SeparatorFree() && PositiveMemory(sched.problems)
      modifies `channs, schedule, sched`problems, sched`instanceCounts, sched`removeList, sched.workers.Values
      ensures Valid() && sched.SeparatorFree() && schedule.Valid()
      ensures Filled(old(sched.State()), sched.State(), schedule.Pairs())
      ensures Enumerates(calls, schedule.Pairs())
      ensures StopsAt(old(channs), calls, takes, done)
      ensures Sent(old(channs), channs, calls[..done]) && failures == 0
      ensures (forall e :: e in calls ==> takes(e)) ==> Sent(old(channs), channs, calls)
    {
      hide Filled, Enumerates, Sent;
      hide PrelimScheduler.State, PrelimScheduler.SeparatorFree, Schedule.Valid, Schedule.Pairs;
      var visits := FillAndVisit(schedule);
      calls := visits;
      done, failures := SendAll(visits, takes);
      NoneUnknown(old(channs), visits, done);
      SentKeepsKeys(old(channs), channs, calls[..done]);
      assert calls[..|calls|] == calls;
    }

    lemma {:induction false} KnownWorkers()
      requires Valid()
      ensures forall w :: w in sched.State().workers ==> w in channs
    {
    }
  }

  lemma {:induction false} ValidIsKeyed(schedule: Schedule)
    requires schedule.Valid()
    ensures schedule.Keyed()
  {
  }
}
