/** `AdjustInstancesMessage`s and what a sequence of them does to a worker's container counts. */
module Protocol {
  import opened Int32
  import opened Schedules

  datatype Msg = AdjustInstances(problem: string, instances: int32)

  datatype Option<+T> = None | Some(value: T)

  /** Container counts of the tracked problems after one message: zero untracks, a negative count stops all. */
  function Deliver(counts: map<string, int>, m: Msg): map<string, int> {
    if m.instances == 0 then counts - {m.problem}
    else counts[m.problem := if m.instances > 0 then m.instances else 0]
  }

  function DeliverAll(counts: map<string, int>, msgs: seq<Msg>): map<string, int>
    decreases |msgs|
  {
    if msgs == [] then counts else DeliverAll(Deliver(counts, msgs[0]), msgs[1..])
  }

  /** The value of the last message about problem `p`. */
  function Latest(msgs: seq<Msg>, p: string): Option<int32> {
    if msgs == [] then None
    else if msgs[|msgs| - 1].problem == p then Some(msgs[|msgs| - 1].instances)
    else Latest(msgs[..|msgs| - 1], p)
  }

  lemma {:induction false} DeliverAppend(counts: map<string, int>, a: seq<Msg>, b: seq<Msg>)
    ensures DeliverAll(counts, a + b) == DeliverAll(DeliverAll(counts, a), b)
    decreases |a|
  {
    if a == [] {
      assert a + b == b;
    } else {
      assert (a + b)[1..] == a[1..] + b;
      DeliverAppend(Deliver(counts, a[0]), a[1..], b);
    }
  }

  lemma {:induction false} DeliverLast(counts: map<string, int>, msgs: seq<Msg>, m: Msg)
    ensures DeliverAll(counts, msgs + [m]) == Deliver(DeliverAll(counts, msgs), m)
  {
    DeliverAppend(counts, msgs, [m]);
    assert [m][1..] == [];
    assert DeliverAll(DeliverAll(counts, msgs), [m]) == DeliverAll(Deliver(DeliverAll(counts, msgs), m), []);
  }

  /** After any messages each problem's count is the one its last message asked for. */
  lemma {:induction false} LastMessageWins(counts: map<string, int>, msgs: seq<Msg>, p: string)
    ensures p in DeliverAll(counts, msgs) <==>
            match Latest(msgs, p) case None => p in counts case Some(v) => v != 0
    ensures p in DeliverAll(counts, msgs) ==>
              DeliverAll(counts, msgs)[p] ==
                match Latest(msgs, p) case None => counts[p] case Some(v) => if v > 0 then v else 0
    decreases |msgs|
  {
    if msgs == [] {
    } else {
      var front, last := msgs[..|msgs| - 1], msgs[|msgs| - 1];
      assert msgs == front + [last];
      LastMessageWins(counts, front, p);
      DeliverLast(counts, front, last);
    }
  }

  ghost predicate DistinctProblems(msgs: seq<Msg>) {
    forall i, j :: 0 <= i < j < |msgs| ==> msgs[i].problem != msgs[j].problem
  }

  lemma {:induction false} LatestOfBatch(msgs: seq<Msg>, p: string)
    requires DistinctProblems(msgs)
    ensures Latest(msgs, p).None? <==> forall m :: m in msgs ==> m.problem != p
    ensures forall m :: m in msgs && m.problem == p ==> Latest(msgs, p) == Some(m.instances)
    decreases |msgs|
  {
    if msgs == [] {
    } else {
      var front, last := msgs[..|msgs| - 1], msgs[|msgs| - 1];
      assert msgs == front + [last];
      LatestOfBatch(front, p);
    }
  }

  /** Two orders of one batch of messages about distinct problems have the same effect. */
  lemma {:induction false} BatchOrderDoesNotMatter(counts: map<string, int>, a: seq<Msg>, b: seq<Msg>)
    requires DistinctProblems(a) && DistinctProblems(b)
    requires forall m :: m in a <==> m in b
    ensures DeliverAll(counts, a) == DeliverAll(counts, b)
  {
    forall p
      ensures p in DeliverAll(counts, a) <==> p in DeliverAll(counts, b)
      ensures p in DeliverAll(counts, a) ==> DeliverAll(counts, a)[p] == DeliverAll(counts, b)[p]
    {
      LastMessageWins(counts, a, p);
      LastMessageWins(counts, b, p);
      LatestOfBatch(a, p);
      LatestOfBatch(b, p);
      if Latest(a, p).Some? {
        var m :| m in a && m.problem == p;
        assert m in b;
      }
    }
  }

  /** The messages that a sequence of `Apply` calls sends to worker `w`. */
  function ForWorker(calls: seq<Entry>, w: string): (msgs: seq<Msg>)
  {
    if calls == [] then []
    else
      (if calls[0].worker == w then [AdjustInstances(calls[0].problem, calls[0].count)] else []) +
        ForWorker(calls[1..], w)
  }

  lemma {:induction false} ForWorkerAppend(a: seq<Entry>, b: seq<Entry>, w: string)
    ensures ForWorker(a + b, w) == ForWorker(a, w) + ForWorker(b, w)
    decreases |a|
  {
    if a == [] {
      assert a + b == b;
    } else {
      assert (a + b)[1..] == a[1..] + b;
      ForWorkerAppend(a[1..], b, w);
    }
  }

  lemma {:induction false} InForWorker(calls: seq<Entry>, w: string, m: Msg)
    ensures m in ForWorker(calls, w) <==> Entry(w, m.problem, m.instances) in calls
    decreases |calls|
  {
    if calls == [] {
    } else {
      InForWorker(calls[1..], w, m);
      assert calls == [calls[0]] + calls[1..];
    }
  }

  lemma {:induction false} ForWorkerDistinct(calls: seq<Entry>, w: string)
    requires forall i, j :: 0 <= i < j < |calls| ==>
             (calls[i].worker, calls[i].problem) != (calls[j].worker, calls[j].problem)
    ensures DistinctProblems(ForWorker(calls, w))
    decreases |calls|
  {
    if calls == [] {
    } else {
      var rest := calls[1..];
      ForWorkerDistinct(rest, w);
      if calls[0].worker == w {
        forall m | m in ForWorker(rest, w)
          ensures m.problem != calls[0].problem
        {
          InForWorker(rest, w, m);
          var j :| 0 <= j < |rest| && rest[j] == Entry(w, m.problem, m.instances);
          assert calls[j + 1] == rest[j];
        }
      }
    }
  }

  /** What `Apply` over an enumerated schedule sends to one worker: one message per entry of that worker. */
  lemma {:induction false} BatchOf(calls: seq<Entry>, entries: map<(string, string), int32>, w: string, p: string)
    requires Enumerates(calls, entries)
    ensures DistinctProblems(ForWorker(calls, w))
    ensures Latest(ForWorker(calls, w), p) == if (w, p) in entries then Some(entries[(w, p)]) else None
  {
    ForWorkerDistinct(calls, w);
    var msgs := ForWorker(calls, w);
    LatestOfBatch(msgs, p);
    if (w, p) in entries {
      var m := AdjustInstances(p, entries[(w, p)]);
      assert Entry((w, p).0, (w, p).1, entries[(w, p)]) in calls;
      InForWorker(calls, w, m);
    } else {
      forall m | m in msgs
        ensures m.problem != p
      {
        InForWorker(calls, w, m);
        var i :| 0 <= i < |calls| && calls[i] == Entry(w, m.problem, m.instances);
      }
    }
  }
}
