/**
 From the master's record to the containers: the messages that a cluster's worker handles are given to
 a worker node, whose containers are counted by their contexts.
 */
module EndToEnd {
  import opened Cluster
  import opened Convergence
  import opened Guarantees
  import opened Placement
  import opened Schedules
  import opened Protocol
  import Containers
  import WorkerNode

  /** The message that worker `w` handles in one step, if it does. */
  ghost function HandledIn(s: Cluster, step: Step, w: string): seq<Msg> {
    if step == Handle(w) && w in s.wire && s.wire[w] != [] then [s.wire[w][0]] else []
  }

  /** The messages that worker `w` handles in the steps `i..j`. */
  ghost function Handled(states: seq<Cluster>, steps: seq<Step>, w: string, i: nat, j: nat): seq<Msg>
    requires i <= j <= |steps| && |states| == |steps| + 1
    decreases j
  {
    if i == j then []
    else
      Handled(states, steps, w, i, j - 1) +
      HandledIn(states[j - 1], steps[j - 1], w)
  }

  /** A session that has begun and whose stream is not broken. */
  ghost predicate Connected(s: Cluster, w: string) {
    w in s.sessions && !s.sessions[w].Closing? && w in s.nodes
  }

  lemma {:induction false} NextHandles(s: Cluster, step: Step, s': Cluster, w: string, before: seq<Msg>)
    requires Inv(s) && Next(s, step, s') && Connected(s, w) && step != Break(w)
    requires s.nodes[w] == DeliverAll(map[], before)
    ensures Connected(s', w) && s'.nodes[w] == DeliverAll(map[], before + HandledIn(s, step, w))
  {
    hide Inv, DeliverAll, Deliver, Filled, Enumerates, CountsFit;
    if step == Handle(w) {
      DeliverLast(map[], before, s.wire[w][0]);
    } else {
      assert before + [] == before;
    }
  }

  /** Since its connection, a worker of the cluster has the counts that its handled messages make. */
  lemma {:induction false} CountsAreHandled(states: seq<Cluster>, steps: seq<Step>, w: string, i: nat, j: nat)
    requires Run(states, steps) && i < j <= |steps| && steps[i].Connect? && steps[i].w == w
    requires forall k :: i < k < j ==> steps[k] != Break(w)
    ensures Connected(states[j], w)
    ensures states[j].nodes[w] == DeliverAll(map[], Handled(states, steps, w, i + 1, j))
    decreases j
  {
    var last := j - 1;
    hide *;
    NextOfRun(states, steps, last, j);
    HandledNext(states, steps, w, i + 1, last, j);
    if last == i {
      JustConnected(states[i], steps[i], states[j], w);
    } else {
      CountsAreHandled(states, steps, w, i, last);
      RunKeeps(states, steps, last);
      NextHandles(states[last], steps[last], states[j], w, Handled(states, steps, w, i + 1, last));
    }
  }

  lemma {:induction false} NextOfRun(states: seq<Cluster>, steps: seq<Step>, last: nat, i: nat)
    requires Run(states, steps) && last + 1 == i <= |steps|
    ensures |states| == |steps| + 1 && Next(states[last], steps[last], states[i])
  {
  }

  lemma {:induction false} HandledNext(states: seq<Cluster>, steps: seq<Step>, w: string, i: nat, last: nat, j: nat)
    requires |states| == |steps| + 1 && last + 1 == j <= |steps| && i <= j
    ensures i == j ==> Handled(states, steps, w, i, j) == []
    ensures i < j ==>
              Handled(states, steps, w, i, j) ==
              Handled(states, steps, w, i, last) + HandledIn(states[last], steps[last], w)
  {
  }

  lemma {:induction false} JustConnected(s: Cluster, step: Step, s': Cluster, w: string)
    requires Next(s, step, s') && step.Connect? && step.w == w
    ensures Connected(s', w) && s'.nodes[w] == DeliverAll(map[], [])
  {
  }

  lemma {:induction false} NewNode()
    ensures var m := Containers.Initial();
            && m.ctx < |m.contexts| && !m.contexts[m.ctx].done
            && WorkerNode.NoneLost(m) && WorkerNode.Running(m) == map[]
  {
  }

  /**
   A worker node that starts empty and handles its session's messages smoothly runs, with the messages
   still on their way, exactly what the master has recorded; with none on its way, it runs that now.
   */
  lemma {:induction false} WorkerRunsTheRecord(states: seq<Cluster>, steps: seq<Step>, w: string, i: nat, j: nat,
                                               nodes: seq<WorkerNode.Node>, supplies: seq<WorkerNode.Supply>)
    requires Run(states, steps) && i < j <= |steps| && steps[i].Connect? && steps[i].w == w
    requires forall k :: i < k < j ==> steps[k] != Break(w)
    requires w in states[j].sessions && states[j].sessions[w].Live?
    requires var msgs := Handled(states, steps, w, i + 1, j);
             && WorkerNode.Trace(nodes, msgs, supplies) && nodes[0].manager == Containers.Initial()
             && forall k :: 0 <= k < |msgs| ==> WorkerNode.Smooth(nodes[k], msgs[k], supplies[k])
    ensures w in states[j].sched.workers
    ensures var running := WorkerNode.Running(nodes[|nodes| - 1].manager);
            && DeliverAll(running, Pending(states[j], w)) == states[j].sched.workers[w].schedule
            && (Pending(states[j], w) == [] ==> running == states[j].sched.workers[w].schedule)
  {
    var msgs := Handled(states, steps, w, i + 1, j);
    assert msgs[..|msgs|] == msgs && |nodes| == |msgs| + 1;
    hide Inv, Connected, Handled, WorkerNode.NodeStep, WorkerNode.Smooth, WorkerNode.NoneLost, WorkerNode.Running;
    NewNode();
    WorkerNode.NodeRunsWhatIsAsked(nodes, msgs, supplies, |msgs|);
    CountsAreHandled(states, steps, w, i, j);
    WorkersConverge(states, steps, j, w);
  }
}
