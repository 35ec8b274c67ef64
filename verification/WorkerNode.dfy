/** worker/worker.go: what a worker does with the `AdjustInstances` messages it receives. */
module WorkerNode {
  import opened Int32
  import opened Contexts
  import opened Containers
  import opened ContainerGuarantees
  import opened ContainerManagers
  import opened Placement
  import opened ProblemStores
  import opened Protocol

  datatype Node = Node(manager: Manager, problems: map<string, Problem>)

  /** What the world supplies for one message: the fetched problem, if the fetch works, and the container starts. */
  datatype Supply = Supply(fetched: Option<Problem>, attempts: seq<Attempt>)

  predicate HasImage(problems: map<string, Problem>, id: string) {
    id in problems && problems[id].imagePath != ""
  }

  /** The image file that `GetProblemData` names in the metadata. */
  ghost predicate SupplyOk(s: Supply, id: string) {
    s.fetched.Some? ==> s.fetched.value.id == id && s.fetched.value.imagePath == "./" + id + ".tar"
  }

  /** Container counts by problem. */
  ghost function CountsOf(m: Manager): map<string, int> {
    map id | id in m.tracked :: |m.tracked[id].containers|
  }

  /** Running containers by problem, whether the manager has an entry for them or not. */
  ghost function Running(m: Manager): map<string, int> {
    map id | id in m.tracked :: |LiveUnder(m.contexts, m.tracked[id].context)|
  }

  /** The manager once problem `id` is tracked. */
  function Tracking(m: Manager, id: string): Manager
    requires m.ctx < |m.contexts|
  {
    if id in m.tracked then m
    else Registered(m, id)
  }

  /** One message: fetch the problem if its image is missing, track it if it is not tracked, adjust its containers. */
  ghost predicate NodeStep(n: Node, msg: Msg, s: Supply, n': Node)
    requires n.manager.ctx < |n.manager.contexts|
  {
    if !HasImage(n.problems, msg.problem) && s.fetched.None? then n' == n
    else
      var mid := Tracking(n.manager, msg.problem);
      && n'.problems ==
          (if HasImage(n.problems, msg.problem) then n.problems else n.problems[msg.problem := s.fetched.value])
      && HasContext(mid, msg.problem)
      && exists ok :: EventStep(mid, msg.problem, msg.instances, true, s.attempts, n'.manager, ok)
  }

  /** Nothing goes wrong with the message: the problem is there, the containers start, and their IDs are new. */
  ghost predicate Smooth(n: Node, msg: Msg, s: Supply) {
    && (HasImage(n.problems, msg.problem) || s.fetched.Some?)
    && var containers := if msg.problem in n.manager.tracked then n.manager.tracked[msg.problem].containers else map[];
       msg.instances > |containers| ==>
         var missing := msg.instances - |containers|;
         && missing <= |s.attempts| && FirstFailure(s.attempts, missing) == missing
         && Fresh(containers.Keys, s.attempts, missing)
  }

  // ---- One message --------------------------------------------------------------------

  lemma {:induction false} TrackingKeeps(m: Manager, id: string)
    requires Inv(m)
    ensures Inv(Tracking(m, id)) && HasContext(Tracking(m, id), id)
    ensures TrackStep(m, id, true, Tracking(m, id), true)
  {
    TrackKeeps(m, id, true, Tracking(m, id), true);
    KeptContext(Tracking(m, id), id);
  }

  lemma {:induction false} EventOnOthers(m: Manager, id: string, instances: int32, attempts: seq<Attempt>, m': Manager,
                                         ok: bool, other: string)
    requires Inv(m) && HasContext(m, id) && EventStep(m, id, instances, true, attempts, m', ok) && other != id
    ensures other in m'.tracked <==> other in m.tracked
    ensures other in m.tracked ==> m'.tracked[other] == m.tracked[other]
  {
  }

  /** Whatever happens, a message about one problem does not change the entries of another. */
  lemma {:induction false} OthersUntouched(n: Node, msg: Msg, s: Supply, n': Node, other: string)
    requires Inv(n.manager) && NodeStep(n, msg, s, n') && other != msg.problem
    ensures other in n'.manager.tracked <==> other in n.manager.tracked
    ensures other in n.manager.tracked ==> n'.manager.tracked[other] == n.manager.tracked[other]
  {
    if HasImage(n.problems, msg.problem) || s.fetched.Some? {
      var mid := Tracking(n.manager, msg.problem);
      TrackingKeeps(n.manager, msg.problem);
      var ok :| EventStep(mid, msg.problem, msg.instances, true, s.attempts, n'.manager, ok);
      EventOnOthers(mid, msg.problem, msg.instances, s.attempts, n'.manager, ok, other);
    }
  }

  lemma {:induction false} NodeKeeps(n: Node, msg: Msg, s: Supply, n': Node)
    requires Inv(n.manager) && NodeStep(n, msg, s, n')
    ensures Inv(n'.manager)
  {
    if HasImage(n.problems, msg.problem) || s.fetched.Some? {
      var mid := Tracking(n.manager, msg.problem);
      TrackingKeeps(n.manager, msg.problem);
      var ok :| EventStep(mid, msg.problem, msg.instances, true, s.attempts, n'.manager, ok);
      EventKeeps(mid, msg.problem, msg.instances, true, s.attempts, n'.manager, ok);
    }
  }

  /** What a smooth message about problem `id` does to its entries. */
  lemma {:induction false} SmoothManagerEvent(m: Manager, id: string, instances: int32, attempts: seq<Attempt>,
                                              m': Manager, ok: bool)
    requires Inv(m) && HasContext(m, id) && EventStep(m, id, instances, true, attempts, m', ok)
    requires var missing := instances - |m.tracked[id].containers|;
             missing > 0 ==> missing <= |attempts| && FirstFailure(attempts, missing) == missing &&
                             Fresh(m.tracked[id].containers.Keys, attempts, missing)
    ensures ok
    ensures id in m'.tracked <==> instances != 0
    ensures instances != 0 ==> |m'.tracked[id].containers| == if instances > 0 then instances else 0
  {
    hide Inv, Fresh, More, Shrunk;
    if instances != 0 {
      EventReachesTarget(m, id, instances, attempts, m');
    }
  }

  /** The message as an event on the manager that tracks the problem. */
  lemma {:induction false} StepEvent(n: Node, msg: Msg, s: Supply, n': Node) returns (ok: bool)
    requires Inv(n.manager) && NodeStep(n, msg, s, n') && Smooth(n, msg, s)
    ensures var mid := Tracking(n.manager, msg.problem);
            && Inv(mid) && HasContext(mid, msg.problem)
            && EventStep(mid, msg.problem, msg.instances, true, s.attempts, n'.manager, ok)
            && var missing := msg.instances - |mid.tracked[msg.problem].containers|;
               missing > 0 ==> missing <= |s.attempts| && FirstFailure(s.attempts, missing) == missing &&
                               Fresh(mid.tracked[msg.problem].containers.Keys, s.attempts, missing)
  {
    hide Inv, Fresh, EventStep, FirstFailure;
    CtxInRange(n.manager);
    TrackingKeeps(n.manager, msg.problem);
    ok :| EventStep(Tracking(n.manager, msg.problem), msg.problem, msg.instances, true, s.attempts, n'.manager, ok);
  }

  lemma {:induction false} SmoothEvent(n: Node, msg: Msg, s: Supply, n': Node)
    requires Inv(n.manager) && NodeStep(n, msg, s, n') && Smooth(n, msg, s)
    ensures msg.problem in n'.manager.tracked <==> msg.instances != 0
    ensures msg.instances != 0 ==>
              |n'.manager.tracked[msg.problem].containers| == if msg.instances > 0 then msg.instances else 0
  {
    hide *;
    CtxInRange(n.manager);
    var ok := StepEvent(n, msg, s, n');
    SmoothManagerEvent(Tracking(n.manager, msg.problem), msg.problem, msg.instances, s.attempts, n'.manager, ok);
  }

  /** A message that goes smoothly has the effect that the master counts on. */
  lemma {:induction false} SmoothStepDelivers(n: Node, msg: Msg, s: Supply, n': Node)
    requires Inv(n.manager) && NodeStep(n, msg, s, n') && Smooth(n, msg, s)
    ensures CountsOf(n'.manager) == Deliver(CountsOf(n.manager), msg)
  {
    hide Inv, NodeStep, Smooth;
    SmoothEvent(n, msg, s, n');
    var left, right := CountsOf(n'.manager), Deliver(CountsOf(n.manager), msg);
    forall id
      ensures id in left <==> id in right
      ensures id in left ==> left[id] == right[id]
    {
      if id != msg.problem { OthersUntouched(n, msg, s, n', id); }
    }
  }

  // ---- Any number of messages ---------------------------------------------------------

  /** The node's states before, between and after the messages. */
  ghost predicate Trace(nodes: seq<Node>, msgs: seq<Msg>, supplies: seq<Supply>) {
    && |nodes| == |msgs| + 1 && |supplies| == |msgs|
    && Inv(nodes[0].manager)
    && (forall i :: 0 <= i < |msgs| ==>
          nodes[i].manager.ctx < |nodes[i].manager.contexts| && NodeStep(nodes[i], msgs[i], supplies[i], nodes[i + 1]))
  }

  lemma {:induction false} TraceKeeps(nodes: seq<Node>, msgs: seq<Msg>, supplies: seq<Supply>, i: nat)
    requires Trace(nodes, msgs, supplies) && i < |nodes|
    ensures Inv(nodes[i].manager)
    decreases i
  {
    hide NodeStep, Inv;
    if i == 0 {
    } else {
      TraceKeeps(nodes, msgs, supplies, i - 1);
      NodeKeeps(nodes[i - 1], msgs[i - 1], supplies[i - 1], nodes[i]);
    }
  }

  /** After any messages that went smoothly the container counts are those that the master counts on. */
  lemma {:induction false} NodeDeliversAll(nodes: seq<Node>, msgs: seq<Msg>, supplies: seq<Supply>, n: nat)
    requires Trace(nodes, msgs, supplies) && n <= |msgs|
    requires forall i :: 0 <= i < n ==> Smooth(nodes[i], msgs[i], supplies[i])
    ensures CountsOf(nodes[n].manager) == DeliverAll(CountsOf(nodes[0].manager), msgs[..n])
    decreases n
  {
    hide NodeStep, Inv, Smooth, CountsOf, Deliver;
    if n == 0 {
    } else {
      var i := n - 1;
      NodeDeliversAll(nodes, msgs, supplies, i);
      TraceKeeps(nodes, msgs, supplies, i);
      SmoothStepDelivers(nodes[i], msgs[i], supplies[i], nodes[n]);
      DeliverLast(CountsOf(nodes[0].manager), msgs[..i], msgs[i]);
      assert msgs[..n] == msgs[..i] + [msgs[i]];
    }
  }

  /** So each problem has the count of its last message, zero meaning untracked. */
  lemma {:induction false} NodeConverges(nodes: seq<Node>, msgs: seq<Msg>, supplies: seq<Supply>, id: string)
    requires Trace(nodes, msgs, supplies)
    requires forall i :: 0 <= i < |msgs| ==> Smooth(nodes[i], msgs[i], supplies[i])
    requires Latest(msgs, id).Some? && Latest(msgs, id).value >= 0
    ensures id in nodes[|msgs|].manager.tracked <==> Latest(msgs, id).value != 0
    ensures Latest(msgs, id).value != 0 ==>
              |nodes[|msgs|].manager.tracked[id].containers| == Latest(msgs, id).value
  {
    NodeDeliversAll(nodes, msgs, supplies, |msgs|);
    assert msgs[..|msgs|] == msgs;
    LastMessageWins(CountsOf(nodes[0].manager), msgs, id);
    assert id in CountsOf(nodes[|msgs|].manager) <==> id in nodes[|msgs|].manager.tracked;
  }

  // ---- Which messages need a fetch ------------------------------------------------------

  /** A handler's life from its start, with what `GetProblemData` supplies. */
  ghost predicate Life(nodes: seq<Node>, msgs: seq<Msg>, supplies: seq<Supply>) {
    && Trace(nodes, msgs, supplies) && nodes[0].problems == map[]
    && forall i :: 0 <= i < |msgs| ==> SupplyOk(supplies[i], msgs[i].problem)
  }

  /** One of the first `n` messages was about the problem, and its fetch would work. */
  ghost predicate Fetched(msgs: seq<Msg>, supplies: seq<Supply>, n: nat, id: string)
    requires n <= |msgs| == |supplies|
  {
    exists i :: 0 <= i < n && msgs[i].problem == id && supplies[i].fetched.Some?
  }

  lemma {:induction false} NodeStepStores(n: Node, msg: Msg, s: Supply, n': Node, id: string)
    requires n.manager.ctx < |n.manager.contexts| && NodeStep(n, msg, s, n') && SupplyOk(s, msg.problem)
    requires id in n.problems ==> n.problems[id].imagePath != ""
    ensures id in n'.problems ==> n'.problems[id].imagePath != ""
    ensures id in n'.problems <==> id in n.problems || (id == msg.problem && s.fetched.Some?)
  {
    hide EventStep;
  }

  /** The problems in the store are those that were fetched, and each has its image. */
  lemma {:induction false} StoreIsFetched(nodes: seq<Node>, msgs: seq<Msg>, supplies: seq<Supply>, n: nat, id: string)
    requires Life(nodes, msgs, supplies) && n <= |msgs|
    ensures id in nodes[n].problems <==> Fetched(msgs, supplies, n, id)
    ensures id in nodes[n].problems ==> nodes[n].problems[id].imagePath != ""
    decreases n
  {
    hide NodeStep, Inv, SupplyOk;
    if n == 0 {
    } else {
      var i := n - 1;
      StoreIsFetched(nodes, msgs, supplies, i, id);
      NodeStepStores(nodes[i], msgs[i], supplies[i], nodes[n], id);
    }
  }

  lemma {:induction false} TrackedUnlessZero(m: Manager, id: string, instances: int32, attempts: seq<Attempt>,
                                             m': Manager, ok: bool)
    requires HasContext(m, id) && EventStep(m, id, instances, true, attempts, m', ok)
    ensures id in m'.tracked <==> instances != 0
    ensures instances < 0 ==> m'.tracked[id].containers == map[]
  {
    hide StartFirst, Cancelled;
    if instances != 0 && instances <= |m.tracked[id].containers| {
      var removed :| ShrunkTo(m, id, instances, removed, m');
      if instances < 0 { AllRemoved(m.tracked[id].containers, removed); }
    }
  }

  lemma {:induction false} AllRemoved(containers: map<int32, nat>, removed: set<int32>)
    requires removed <= containers.Keys && |removed| == |containers|
    ensures containers - removed == map[]
  {
    CardOfRest(containers, removed);
  }

  /**
   Once a message about a problem had a fetch that works, every later message about it is handled without one:
   the store stays as it is, and the problem's containers are adjusted.
   */
  lemma {:induction false} FetchedOnce(nodes: seq<Node>, msgs: seq<Msg>, supplies: seq<Supply>, i: nat, j: nat)
    returns (ok: bool)
    requires Life(nodes, msgs, supplies) && i < j < |msgs|
    requires msgs[i].problem == msgs[j].problem && supplies[i].fetched.Some?
    ensures nodes[j + 1].problems == nodes[j].problems
    ensures msgs[j].problem in nodes[j + 1].manager.tracked <==> msgs[j].instances != 0
    ensures msgs[j].instances < 0 ==> nodes[j + 1].manager.tracked[msgs[j].problem].containers == map[]
    ensures var mid := Tracking(nodes[j].manager, msgs[j].problem);
            && HasContext(mid, msgs[j].problem)
            && EventStep(mid, msgs[j].problem, msgs[j].instances, true, supplies[j].attempts, nodes[j + 1].manager, ok)
  {
    StoreIsFetched(nodes, msgs, supplies, j, msgs[j].problem);
    hide Inv, EventStep, HasContext;
    var mid := Tracking(nodes[j].manager, msgs[j].problem);
    ok :| EventStep(mid, msgs[j].problem, msgs[j].instances, true, supplies[j].attempts, nodes[j + 1].manager, ok);
    TrackedUnlessZero(mid, msgs[j].problem, msgs[j].instances, supplies[j].attempts, nodes[j + 1].manager, ok);
  }

  /** Before that, a message whose fetch fails changes nothing, and one whose fetch works stores the problem. */
  lemma {:induction false} NotYetFetched(nodes: seq<Node>, msgs: seq<Msg>, supplies: seq<Supply>, j: nat)
    requires Life(nodes, msgs, supplies) && j < |msgs|
    requires !Fetched(msgs, supplies, j, msgs[j].problem)
    ensures supplies[j].fetched.None? ==> nodes[j + 1] == nodes[j]
    ensures supplies[j].fetched.Some? ==>
              nodes[j + 1].problems == nodes[j].problems[msgs[j].problem := supplies[j].fetched.value]
    ensures supplies[j].fetched.Some? ==>
              (msgs[j].problem in nodes[j + 1].manager.tracked <==> msgs[j].instances != 0)
  {
    StoreIsFetched(nodes, msgs, supplies, j, msgs[j].problem);
    hide Inv, EventStep, HasContext;
    if supplies[j].fetched.Some? {
      var mid := Tracking(nodes[j].manager, msgs[j].problem);
      var ok :|
        EventStep(mid, msgs[j].problem, msgs[j].instances, true, supplies[j].attempts, nodes[j + 1].manager, ok);
      TrackedUnlessZero(mid, msgs[j].problem, msgs[j].instances, supplies[j].attempts, nodes[j + 1].manager, ok);
    }
  }

  // ---- What runs ----------------------------------------------------------------------

  /** Every running container of a tracked problem has its entry. */
  ghost predicate NoneLost(m: Manager) {
    forall id :: id in m.tracked ==> Surplus(m, id, 0)
  }

  lemma {:induction false} RunningIsCounts(m: Manager)
    requires NoneLost(m)
    ensures Running(m) == CountsOf(m)
  {
    forall id | id in m.tracked
      ensures Running(m)[id] == CountsOf(m)[id]
    {
      assert Surplus(m, id, 0);
    }
  }

  lemma {:induction false} TrackLosesNone(m: Manager, id: string)
    requires Inv(m) && NoneLost(m)
    ensures NoneLost(Tracking(m, id))
  {
    var m' := Tracking(m, id);
    TrackingKeeps(m, id);
    forall other | other in m'.tracked
      ensures Surplus(m', other, 0)
    {
      if other in m.tracked {
        assert Surplus(m, other, 0);
        TrackElsewhere(m, id, true, m', true, other);
      } else {
        NewlyTracked(m, Track(id, true, true), m', id);
      }
    }
  }

  lemma {:induction false} SmoothEventLosesNone(m: Manager, id: string, instances: int32, attempts: seq<Attempt>,
                                                m': Manager, other: string)
    requires Inv(m) && HasContext(m, id) && !m.contexts[m.ctx].done && NoneLost(m)
    requires EventStep(m, id, instances, true, attempts, m', true)
    requires var missing := instances - |m.tracked[id].containers|;
             missing > 0 ==> missing <= |attempts| && FirstFailure(attempts, missing) == missing &&
                             Fresh(m.tracked[id].containers.Keys, attempts, missing)
    requires other in m'.tracked
    ensures Surplus(m', other, 0)
  {
    hide Inv, Surplus, Fresh, LiveUnder, AdjustStep;
    var op := Event(id, instances, true, attempts, true);
    var missing := instances - |m.tracked[id].containers|;
    if other != id {
      EventOnOthers(m, id, instances, attempts, m', true, other);
      EventElsewhere(m, op, m', other);
      SameSurplus(m, m', other, 0);
    } else {
      StillTracked(m, op, m', id);
      EventSurplus(m, op, m', id, 0);
      if 0 < missing { FreshIsNoCollision(m.tracked[id].containers.Keys, attempts, missing); }
    }
  }

  lemma {:induction false} TrackingStaysAlive(m: Manager, id: string)
    requires Inv(m) && !m.contexts[m.ctx].done
    ensures Tracking(m, id).ctx == m.ctx < |Tracking(m, id).contexts| && !Tracking(m, id).contexts[m.ctx].done
  {
  }

  lemma {:induction false} EventLosesNone(m: Manager, id: string, instances: int32, attempts: seq<Attempt>, m': Manager)
    requires Inv(m) && HasContext(m, id) && !m.contexts[m.ctx].done && NoneLost(m)
    requires EventStep(m, id, instances, true, attempts, m', true)
    requires var missing := instances - |m.tracked[id].containers|;
             missing > 0 ==> missing <= |attempts| && FirstFailure(attempts, missing) == missing &&
                             Fresh(m.tracked[id].containers.Keys, attempts, missing)
    ensures NoneLost(m')
    ensures m'.ctx < |m'.contexts| && !m'.contexts[m'.ctx].done
  {
    hide Inv, EventStep, Surplus, Fresh;
    forall other | other in m'.tracked
      ensures Surplus(m', other, 0)
    {
      SmoothEventLosesNone(m, id, instances, attempts, m', other);
    }
    NextKeepsAlive(m, Event(id, instances, true, attempts, true), m');
  }

  lemma {:induction false} SmoothStepLosesNone(n: Node, msg: Msg, s: Supply, n': Node)
    requires Inv(n.manager) && !n.manager.contexts[n.manager.ctx].done && NoneLost(n.manager)
    requires NodeStep(n, msg, s, n') && Smooth(n, msg, s)
    ensures Inv(n'.manager) && !n'.manager.contexts[n'.manager.ctx].done && NoneLost(n'.manager)
  {
    hide *;
    CtxInRange(n.manager);
    NodeKeeps(n, msg, s, n');
    TrackingStaysAlive(n.manager, msg.problem);
    TrackLosesNone(n.manager, msg.problem);
    var ok := StepEvent(n, msg, s, n');
    SmoothManagerEvent(Tracking(n.manager, msg.problem), msg.problem, msg.instances, s.attempts, n'.manager, ok);
    EventLosesNone(Tracking(n.manager, msg.problem), msg.problem, msg.instances, s.attempts, n'.manager);
  }

  /** On a node where all messages went smoothly, exactly the containers that the master counts on are running. */
  lemma {:induction false} NodeRunsWhatIsAsked(nodes: seq<Node>, msgs: seq<Msg>, supplies: seq<Supply>, n: nat)
    requires Trace(nodes, msgs, supplies) && n <= |msgs|
    requires !nodes[0].manager.contexts[nodes[0].manager.ctx].done && NoneLost(nodes[0].manager)
    requires forall i :: 0 <= i < n ==> Smooth(nodes[i], msgs[i], supplies[i])
    ensures Running(nodes[n].manager) == DeliverAll(Running(nodes[0].manager), msgs[..n])
  {
    hide Inv, NodeStep, Smooth, NoneLost, Running, CountsOf;
    TraceLosesNone(nodes, msgs, supplies, n);
    NodeDeliversAll(nodes, msgs, supplies, n);
    RunningIsCounts(nodes[0].manager);
    RunningIsCounts(nodes[n].manager);
  }

  lemma {:induction false} TraceLosesNone(nodes: seq<Node>, msgs: seq<Msg>, supplies: seq<Supply>, n: nat)
    requires Trace(nodes, msgs, supplies) && n <= |msgs|
    requires !nodes[0].manager.contexts[nodes[0].manager.ctx].done && NoneLost(nodes[0].manager)
    requires forall i :: 0 <= i < n ==> Smooth(nodes[i], msgs[i], supplies[i])
    ensures Inv(nodes[n].manager) && !nodes[n].manager.contexts[nodes[n].manager.ctx].done && NoneLost(nodes[n].manager)
    decreases n
  {
    hide Inv, NodeStep, Smooth, NoneLost;
    if n == 0 {
    } else {
      var i := n - 1;
      TraceLosesNone(nodes, msgs, supplies, i);
      SmoothStepLosesNone(nodes[i], msgs[i], supplies[i], nodes[n]);
    }
  }

  // ---- The handler ---------------------------------------------------------------------

  lemma {:induction false} TrackSucceeds(m: Manager, id: string, m': Manager, ok: bool)
    requires m.ctx < |m.contexts| && TrackStep(m, id, true, m', ok)
    ensures ok && m' == Tracking(m, id)
  {
  }

  lemma {:induction false} StepWithout(n: Node, msg: Msg, s: Supply)
    requires n.manager.ctx < |n.manager.contexts| && !HasImage(n.problems, msg.problem) && s.fetched.None?
    ensures NodeStep(n, msg, s, n)
  {
  }

  lemma {:induction false} StepIs(n: Node, msg: Msg, s: Supply, n': Node, ok: bool)
    requires n.manager.ctx < |n.manager.contexts| && (HasImage(n.problems, msg.problem) || s.fetched.Some?)
    requires n'.problems ==
             if HasImage(n.problems, msg.problem) then n.problems else n.problems[msg.problem := s.fetched.value]
    requires HasContext(Tracking(n.manager, msg.problem), msg.problem)
    requires EventStep(Tracking(n.manager, msg.problem), msg.problem, msg.instances, true, s.attempts, n'.manager, ok)
    ensures NodeStep(n, msg, s, n')
  {
    hide EventStep;
  }

  /** A step without the names of its parts. */
  lemma {:induction false} StepMeans(n: Node, msg: Msg, s: Supply, n': Node)
    requires n.manager.ctx < |n.manager.contexts| && NodeStep(n, msg, s, n')
    ensures var there := msg.problem in n.problems && n.problems[msg.problem].imagePath != "";
            && (there ==> n'.problems == n.problems)
            && (!there && s.fetched.Some? ==> n'.problems == n.problems[msg.problem := s.fetched.value])
            && (!there && s.fetched.None? ==> n' == n)
            && (there || s.fetched.Some? ==> (msg.problem in n'.manager.tracked <==> msg.instances != 0))
  {
    hide EventStep, Tracking, HasContext;
    if HasImage(n.problems, msg.problem) || s.fetched.Some? {
      var mid := Tracking(n.manager, msg.problem);
      var ok :| EventStep(mid, msg.problem, msg.instances, true, s.attempts, n'.manager, ok);
      TrackedUnlessZero(mid, msg.problem, msg.instances, s.attempts, n'.manager, ok);
    }
  }

  class Worker {
    const cm: ContainerManager
    const probStore: ProblemStore

    constructor ()
      ensures fresh(cm) && fresh(probStore) && cm.problemStore == probStore
      ensures cm.Valid() && Inv(cm.State()) && State() == Node(Initial(), map[])
    {
      var store := new ProblemStore();
      probStore := store;
      cm := new ContainerManager(store);
    }

    ghost function State(): Node
      reads cm, cm.problemContainers.Values, probStore
    {
      Node(cm.State(), probStore.problems)
    }

    /** One turn of `adjInstHandler`; `fetched` is what `GetProblemData` returns. */
    method HandleAdjust(msg: Msg, supply: Supply)
      requires cm.problemStore == probStore && cm.Valid() && Inv(cm.State()) && SupplyOk(supply, msg.problem)
      requires msg.instances <= |supply.attempts|
      modifies cm, cm.problemContainers.Values, probStore
      ensures cm.Valid() && Inv(cm.State())
      ensures old(State()).manager.ctx < |old(State()).manager.contexts|
      ensures NodeStep(old(State()), msg, supply, State())
      ensures fresh(cm.problemContainers.Values - old(cm.problemContainers.Values))
      ensures var there := msg.problem in old(probStore.problems) &&
                           old(probStore.problems)[msg.problem].imagePath != "";
              && (there ==> probStore.problems == old(probStore.problems))
              && (!there && supply.fetched.Some? ==>
                    probStore.problems == old(probStore.problems)[msg.problem := supply.fetched.value])
              && (!there && supply.fetched.None? ==> State() == old(State()))
              && (there || supply.fetched.Some? ==>
                    (msg.problem in cm.problemContainers <==> msg.instances != 0))
    {
      hide *;
      ghost var n := State();
      NodeOf();
      CtxInRange(cm.State());
      TrackingKeeps(n.manager, msg.problem);
      var fetched := FetchIfMissing(msg.problem, supply);
      if !fetched {
        NodeOf();
        StepWithout(n, msg, supply);
        StepMeans(n, msg, supply, State());
        cm.TrackedIsRecorded(msg.problem);
        return;
      }
      TrackIfNew(msg.problem);
      var ok := cm.HandleInstancesEvent(msg.problem, msg.instances, supply.attempts);
      NodeOf();
      StepIs(n, msg, supply, State(), ok);
      StepMeans(n, msg, supply, State());
      cm.TrackedIsRecorded(msg.problem);
    }

    /** The problem's image is fetched unless it is there; a failed fetch changes nothing. */
    method FetchIfMissing(id: string, supply: Supply) returns (ok: bool)
      requires SupplyOk(supply, id)
      modifies probStore
      ensures ok <==> HasImage(old(probStore.problems), id) || supply.fetched.Some?
      ensures probStore.problems ==
              if HasImage(old(probStore.problems), id) || !ok then old(probStore.problems)
              else old(probStore.problems)[id := supply.fetched.value]
      ensures ok ==> id in probStore.problems
    {
      if probStore.GetFileName(id).Some? {
        return true;
      }
      if supply.fetched.None? {
        return false;
      }
      probStore.NewProblem(supply.fetched.value);
      ok := probStore.RegisterImage(id, supply.fetched.value.imagePath);
    }

    /** The problem is tracked unless it already is. */
    method TrackIfNew(id: string)
      requires cm.problemStore == probStore && cm.Valid() && Inv(cm.State()) && id in probStore.problems
      requires cm.State().ctx < |cm.State().contexts|
      modifies cm`problemContainers, cm`contexts
      ensures cm.Valid() && Inv(cm.State()) && cm.State() == Tracking(old(cm.State()), id)
      ensures fresh(cm.problemContainers.Values - old(cm.problemContainers.Values))
    {
      hide Inv, TrackStep, Registered;
      ghost var m := cm.State();
      if !cm.HasProblem(id) {
        var tracked := cm.TrackProblem(id);
        TrackSucceeds(m, id, cm.State(), tracked);
      }
    }

    lemma {:induction false} NodeOf()
      ensures State() == Node(cm.State(), probStore.problems)
    {
    }

    /** The loop of `adjInstHandler` over the messages of its channel. */
    method HandleAll(msgs: seq<Msg>, supplies: seq<Supply>) returns (ghost nodes: seq<Node>)
      requires cm.problemStore == probStore && cm.Valid() && Inv(cm.State()) && |supplies| == |msgs|
      requires forall i :: 0 <= i < |msgs| ==>
               SupplyOk(supplies[i], msgs[i].problem) && msgs[i].instances <= |supplies[i].attempts|
      modifies cm, cm.problemContainers.Values, probStore
      ensures cm.Valid() && Inv(cm.State())
      ensures Trace(nodes, msgs, supplies) && nodes[0] == old(State()) && nodes[|msgs|] == State()
    {
      hide Inv, NodeStep, SupplyOk;
      nodes := [State()];
      for i := 0 to |msgs|
        invariant cm.Valid() && Inv(cm.State()) && fresh(cm.problemContainers.Values - old(cm.problemContainers.Values))
        invariant |nodes| == i + 1 && nodes[0] == old(State()) && nodes[i] == State()
        invariant forall k :: 0 <= k < i ==>
                    nodes[k].manager.ctx < |nodes[k].manager.contexts| &&
                      NodeStep(nodes[k], msgs[k], supplies[k], nodes[k + 1])
      {
        HandleAdjust(msgs[i], supplies[i]);
        nodes := nodes + [State()];
      }
    }
  }
}
