/** How many containers of a problem run, in every run of a container manager. */
module ContainerGuarantees {
  import opened Int32
  import opened Contexts
  import opened Containers

  // ---- One event ----------------------------------------------------------------------

  lemma {:induction false} CardOfRange(ids: set<int32>, n: nat)
    requires forall k :: k in ids ==> 0 <= k < n
    ensures |ids| <= n
    decreases n
  {
    if n > 0 {
      var last := n - 1;
      if last in ids {
        CardOfRange(ids - {last}, last);
      } else {
        CardOfRange(ids, last);
      }
    } else {
      assert ids == {};
    }
  }

  /** A problem has at most one entry for each container ID. */
  lemma {:induction false} AtMostOnePerID(m: Manager, id: string)
    requires Inv(m) && id in m.tracked
    ensures forall k :: k in m.tracked[id].containers ==> 0 <= k < 2048
    ensures |m.tracked[id].containers| <= 2048
  {
    var t := m.tracked[id];
    assert TrackedOk(m, id);
    forall k | k in t.containers.Keys
      ensures 0 <= k < ID_COUNT
    {
      assert EntryOk(m, t.context, k, t.containers[k]);
    }
    CardOfRange(t.containers.Keys, ID_COUNT);
    assert |t.containers| == |t.containers.Keys|;
  }

  /**
   A successful event leaves as many entries as it asks for exactly if no started container took an ID
   that was already in use; a negative number leaves none.
   */
  lemma {:induction false} EventReachesTarget(m: Manager, id: string, instances: int32, attempts: seq<Attempt>,
                                              m': Manager)
    requires Inv(m) && HasContext(m, id) && instances != 0
    requires EventStep(m, id, instances, true, attempts, m', true)
    ensures id in m'.tracked && m'.tracked[id].context == m.tracked[id].context
    ensures var have, n := |m.tracked[id].containers|, instances - |m.tracked[id].containers|;
            && (n > 0 ==> n <= |attempts| &&
                          |m'.tracked[id].containers| ==
                            instances - Collisions(m.tracked[id].containers.Keys, attempts, n))
            && (|m'.tracked[id].containers| == (if instances > 0 then instances else 0) <==>
                n <= 0 || Fresh(m.tracked[id].containers.Keys, attempts, n))
  {
    hide Inv, Collisions, Fresh, StartFirst;
    var t := m.tracked[id];
    var have := |t.containers|;
    if instances > have {
      GroupSize(Group(m.contexts, t.containers), t.context, attempts, instances - have);
      FreshIsNoCollision(t.containers.Keys, attempts, instances - have);
    } else {
      var removed :| ShrunkTo(m, id, instances, removed, m');
      CardOfRest(t.containers, removed);
    }
  }

  /** The first `n` draws are pairwise different modulo 2048, and none is one of `ids` modulo 2048. */
  ghost predicate DrawsDiffer(ids: set<int32>, attempts: seq<Attempt>, n: nat)
    requires n <= |attempts|
  {
    && (forall i :: 0 <= i < n ==> attempts[i].draw % 2048 !in ids)
    && (forall i, j :: 0 <= i < j < n ==> (attempts[i].draw - attempts[j].draw) % 2048 != 0)
  }

  /** The same in terms of the numbers drawn. */
  lemma {:induction false} DrawsReachTarget(m: Manager, id: string, instances: int32, attempts: seq<Attempt>,
                                            m': Manager)
    requires Inv(m) && HasContext(m, id) && instances > |m.tracked[id].containers|
    requires EventStep(m, id, instances, true, attempts, m', true)
    ensures id in m'.tracked && instances - |m.tracked[id].containers| <= |attempts|
    ensures |m'.tracked[id].containers| == instances <==>
            DrawsDiffer(m.tracked[id].containers.Keys, attempts, instances - |m.tracked[id].containers|)
  {
    assert id in m.tracked;
    hide *;
    EventReachesTarget(m, id, instances, attempts, m');
    FreshDraws(m.tracked[id].containers.Keys, attempts, instances - |m.tracked[id].containers|);
  }

  /** The new IDs are the draws modulo 2048. */
  lemma {:induction false} DrawsAreIDs(m: Manager, id: string, instances: int32, attempts: seq<Attempt>, m': Manager)
    requires HasContext(m, id) && instances > |m.tracked[id].containers|
    requires EventStep(m, id, instances, true, attempts, m', true)
    ensures id in m'.tracked && instances - |m.tracked[id].containers| <= |attempts|
    ensures m'.tracked[id].containers.Keys ==
            m.tracked[id].containers.Keys +
            (set i | 0 <= i < instances - |m.tracked[id].containers| :: attempts[i].draw % 2048)
  {
    hide StartFirst;
    var t := m.tracked[id];
    GroupKeys(Group(m.contexts, t.containers), t.context, attempts, instances - |t.containers|);
  }

  lemma {:induction false} FreshDraws(ids: set<int32>, attempts: seq<Attempt>, n: nat)
    requires n <= |attempts|
    ensures Fresh(ids, attempts, n) <==> DrawsDiffer(ids, attempts, n)
  {
    forall i, j | 0 <= i < n && 0 <= j < n
      ensures ContainerID(attempts[i].draw) == ContainerID(attempts[j].draw) <==>
              (attempts[i].draw - attempts[j].draw) % 2048 == 0
    {
      SameID(attempts[i].draw, attempts[j].draw);
    }
  }

  lemma {:induction false} CardOfRest(containers: map<int32, nat>, removed: set<int32>)
    requires removed <= containers.Keys
    ensures |containers - removed| == |containers| - |removed|
  {
    var rest := containers - removed;
    assert rest.Keys == containers.Keys - removed;
    assert |rest| == |rest.Keys| && |containers| == |containers.Keys|;
  }

  /** More than 2048 instances never get an entry each: at least the surplus is overwritten by every such event. */
  lemma {:induction false} TooManyInstances(m: Manager, id: string, instances: int32, attempts: seq<Attempt>,
                                            m': Manager)
    requires Inv(m) && HasContext(m, id) && instances > 2048
    requires EventStep(m, id, instances, true, attempts, m', true)
    ensures instances - |m.tracked[id].containers| > 0
    ensures instances - |m.tracked[id].containers| <= |attempts|
    ensures Collisions(m.tracked[id].containers.Keys, attempts, instances - |m.tracked[id].containers|) >=
            instances - 2048
  {
    AtMostOnePerID(m, id);
    EventReachesTarget(m, id, instances, attempts, m');
    EventKeeps(m, id, instances, true, attempts, m', true);
    AtMostOnePerID(m', id);
  }

  /** Two draws that agree modulo 2048: two containers run, and the map knows one of them. */
  lemma {:induction false} CollisionLosesAContainer(m: Manager, id: string, m': Manager)
    requires Inv(m) && HasContext(m, id) && !m.contexts[m.ctx].done && m.tracked[id].containers == map[]
    requires EventStep(m, id, 2, true, [Attempt(5, true), Attempt(2053, true)], m', true)
    ensures id in m'.tracked && |m'.tracked[id].containers| == 1
    ensures |LiveUnder(m'.contexts, m'.tracked[id].context)| == |LiveUnder(m.contexts, m.tracked[id].context)| + 2
  {
    hide Inv, StartFirst, LiveUnder, Collisions, Fresh;
    var attempts, t := [Attempt(5, true), Attempt(2053, true)], m.tracked[id];
    ContextStaysLive(m, id);
    EventReachesTarget(m, id, 2, attempts, m');
    OneCollision(attempts);
    GroupLive(Group(m.contexts, t.containers), t.context, attempts, 2);
  }

  lemma {:induction false} ContextStaysLive(m: Manager, id: string)
    requires Inv(m) && HasContext(m, id) && !m.contexts[m.ctx].done
    ensures !m.contexts[m.tracked[id].context].done
  {
    assert TrackedOk(m, id);
  }

  lemma {:induction false} OneCollision(attempts: seq<Attempt>)
    requires attempts == [Attempt(5, true), Attempt(2053, true)]
    ensures Collisions({}, attempts, 2) == 1
  {
    assert DrawnIDs(attempts, 0) == {};
    assert ContainerID(attempts[0].draw) in DrawnIDs(attempts, 1);
    assert Collisions({}, attempts, 1) == 0;
  }

  /** What an event other than zero does to a tracked problem. */
  lemma {:induction false} EventCases(m: Manager, id: string, instances: int32, known: bool, attempts: seq<Attempt>,
                                      m': Manager, ok: bool)
    returns (n: nat, removed: set<int32>)
    requires HasContext(m, id) && instances != 0 && EventStep(m, id, instances, known, attempts, m', ok)
    ensures instances > |m.tracked[id].containers| && known ==> n <= |attempts| && m' == More(m, id, attempts, n)
    ensures instances > |m.tracked[id].containers| && !known ==> m' == m
    ensures instances <= |m.tracked[id].containers| ==>
              removed <= m.tracked[id].containers.Keys && Shrunk(m, id, removed, m')
  {
    hide More, Shrunk, FirstFailure;
    n, removed := 0, {};
    if instances <= |m.tracked[id].containers| {
      removed :| ShrunkTo(m, id, instances, removed, m');
    } else if known {
      n := FirstFailure(attempts, instances - |m.tracked[id].containers|);
    }
  }

  // ---- Conservation -------------------------------------------------------------------

  /** Running containers of `id` that one operation drops from the map without stopping them. */
  ghost function Overwritten(m: Manager, op: Op, id: string): nat {
    if op.Event? && op.id == id && id in m.tracked && op.known
       && 0 < op.instances - |m.tracked[id].containers| <= |op.attempts|
    then
      Collisions(m.tracked[id].containers.Keys, op.attempts,
                 FirstFailure(op.attempts, op.instances - |m.tracked[id].containers|))
    else 0
  }

  /** Entries of the problem, against running containers under its context. */
  ghost predicate Surplus(m: Manager, id: string, lost: nat)
    requires id in m.tracked
  {
    |LiveUnder(m.contexts, m.tracked[id].context)| == |m.tracked[id].containers| + lost
  }

  /** Cancelling contexts that have other parents does not touch the containers under `c`. */
  lemma {:induction false} LiveUnderOthers(m: Manager, m': Manager, c: nat, stopped: set<nat>)
    requires Inv(m) && m.ctx < c < |m.contexts| && m.contexts[c].parent == m.ctx
    requires Cancelled(m.contexts, m'.contexts, stopped)
    requires forall a :: a in stopped ==> m.ctx < a < |m.contexts| && a != c && m.contexts[a].parent != c
    ensures LiveUnder(m'.contexts, c) == LiveUnder(m.contexts, c)
  {
    forall x: nat | x < |m.contexts| && m.contexts[x].parent == c
      ensures !BelowAny(m.contexts, x, stopped)
    {
      forall a | a in stopped
        ensures !Descends(m.contexts, x, a)
      {
        BelowContainer(m, x, a);
      }
    }
  }

  lemma {:induction false} UntrackOtherKeepsLive(m: Manager, other: string, m': Manager, id: string)
    requires Inv(m) && UntrackStep(m, other, m', other in m.tracked) && id in m.tracked && id != other
    ensures id in m'.tracked && m'.tracked[id] == m.tracked[id]
    ensures LiveUnder(m'.contexts, m.tracked[id].context) == LiveUnder(m.contexts, m.tracked[id].context)
  {
    if other in m.tracked {
      assert TrackedOk(m, id) && TrackedOk(m, other);
      LiveUnderOthers(m, m', m.tracked[id].context, {m.tracked[other].context});
    }
  }

  lemma {:induction false} ShrinkOtherKeepsLive(m: Manager, other: string, removed: set<int32>, m': Manager, id: string)
    requires Inv(m) && id in m.tracked && other in m.tracked && id != other
    requires removed <= m.tracked[other].containers.Keys && Shrunk(m, other, removed, m')
    ensures LiveUnder(m'.contexts, m.tracked[id].context) == LiveUnder(m.contexts, m.tracked[id].context)
  {
    assert TrackedOk(m, id) && TrackedOk(m, other);
    var t := m.tracked[other];
    forall a | a in ContextsOf(t.containers, removed)
      ensures m.ctx < a < |m.contexts| && a != m.tracked[id].context && m.contexts[a].parent != m.tracked[id].context
    {
      var k :| k in removed && t.containers[k] == a;
      assert EntryOk(m, t.context, k, a);
    }
    LiveUnderOthers(m, m', m.tracked[id].context, ContextsOf(t.containers, removed));
  }

  lemma {:induction false} StartsElsewhere(g: Group, parent: nat, attempts: seq<Attempt>, n: nat, c: nat)
    requires parent < |g.contexts| && n <= |attempts| && c != parent
    ensures LiveUnder(StartFirst(g, parent, attempts, n).contexts, c) == LiveUnder(g.contexts, c)
    decreases n
  {
    if n == 0 {
    } else {
      var i := n - 1;
      StartsElsewhere(g, parent, attempts, i, c);
      var before := StartFirst(g, parent, attempts, i).contexts;
      assert LiveUnder(NewChild(before, parent), c) == LiveUnder(before, c);
    }
  }

  /** Shrinking stops exactly the containers whose entries it drops. */
  lemma {:induction false} ShrinkStopsRemoved(m: Manager, id: string, removed: set<int32>, m': Manager)
    requires Inv(m) && id in m.tracked && !m.contexts[m.ctx].done
    requires removed <= m.tracked[id].containers.Keys && Shrunk(m, id, removed, m')
    ensures var t, stopped := m.tracked[id], ContextsOf(m.tracked[id].containers, removed);
            && stopped <= LiveUnder(m.contexts, t.context)
            && LiveUnder(m'.contexts, t.context) == LiveUnder(m.contexts, t.context) - stopped
            && |stopped| == |removed|
  {
    assert TrackedOk(m, id);
    var t, stopped := m.tracked[id], ContextsOf(m.tracked[id].containers, removed);
    forall a | a in stopped
      ensures a in LiveUnder(m.contexts, t.context)
    {
      var k :| k in removed && t.containers[k] == a;
      assert EntryOk(m, t.context, k, a);
    }
    forall x: nat | x < |m.contexts| && m.contexts[x].parent == t.context
      ensures BelowAny(m.contexts, x, stopped) <==> x in stopped
    {
      ShrinkStops(m, id, removed, x);
    }
    CardOfContexts(t.containers, removed);
  }

  lemma {:induction false} CardOfContexts(containers: map<int32, nat>, ids: set<int32>)
    requires ids <= containers.Keys
    requires forall k, l :: k in containers && l in containers && containers[k] == containers[l] ==> k == l
    ensures |ContextsOf(containers, ids)| == |ids|
    decreases |ids|
  {
    if ids == {} {
      assert ContextsOf(containers, ids) == {};
    } else {
      var k :| k in ids;
      CardOfContexts(containers, ids - {k});
      assert ContextsOf(containers, ids) == ContextsOf(containers, ids - {k}) + {containers[k]};
    }
  }

  /** Growing starts as many containers as it has successful attempts. */
  lemma {:induction false} GrowSurplus(m: Manager, id: string, attempts: seq<Attempt>, n: nat, lost: nat)
    requires Inv(m) && HasContext(m, id) && n <= |attempts| && !m.contexts[m.ctx].done
    requires Surplus(m, id, lost)
    ensures Surplus(More(m, id, attempts, n), id, lost + Collisions(m.tracked[id].containers.Keys, attempts, n))
  {
    hide StartFirst, Collisions, Inv, LiveUnder;
    ContextStaysLive(m, id);
    var t := m.tracked[id];
    GroupSize(Group(m.contexts, t.containers), t.context, attempts, n);
    GroupLive(Group(m.contexts, t.containers), t.context, attempts, n);
  }

  lemma {:induction false} ShrinkSurplus(m: Manager, id: string, removed: set<int32>, m': Manager, lost: nat)
    requires Inv(m) && id in m.tracked && !m.contexts[m.ctx].done
    requires removed <= m.tracked[id].containers.Keys && Shrunk(m, id, removed, m') && Surplus(m, id, lost)
    ensures id in m'.tracked && Surplus(m', id, lost)
  {
    hide Inv, LiveUnder, Cancelled;
    ShrinkStopsRemoved(m, id, removed, m');
    CardOfRest(m.tracked[id].containers, removed);
  }

  /** Operations on other problems do not touch the containers of problem `id`. */
  lemma {:induction false} EventElsewhere(m: Manager, op: Op, m': Manager, id: string)
    requires Inv(m) && Next(m, op, m') && op.Event? && op.id != id && id in m.tracked
    ensures id in m'.tracked && m'.tracked[id] == m.tracked[id]
    ensures LiveUnder(m'.contexts, m.tracked[id].context) == LiveUnder(m.contexts, m.tracked[id].context)
  {
    var other := op.id;
    if op.instances == 0 {
      UntrackOtherKeepsLive(m, other, m', id);
    } else if other in m.tracked {
      var t, have := m.tracked[other], |m.tracked[other].containers|;
      assert m.tracked[id].context != t.context;
      if op.instances > have && op.known {
        StartsElsewhere(Group(m.contexts, t.containers), t.context, op.attempts,
                        FirstFailure(op.attempts, op.instances - have), m.tracked[id].context);
      } else if op.instances <= have {
        var removed :| ShrunkTo(m, other, op.instances, removed, m');
        ShrinkOtherKeepsLive(m, other, removed, m', id);
      }
    }
  }

  lemma {:induction false} EventSurplus(m: Manager, op: Op, m': Manager, id: string, lost: nat)
    requires Inv(m) && Next(m, op, m') && op.Event? && op.id == id && op.instances != 0
    requires HasContext(m, id) && !m.contexts[m.ctx].done && Surplus(m, id, lost)
    ensures id in m'.tracked && m'.tracked[id].context == m.tracked[id].context
    ensures Surplus(m', id, lost + Overwritten(m, op, id))
  {
    hide Inv, Surplus, Shrunk, StartFirst, Collisions;
    var have := |m.tracked[id].containers|;
    if op.instances > have && op.known {
      GrowSurplus(m, id, op.attempts, FirstFailure(op.attempts, op.instances - have), lost);
    } else if op.instances <= have {
      var removed :| ShrunkTo(m, id, op.instances, removed, m');
      ShrinkSurplus(m, id, removed, m', lost);
      ShrunkContext(m, id, removed, m');
    }
  }

  lemma {:induction false} ShrunkContext(m: Manager, id: string, removed: set<int32>, m': Manager)
    requires id in m.tracked && Shrunk(m, id, removed, m')
    ensures id in m'.tracked && m'.tracked[id].context == m.tracked[id].context
  {
  }

  lemma {:induction false} TrackElsewhere(m: Manager, other: string, known: bool, m': Manager, ok: bool, id: string)
    requires Inv(m) && TrackStep(m, other, known, m', ok) && id in m.tracked
    ensures id in m'.tracked && m'.tracked[id] == m.tracked[id]
    ensures LiveUnder(m'.contexts, m.tracked[id].context) == LiveUnder(m.contexts, m.tracked[id].context)
  {
    assert TrackedOk(m, id);
  }

  lemma {:induction false} SameSurplus(m: Manager, m': Manager, id: string, lost: nat)
    requires id in m.tracked && id in m'.tracked && m'.tracked[id] == m.tracked[id] && Surplus(m, id, lost)
    requires LiveUnder(m'.contexts, m.tracked[id].context) == LiveUnder(m.contexts, m.tracked[id].context)
    ensures Surplus(m', id, lost)
  {
  }

  /** What one operation adds to the running containers that have no entry. */
  lemma {:induction false} NextSurplus(m: Manager, op: Op, m': Manager, id: string, lost: nat)
    requires Inv(m) && Next(m, op, m') && !op.Destroy? && !m.contexts[m.ctx].done
    requires HasContext(m, id) && Surplus(m, id, lost)
    requires HasContext(m', id) && m'.tracked[id].context == m.tracked[id].context
    ensures Surplus(m', id, lost + Overwritten(m, op, id))
  {
    hide Inv, Surplus, TrackStep, EventStep;
    match op
    case Track(other, known, ok) =>
      TrackElsewhere(m, other, known, m', ok, id);
      SameSurplus(m, m', id, lost);
    case Untrack(other, _) =>
      UntrackOtherKeepsLive(m, other, m', id);
      SameSurplus(m, m', id, lost);
    case Event(other, instances, _, _, _) =>
      if other != id {
        EventElsewhere(m, op, m', id);
        SameSurplus(m, m', id, lost);
      } else {
        StillTracked(m, op, m', id);
        EventSurplus(m, op, m', id, lost);
      }
  }

  lemma {:induction false} StillTracked(m: Manager, op: Op, m': Manager, id: string)
    requires Next(m, op, m') && op.Event? && op.id == id && id in m.tracked && id in m'.tracked
    ensures op.instances != 0
  {
  }

  // ---- Runs ---------------------------------------------------------------------------

  /** Containers of `id` that the operations `i..j` drop from the map without stopping them. */
  ghost function OverwrittenIn(states: seq<Manager>, ops: seq<Op>, id: string, i: nat, j: nat): nat
    requires i <= j <= |ops| && |states| == |ops| + 1
    decreases j
  {
    if i == j then 0 else OverwrittenIn(states, ops, id, i, j - 1) + Overwritten(states[j - 1], ops[j - 1], id)
  }

  /** The manager's context is done exactly once it has been destroyed. */
  lemma {:induction false} AliveUntilDestroyed(states: seq<Manager>, ops: seq<Op>, i: nat)
    requires Run(states, ops) && i < |states| && forall k :: 0 <= k < i ==> !ops[k].Destroy?
    ensures Inv(states[i]) && !states[i].contexts[states[i].ctx].done
    decreases i
  {
    RunKeeps(states, ops, i);
    if i == 0 {
    } else {
      var last := i - 1;
      AliveUntilDestroyed(states, ops, last);
      NextKeepsAlive(states[last], ops[last], states[i]);
    }
  }

  lemma {:induction false} NextKeepsAlive(m: Manager, op: Op, m': Manager)
    requires Inv(m) && Next(m, op, m') && !op.Destroy? && !m.contexts[m.ctx].done
    ensures m'.ctx == m.ctx && m.ctx < |m'.contexts| && !m'.contexts[m.ctx].done
  {
    hide Inv, TrackStep, UntrackStep, EventStep;
    match op
    case Track(id, known, ok) => TrackKeepsCtx(m, id, known, m', ok);
    case Untrack(id, ok) => UntrackKeepsCtx(m, id, m', ok);
    case Event(id, instances, known, attempts, ok) => EventKeepsCtx(m, id, instances, known, attempts, m', ok);
  }

  lemma {:induction false} TrackKeepsCtx(m: Manager, id: string, known: bool, m': Manager, ok: bool)
    requires m.ctx < |m.contexts| && TrackStep(m, id, known, m', ok)
    ensures m'.ctx == m.ctx && m.ctx < |m'.contexts| && m'.contexts[m.ctx] == m.contexts[m.ctx]
  {
  }

  lemma {:induction false} EventKeepsCtx(m: Manager, id: string, instances: int32, known: bool, attempts: seq<Attempt>,
                                         m': Manager, ok: bool)
    requires Inv(m) && (id in m.tracked ==> HasContext(m, id)) && EventStep(m, id, instances, known, attempts, m', ok)
    ensures m'.ctx == m.ctx && m.ctx < |m'.contexts|
    ensures m'.contexts[m.ctx].done <==> m.contexts[m.ctx].done
  {
    hide Inv, HasContext, AdjustStep, UntrackStep;
    CtxInRange(m);
    if instances == 0 {
      UntrackKeepsCtx(m, id, m', id in m.tracked);
    } else if id in m.tracked {
      var n, removed := EventCases(m, id, instances, known, attempts, m', ok);
      if instances <= |m.tracked[id].containers| {
        ShrinkKeepsCtx(m, id, removed, m');
      } else if known {
        MoreKeepsContexts(m, id, attempts, n);
        assert m'.contexts[..|m.contexts|][m.ctx] == m.contexts[m.ctx];
      }
    }
  }

  lemma {:induction false} UntrackKeepsCtx(m: Manager, id: string, m': Manager, ok: bool)
    requires Inv(m) && UntrackStep(m, id, m', ok)
    ensures m'.ctx == m.ctx && m.ctx < |m'.contexts| && (m'.contexts[m.ctx].done <==> m.contexts[m.ctx].done)
  {
    if id in m.tracked {
      assert TrackedOk(m, id);
      BelowContainer(m, m.ctx, m.tracked[id].context);
    }
  }

  lemma {:induction false} ShrinkKeepsCtx(m: Manager, id: string, removed: set<int32>, m': Manager)
    requires Inv(m) && id in m.tracked && removed <= m.tracked[id].containers.Keys && Shrunk(m, id, removed, m')
    ensures m'.ctx == m.ctx && m.ctx < |m'.contexts| && (m'.contexts[m.ctx].done <==> m.contexts[m.ctx].done)
  {
    assert TrackedOk(m, id);
    forall a | a in ContextsOf(m.tracked[id].containers, removed)
      ensures !Descends(m.contexts, m.ctx, a)
    {
      var k :| k in removed && m.tracked[id].containers[k] == a;
      assert EntryOk(m, m.tracked[id].context, k, a);
      BelowContainer(m, m.ctx, a);
    }
  }

  lemma {:induction false} MoreKeepsContexts(m: Manager, id: string, attempts: seq<Attempt>, n: nat)
    requires HasContext(m, id) && n <= |attempts|
    ensures More(m, id, attempts, n).ctx == m.ctx && |m.contexts| <= |More(m, id, attempts, n).contexts|
    ensures More(m, id, attempts, n).contexts[..|m.contexts|] == m.contexts
  {
    StartsKeepContexts(Group(m.contexts, m.tracked[id].containers), m.tracked[id].context, attempts, n);
  }

  lemma {:induction false} StartsKeepContexts(g: Group, parent: nat, attempts: seq<Attempt>, n: nat)
    requires parent < |g.contexts| && n <= |attempts|
    ensures StartFirst(g, parent, attempts, n).contexts[..|g.contexts|] == g.contexts
    decreases n
  {
    if n == 0 {
    } else {
      StartsKeepContexts(g, parent, attempts, n - 1);
    }
  }

  /** A problem that stays tracked keeps its context. */
  lemma {:induction false} NextKeepsContext(m: Manager, op: Op, m': Manager, id: string)
    requires Inv(m) && Next(m, op, m') && id in m.tracked && id in m'.tracked
    ensures HasContext(m, id) && m'.tracked[id].context == m.tracked[id].context
  {
    KeptContext(m, id);
    hide Inv, AdjustStep, Cancelled;
    if op.Event? && op.instances != 0 && op.id in m.tracked {
      var n, removed := EventCases(m, op.id, op.instances, op.known, op.attempts, m', op.ok);
    }
  }

  /**
   In every run without `Destroy`, and whatever IDs are drawn and whichever starts fail: a tracked
   problem has as many running containers as entries, plus those overwritten since it was tracked.
   */
  lemma {:induction false} RunningIsCounted(states: seq<Manager>, ops: seq<Op>, id: string, i: nat, j: nat)
    requires Run(states, ops) && i < j <= |ops| && forall k :: 0 <= k < j ==> !ops[k].Destroy?
    requires id !in states[i].tracked && forall k :: i < k <= j ==> id in states[k].tracked
    ensures |LiveUnder(states[j].contexts, states[j].tracked[id].context)| ==
            |states[j].tracked[id].containers| + OverwrittenIn(states, ops, id, i + 1, j)
    decreases j
  {
    hide Inv, LiveUnder, Next;
    var last := j - 1;
    assert Next(states[last], ops[last], states[last + 1]);
    AliveUntilDestroyed(states, ops, last);
    if last == i {
      NewlyTracked(states[last], ops[last], states[j], id);
      assert OverwrittenIn(states, ops, id, j, j) == 0;
    } else {
      RunningIsCounted(states, ops, id, i, last);
      RunKeeps(states, ops, j);
      NextKeepsContext(states[last], ops[last], states[j], id);
      KeptContext(states[j], id);
      NextSurplus(states[last], ops[last], states[j], id, OverwrittenIn(states, ops, id, i + 1, last));
    }
  }

  lemma {:induction false} KeptContext(m: Manager, id: string)
    requires Inv(m) && id in m.tracked
    ensures HasContext(m, id)
  {
    assert TrackedOk(m, id);
  }

  lemma {:induction false} NewlyTracked(m: Manager, op: Op, m': Manager, id: string)
    requires Inv(m) && Next(m, op, m') && id !in m.tracked && id in m'.tracked
    ensures m'.tracked[id].containers == map[] && LiveUnder(m'.contexts, m'.tracked[id].context) == {}
  {
    assert op.Track? && op.id == id;
  }

  lemma {:induction false} NextKeepsDone(m: Manager, op: Op, m': Manager, c: nat)
    requires Inv(m) && Next(m, op, m') && c < |m.contexts| && m.contexts[c].done
    ensures c < |m'.contexts| && m'.contexts[c].done
  {
    hide Inv, HasContext, AdjustStep;
    if op.Event? && op.instances != 0 && op.id in m.tracked {
      var n, removed := EventCases(m, op.id, op.instances, op.known, op.attempts, m', op.ok);
      if op.instances > |m.tracked[op.id].containers| && op.known {
        MoreKeepsContexts(m, op.id, op.attempts, n);
        assert m'.contexts[..|m.contexts|][c] == m.contexts[c];
      }
    }
  }

  lemma {:induction false} DoneStays(states: seq<Manager>, ops: seq<Op>, i: nat, j: nat, c: nat)
    requires Run(states, ops) && i <= j < |states| && c < |states[i].contexts| && states[i].contexts[c].done
    ensures c < |states[j].contexts| && states[j].contexts[c].done
    decreases j
  {
    if i == j {
    } else {
      var last := j - 1;
      DoneStays(states, ops, i, last, c);
      RunKeeps(states, ops, last);
      NextKeepsDone(states[last], ops[last], states[j], c);
    }
  }

  /**
   Once a problem is untracked, nothing that this tracking started runs in any later state, overwritten
   containers included.
   */
  lemma {:induction false} UntrackedStaysStopped(states: seq<Manager>, ops: seq<Op>, i: nat, j: nat, id: string)
    requires Run(states, ops) && i < j < |states| && id in states[i].tracked
    requires ops[i] == Untrack(id, true) || (ops[i].Event? && ops[i].id == id && ops[i].instances == 0)
    ensures id !in states[i + 1].tracked
    ensures LiveUnder(states[j].contexts, states[i].tracked[id].context) == {}
  {
    var m, m', c := states[i], states[i + 1], states[i].tracked[id].context;
    assert Next(m, ops[i], m');
    RunKeeps(states, ops, i);
    RunKeeps(states, ops, j);
    UntrackKeeps(m, id, m', true);
    DoneStays(states, ops, i + 1, j, c);
    NothingUnderDone(states[j].contexts, c);
  }

  /** In every reachable state each running container belongs to a tracked problem. */
  lemma {:induction false} NothingRunsUntracked(states: seq<Manager>, ops: seq<Op>, i: nat, c: nat)
    requires Run(states, ops) && i < |states|
    requires states[i].ctx < c < |states[i].contexts| && !states[i].contexts[c].done
    ensures exists id :: id in states[i].tracked &&
                         (states[i].tracked[id].context == c || states[i].tracked[id].context ==
                           states[i].contexts[c].parent)
  {
    RunKeeps(states, ops, i);
    assert Owned(states[i], c);
  }

  /** After `Destroy` nothing runs, and nothing that is started later runs either. */
  lemma {:induction false} DestroyIsFinal(states: seq<Manager>, ops: seq<Op>, i: nat, j: nat, c: nat)
    requires Run(states, ops) && i < j < |states| && ops[i].Destroy?
    requires states[j].ctx <= c < |states[j].contexts|
    ensures states[j].contexts[c].done
  {
    assert Next(states[i], ops[i], states[i + 1]);
    RunKeeps(states, ops, i);
    RunKeeps(states, ops, j);
    DestroyKeeps(states[i], states[i + 1]);
    CtxStays(states, ops, i + 1);
    CtxStays(states, ops, j);
    DoneStays(states, ops, i + 1, j, states[i + 1].ctx);
    DoneBelow(states[j], c);
  }

  lemma {:induction false} CtxStays(states: seq<Manager>, ops: seq<Op>, i: nat)
    requires Run(states, ops) && i < |states|
    ensures states[i].ctx == Initial().ctx
    decreases i
  {
    if i == 0 {
    } else {
      CtxStays(states, ops, i - 1);
      assert Next(states[i - 1], ops[i - 1], states[i]);
    }
  }

  lemma {:induction false} DoneBelow(m: Manager, c: nat)
    requires Inv(m) && m.contexts[m.ctx].done && m.ctx <= c < |m.contexts|
    ensures m.contexts[c].done
    decreases c
  {
    if c == m.ctx {
    } else {
      DoneBelow(m, m.contexts[c].parent);
    }
  }
}
