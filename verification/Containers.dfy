/**
 What the operations of a container manager do to the containers of each problem, and what holds of
 them in every run. Random container IDs may collide, and container starts may fail.
 */
module Containers {
  import opened Int32
  import opened Contexts

  /** What `rand.Int32()` returns. */
  type Draw = x: int | 0 <= x <= 0x7FFF_FFFF

  const ID_COUNT := 2048

  /** One turn of the growing loop: the number drawn and whether `NewProblemContainer` succeeds. */
  datatype Attempt = Attempt(draw: Draw, started: bool)

  /** A `cmProblem`: its context, and its containers' contexts by container ID. */
  datatype Tracked = Tracked(context: nat, containers: map<int32, nat>)

  datatype Manager = Manager(contexts: seq<Context>, ctx: nat, tracked: map<string, Tracked>)

  function ContainerID(draw: Draw): int32 {
    draw % ID_COUNT
  }

  /** Two draws give the same ID exactly if they agree modulo 2048. */
  lemma {:induction false} SameID(a: Draw, b: Draw)
    ensures ContainerID(a) == ContainerID(b) <==> (a - b) % 2048 == 0
    ensures 0 <= ContainerID(a) < 2048
    ensures a < 2048 ==> ContainerID(a) == a
  {
  }

  // ---- Growing ------------------------------------------------------------------------

  datatype Group = Group(contexts: seq<Context>, containers: map<int32, nat>)

  /** A container whose ID is taken replaces the other one in the map, but does not stop it. */
  function StartOne(g: Group, parent: nat, draw: Draw): Group
    requires parent < |g.contexts|
  {
    Group(NewChild(g.contexts, parent), g.containers[ContainerID(draw) := |g.contexts|])
  }

  /** The first `n` attempts, all successful. */
  function StartFirst(g: Group, parent: nat, attempts: seq<Attempt>, n: nat): (r: Group)
    requires parent < |g.contexts| && n <= |attempts|
    ensures |r.contexts| == |g.contexts| + n
  {
    if n == 0 then g else StartOne(StartFirst(g, parent, attempts, n - 1), parent, attempts[n - 1].draw)
  }

  /** The first of `n` attempts that fails, or `n`. */
  function FirstFailure(attempts: seq<Attempt>, n: nat): (k: nat)
    requires n <= |attempts|
    ensures k <= n
    ensures forall i :: 0 <= i < k ==> attempts[i].started
    ensures k < n ==> !attempts[k].started
  {
    if n == 0 then 0
    else
      var k := FirstFailure(attempts, n - 1);
      if k < n - 1 || !attempts[n - 1].started then k else n
  }

  ghost function DrawnIDs(attempts: seq<Attempt>, n: nat): set<int32>
    requires n <= |attempts|
  {
    set i | 0 <= i < n :: ContainerID(attempts[i].draw)
  }

  /** How many of the first `n` containers take an ID that is in `ids` or was drawn before. */
  ghost function Collisions(ids: set<int32>, attempts: seq<Attempt>, n: nat): nat
    requires n <= |attempts|
  {
    if n == 0 then 0
    else
      var i := n - 1;
      Collisions(ids, attempts, i) + (if ContainerID(attempts[i].draw) in ids + DrawnIDs(attempts, i) then 1 else 0)
  }

  /** The first `n` draws give new IDs only. */
  ghost predicate Fresh(ids: set<int32>, attempts: seq<Attempt>, n: nat)
    requires n <= |attempts|
  {
    && (forall i :: 0 <= i < n ==> ContainerID(attempts[i].draw) !in ids)
    && (forall i, j :: 0 <= i < j < n ==> ContainerID(attempts[i].draw) != ContainerID(attempts[j].draw))
  }

  lemma {:induction false} FreshIsNoCollision(ids: set<int32>, attempts: seq<Attempt>, n: nat)
    requires n <= |attempts|
    ensures Fresh(ids, attempts, n) <==> Collisions(ids, attempts, n) == 0
    decreases n
  {
    if n == 0 {
    } else {
      var i := n - 1;
      FreshIsNoCollision(ids, attempts, i);
      if ContainerID(attempts[i].draw) in DrawnIDs(attempts, i) {
        var k :| 0 <= k < i && ContainerID(attempts[k].draw) == ContainerID(attempts[i].draw);
        assert !Fresh(ids, attempts, n);
      }
    }
  }

  lemma {:induction false} GroupStep(g: Group, parent: nat, attempts: seq<Attempt>, n: nat)
    requires parent < |g.contexts| && n < |attempts|
    ensures var before, id := StartFirst(g, parent, attempts, n).containers, ContainerID(attempts[n].draw);
            StartFirst(g, parent, attempts, n + 1).containers == before[id := |g.contexts| + n]
    ensures DrawnIDs(attempts, n + 1) == DrawnIDs(attempts, n) + {ContainerID(attempts[n].draw)}
    ensures Collisions(g.containers.Keys, attempts, n + 1) ==
            Collisions(g.containers.Keys, attempts, n) +
            if ContainerID(attempts[n].draw) in g.containers.Keys + DrawnIDs(attempts, n) then 1 else 0
  {
  }

  lemma {:induction false} GroupNone(g: Group, parent: nat, attempts: seq<Attempt>)
    requires parent < |g.contexts|
    ensures StartFirst(g, parent, attempts, 0) == g
    ensures DrawnIDs(attempts, 0) == {} && Collisions(g.containers.Keys, attempts, 0) == 0
  {
  }

  lemma {:induction false} GroupKeys(g: Group, parent: nat, attempts: seq<Attempt>, n: nat)
    requires parent < |g.contexts| && n <= |attempts|
    ensures StartFirst(g, parent, attempts, n).containers.Keys == g.containers.Keys + DrawnIDs(attempts, n)
    decreases n
  {
    hide *;
    if n == 0 {
      GroupNone(g, parent, attempts);
    } else {
      var i := n - 1;
      GroupKeys(g, parent, attempts, i);
      GroupStep(g, parent, attempts, i);
    }
  }

  lemma {:induction false} GroupSize(g: Group, parent: nat, attempts: seq<Attempt>, n: nat)
    requires parent < |g.contexts| && n <= |attempts|
    ensures |StartFirst(g, parent, attempts, n).containers| ==
            |g.containers| + n - Collisions(g.containers.Keys, attempts, n)
    decreases n
  {
    hide *;
    if n == 0 {
      GroupNone(g, parent, attempts);
    } else {
      var i := n - 1;
      GroupSize(g, parent, attempts, i);
      GroupKeys(g, parent, attempts, i);
      GroupStep(g, parent, attempts, i);
      CardOfUpdate(StartFirst(g, parent, attempts, i).containers, ContainerID(attempts[i].draw), |g.contexts| + i);
    }
  }

  lemma {:induction false} CardOfUpdate(m: map<int32, nat>, id: int32, c: nat)
    ensures m[id := c].Keys == m.Keys + {id}
    ensures |m[id := c]| == |m| + if id in m.Keys then 0 else 1
  {
    var m' := m[id := c];
    assert |m'| == |m'.Keys| && |m| == |m.Keys|;
    assert id in m ==> m'.Keys == m.Keys;
  }

  /** Every started container runs, whatever its ID. */
  lemma {:induction false} GroupLive(g: Group, parent: nat, attempts: seq<Attempt>, n: nat)
    requires parent < |g.contexts| && n <= |attempts| && !g.contexts[parent].done
    ensures !StartFirst(g, parent, attempts, n).contexts[parent].done
    ensures |LiveUnder(StartFirst(g, parent, attempts, n).contexts, parent)| == |LiveUnder(g.contexts, parent)| + n
    decreases n
  {
    if n == 0 {
    } else {
      var i := n - 1;
      GroupLive(g, parent, attempts, i);
      var before := StartFirst(g, parent, attempts, i).contexts;
      assert LiveUnder(NewChild(before, parent), parent) == LiveUnder(before, parent) + {|before|};
    }
  }

  // ---- Operations ---------------------------------------------------------------------

  predicate HasContext(m: Manager, id: string) {
    id in m.tracked && m.tracked[id].context < |m.contexts|
  }

  /** The manager with a new record under `id`. */
  function Registered(m: Manager, id: string): Manager
    requires m.ctx < |m.contexts|
  {
    Manager(NewChild(m.contexts, m.ctx), m.ctx, m.tracked[id := Tracked(|m.contexts|, map[])])
  }

  /** A problem is tracked under a new context, which hangs below the manager's own. */
  ghost predicate TrackStep(m: Manager, id: string, known: bool, m': Manager, ok: bool)
    requires m.ctx < |m.contexts|
  {
    && (ok <==> known)
    && m' == if !known || id in m.tracked then m else Registered(m, id)
  }

  ghost predicate UntrackStep(m: Manager, id: string, m': Manager, ok: bool) {
    && (ok <==> id in m.tracked)
    && (id !in m.tracked ==> m' == m)
    && (id in m.tracked ==>
          && m'.ctx == m.ctx && m'.tracked == m.tracked - {id}
          && Cancelled(m.contexts, m'.contexts, {m.tracked[id].context}))
  }

  /** The manager after the first `n` attempts. */
  function More(m: Manager, id: string, attempts: seq<Attempt>, n: nat): Manager
    requires HasContext(m, id) && n <= |attempts|
  {
    var t := m.tracked[id];
    var g := StartFirst(Group(m.contexts, t.containers), t.context, attempts, n);
    Manager(g.contexts, m.ctx, m.tracked[id := Tracked(t.context, g.containers)])
  }

  ghost function ContextsOf(containers: map<int32, nat>, ids: set<int32>): set<nat> {
    set i | i in ids && i in containers :: containers[i]
  }

  ghost predicate Shrunk(m: Manager, id: string, removed: set<int32>, m': Manager)
    requires id in m.tracked
  {
    var t := m.tracked[id];
    && m'.ctx == m.ctx
    && m'.tracked == m.tracked[id := Tracked(t.context, t.containers - removed)]
    && Cancelled(m.contexts, m'.contexts, ContextsOf(t.containers, removed))
  }

  /** Containers that must go: all of them when a negative number is asked for. */
  function Excess(have: nat, instances: int): nat
    requires instances <= have
  {
    if instances < 0 then have else have - instances
  }

  /** As many containers are removed as are too many. */
  ghost predicate ShrunkTo(m: Manager, id: string, instances: int, removed: set<int32>, m': Manager)
    requires id in m.tracked && instances <= |m.tracked[id].containers|
  {
    && removed <= m.tracked[id].containers.Keys
    && |removed| == Excess(|m.tracked[id].containers|, instances)
    && Shrunk(m, id, removed, m')
  }

  /** `adjustInstances`; which containers go is up to the order of Go's map iteration. */
  ghost predicate AdjustStep(m: Manager, id: string, instances: int, known: bool, attempts: seq<Attempt>, m': Manager,
                             ok: bool)
    requires HasContext(m, id)
  {
    var have := |m.tracked[id].containers|;
    if instances > have && !known then m' == m && !ok
    else if instances > have then
      && instances - have <= |attempts|
      && m' == More(m, id, attempts, FirstFailure(attempts, instances - have))
      && (ok <==> FirstFailure(attempts, instances - have) == instances - have)
    else
      && ok
      && exists removed :: ShrunkTo(m, id, instances, removed, m')
  }

  /** `HandleInstancesEvent`. */
  ghost predicate EventStep(m: Manager, id: string, instances: int32, known: bool, attempts: seq<Attempt>, m': Manager,
                            ok: bool)
    requires id in m.tracked ==> HasContext(m, id)
  {
    if instances == 0 then ok && UntrackStep(m, id, m', id in m.tracked)
    else if id !in m.tracked then m' == m && !ok
    else AdjustStep(m, id, instances, known, attempts, m', ok)
  }

  ghost predicate DestroyStep(m: Manager, m': Manager) {
    m'.ctx == m.ctx && m'.tracked == m.tracked && Cancelled(m.contexts, m'.contexts, {m.ctx})
  }

  // ---- Runs ---------------------------------------------------------------------------

  datatype Op =
    | Track(id: string, known: bool, ok: bool)
    | Untrack(id: string, ok: bool)
    | Event(id: string, instances: int32, known: bool, attempts: seq<Attempt>, ok: bool)
    | Destroy

  ghost predicate Next(m: Manager, op: Op, m': Manager) {
    match op
    case Track(id, known, ok) => m.ctx < |m.contexts| && TrackStep(m, id, known, m', ok)
    case Untrack(id, ok) => UntrackStep(m, id, m', ok)
    case Event(id, instances, known, attempts, ok) =>
      (id in m.tracked ==> HasContext(m, id)) && EventStep(m, id, instances, known, attempts, m', ok)
    case Destroy => DestroyStep(m, m')
  }

  /** The manager that `initCM` makes, below the context it is given. */
  function Initial(): Manager {
    Manager([Context(-1, false), Context(0, false)], 1, map[])
  }

  /** The entries of a tracked problem are containers under its context, and run unless the manager is destroyed. */
  ghost predicate TrackedOk(m: Manager, id: string)
    requires m.ctx < |m.contexts| && id in m.tracked
  {
    var t := m.tracked[id];
    && m.ctx < t.context < |m.contexts| && m.contexts[t.context].parent == m.ctx
    && (m.contexts[t.context].done ==> m.contexts[m.ctx].done)
    && (forall k :: k in t.containers ==> EntryOk(m, t.context, k, t.containers[k]))
    && (forall k, l :: k in t.containers && l in t.containers && t.containers[k] == t.containers[l] ==> k == l)
  }

  ghost predicate EntryOk(m: Manager, context: nat, k: int32, c: nat)
    requires m.ctx < |m.contexts|
  {
    && 0 <= k < ID_COUNT
    && context < c < |m.contexts| && m.contexts[c].parent == context
    && (m.contexts[c].done ==> m.contexts[m.ctx].done)
  }

  /** Context `c` is that of a tracked problem or of one of its containers. */
  ghost predicate Owned(m: Manager, c: nat)
    requires c < |m.contexts|
  {
    exists id :: id in m.tracked && (m.tracked[id].context == c || m.tracked[id].context == m.contexts[c].parent)
  }

  ghost predicate AllTrackedOk(m: Manager)
    requires m.ctx < |m.contexts|
  {
    forall id :: id in m.tracked ==> TrackedOk(m, id)
  }

  ghost predicate DistinctContexts(m: Manager) {
    forall id, other ::
      id in m.tracked && other in m.tracked && m.tracked[id].context == m.tracked[other].context ==> id == other
  }

  ghost predicate LiveIsOwned(m: Manager) {
    forall c :: m.ctx < c < |m.contexts| && !m.contexts[c].done ==> Owned(m, c)
  }

  ghost predicate BelowManager(m: Manager) {
    forall c :: m.ctx < c < |m.contexts| ==> m.contexts[c].parent >= m.ctx
  }

  ghost predicate Inv(m: Manager) {
    && Rooted(m.contexts) && Closed(m.contexts) && m.ctx < |m.contexts|
    && AllTrackedOk(m) && DistinctContexts(m) && LiveIsOwned(m) && BelowManager(m)
  }

  // ---- Every operation keeps the invariant ----------------------------------------------

  /** What cancelling reaches: nothing below a problem's context but the container itself. */
  lemma {:induction false} BelowContainer(m: Manager, c: nat, a: nat)
    requires Inv(m) && c < |m.contexts| && a < |m.contexts| && m.ctx < a
    ensures Descends(m.contexts, c, a) ==> a <= c
    ensures m.ctx < c && m.contexts[c].parent == m.ctx ==> (Descends(m.contexts, c, a) <==> c == a)
    ensures m.ctx < c && m.contexts[c].parent > m.ctx && m.contexts[m.contexts[c].parent].parent == m.ctx ==>
              (Descends(m.contexts, c, a) <==> c == a || m.contexts[c].parent == a)
  {
    if Descends(m.contexts, c, a) { DescendsUp(m.contexts, c, a); }
    if Descends(m.contexts, m.ctx, a) { DescendsUp(m.contexts, m.ctx, a); }
  }

  lemma {:induction false} TrackKeeps(m: Manager, id: string, known: bool, m': Manager, ok: bool)
    requires Inv(m) && TrackStep(m, id, known, m', ok)
    ensures Inv(m')
  {
    if m' != m {
      NewChildKeeps(m.contexts, m.ctx);
      TrackKeepsTracked(m, id, m');
      TrackKeepsOwned(m, id, m');
      TrackKeepsRest(m, id, m');
      hide TrackStep, Registered, AllTrackedOk, DistinctContexts, LiveIsOwned, BelowManager;
    }
  }

  lemma {:induction false} TrackKeepsRest(m: Manager, id: string, m': Manager)
    requires Inv(m) && id !in m.tracked
    requires m.ctx < |m.contexts| && m' == Registered(m, id)
    ensures DistinctContexts(m') && BelowManager(m')
  {
    hide LiveIsOwned, Closed;
    assert forall other :: other in m.tracked ==> TrackedOk(m, other);
  }

  lemma {:induction false} TrackKeepsTracked(m: Manager, id: string, m': Manager)
    requires Inv(m) && id !in m.tracked
    requires m.ctx < |m.contexts| && m' == Registered(m, id)
    requires Rooted(m'.contexts)
    ensures m'.ctx < |m'.contexts| && AllTrackedOk(m')
  {
    forall other | other in m'.tracked
      ensures TrackedOk(m', other)
    {
      if other != id {
        assert TrackedOk(m, other);
        forall k | k in m.tracked[other].containers
          ensures EntryOk(m', m.tracked[other].context, k, m.tracked[other].containers[k])
        {
          assert EntryOk(m, m.tracked[other].context, k, m.tracked[other].containers[k]);
        }
      }
    }
  }

  lemma {:induction false} TrackKeepsOwned(m: Manager, id: string, m': Manager)
    requires Inv(m) && id !in m.tracked
    requires m.ctx < |m.contexts| && m' == Registered(m, id)
    ensures LiveIsOwned(m')
  {
    forall c | m'.ctx < c < |m'.contexts| && !m'.contexts[c].done
      ensures Owned(m', c)
    {
      if c < |m.contexts| {
        OwnedStays(m, m', c);
      } else {
        assert m'.tracked[id].context == c;
      }
    }
  }

  /** An owner that is still tracked under the same context still owns. */
  lemma {:induction false} OwnedStays(m: Manager, m': Manager, c: nat)
    requires c < |m.contexts| && c < |m'.contexts| && m.contexts[c].parent == m'.contexts[c].parent
    requires Owned(m, c)
    requires forall id :: id in m.tracked ==> id in m'.tracked && m'.tracked[id].context == m.tracked[id].context
    ensures Owned(m', c)
  {
    var id :| id in m.tracked && (m.tracked[id].context == c || m.tracked[id].context == m.contexts[c].parent);
    assert m'.tracked[id].context == m.tracked[id].context;
  }

  /** The manager after one more container of problem `id`. */
  function OneMore(m: Manager, id: string, draw: Draw): Manager
    requires HasContext(m, id)
  {
    var t := m.tracked[id];
    var g := StartOne(Group(m.contexts, t.containers), t.context, draw);
    Manager(g.contexts, m.ctx, m.tracked[id := Tracked(t.context, g.containers)])
  }

  lemma {:induction false} OneMoreKeeps(m: Manager, id: string, draw: Draw)
    requires Inv(m) && HasContext(m, id)
    ensures Inv(OneMore(m, id, draw)) && HasContext(OneMore(m, id, draw), id)
  {
    ContextInTree(m, id);
    NewChildKeeps(m.contexts, m.tracked[id].context);
    OneMoreKeepsTracked(m, id, draw);
    OneMoreKeepsOwned(m, id, draw);
    OneMoreKeepsRest(m, id, draw);
    hide AllTrackedOk, DistinctContexts, LiveIsOwned, BelowManager, Rooted, Closed;
  }

  lemma {:induction false} ContextInTree(m: Manager, id: string)
    requires Inv(m) && HasContext(m, id)
    ensures m.ctx < m.tracked[id].context && m.contexts[m.tracked[id].context].parent == m.ctx
  {
    assert TrackedOk(m, id);
  }

  lemma {:induction false} OneMoreKeepsRest(m: Manager, id: string, draw: Draw)
    requires Inv(m) && HasContext(m, id)
    ensures DistinctContexts(OneMore(m, id, draw)) && BelowManager(OneMore(m, id, draw))
  {
    hide AllTrackedOk, LiveIsOwned, Closed;
    ContextInTree(m, id);
  }

  lemma {:induction false} OneMoreKeepsTracked(m: Manager, id: string, draw: Draw)
    requires Inv(m) && HasContext(m, id)
    ensures m.ctx < |OneMore(m, id, draw).contexts|
    ensures AllTrackedOk(OneMore(m, id, draw))
  {
    hide Inv, TrackedOk;
    CtxInRange(m);
    forall other | other in OneMore(m, id, draw).tracked
      ensures TrackedOk(OneMore(m, id, draw), other)
    {
      OneMoreKeepsProblem(m, id, draw, other);
    }
  }

  lemma {:induction false} CtxInRange(m: Manager)
    requires Inv(m)
    ensures m.ctx < |m.contexts|
  {
  }

  lemma {:induction false} OneMoreKeepsProblem(m: Manager, id: string, draw: Draw, other: string)
    requires Inv(m) && HasContext(m, id) && other in OneMore(m, id, draw).tracked
    ensures m.ctx < |OneMore(m, id, draw).contexts| && TrackedOk(OneMore(m, id, draw), other)
  {
    var m' := OneMore(m, id, draw);
    assert TrackedOk(m, id) && TrackedOk(m, other);
    hide Inv;
    var t, t' := m.tracked[other], m'.tracked[other];
    if other == id {
      NewEntryOk(m, id, draw);
    } else {
      OldEntriesOk(m, m', t, Context(m.tracked[id].context, m.contexts[m.tracked[id].context].done));
    }
  }

  lemma {:induction false} OldEntriesOk(m: Manager, m': Manager, t: Tracked, c: Context)
    requires m.ctx < |m.contexts| && m'.ctx == m.ctx && m'.contexts == m.contexts + [c]
    requires forall k :: k in t.containers ==> EntryOk(m, t.context, k, t.containers[k])
    ensures forall k :: k in t.containers ==> EntryOk(m', t.context, k, t.containers[k])
  {
  }

  lemma {:induction false} NewEntryOk(m: Manager, id: string, draw: Draw)
    requires m.ctx < |m.contexts| && HasContext(m, id) && TrackedOk(m, id)
    ensures TrackedOk(OneMore(m, id, draw), id)
  {
    var m', t := OneMore(m, id, draw), m.tracked[id];
    OldEntriesOk(m, m', t, m'.contexts[|m.contexts|]);
    assert m'.tracked[id].containers == t.containers[ContainerID(draw) := |m.contexts|];
    assert EntryOk(m', t.context, ContainerID(draw), |m.contexts|);
  }

  lemma {:induction false} OneMoreKeepsOwned(m: Manager, id: string, draw: Draw)
    requires Inv(m) && HasContext(m, id)
    ensures LiveIsOwned(OneMore(m, id, draw))
  {
    var m' := OneMore(m, id, draw);
    forall c | m'.ctx < c < |m'.contexts| && !m'.contexts[c].done
      ensures Owned(m', c)
    {
      if c < |m.contexts| {
        OwnedStays(m, m', c);
      } else {
        assert m'.tracked[id].context == m'.contexts[c].parent;
      }
    }
  }

  lemma {:induction false} MoreStep(m: Manager, id: string, attempts: seq<Attempt>, n: nat)
    requires HasContext(m, id) && n < |attempts|
    ensures HasContext(More(m, id, attempts, n), id)
    ensures More(m, id, attempts, n + 1) == OneMore(More(m, id, attempts, n), id, attempts[n].draw)
  {
    var t := m.tracked[id];
    var g := StartFirst(Group(m.contexts, t.containers), t.context, attempts, n);
    assert Group(g.contexts, g.containers) == g;
  }

  lemma {:induction false} MoreNone(m: Manager, id: string, attempts: seq<Attempt>)
    requires HasContext(m, id)
    ensures More(m, id, attempts, 0) == m
  {
    assert m.tracked[id := m.tracked[id]] == m.tracked;
  }

  lemma {:induction false} GrowKeeps(m: Manager, id: string, attempts: seq<Attempt>, n: nat)
    requires Inv(m) && HasContext(m, id) && n <= |attempts|
    ensures Inv(More(m, id, attempts, n)) && HasContext(More(m, id, attempts, n), id)
    decreases n
  {
    hide *;
    if n == 0 {
      MoreNone(m, id, attempts);
    } else {
      var i := n - 1;
      GrowKeeps(m, id, attempts, i);
      MoreStep(m, id, attempts, i);
      OneMoreKeeps(More(m, id, attempts, i), id, attempts[i].draw);
    }
  }

  lemma {:induction false} UntrackKeeps(m: Manager, id: string, m': Manager, ok: bool)
    requires Inv(m) && UntrackStep(m, id, m', ok)
    ensures Inv(m')
    ensures id in m.tracked ==> m.tracked[id].context < |m'.contexts| && m'.contexts[m.tracked[id].context].done
  {
    if id in m.tracked {
      var a := m.tracked[id].context;
      assert TrackedOk(m, id);
      CancelledKeeps(m.contexts, m'.contexts, {a});
      UntrackKeepsTracked(m, id, m', ok);
      UntrackKeepsOwned(m, id, m', ok);
      assert a in {a} && Descends(m.contexts, a, a);
    }
  }

  lemma {:induction false} UntrackKeepsTracked(m: Manager, id: string, m': Manager, ok: bool)
    requires Inv(m) && UntrackStep(m, id, m', ok) && id in m.tracked
    ensures Rooted(m'.contexts) && forall other :: other in m'.tracked ==> TrackedOk(m', other)
  {
    var a := m.tracked[id].context;
    assert TrackedOk(m, id);
    forall other | other in m'.tracked
      ensures TrackedOk(m', other)
    {
      assert TrackedOk(m, other);
      var t := m.tracked[other];
      BelowContainer(m, t.context, a);
      forall k | k in t.containers
        ensures EntryOk(m', t.context, k, t.containers[k])
      {
        assert EntryOk(m, t.context, k, t.containers[k]);
        BelowContainer(m, t.containers[k], a);
      }
    }
  }

  lemma {:induction false} UntrackKeepsOwned(m: Manager, id: string, m': Manager, ok: bool)
    requires Inv(m) && UntrackStep(m, id, m', ok) && id in m.tracked
    ensures forall c :: m'.ctx < c < |m'.contexts| && !m'.contexts[c].done ==> Owned(m', c)
  {
    var a := m.tracked[id].context;
    forall c | m'.ctx < c < |m'.contexts| && !m'.contexts[c].done
      ensures Owned(m', c)
    {
      assert Owned(m, c);
      var other :| other in m.tracked &&
          (m.tracked[other].context == c || m.tracked[other].context == m.contexts[c].parent);
      if other == id {
        assert Descends(m.contexts, c, a) && a in {a};
        assert false;
      }
      assert m'.tracked[other].context == m.tracked[other].context;
    }
  }

  lemma {:induction false} ShrinkKeeps(m: Manager, id: string, removed: set<int32>, m': Manager)
    requires Inv(m) && id in m.tracked && removed <= m.tracked[id].containers.Keys && Shrunk(m, id, removed, m')
    ensures Inv(m')
  {
    var stopped := ContextsOf(m.tracked[id].containers, removed);
    CancelledKeeps(m.contexts, m'.contexts, stopped);
    ShrinkKeepsAll(m, id, removed, m');
    ShrinkKeepsOwned(m, id, removed, m');
    hide AllTrackedOk, DistinctContexts, LiveIsOwned, BelowManager, Rooted, Closed;
  }

  lemma {:induction false} ShrinkKeepsAll(m: Manager, id: string, removed: set<int32>, m': Manager)
    requires Inv(m) && id in m.tracked && removed <= m.tracked[id].containers.Keys && Shrunk(m, id, removed, m')
    requires Rooted(m'.contexts)
    ensures AllTrackedOk(m')
  {
    forall other | other in m'.tracked
      ensures TrackedOk(m', other)
    {
      ShrinkKeepsTracked(m, id, removed, m', other);
    }
  }

  lemma {:induction false} ShrinkKeepsOwned(m: Manager, id: string, removed: set<int32>, m': Manager)
    requires Inv(m) && id in m.tracked && Shrunk(m, id, removed, m')
    ensures LiveIsOwned(m') && DistinctContexts(m') && BelowManager(m')
  {
    forall c | m'.ctx < c < |m'.contexts| && !m'.contexts[c].done
      ensures Owned(m', c)
    {
      OwnedStays(m, m', c);
    }
  }

  lemma {:induction false} ShrinkStops(m: Manager, id: string, removed: set<int32>, c: nat)
    requires Inv(m) && id in m.tracked && TrackedOk(m, id) && removed <= m.tracked[id].containers.Keys &&
             c < |m.contexts|
    requires m.ctx < c && m.contexts[c].parent >= m.ctx
    requires m.contexts[c].parent > m.ctx ==> m.contexts[m.contexts[c].parent].parent == m.ctx
    ensures BelowAny(m.contexts, c, ContextsOf(m.tracked[id].containers, removed)) <==>
            c in ContextsOf(m.tracked[id].containers, removed)
  {
    var stopped := ContextsOf(m.tracked[id].containers, removed);
    forall a | a in stopped
      ensures Descends(m.contexts, c, a) <==> c == a
    {
      var k :| k in removed && m.tracked[id].containers[k] == a;
      assert EntryOk(m, m.tracked[id].context, k, a);
      BelowContainer(m, c, a);
    }
  }

  lemma {:induction false} ShrinkKeepsTracked(m: Manager, id: string, removed: set<int32>, m': Manager, other: string)
    requires Inv(m) && id in m.tracked && removed <= m.tracked[id].containers.Keys && Shrunk(m, id, removed, m')
    requires Rooted(m'.contexts) && other in m'.tracked
    ensures TrackedOk(m', other)
  {
    assert TrackedOk(m, id) && TrackedOk(m, other);
    ShrinkStops(m, id, removed, m.tracked[other].context);
    hide Inv, ContextsOf, BelowAny;
    ShrinkKeepsEntries(m, id, removed, m', other);
  }

  lemma {:induction false} ShrinkKeepsEntries(m: Manager, id: string, removed: set<int32>, m': Manager, other: string)
    requires Inv(m) && id in m.tracked && removed <= m.tracked[id].containers.Keys && Shrunk(m, id, removed, m')
    requires other in m'.tracked && TrackedOk(m, id) && TrackedOk(m, other)
    ensures forall k :: k in m'.tracked[other].containers ==>
                          EntryOk(m', m'.tracked[other].context, k, m'.tracked[other].containers[k])
  {
    var t, t' := m.tracked[other], m'.tracked[other];
    forall k | k in t'.containers
      ensures EntryOk(m', t.context, k, t.containers[k])
    {
      assert EntryOk(m, t.context, k, t.containers[k]);
      ShrinkStops(m, id, removed, t.containers[k]);
    }
  }

  lemma {:induction false} DestroyKeeps(m: Manager, m': Manager)
    requires Inv(m) && DestroyStep(m, m')
    ensures Inv(m') && m'.contexts[m'.ctx].done
  {
    CancelledKeeps(m.contexts, m'.contexts, {m.ctx});
    assert m.ctx in {m.ctx} && Descends(m.contexts, m.ctx, m.ctx);
    forall id | id in m'.tracked
      ensures TrackedOk(m', id)
    {
      assert TrackedOk(m, id);
    }
    forall c | m'.ctx < c < |m'.contexts| && !m'.contexts[c].done
      ensures Owned(m', c)
    {
      OwnedStays(m, m', c);
    }
  }

  lemma {:induction false} EventKeeps(m: Manager, id: string, instances: int32, known: bool, attempts: seq<Attempt>,
                                      m': Manager, ok: bool)
    requires Inv(m) && (id in m.tracked ==> HasContext(m, id)) && EventStep(m, id, instances, known, attempts, m', ok)
    ensures Inv(m')
  {
    hide Inv;
    if instances == 0 {
      UntrackKeeps(m, id, m', id in m.tracked);
    } else if id in m.tracked {
      var have := |m.tracked[id].containers|;
      if instances > have && known {
        GrowKeeps(m, id, attempts, FirstFailure(attempts, instances - have));
      } else if instances <= have {
        var removed :| ShrunkTo(m, id, instances, removed, m');
        ShrinkKeeps(m, id, removed, m');
      }
    }
  }

  lemma {:induction false} NextKeeps(m: Manager, op: Op, m': Manager)
    requires Inv(m) && Next(m, op, m')
    ensures Inv(m')
  {
    hide Inv, TrackStep, UntrackStep, EventStep, DestroyStep;
    match op
    case Track(id, known, ok) => TrackKeeps(m, id, known, m', ok);
    case Untrack(id, ok) => UntrackKeeps(m, id, m', ok);
    case Event(id, instances, known, attempts, ok) => EventKeeps(m, id, instances, known, attempts, m', ok);
    case Destroy => DestroyKeeps(m, m');
  }

  ghost predicate Run(states: seq<Manager>, ops: seq<Op>) {
    && |states| == |ops| + 1
    && states[0] == Initial()
    && (forall i :: 0 <= i < |ops| ==> Next(states[i], ops[i], states[i + 1]))
  }

  lemma {:induction false} RunKeeps(states: seq<Manager>, ops: seq<Op>, i: nat)
    requires Run(states, ops) && i < |states|
    ensures Inv(states[i])
    decreases i
  {
    if i == 0 {
    } else {
      RunKeeps(states, ops, i - 1);
      NextKeeps(states[i - 1], ops[i - 1], states[i]);
    }
  }
}
