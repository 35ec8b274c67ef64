/**
 Cancellation contexts as the container manager uses them: a tree in which `WithCancel` adds a child
 and cancelling a context cancels everything below it. A container runs until its context is done.
 */
module Contexts {

  /** A context names its parent by position; the outermost one has parent -1. */
  datatype Context = Context(parent: int, done: bool)

  /** Parents come before their children. */
  ghost predicate Rooted(tree: seq<Context>) {
    forall c :: 0 <= c < |tree| ==> -1 <= tree[c].parent < c
  }

  /** No context outlives its parent. */
  ghost predicate Closed(tree: seq<Context>) {
    forall c :: 0 <= c < |tree| && 0 <= tree[c].parent < c && tree[tree[c].parent].done ==> tree[c].done
  }

  /** Context `c` is `a` or hangs below `a`. */
  predicate Descends(tree: seq<Context>, c: nat, a: nat)
    requires c < |tree|
    decreases c
  {
    c == a || (0 <= tree[c].parent < c && Descends(tree, tree[c].parent, a))
  }

  /** `context.WithCancel(parent)`: a child of a done context is done from the start. */
  function NewChild(tree: seq<Context>, parent: nat): seq<Context>
    requires parent < |tree|
  {
    tree + [Context(parent, tree[parent].done)]
  }

  /** The effect of the cancel function of context `a`. */
  function Cancel(tree: seq<Context>, a: nat): seq<Context> {
    seq(|tree|, c requires 0 <= c < |tree| => tree[c].(done := tree[c].done || Descends(tree, c, a)))
  }

  /** The containers of a problem that run: the contexts under its context that are not done. */
  ghost function LiveUnder(tree: seq<Context>, a: nat): set<nat> {
    set c | 0 <= c < |tree| && tree[c].parent == a && !tree[c].done
  }

  /** `tree'` is `tree` after cancelling the contexts in `stopped`. */
  ghost predicate Cancelled(tree: seq<Context>, tree': seq<Context>, stopped: set<nat>) {
    && |tree'| == |tree|
    && forall c :: 0 <= c < |tree| ==>
         tree'[c].parent == tree[c].parent && (tree'[c].done <==> tree[c].done || BelowAny(tree, c, stopped))
  }

  ghost predicate BelowAny(tree: seq<Context>, c: nat, stopped: set<nat>)
    requires c < |tree|
  {
    exists a :: a in stopped && Descends(tree, c, a)
  }

  lemma {:induction false} DescendsUp(tree: seq<Context>, c: nat, a: nat)
    requires Rooted(tree) && c < |tree| && Descends(tree, c, a)
    ensures a <= c
    decreases c
  {
    if c == a {
    } else {
      DescendsUp(tree, tree[c].parent, a);
    }
  }

  lemma {:induction false} DescendsByParents(tree: seq<Context>, tree': seq<Context>, c: nat, a: nat)
    requires Rooted(tree) && Rooted(tree') && c < |tree| && c < |tree'|
    requires forall x :: 0 <= x <= c ==> tree[x].parent == tree'[x].parent
    ensures Descends(tree, c, a) <==> Descends(tree', c, a)
    decreases c
  {
    if c == a || tree[c].parent < 0 {
    } else {
      DescendsByParents(tree, tree', tree[c].parent, a);
    }
  }

  lemma {:induction false} NewChildKeeps(tree: seq<Context>, parent: nat)
    requires Rooted(tree) && Closed(tree) && parent < |tree|
    ensures Rooted(NewChild(tree, parent)) && Closed(NewChild(tree, parent))
    ensures LiveUnder(NewChild(tree, parent), parent) ==
            LiveUnder(tree, parent) + if tree[parent].done then {} else {|tree|}
  {
  }

  lemma {:induction false} CancelledKeeps(tree: seq<Context>, tree': seq<Context>, stopped: set<nat>)
    requires Rooted(tree) && Closed(tree) && Cancelled(tree, tree', stopped)
    ensures Rooted(tree') && Closed(tree')
  {
    forall c | 0 <= c < |tree'| && tree'[c].parent >= 0 && tree'[tree'[c].parent].done
      ensures tree'[c].done
    {
      var p := tree[c].parent;
      if !tree[p].done {
        var a :| a in stopped && Descends(tree, p, a);
        assert Descends(tree, c, a);
      }
    }
  }

  lemma {:induction false} CancelIsCancelled(tree: seq<Context>, a: nat)
    requires Rooted(tree)
    ensures Cancelled(tree, Cancel(tree, a), {a})
  {
    forall c: nat | c < |tree|
      ensures BelowAny(tree, c, {a}) <==> Descends(tree, c, a)
    {
      assert a in {a};
    }
  }

  /** Cancelling one more context. */
  lemma {:induction false} CancelMore(tree: seq<Context>, tree': seq<Context>, stopped: set<nat>, a: nat)
    requires Rooted(tree) && Cancelled(tree, tree', stopped)
    ensures Rooted(tree') && Cancelled(tree, Cancel(tree', a), stopped + {a})
  {
    forall c: nat | c < |tree|
      ensures Descends(tree', c, a) <==> Descends(tree, c, a)
    {
      DescendsByParents(tree, tree', c, a);
    }
    forall c: nat | c < |tree|
      ensures BelowAny(tree, c, stopped + {a}) <==> BelowAny(tree, c, stopped) || Descends(tree, c, a)
    {
      if BelowAny(tree, c, stopped) {
        var b :| b in stopped && Descends(tree, c, b);
        assert b in stopped + {a};
      }
      if Descends(tree, c, a) { assert a in stopped + {a}; }
    }
  }

  /** A cancelled context has nothing running under it. */
  lemma {:induction false} NothingUnderDone(tree: seq<Context>, a: nat)
    requires Rooted(tree) && Closed(tree) && a < |tree| && tree[a].done
    ensures LiveUnder(tree, a) == {}
  {
  }
}
