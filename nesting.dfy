/**
 * Projection scopes nest and never merge (transform.py:111-132).  A rewrite
 * records its continuation in slot 1 of the new projection, a node that stops
 * the upward walk.  Nothing the traversal does afterwards, short of recording
 * the continuation again, takes that stop away, and the traversal never
 * records a node again while its own subtree is being visited.  So a later
 * trigger whose walk climbs to the continuation stops there: its projection
 * goes inside the earlier one, as in `a[*].b[*].c`.
 */
module Nesting {
  import opened ProjectionSpec

  /** The recorded parent of `z` is a node that stops the upward walk. */
  predicate StopsWalk(s: State, z: nat)
    requires Closed(s)
  {
    z in s.parents && s.parents[z].0 < |s.kinds| && IsBoundary(s.kinds[s.parents[z].0])
  }

  /** The nodes recorded by `es`. */
  function Recorded(es: seq<Event>): set<nat>
  {
    set k | 0 <= k < |es| && es[k].Record? :: es[k].child
  }

  lemma RecordedAppend(a: seq<Event>, b: seq<Event>)
    ensures Recorded(a + b) == Recorded(a) + Recorded(b)
  {
    forall y | y in Recorded(a + b) ensures y in Recorded(a) + Recorded(b) {
      var k :| 0 <= k < |a + b| && (a + b)[k].Record? && (a + b)[k].child == y;
      if k >= |a| {
        assert b[k - |a|] == (a + b)[k];
      }
    }
    forall y | y in Recorded(a) ensures y in Recorded(a + b) {
      var k :| 0 <= k < |a| && a[k].Record? && a[k].child == y;
      assert (a + b)[k] == a[k];
    }
    forall y | y in Recorded(b) ensures y in Recorded(a + b) {
      var k :| 0 <= k < |b| && b[k].Record? && b[k].child == y;
      assert (a + b)[|a| + k] == b[k];
    }
  }

  /** The traversal of `n`'s subtree records exactly the nodes strictly below `n`. */
  lemma {:induction false} EventsRecorded(orig: seq<seq<nat>>, n: nat)
    requires Ordered(orig) && n < |orig|
    ensures Recorded(Events(orig, n)) == Subtree(orig, n) - {n}
    decreases n, |orig[n]| + 1
  {
    ChildEventsRecorded(orig, n, |orig[n]|);
    RecordedAppend(ChildEvents(orig, n, |orig[n]|), [Examine(n)]);
    assert Recorded([Examine(n)]) == {};
    assert n !in ChildSubtrees(orig, n, |orig[n]|);
  }

  lemma {:induction false} ChildEventsRecorded(orig: seq<seq<nat>>, n: nat, i: nat)
    requires Ordered(orig) && n < |orig| && i <= |orig[n]|
    ensures Recorded(ChildEvents(orig, n, i)) == ChildSubtrees(orig, n, i)
    decreases n, i
  {
    if i > 0 {
      var c := orig[n][i - 1];
      ChildEventsRecorded(orig, n, i - 1);
      EventsRecorded(orig, c);
      RecordedAppend(ChildEvents(orig, n, i - 1), [Record(c, n, i - 1)]);
      RecordedAppend(ChildEvents(orig, n, i - 1) + [Record(c, n, i - 1)], Events(orig, c));
      assert Recorded([Record(c, n, i - 1)]) == {c} by {
        assert [Record(c, n, i - 1)][0] == Record(c, n, i - 1);
      }
    } else {
      assert Recorded([]) == {};
    }
  }

  /**
   * No stretch of the traversal of `n`'s subtree records `n` itself or any
   * node that is not below `n`.
   */
  lemma SegmentRecordsBelow(orig: seq<seq<nat>>, n: nat, pre: seq<Event>, mid: seq<Event>, post: seq<Event>)
    requires Ordered(orig) && n < |orig| && Events(orig, n) == pre + mid + post
    ensures forall y | y in Recorded(mid) :: y < n
  {
    EventsRecorded(orig, n);
    RecordedAppend(pre, mid);
    RecordedAppend(pre + mid, post);
  }

  /** A rewrite keeps a walk-stopping parent of `z`: it re-records only its continuation, under a projection. */
  lemma RewriteKeepsStop(s: State, w: nat, z: nat)
    requires Sound(s) && w in s.parents && w < |s.kinds| && Triggers(s, w) && StopsWalk(s, z)
    ensures StopsWalk(Rewrite(s, w), z)
  {
    RewriteParents(s, w);
    if z == Continuation(s, w) {
      RewriteProjection(s, w);
    } else {
      RewriteNodes(s, w);
      assert Rewrite(s, w).parents[z] == s.parents[z];
    }
  }

  /** A step keeps a walk-stopping parent of `z` unless it records `z` again. */
  lemma StepKeepsStop(s: State, e: Event, z: nat)
    requires Closed(s) && StopsWalk(s, z) && !(e.Record? && e.child == z)
    ensures Closed(Step(s, e)) && StopsWalk(Step(s, e), z)
  {
    if e.Examine? && Sound(s) && e.node in s.parents && e.node < |s.kinds| && Triggers(s, e.node) {
      RewriteKeepsStop(s, e.node, z);
    }
  }

  /** A run keeps a walk-stopping parent of `z` when it never records `z`. */
  lemma {:induction false} RunKeepsStop(s: State, es: seq<Event>, z: nat)
    requires Closed(s) && StopsWalk(s, z) && z !in Recorded(es)
    ensures Closed(Run(s, es)) && StopsWalk(Run(s, es), z)
    decreases |es|
  {
    if es != [] {
      assert !(es[0].Record? && es[0].child == z);
      StepKeepsStop(s, es[0], z);
      RecordedAppend([es[0]], es[1..]);
      assert [es[0]] + es[1..] == es;
      RunKeepsStop(Step(s, es[0]), es[1..], z);
    }
  }

  /** The upward walk from `x` climbs to `z`: every node before `z` has a recorded parent that does not stop it. */
  predicate WalkReaches(s: State, x: nat, z: nat)
    requires Sound(s) && x in s.parents
    decreases |s.kinds| - x
  {
    x == z || (!IsBoundary(s.kinds[s.parents[x].0]) && WalkReaches(s, s.parents[x].0, z))
  }

  /** A walk that climbs to a node whose recorded parent stops it ends at that node. */
  lemma {:induction false} WalkStops(s: State, x: nat, z: nat)
    requires Sound(s) && x in s.parents && WalkReaches(s, x, z) && StopsWalk(s, z)
    ensures ScopeTop(s, x) == z
    decreases |s.kinds| - x
  {
    if x != z {
      WalkStops(s, s.parents[x].0, z);
    }
  }

  /**
   * Scopes nest: after the rewrite of `w`, and any further events that do not
   * record its continuation again, a walk that climbs to the continuation
   * stops at it, so the later projection is written inside the earlier one.
   */
  lemma ScopesNest(s: State, w: nat, es: seq<Event>, x: nat)
    requires Sound(s) && w in s.parents && w < |s.kinds| && Triggers(s, w)
    requires Continuation(s, w) !in Recorded(es)
    requires Sound(Run(Rewrite(s, w), es)) && x in Run(Rewrite(s, w), es).parents
    requires WalkReaches(Run(Rewrite(s, w), es), x, Continuation(s, w))
    ensures ScopeTop(Run(Rewrite(s, w), es), x) == Continuation(s, w)
  {
    var c := Continuation(s, w);
    RewriteNests(s, w);
    RunKeepsStop(Rewrite(s, w), es, c);
    WalkStops(Run(Rewrite(s, w), es), x, c);
  }

  /**
   * The same inside the traversal: the events between the rewrite of `w` and
   * a later examination are a stretch of the traversal of a subtree whose
   * root `n` is not below the continuation (the walk's top is an ancestor of
   * both triggers, and a fresh Identity is above every original node), so
   * they never record the continuation.
   */
  lemma ScopesNestInTraversal(s: State, w: nat, orig: seq<seq<nat>>, n: nat,
                              pre: seq<Event>, mid: seq<Event>, post: seq<Event>, x: nat)
    requires Sound(s) && w in s.parents && w < |s.kinds| && Triggers(s, w)
    requires Ordered(orig) && n < |orig| && Events(orig, n) == pre + mid + post && n <= Continuation(s, w)
    requires Sound(Run(Rewrite(s, w), mid)) && x in Run(Rewrite(s, w), mid).parents
    requires WalkReaches(Run(Rewrite(s, w), mid), x, Continuation(s, w))
    ensures ScopeTop(Run(Rewrite(s, w), mid), x) == Continuation(s, w)
  {
    SegmentRecordsBelow(orig, n, pre, mid, post);
    ScopesNest(s, w, mid, x);
  }
}
