/**
 * Why the traversal reads the original tree: the invariants one visit of a
 * subtree keeps, proved over the event fold of ProjectionSpec.
 *
 * While a node `y` iterates its slot `stack[y]`, the only slots of original
 * nodes a rewrite can overwrite are the slots being iterated (`stack`) and
 * slots inside the subtree being visited.  Every later sibling is therefore
 * still untouched when its turn comes, which is why the events can be
 * computed from the original children.
 */
module Traversal {
  import opened ProjectionSpec

  /** `r` keeps every node of `s`, with its kind and its number of children. */
  predicate Extends(s: State, r: State)
    requires Closed(s) && Closed(r)
  {
    && |s.kinds| <= |r.kinds|
    && forall y | 0 <= y < |s.kinds| :: r.kinds[y] == s.kinds[y] && |r.children[y]| == |s.children[y]|
  }

  /**
   * The recorded parent of original node `z` is either a node allocated by
   * the transform that stops projections (the virtual parent or a
   * projection), or an original node iterating exactly the slot `z` holds.
   */
  predicate StackEntry(s: State, orig: seq<seq<nat>>, stack: map<nat, nat>, z: nat)
    requires Closed(s)
  {
    && z in s.parents && z < |orig|
    && var y := s.parents[z].0;
       var t := s.parents[z].1;
       || (|orig| <= y < |s.kinds| && IsBoundary(s.kinds[y]))
       || (y in stack && t == stack[y] && y < |orig| && t < |orig[y]| && orig[y][t] == z)
  }

  predicate StackSound(s: State, orig: seq<seq<nat>>, stack: map<nat, nat>)
    requires Closed(s)
  {
    forall y | y in stack :: StackEntry(s, orig, stack, y)
  }

  /** The only original slots that differ between `s` and `r` are in rows of `region` or are being iterated. */
  predicate Framed(s: State, r: State, orig: seq<seq<nat>>, stack: map<nat, nat>, region: set<nat>)
    requires Closed(s) && Closed(r) && Extends(s, r) && |orig| <= |s.kinds|
  {
    forall y, j | 0 <= y < |orig| && 0 <= j < |s.children[y]| && r.children[y][j] != s.children[y][j] ::
      y in region || (y in stack && j == stack[y])
  }

  /** Frames compose: the changes of two stretches lie in the union of their regions. */
  lemma FramedTrans(s: State, m: State, r: State, orig: seq<seq<nat>>, stack: map<nat, nat>, a: set<nat>, b: set<nat>)
    requires Closed(s) && Closed(m) && Closed(r) && |orig| <= |s.kinds|
    requires Extends(s, m) && Extends(m, r) && Framed(s, m, orig, stack, a) && Framed(m, r, orig, stack, b)
    ensures Extends(s, r) && Framed(s, r, orig, stack, a + b)
  {
    forall y, j | 0 <= y < |orig| && 0 <= j < |s.children[y]| && r.children[y][j] != s.children[y][j]
      ensures y in a + b || (y in stack && j == stack[y])
    {
      if r.children[y][j] == m.children[y][j] {
        assert m.children[y][j] != s.children[y][j];
      }
    }
  }

  /** What holds when the visit of `node` begins, its ancestors iterating the slots in `stack`. */
  predicate Pre(s: State, orig: seq<seq<nat>>, stack: map<nat, nat>, node: nat)
  {
    && Sound(s) && RawTree(orig) && node < |orig| <= |s.kinds|
    && (forall y | 0 <= y < |orig| :: |s.children[y]| == |orig[y]|)
    && (forall y | y in stack :: node < y < |orig|)
    && StackEntry(s, orig, stack, node)
    && StackSound(s, orig, stack)
    && (forall y | y in Subtree(orig, node) :: s.children[y] == orig[y])
  }

  /** Climbing from a node whose entry is sound ends at that node or at a node on the stack. */
  lemma {:induction false} ScopeTopOnStack(s: State, orig: seq<seq<nat>>, stack: map<nat, nat>, x: nat)
    requires Sound(s) && |orig| <= |s.kinds|
    requires StackEntry(s, orig, stack, x) && StackSound(s, orig, stack)
    ensures ScopeTop(s, x) == x || ScopeTop(s, x) in stack
    decreases |s.kinds| - x
  {
    var p := s.parents[x].0;
    if !IsBoundary(s.kinds[p]) {
      ScopeTopOnStack(s, orig, stack, p);
    }
  }

  /** A rewrite during a visit writes only slots being iterated (or slots of nodes the transform allocated). */
  lemma ExamineFramed(s: State, orig: seq<seq<nat>>, stack: map<nat, nat>, w: nat, r: State)
    requires Sound(s) && |orig| <= |s.kinds| && w < |s.kinds| && Triggers(s, w)
    requires StackEntry(s, orig, stack, w) && StackSound(s, orig, stack) && Rewrites(s, w, r)
    ensures Extends(s, r) && Framed(s, r, orig, stack, {})
  {
    ScopeTopOnStack(s, orig, stack, w);
    var top := ScopeTop(s, w);
    assert StackEntry(s, orig, stack, top);
    forall y, j | 0 <= y < |orig| && 0 <= j < |s.children[y]| && r.children[y][j] != s.children[y][j]
      ensures y in stack && j == stack[y]
    {
      if (y, j) == s.parents[top] {
        assert StackEntry(s, orig, stack, top);
      } else {
        assert s.parents[w] == (y, 0);
      }
    }
  }

  /** A rewrite during a visit keeps the entries of the nodes being iterated sound. */
  lemma ExamineStack(s: State, orig: seq<seq<nat>>, stack: map<nat, nat>, w: nat, r: State)
    requires Sound(s) && |orig| <= |s.kinds| && w < |s.kinds| && Triggers(s, w)
    requires StackEntry(s, orig, stack, w) && StackSound(s, orig, stack) && Rewrites(s, w, r)
    ensures StackSound(r, orig, stack)
  {
    forall y | y in stack
      ensures StackEntry(r, orig, stack, y)
    {
      assert StackEntry(s, orig, stack, y);
    }
  }

  /** What one visit of `node`'s subtree keeps, from `s` to `r`. */
  predicate Post(s: State, r: State, orig: seq<seq<nat>>, stack: map<nat, nat>, node: nat)
    requires Pre(s, orig, stack, node)
  {
    && Sound(r) && Extends(s, r) && StackSound(r, orig, stack)
    && Framed(s, r, orig, stack, Subtree(orig, node))
  }

  /** What holds after `node` has recorded and visited its first `i` children. */
  predicate ChildrenPost(s: State, r: State, orig: seq<seq<nat>>, stack: map<nat, nat>, node: nat, i: nat)
    requires Pre(s, orig, stack, node) && i <= |orig[node]|
  {
    && Sound(r) && Extends(s, r) && StackSound(r, orig, stack) && StackEntry(r, orig, stack, node)
    && Framed(s, r, orig, stack, ChildSubtrees(orig, node, i) + {node})
    && forall j | i <= j < |orig[node]| :: r.children[node][j] == orig[node][j]
  }

  /** Before `node` iterates slot `i`, the subtree under that slot is still the original one. */
  lemma ChildPristine(s: State, m: State, orig: seq<seq<nat>>, stack: map<nat, nat>, node: nat, i: nat)
    requires Pre(s, orig, stack, node) && i < |orig[node]| && ChildrenPost(s, m, orig, stack, node, i)
    ensures forall y | y in Subtree(orig, orig[node][i]) :: m.children[y] == orig[y]
  {
    ChildSubtree(orig, node, i);
    ChildSubtreesDisjoint(orig, node, i);
    forall y | y in Subtree(orig, orig[node][i])
      ensures m.children[y] == orig[y]
    {
      forall j | 0 <= j < |s.children[y]|
        ensures m.children[y][j] == s.children[y][j]
      {
      }
    }
  }

  /** Recording the child of slot `i` and pushing `node` keeps every stack entry sound. */
  lemma ChildStack(m: State, orig: seq<seq<nat>>, stack: map<nat, nat>, node: nat, i: nat)
    requires Closed(m) && Ordered(orig) && node < |orig| && i < |orig[node]|
    requires forall y | y in stack :: node < y < |orig|
    requires StackSound(m, orig, stack) && StackEntry(m, orig, stack, node)
    ensures var m' := Step(m, Record(orig[node][i], node, i));
      StackSound(m', orig, stack[node := i]) && StackEntry(m', orig, stack[node := i], orig[node][i])
  {
    var m' := Step(m, Record(orig[node][i], node, i));
    var stack' := stack[node := i];
    forall y | y in stack'
      ensures StackEntry(m', orig, stack', y)
    {
      assert StackEntry(m, orig, stack, y);
    }
  }

  /**
   * Before `node` iterates slot `i`, that slot still holds its original
   * child, and recording that child puts the state in the shape its own
   * visit needs, with `node` now on the stack.
   */
  lemma RecordChildPre(s: State, m: State, orig: seq<seq<nat>>, stack: map<nat, nat>, node: nat, i: nat)
    requires Pre(s, orig, stack, node) && i < |orig[node]| && ChildrenPost(s, m, orig, stack, node, i)
    ensures m.children[node][i] == orig[node][i]
    ensures Pre(Step(m, Record(orig[node][i], node, i)), orig, stack[node := i], orig[node][i])
  {
    RecordSound(m, orig[node][i], node, i);
    ChildPristine(s, m, orig, stack, node, i);
    ChildStack(m, orig, stack, node, i);
  }

  /** One more iterated slot: the child's visit, seen from `node`, keeps what `node`'s loop keeps. */
  lemma ChildStepKeeps(s: State, m: State, r: State, orig: seq<seq<nat>>, stack: map<nat, nat>, node: nat, i: nat)
    requires Pre(s, orig, stack, node) && i < |orig[node]| && ChildrenPost(s, m, orig, stack, node, i)
    requires Pre(Step(m, Record(orig[node][i], node, i)), orig, stack[node := i], orig[node][i])
    requires Post(Step(m, Record(orig[node][i], node, i)), r, orig, stack[node := i], orig[node][i])
    ensures ChildrenPost(s, r, orig, stack, node, i + 1)
  {
    var c := orig[node][i];
    var stack' := stack[node := i];
    var m' := Step(m, Record(c, node, i));
    assert ChildSubtrees(orig, node, i + 1) == ChildSubtrees(orig, node, i) + Subtree(orig, c);
    forall y | y in stack
      ensures StackEntry(r, orig, stack, y)
    {
      assert StackEntry(r, orig, stack', y);
    }
    assert StackEntry(r, orig, stack', node);
    forall y, j | 0 <= y < |orig| && 0 <= j < |s.children[y]| && r.children[y][j] != s.children[y][j]
      ensures y in ChildSubtrees(orig, node, i + 1) + {node} || (y in stack && j == stack[y])
    {
      if r.children[y][j] == m'.children[y][j] {
        assert m.children[y][j] != s.children[y][j];
      }
    }
  }

  /** A node that does not trigger is left as it is. */
  lemma ExamineSkipKeeps(s: State, m: State, orig: seq<seq<nat>>, stack: map<nat, nat>, node: nat)
    requires Pre(s, orig, stack, node) && ChildrenPost(s, m, orig, stack, node, |orig[node]|)
    requires !Triggers(m, node)
    ensures Post(s, Step(m, Examine(node)), orig, stack, node)
  {
    assert Subtree(orig, node) == {node} + ChildSubtrees(orig, node, |orig[node]|);
    assert Step(m, Examine(node)) == m;
  }

  /** A trigger's rewrite adds only writes to iterated slots. */
  lemma ExamineRewriteKeeps(s: State, m: State, orig: seq<seq<nat>>, stack: map<nat, nat>, node: nat)
    requires Pre(s, orig, stack, node) && ChildrenPost(s, m, orig, stack, node, |orig[node]|)
    requires Triggers(m, node)
    ensures Post(s, Step(m, Examine(node)), orig, stack, node)
  {
    assert Subtree(orig, node) == ChildSubtrees(orig, node, |orig[node]|) + {node};
    assert Step(m, Examine(node)) == Rewrite(m, node);
    RewriteRewrites(m, node);
    RewriteWithin(s, m, orig, stack, node, Subtree(orig, node), Rewrite(m, node));
  }

  /** A rewrite adds no change outside what the stack allows to the changes made so far. */
  lemma RewriteWithin(s: State, m: State, orig: seq<seq<nat>>, stack: map<nat, nat>, w: nat, region: set<nat>, r: State)
    requires Closed(s) && Sound(m) && |orig| <= |s.kinds| && w < |m.kinds| && Triggers(m, w)
    requires Extends(s, m) && Framed(s, m, orig, stack, region)
    requires StackEntry(m, orig, stack, w) && StackSound(m, orig, stack) && Rewrites(m, w, r)
    ensures Sound(r) && Extends(s, r) && StackSound(r, orig, stack)
    ensures Framed(s, r, orig, stack, region)
  {
    ExamineFramed(m, orig, stack, w, r);
    ExamineStack(m, orig, stack, w, r);
    FramedTrans(s, m, r, orig, stack, region, {});
    assert region + {} == region;
  }

  /** The final examination keeps what the visit of `node` promises. */
  lemma ExamineStepKeeps(s: State, m: State, orig: seq<seq<nat>>, stack: map<nat, nat>, node: nat)
    requires Pre(s, orig, stack, node) && ChildrenPost(s, m, orig, stack, node, |orig[node]|)
    ensures Post(s, Step(m, Examine(node)), orig, stack, node)
  {
    if Triggers(m, node) {
      ExamineRewriteKeeps(s, m, orig, stack, node);
    } else {
      ExamineSkipKeeps(s, m, orig, stack, node);
    }
  }

  /** Visiting the first `i` children keeps the state sound, the stack entries sound and the frame. */
  lemma {:induction false} ChildEventsKeep(s: State, orig: seq<seq<nat>>, stack: map<nat, nat>, node: nat, i: nat)
    requires Pre(s, orig, stack, node) && i <= |orig[node]|
    ensures ChildrenPost(s, Run(s, ChildEvents(orig, node, i)), orig, stack, node, i)
    decreases node, i
  {
    if i > 0 {
      ChildEventsKeep(s, orig, stack, node, i - 1);
      var m := Run(s, ChildEvents(orig, node, i - 1));
      var c := orig[node][i - 1];
      var m' := Step(m, Record(c, node, i - 1));
      RecordChildPre(s, m, orig, stack, node, i - 1);
      EventsKeep(m', orig, stack[node := i - 1], c);
      RunAppend(s, ChildEvents(orig, node, i - 1), [Record(c, node, i - 1)]);
      RunSingle(m, Record(c, node, i - 1));
      RunAppend(s, ChildEvents(orig, node, i - 1) + [Record(c, node, i - 1)], Events(orig, c));
      ChildStepKeeps(s, m, Run(m', Events(orig, c)), orig, stack, node, i - 1);
    } else {
      assert Run(s, ChildEvents(orig, node, i)) == s;
    }
  }

  /** The facts the loop of the imperative visit reads during and after its iterations. */
  lemma ChildEventsShape(s: State, orig: seq<seq<nat>>, stack: map<nat, nat>, node: nat, i: nat)
    requires Pre(s, orig, stack, node) && i <= |orig[node]|
    ensures var r := Run(s, ChildEvents(orig, node, i));
      && Sound(r) && node in r.parents && node < |r.kinds|
      && |r.children[node]| == |orig[node]|
  {
    ChildEventsKeep(s, orig, stack, node, i);
  }

  /** Visiting `node`'s subtree keeps the state sound, the stack entries sound and the frame. */
  lemma {:induction false} EventsKeep(s: State, orig: seq<seq<nat>>, stack: map<nat, nat>, node: nat)
    requires Pre(s, orig, stack, node)
    ensures Post(s, Run(s, Events(orig, node)), orig, stack, node)
    decreases node, |orig[node]| + 1
  {
    var all := ChildEvents(orig, node, |orig[node]|);
    ChildEventsKeep(s, orig, stack, node, |orig[node]|);
    var m := Run(s, all);
    RunAppend(s, all, [Examine(node)]);
    RunSingle(m, Examine(node));
    ExamineStepKeeps(s, m, orig, stack, node);
  }

  // ---------------------------------------------------------------------------
  // The whole transform
  // ---------------------------------------------------------------------------

  /** Lines 75-77: a fresh virtual parent whose one slot holds the sentinel; the root is recorded in that slot. */
  function Initial(s: State, root: nat, sentinel: nat): (r: State)
    requires Closed(s) && root < |s.kinds| && sentinel < |s.kinds|
    ensures Sound(r) && |r.kinds| == |s.kinds| + 1
    ensures r.kinds[|s.kinds|] == VirtualParent && r.children[|s.kinds|] == [sentinel]
    ensures forall y | 0 <= y < |s.kinds| :: r.kinds[y] == s.kinds[y] && r.children[y] == s.children[y]
    ensures r.parents == map[root := (|s.kinds|, 0)]
  {
    State(s.kinds + [VirtualParent], s.children + [[sentinel]], map[root := (|s.kinds|, 0)])
  }

  /** The state after the traversal of the whole tree from its root (line 78). */
  function Final(s: State, root: nat, sentinel: nat): State
    requires Closed(s) && RawTree(s.children) && root < |s.kinds| && sentinel < |s.kinds|
  {
    Run(Initial(s, root, sentinel), Events(s.children, root))
  }

  /**
   * The transform keeps the arena sound, keeps every node with its kind and
   * number of children, and changes no child slot of an original node
   * outside the subtree of the root.
   */
  lemma TransformKeeps(s: State, root: nat, sentinel: nat)
    requires Closed(s) && RawTree(s.children) && root < |s.kinds| && sentinel < |s.kinds|
    ensures Sound(Final(s, root, sentinel))
    ensures Extends(Initial(s, root, sentinel), Final(s, root, sentinel))
    ensures forall y, j | 0 <= y < |s.kinds| && 0 <= j < |s.children[y]| && y !in Subtree(s.children, root) ::
      Final(s, root, sentinel).children[y][j] == s.children[y][j]
  {
    InitialPre(s, root, sentinel);
    EventsKeep(Initial(s, root, sentinel), s.children, map[], root);
  }

  /** The traversal starts at the root with nothing on the stack. */
  lemma InitialPre(s: State, root: nat, sentinel: nat)
    requires Closed(s) && RawTree(s.children) && root < |s.kinds| && sentinel < |s.kinds|
    ensures Pre(Initial(s, root, sentinel), s.children, map[], root)
  {
    assert StackEntry(Initial(s, root, sentinel), s.children, map[], root);
  }

  /** Lines 83-86: the virtual parent's new child when the sentinel was replaced, and the root otherwise. */
  function TransformResult(s: State, root: nat, sentinel: nat): (result: nat)
    requires Closed(s) && RawTree(s.children) && root < |s.kinds| && sentinel < |s.kinds|
    ensures result < |Final(s, root, sentinel).kinds|
    ensures var kinds := Final(s, root, sentinel).kinds;
      result == root || kinds[result] == Projection || kinds[result] == ValueProjection
  {
    TransformKeeps(s, root, sentinel);
    RunRootSlot(Initial(s, root, sentinel), Events(s.children, root), |s.kinds|, sentinel);
    var t := Final(s, root, sentinel);
    if t.children[|s.kinds|][0] != sentinel then t.children[|s.kinds|][0] else root
  }

  /** The virtual parent's one slot holds the sentinel or a projection node. */
  predicate RootSlot(s: State, vp: nat, sentinel: nat)
  {
    && Closed(s) && vp < |s.kinds| && s.kinds[vp] == VirtualParent && |s.children[vp]| == 1
    && (s.children[vp][0] == sentinel
        || s.kinds[s.children[vp][0]] == Projection || s.kinds[s.children[vp][0]] == ValueProjection)
  }

  /**
   * A rewrite never leaves a bare Identity in the virtual parent's slot: a
   * trigger recorded there is its own walk's top, so the Identity written
   * into slot 0 is overwritten by the projection at once.
   */
  lemma {:induction false} StepRootSlot(s: State, e: Event, vp: nat, sentinel: nat)
    requires RootSlot(s, vp, sentinel)
    ensures RootSlot(Step(s, e), vp, sentinel)
  {
    if e.Examine? && Sound(s) && e.node in s.parents && e.node < |s.kinds| && Triggers(s, e.node) {
      var w := e.node;
      RewriteNodes(s, w);
      RewriteProjection(s, w);
      RewriteSlots(s, w);
      var r := Rewrite(s, w);
      var top := ScopeTop(s, w);
      if s.parents[top] == (vp, 0) {
        assert r.children[vp][0] == |r.kinds| - 1;
      } else if s.parents[w] == (vp, 0) {
        assert false;
      } else {
        assert r.children[vp][0] == s.children[vp][0];
      }
    }
  }

  lemma {:induction false} RunRootSlot(s: State, es: seq<Event>, vp: nat, sentinel: nat)
    requires RootSlot(s, vp, sentinel)
    ensures RootSlot(Run(s, es), vp, sentinel)
    decreases |es|
  {
    if es != [] {
      StepRootSlot(s, es[0], vp, sentinel);
      RunRootSlot(Step(s, es[0]), es[1..], vp, sentinel);
    }
  }

  /** A tree without a wildcard trigger comes back unchanged, and the transform returns its root. */
  lemma TransformWithoutTriggers(s: State, root: nat, sentinel: nat)
    requires Closed(s) && RawTree(s.children) && root < |s.kinds| && sentinel < |s.kinds|
    requires forall y | y in Subtree(s.children, root) :: !Triggers(s, y)
    ensures Final(s, root, sentinel).kinds == Initial(s, root, sentinel).kinds
    ensures Final(s, root, sentinel).children == Initial(s, root, sentinel).children
    ensures TransformResult(s, root, sentinel) == root
  {
    var i := Initial(s, root, sentinel);
    EventsPostOrder(s.children, root);
    forall n | n in Examined(Events(s.children, root)) && n < |i.kinds|
      ensures !Triggers(i, n)
    {
      assert !Triggers(s, n);
    }
    RunWithoutTriggers(i, Events(s.children, root));
    assert i.children[|s.kinds|][0] == sentinel;
  }
}
