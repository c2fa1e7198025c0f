/**
 * The projection transform of transform.py as the imperative code it is:
 * a class whose fields are the heap it rewrites (the node arena of
 * ProjectionSpec) and the parents dictionary, with one method per step.
 * Each method is proved to perform exactly the corresponding function of
 * ProjectionSpec and Traversal, where the properties of the transform are
 * proved.
 */
module Transform {
  import opened Wrappers
  import opened ProjectionSpec
  import opened Traversal

  class ProjectionTransform {
    /** The kind of every allocated node. */
    var kinds: seq<Kind>
    /** The child list of every allocated node. */
    var children: seq<seq<nat>>
    /** The recorded (parent, slot) of each node visited so far. */
    var parents: map<nat, (nat, nat)>
    /** The virtual parent of the latest transform (line 76). */
    var virtualParent: Option<nat>
    /** The module-level sentinel object (line 64). */
    const sentinel: nat

    function Now(): State
      reads this
    {
      State(kinds, children, parents)
    }

    /** An arena holding the parser's nodes and, after them, the sentinel. */
    constructor (arenaKinds: seq<Kind>, arenaChildren: seq<seq<nat>>)
      requires Closed(State(arenaKinds, arenaChildren, map[]))
      ensures kinds == arenaKinds + [Sentinel] && children == arenaChildren + [[]]
      ensures parents == map[] && virtualParent == None && sentinel == |arenaKinds|
    {
      kinds := arenaKinds + [Sentinel];
      children := arenaChildren + [[]];
      parents := map[];
      virtualParent := None;
      sentinel := |arenaKinds|;
    }

    /** Allocate a node (a constructor call of the source). */
    method AddNode(k: Kind, cs: seq<nat>) returns (id: nat)
      requires Closed(Now()) && forall j | 0 <= j < |cs| :: cs[j] < |kinds|
      modifies this
      ensures id == old(|kinds|) && Now() == NewNode(old(Now()), k, cs)
      ensures virtualParent == old(virtualParent)
    {
      id := |kinds|;
      kinds := kinds + [k];
      children := children + [cs];
    }

    /** An assignment `y.children[j] = v` (lines 108 and 131). */
    method SetChild(y: nat, j: nat, v: nat)
      requires Closed(Now()) && y < |kinds| && j < |children[y]| && v < |kinds|
      modifies this
      ensures Now() == SetSlot(old(Now()), y, j, v) && virtualParent == old(virtualParent)
    {
      var row: seq<nat> := children[y][j := v];
      children := children[y := row];
    }

    /** Lines 111-120: climb from `node` until the recorded parent stops the projection. */
    method FindScope(node: nat) returns (current: nat)
      requires Sound(Now()) && node in parents
      ensures current == ScopeTop(Now(), node)
      ensures current in parents && IsBoundary(kinds[parents[current].0])
    {
      current := node;
      while !IsBoundary(kinds[parents[current].0])
        invariant current in parents && current < |kinds|
        invariant ScopeTop(Now(), current) == ScopeTop(Now(), node)
        decreases |kinds| - current
      {
        current := parents[current].0;
      }
    }

    /** Lines 104-108: a trigger in slot 0 of its parent leaves a fresh Identity there. */
    method DetachNode(node: nat)
      requires Sound(Now()) && node in parents
      modifies this
      ensures Now() == Detach(old(Now()), node) && virtualParent == old(virtualParent)
    {
      var parent := parents[node].0;
      if parents[node].1 == 0 {
        NewNodeSound(Now(), Identity, []);
        var identity := AddNode(Identity, []);
        SetChild(parent, 0, identity);
      }
    }

    /**
     * Lines 121-132: build the projection of `left` and the continuation, write
     * it into the slot `current` was recorded in, and re-record the continuation.
     */
    method SpliceProjection(node: nat, current: nat, projectionKind: Kind, left: nat)
      requires Closed(Now()) && current in parents && current < |kinds| && left < |kinds|
      requires parents[current].0 < |kinds| && parents[current].1 < |children[parents[current].0]|
      modifies this
      ensures Now() == Splice(old(Now()), node, current, projectionKind, left)
      ensures virtualParent == old(virtualParent)
    {
      var right;
      if current == node {
        right := AddNode(Identity, []);
      } else {
        right := current;
      }
      var projection := AddNode(projectionKind, [left, right]);
      var index := parents[current].1;
      SetChild(parents[current].0, index, projection);
      parents := parents[right := (projection, 1)];
    }

    /** Lines 92-132: rewrite `node` if it is a wildcard trigger, and leave it alone otherwise. */
    method ExamineNode(node: nat)
      requires Sound(Now()) && node in parents && node < |kinds|
      modifies this
      ensures Now() == Step(old(Now()), Examine(node)) && virtualParent == old(virtualParent)
    {
      if && (kinds[node].SubExpression? || kinds[node].IndexExpression?)
         && |children[node]| == 2
         && (kinds[children[node][1]].WildcardIndex? || kinds[children[node][1]].WildcardValues?)
      {
        ghost var s := Now();
        var projectionKind := if kinds[children[node][1]].WildcardIndex? then Projection else ValueProjection;
        var left := children[node][0];
        DetachNode(node);
        var current := FindScope(node);
        SpliceSound(Now(), node, current, projectionKind, left);
        SpliceProjection(node, current, projectionKind, left);
        assert Now() == Rewrite(s, node);
      }
    }

    /** Lines 89-91: one iteration of the loop over the slots of `node`. */
    method VisitChild(node: nat, i: nat, ghost orig: seq<seq<nat>>, ghost stack: map<nat, nat>, ghost s0: State)
      requires Pre(s0, orig, stack, node) && i < |orig[node]|
      requires Now() == Run(s0, ChildEvents(orig, node, i))
      modifies this
      ensures Now() == Run(s0, ChildEvents(orig, node, i + 1)) && virtualParent == old(virtualParent)
      decreases node, 0
    {
      ghost var m := Now();
      ChildEventsKeep(s0, orig, stack, node, i);
      RecordChildPre(s0, m, orig, stack, node, i);
      var child := children[node][i];
      parents := parents[child := (node, i)];
      assert Now() == Step(m, Record(orig[node][i], node, i));
      Visit(child, orig, stack[node := i]);
      RunChildEvents(s0, orig, node, i);
    }

    /** Lines 88-91: record and transform every child in slot order, then examine `node`. */
    method Visit(node: nat, ghost orig: seq<seq<nat>>, ghost stack: map<nat, nat>)
      requires Pre(Now(), orig, stack, node)
      modifies this
      ensures Now() == Run(old(Now()), Events(orig, node)) && virtualParent == old(virtualParent)
      decreases node, 1
    {
      ghost var s0 := Now();
      var i := 0;
      while i < |children[node]|
        invariant i <= |orig[node]|
        invariant Now() == Run(s0, ChildEvents(orig, node, i))
        invariant node < |children| && |children[node]| == |orig[node]|
        invariant virtualParent == old(virtualParent)
        decreases |orig[node]| - i
      {
        VisitChild(node, i, orig, stack, s0);
        i := i + 1;
        ChildEventsShape(s0, orig, stack, node, i);
      }
      ChildEventsShape(s0, orig, stack, node, i);
      ghost var m := Now();
      assert m == Run(s0, ChildEvents(orig, node, |orig[node]|));
      RunEvents(s0, orig, node);
      ExamineNode(node);
      assert Now() == Step(m, Examine(node));
    }

    /** Lines 74-86: transform the tree at `root` in place and return its new root. */
    method Transform(root: nat) returns (result: nat)
      requires Closed(Now()) && RawTree(children) && root < |kinds| && sentinel < |kinds|
      modifies this
      ensures Now() == Final(old(Now()), root, sentinel)
      ensures result == TransformResult(old(Now()), root, sentinel)
      ensures virtualParent == Some(old(|kinds|))
    {
      ghost var s0 := Now();
      parents := map[];
      var vp := AddNode(VirtualParent, [sentinel]);
      virtualParent := Some(vp);
      parents := map[root := (vp, 0)];
      assert Now() == Initial(s0, root, sentinel);
      InitialPre(s0, root, sentinel);
      Visit(root, s0.children, map[]);
      TransformKeeps(s0, root, sentinel);
      if children[vp][0] != sentinel {
        result := children[vp][0];
      } else {
        result := root;
      }
    }
  }
}
