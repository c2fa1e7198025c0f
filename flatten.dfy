/**
 * The link between the tree the grammar actions build (module Ast) and the
 * arena the projection transform rewrites (module ProjectionSpec).
 *
 * Python hands the transform the very objects the parser built; here the
 * parser's tree is laid out in an arena, children before their parent, each
 * node at a fresh index, with the sentinel after the last node.  Reading the
 * arena back gives the parser's tree again, the arena is a raw tree in the
 * transform's sense, and an arena node is a transform trigger exactly when
 * the node it stands for is a wildcard trigger of the AST.
 */
module Flatten {
  import Ast
  import opened ProjectionSpec

  /** The node class of an AST node, with its payload. */
  function KindOf(n: Ast.Node): (k: Kind)
    ensures !k.VirtualParent? && !k.Sentinel?
  {
    match n
    case Field(name) => Field(name)
    case SubExpression(_, _) => SubExpression
    case IndexExpression(_, _) => IndexExpression
    case ORExpression(_, _) => ORExpression
    case Pipe(_, _) => Pipe
    case MultiFieldList(_) => MultiFieldList
    case MultiFieldDict(_) => MultiFieldDict
    case KeyValPair(keyName, _) => KeyValPair(keyName)
    case FunctionExpression(name, _) => FunctionExpression(name)
    case Literal(literal) => Literal(literal)
    case WildcardValues => WildcardValues
    case WildcardIndex => WildcardIndex
    case ListElements => ListElements
    case Index(index) => Index(index)
    case FilterExpression(_) => FilterExpression
    case Comparison(op, _, _) => Comparison(op)
    case ExpressionReference(_) => ExpressionReference
    case CurrentNode => CurrentNode
    case Identity => Identity
    case Projection(_, _) => Projection
    case ValueProjection(_, _) => ValueProjection
  }

  /**
   * The AST node that arena node `y` stands for.  A node whose number of
   * children does not fit its class, and the two helper nodes of the
   * transform, read back as Identity.
   */
  function Unflatten(t: State, y: nat): Ast.Node
    requires Closed(t) && Ordered(t.children) && y < |t.kinds|
    decreases y
  {
    var cs := t.children[y];
    match t.kinds[y]
    case Field(name) => Ast.Field(name)
    case SubExpression =>
      if |cs| == 2 then Ast.SubExpression(Unflatten(t, cs[0]), Unflatten(t, cs[1])) else Ast.Identity
    case IndexExpression =>
      if |cs| == 2 then Ast.IndexExpression(Unflatten(t, cs[0]), Unflatten(t, cs[1])) else Ast.Identity
    case ORExpression =>
      if |cs| == 2 then Ast.ORExpression(Unflatten(t, cs[0]), Unflatten(t, cs[1])) else Ast.Identity
    case Pipe =>
      if |cs| == 2 then Ast.Pipe(Unflatten(t, cs[0]), Unflatten(t, cs[1])) else Ast.Identity
    case MultiFieldList => Ast.MultiFieldList(seq(|cs|, j requires 0 <= j < |cs| => Unflatten(t, cs[j])))
    case MultiFieldDict => Ast.MultiFieldDict(seq(|cs|, j requires 0 <= j < |cs| => Unflatten(t, cs[j])))
    case KeyValPair(keyName) => if |cs| == 1 then Ast.KeyValPair(keyName, Unflatten(t, cs[0])) else Ast.Identity
    case FunctionExpression(name) =>
      Ast.FunctionExpression(name, seq(|cs|, j requires 0 <= j < |cs| => Unflatten(t, cs[j])))
    case Literal(literal) => Ast.Literal(literal)
    case WildcardValues => Ast.WildcardValues
    case WildcardIndex => Ast.WildcardIndex
    case ListElements => Ast.ListElements
    case Index(index) => Ast.Index(index)
    case FilterExpression => if |cs| == 1 then Ast.FilterExpression(Unflatten(t, cs[0])) else Ast.Identity
    case Comparison(op) =>
      if |cs| == 2 then Ast.Comparison(op, Unflatten(t, cs[0]), Unflatten(t, cs[1])) else Ast.Identity
    case ExpressionReference => if |cs| == 1 then Ast.ExpressionReference(Unflatten(t, cs[0])) else Ast.Identity
    case CurrentNode => Ast.CurrentNode
    case Identity => Ast.Identity
    case Projection =>
      if |cs| == 2 then Ast.Projection(Unflatten(t, cs[0]), Unflatten(t, cs[1])) else Ast.Identity
    case ValueProjection =>
      if |cs| == 2 then Ast.ValueProjection(Unflatten(t, cs[0]), Unflatten(t, cs[1])) else Ast.Identity
    case VirtualParent => Ast.Identity
    case Sentinel => Ast.Identity
  }

  /**
   * The transform's trigger test and the AST's agree: an arena node is a
   * two-child sub/index node with a wildcard in slot 1 exactly when the
   * node it stands for is a wildcard trigger.
   */
  lemma TriggersAgree(t: State, y: nat)
    requires Closed(t) && Ordered(t.children) && y < |t.kinds|
    ensures Triggers(t, y) <==> Ast.IsWildcardTrigger(Unflatten(t, y))
  {
    var cs := t.children[y];
    if (t.kinds[y].SubExpression? || t.kinds[y].IndexExpression?) && |cs| == 2 {
      var right := Unflatten(t, cs[1]);
      assert right.WildcardIndex? <==> t.kinds[cs[1]].WildcardIndex?;
      assert right.WildcardValues? <==> t.kinds[cs[1]].WildcardValues?;
    }
  }

  /** `r` is `s` with nodes appended: every node of `s` keeps its class and its children. */
  predicate Grows(s: State, r: State)
  {
    && |s.kinds| <= |r.kinds| && |s.children| <= |r.children|
    && (forall y | 0 <= y < |s.kinds| :: r.kinds[y] == s.kinds[y])
    && (forall y | 0 <= y < |s.children| :: r.children[y] == s.children[y])
  }

  /** Appending nodes does not change what an existing node stands for. */
  lemma {:induction false} UnflattenGrows(t: State, t': State, y: nat)
    requires Closed(t) && Ordered(t.children) && Closed(t') && Ordered(t'.children)
    requires Grows(t, t') && y < |t.kinds|
    ensures Unflatten(t', y) == Unflatten(t, y)
    decreases y
  {
    var cs := t.children[y];
    assert t'.children[y] == cs && t'.kinds[y] == t.kinds[y];
    forall j | 0 <= j < |cs|
      ensures Unflatten(t', cs[j]) == Unflatten(t, cs[j])
    {
      UnflattenGrows(t, t', cs[j]);
    }
  }

  /** Every slot of a node appended after `s` names a node appended after `s`, and one allocated before its parent. */
  predicate NewSlots(s: State, r: State)
    requires |r.kinds| == |r.children|
  {
    forall y, j | |s.kinds| <= y < |r.kinds| && 0 <= j < |r.children[y]| ::
      |s.kinds| <= r.children[y][j] < y
  }

  /** No two slots of the nodes appended after `s` hold the same node. */
  predicate NewSlotsUnique(s: State, r: State)
    requires |r.kinds| == |r.children|
  {
    forall y, j, y', j' | |s.kinds| <= y < |r.kinds| && 0 <= j < |r.children[y]|
      && |s.kinds| <= y' < |r.kinds| && 0 <= j' < |r.children[y']| && r.children[y][j] == r.children[y'][j'] ::
      y == y' && j == j'
  }

  /**
   * `r` is `s` with the subtrees of `n`'s first `i` children laid out after
   * it, their roots at the increasing indices `cs`: the arena stays closed
   * and ordered, every appended slot is fresh and used once, no appended
   * slot names one of the roots, and each root reads back as its child.
   */
  predicate Laid(s: State, r: State, cs: seq<nat>, n: Ast.Node, i: nat)
    requires i <= |Ast.Children(n)|
  {
    && Closed(r) && Ordered(r.children) && Grows(s, r) && r.parents == s.parents
    && |cs| == i
    && (forall j | 0 <= j < i :: |s.kinds| <= cs[j] < |r.kinds|)
    && (forall j, j' | 0 <= j < j' < i :: cs[j] < cs[j'])
    && NewSlots(s, r) && NewSlotsUnique(s, r)
    && (forall y, k, j | |s.kinds| <= y < |r.kinds| && 0 <= k < |r.children[y]| && 0 <= j < i ::
          r.children[y][k] != cs[j])
    && (forall j | 0 <= j < i :: Unflatten(r, cs[j]) == Ast.Children(n)[j])
  }

  /**
   * `r` is `s` with `n`'s subtree laid out after it, `root` being the last
   * node appended: the arena stays closed and ordered, every appended slot
   * is fresh and used once, and `root` has `n`'s class and reads back as
   * `n`.
   */
  predicate Allocated(s: State, r: State, root: nat, n: Ast.Node)
  {
    && Closed(r) && Ordered(r.children) && Grows(s, r) && r.parents == s.parents
    && root == |r.kinds| - 1 && |s.kinds| <= root
    && r.kinds[root] == KindOf(n)
    && NewSlots(s, r) && NewSlotsUnique(s, r)
    && Unflatten(r, root) == n
  }

  /**
   * Lay out `n`'s subtree after the nodes of `s`, children first and in slot
   * order: the result is the grown arena and the index of `n`'s node, the
   * last one appended.
   */
  function Alloc(s: State, n: Ast.Node): (State, nat)
    decreases n, |Ast.Children(n)| + 1
  {
    var laid := AllocChildren(s, n, |Ast.Children(n)|);
    (State(laid.0.kinds + [KindOf(n)], laid.0.children + [laid.1], laid.0.parents), |laid.0.kinds|)
  }

  /**
   * Lay out the subtrees of `n`'s first `i` children one after the other;
   * the result is the grown arena and the indices of their nodes, in slot
   * order.
   */
  function AllocChildren(s: State, n: Ast.Node, i: nat): (State, seq<nat>)
    requires i <= |Ast.Children(n)|
    decreases n, i
  {
    if i == 0 then (s, [])
    else
      var before := AllocChildren(s, n, i - 1);
      var next := Alloc(before.0, Ast.Children(n)[i - 1]);
      (next.0, before.1 + [next.1])
  }

  /**
   * Laying out a parsed tree appends its nodes children first, each at a
   * fresh index and in exactly one slot, keeps the arena closed and
   * ordered, and its root reads back as the tree.
   */
  lemma {:induction false} AllocLaysOut(s: State, n: Ast.Node)
    requires Closed(s) && Ordered(s.children)
    ensures Allocated(s, Alloc(s, n).0, Alloc(s, n).1, n)
    decreases n, |Ast.Children(n)| + 1
  {
    var laid := AllocChildren(s, n, |Ast.Children(n)|);
    AllocChildrenLaysOut(s, n, |Ast.Children(n)|);
    AllocNode(s, laid.0, laid.1, n, Alloc(s, n).0);
  }

  /** The first `i` children are laid out one after the other, at increasing fresh indices. */
  lemma {:induction false} AllocChildrenLaysOut(s: State, n: Ast.Node, i: nat)
    requires Closed(s) && Ordered(s.children) && i <= |Ast.Children(n)|
    ensures Laid(s, AllocChildren(s, n, i).0, AllocChildren(s, n, i).1, n, i)
    decreases n, i
  {
    if i > 0 {
      var before := AllocChildren(s, n, i - 1);
      AllocChildrenLaysOut(s, n, i - 1);
      var child := Ast.Children(n)[i - 1];
      assert child in Ast.Children(n);
      var next := Alloc(before.0, child);
      AllocLaysOut(before.0, child);
      AllocNext(s, before.0, before.1, next.0, next.1, n, i);
      assert AllocChildren(s, n, i) == (next.0, before.1 + [next.1]);
    }
  }

  /** Appending the node of `n` with the children laid out in `s1`. */
  lemma AllocNode(s: State, s1: State, cs: seq<nat>, n: Ast.Node, r: State)
    requires Closed(s) && Ordered(s.children) && Laid(s, s1, cs, n, |Ast.Children(n)|)
    requires r == State(s1.kinds + [KindOf(n)], s1.children + [cs], s1.parents)
    ensures Allocated(s, r, |s1.kinds|, n)
  {
    AppendOrdered(s, s1, cs, r);
    AppendUnique(s, s1, cs, r);
    forall j | 0 <= j < |cs|
      ensures Unflatten(r, cs[j]) == Ast.Children(n)[j]
    {
      UnflattenGrows(s1, r, cs[j]);
    }
    assert r.children[|s1.kinds|] == cs;
    UnflattenNode(r, |s1.kinds|, n);
  }

  /** The appended node's slots name earlier appended nodes, so the grown arena stays closed and ordered. */
  lemma AppendOrdered(s: State, s1: State, cs: seq<nat>, r: State)
    requires Closed(s1) && Ordered(s1.children) && Grows(s, s1) && NewSlots(s, s1)
    requires forall j | 0 <= j < |cs| :: |s.kinds| <= cs[j] < |s1.kinds|
    requires |r.kinds| == |s1.kinds| + 1 && r.kinds[..|s1.kinds|] == s1.kinds && r.children == s1.children + [cs]
    ensures Closed(r) && Ordered(r.children) && Grows(s, r) && Grows(s1, r) && NewSlots(s, r)
  {
    var y0 := |s1.kinds|;
    assert r.children[y0] == cs;
    forall y | 0 <= y < y0
      ensures r.children[y] == s1.children[y] && r.kinds[y] == s1.kinds[y]
    {
      assert r.kinds[..y0][y] == r.kinds[y];
    }
  }

  /** The slots of the appended node are fresh and distinct, so no slot of the grown arena repeats. */
  lemma AppendUnique(s: State, s1: State, cs: seq<nat>, r: State)
    requires |s1.kinds| == |s1.children|
    requires forall j, j' | 0 <= j < j' < |cs| :: cs[j] < cs[j']
    requires NewSlotsUnique(s, s1)
    requires forall y, k, j | |s.kinds| <= y < |s1.kinds| && 0 <= k < |s1.children[y]| && 0 <= j < |cs| ::
      s1.children[y][k] != cs[j]
    requires |r.kinds| == |s1.kinds| + 1 && r.children == s1.children + [cs]
    ensures NewSlotsUnique(s, r)
  {
    var y0 := |s1.kinds|;
    forall y, j, y', j' | |s.kinds| <= y < |r.kinds| && 0 <= j < |r.children[y]|
      && |s.kinds| <= y' < |r.kinds| && 0 <= j' < |r.children[y']| && r.children[y][j] == r.children[y'][j']
      ensures y == y' && j == j'
    {
      if y < y0 {
        assert r.children[y] == s1.children[y];
      } else {
        assert r.children[y] == cs;
      }
      if y' < y0 {
        assert r.children[y'] == s1.children[y'];
      } else {
        assert r.children[y'] == cs;
      }
    }
  }

  /** A node whose class is `n`'s and whose slots stand for `n`'s children stands for `n`. */
  lemma UnflattenNode(t: State, y: nat, n: Ast.Node)
    requires Closed(t) && Ordered(t.children) && y < |t.kinds|
    requires t.kinds[y] == KindOf(n) && |t.children[y]| == |Ast.Children(n)|
    requires forall j | 0 <= j < |t.children[y]| :: Unflatten(t, t.children[y][j]) == Ast.Children(n)[j]
    ensures Unflatten(t, y) == n
  {
    var cs := t.children[y];
    match n
    case MultiFieldList(es) =>
      assert seq(|cs|, j requires 0 <= j < |cs| => Unflatten(t, cs[j])) == es;
    case MultiFieldDict(ps) =>
      assert seq(|cs|, j requires 0 <= j < |cs| => Unflatten(t, cs[j])) == ps;
    case FunctionExpression(_, args) =>
      assert seq(|cs|, j requires 0 <= j < |cs| => Unflatten(t, cs[j])) == args;
    case _ =>
  }

  /** Laying out child `i - 1` after the first `i - 1` children. */
  lemma AllocNext(s: State, s1: State, cs: seq<nat>, s2: State, c: nat, n: Ast.Node, i: nat)
    requires Closed(s) && Ordered(s.children) && 0 < i <= |Ast.Children(n)|
    requires Laid(s, s1, cs, n, i - 1) && Allocated(s1, s2, c, Ast.Children(n)[i - 1])
    ensures Laid(s, s2, cs + [c], n, i)
  {
    var cs' := cs + [c];
    NextSlots(s, s1, s2);
    forall y, k, j | |s.kinds| <= y < |s2.kinds| && 0 <= k < |s2.children[y]| && 0 <= j < i
      ensures s2.children[y][k] != cs'[j]
    {
      if y < |s1.kinds| {
        assert s2.children[y] == s1.children[y];
      }
    }
    forall j | 0 <= j < i
      ensures Unflatten(s2, cs'[j]) == Ast.Children(n)[j]
    {
      if j < i - 1 {
        UnflattenGrows(s1, s2, cs[j]);
      }
    }
  }

  /** Two layouts one after the other are one layout. */
  lemma NextSlots(s: State, s1: State, s2: State)
    requires Closed(s1) && Grows(s, s1) && NewSlots(s, s1) && NewSlotsUnique(s, s1)
    requires Closed(s2) && Grows(s1, s2) && NewSlots(s1, s2) && NewSlotsUnique(s1, s2)
    ensures Grows(s, s2) && NewSlots(s, s2) && NewSlotsUnique(s, s2)
  {
    var m := |s1.kinds|;
    forall y, k | |s.kinds| <= y < |s2.kinds| && 0 <= k < |s2.children[y]|
      ensures |s.kinds| <= s2.children[y][k] < y
    {
      if y < m {
        assert s2.children[y] == s1.children[y];
      }
    }
    forall y, k, y', k' | |s.kinds| <= y < |s2.kinds| && 0 <= k < |s2.children[y]|
      && |s.kinds| <= y' < |s2.kinds| && 0 <= k' < |s2.children[y']| && s2.children[y][k] == s2.children[y'][k']
      ensures y == y' && k == k'
    {
      if y < m {
        assert s2.children[y] == s1.children[y];
      }
      if y' < m {
        assert s2.children[y'] == s1.children[y'];
      }
    }
  }

  /**
   * The arena the transform is given for a parsed tree `n`: `n`'s nodes laid
   * out from an empty arena, then the sentinel.  It meets the transform's
   * requirements (a closed raw tree with the root and the sentinel in it),
   * and reading its root back gives `n`.
   */
  function Arena(n: Ast.Node): (a: (State, nat, nat))
    ensures Closed(a.0) && RawTree(a.0.children) && a.1 < |a.0.kinds| && a.2 < |a.0.kinds|
    ensures a.0.kinds[a.2] == Sentinel && a.0.parents == map[]
    ensures Unflatten(a.0, a.1) == n
  {
    var laid := Alloc(State([], [], map[]), n);
    AllocLaysOut(State([], [], map[]), n);
    var a := State(laid.0.kinds + [Sentinel], laid.0.children + [[]], map[]);
    ArenaSound(laid.0, a);
    UnflattenGrows(laid.0, a, laid.1);
    (a, laid.1, |laid.0.kinds|)
  }

  lemma ArenaSound(t: State, a: State)
    requires Closed(t) && Ordered(t.children) && NewSlotsUnique(State([], [], map[]), t)
    requires a == State(t.kinds + [Sentinel], t.children + [[]], map[])
    ensures Closed(a) && RawTree(a.children) && Grows(t, a)
  {
    var y0 := |t.kinds|;
    assert a.children[y0] == [];
    forall y | 0 <= y < y0
      ensures a.children[y] == t.children[y]
    {
    }
    assert Ordered(a.children) by {
      forall y, j | 0 <= y < |a.children| && 0 <= j < |a.children[y]|
        ensures a.children[y][j] < y
      {
        assert a.children[y] == t.children[y];
      }
    }
    assert UniqueSlots(a.children) by {
      forall y, j, y', j' | 0 <= y < |a.children| && 0 <= j < |a.children[y]| && 0 <= y' < |a.children|
        && 0 <= j' < |a.children[y']| && a.children[y][j] == a.children[y'][j']
        ensures y == y' && j == j'
      {
        assert a.children[y] == t.children[y] && a.children[y'] == t.children[y'];
      }
    }
  }

  /**
   * The arena's nodes are the parser's: every node of the laid-out tree is
   * a transform trigger exactly when the AST node it stands for is a
   * wildcard trigger, and in particular the root is one exactly when `n`
   * is.
   */
  lemma ArenaTriggers(n: Ast.Node)
    ensures var (t, root, _) := Arena(n);
      forall y | 0 <= y < |t.kinds| :: Triggers(t, y) <==> Ast.IsWildcardTrigger(Unflatten(t, y))
    ensures var (t, root, _) := Arena(n);
      Triggers(t, root) <==> Ast.IsWildcardTrigger(n)
  {
    var (t, root, _) := Arena(n);
    forall y | 0 <= y < |t.kinds|
      ensures Triggers(t, y) <==> Ast.IsWildcardTrigger(Unflatten(t, y))
    {
      TriggersAgree(t, y);
    }
  }
}
